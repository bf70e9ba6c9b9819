/** The root view model: turns launch outcomes into what the root view shows. */
module Presentation {
  import opened Wrappers
  import opened Urls
  import Launch

  /** The four states the root view switches over. */
  datatype LaunchState = Loading | Stub | Web(url: Url) | Failed

  /** The page opened in the web view instead of a stub screen. */
  const FallbackURL: Url := Url("https://emeraldchargex.world/assets", Some("https"))

  /** The state `mapOutcome` returns: never the stub or failed screen; a stub outcome
      opens the fallback page, and the debug switch `forceStub` opens it for every
      outcome. */
  function MappedState(outcome: Launch.LaunchOutcome, forceStub: bool): (r: LaunchState)
    ensures !r.Stub? && !r.Failed?
    ensures forceStub ==> r == Web(FallbackURL)
    ensures r == Loading <==> !forceStub && outcome == Launch.Loading
    ensures !forceStub && outcome == Launch.ShowStub ==> r == Web(FallbackURL)
    ensures !forceStub && outcome.ShowWeb? ==> r == Web(outcome.url)
  {
    if forceStub then Web(FallbackURL)
    else
      match outcome
      case Loading => Loading
      case ShowStub => Web(FallbackURL)
      case ShowWeb(url) => Web(url)
  }

  /** The fallback-mode flag after `mapOutcome`, given its value before: set for the
      fallback page, cleared for a real destination, kept while loading. */
  function FallbackMode(outcome: Launch.LaunchOutcome, forceStub: bool, before: bool): (f: bool)
    ensures forceStub ==> f
    ensures !forceStub && outcome == Launch.Loading ==> f == before
    ensures !forceStub && outcome == Launch.ShowStub ==> f
    ensures !forceStub && outcome.ShowWeb? ==> !f
  {
    if forceStub then true
    else
      match outcome
      case Loading => before
      case ShowStub => true
      case ShowWeb(_) => false
  }

  /** Whenever the flag changes, the page shown is consistent with it: the flag is set
      exactly when the fallback page is shown for a stub (or forced) outcome. */
  lemma FallbackFlagMatchesState(outcome: Launch.LaunchOutcome, forceStub: bool, before: bool)
    requires outcome != Launch.Loading || forceStub
    ensures FallbackMode(outcome, forceStub, before) <==> forceStub || outcome == Launch.ShowStub
    ensures FallbackMode(outcome, forceStub, before) ==> MappedState(outcome, forceStub) == Web(FallbackURL)
  {
  }

  /** After a resolution the root view is never left loading: it shows a web page. */
  lemma ResolvedStateIsWeb(s: Launch.Store, env: Launch.Environment, forceStub: bool)
    ensures MappedState(Launch.Resolve(s, env).outcome, forceStub).Web?
  {
  }

  class RootViewModel {
    var state: LaunchState
    var isFallbackMode: bool
    var errorMessage: Option<string>
    const launchService: Launch.LaunchService
    const forceStub: bool

    /** The initial state is the mapped start-up outcome, read from the store alone. */
    constructor(launchService: Launch.LaunchService, forceStub: bool)
      ensures this.launchService == launchService && this.forceStub == forceStub
      ensures state == MappedState(Launch.InitialOutcome(launchService.store), forceStub)
      ensures isFallbackMode == FallbackMode(Launch.InitialOutcome(launchService.store), forceStub, false)
      ensures errorMessage == None
    {
      this.launchService := launchService;
      this.forceStub := forceStub;
      state := Loading;
      isFallbackMode := false;
      errorMessage := None;
      new;
      var initial := MapOutcome(Launch.InitialOutcome(launchService.store));
      state := initial;
    }

    /** `mapOutcome`: returns the state for an outcome and, as a side effect, updates the
        fallback-mode flag. */
    method MapOutcome(outcome: Launch.LaunchOutcome) returns (s: LaunchState)
      modifies this`isFallbackMode
      ensures s == MappedState(outcome, forceStub)
      ensures isFallbackMode == FallbackMode(outcome, forceStub, old(isFallbackMode))
    {
      if forceStub {
        isFallbackMode := true;
        return Web(FallbackURL);
      }
      match outcome {
        case Loading =>
          return Loading;
        case ShowStub =>
          isFallbackMode := true;
          return Web(FallbackURL);
        case ShowWeb(url) =>
          isFallbackMode := false;
          return Web(url);
      }
    }

    /** `executeResolve`: resolves through the launch service and shows the mapped
        outcome. */
    method ExecuteResolve(env: Launch.Environment)
      modifies this`state, this`isFallbackMode, launchService
      ensures var r := Launch.Resolve(old(launchService.store), env);
        && launchService.store == r.store
        && state == MappedState(r.outcome, forceStub)
        && isFallbackMode == FallbackMode(r.outcome, forceStub, old(isFallbackMode))
    {
      var outcome, _ := launchService.ResolveOutcome(env);
      var mapped := MapOutcome(outcome);
      state := mapped;
    }

    /** `start`: the task it spawns runs `executeResolve`; here it runs to completion
        before anything else happens. */
    method Start(env: Launch.Environment)
      modifies this`state, this`isFallbackMode, launchService
      ensures var r := Launch.Resolve(old(launchService.store), env);
        && launchService.store == r.store
        && state == MappedState(r.outcome, forceStub)
        && isFallbackMode == FallbackMode(r.outcome, forceStub, old(isFallbackMode))
    {
      ExecuteResolve(env);
    }

    /** `retry`: clears the error message and shows loading, then starts a resolution;
        the state it ends in is the mapped outcome of that resolution. */
    method Retry(env: Launch.Environment)
      modifies this, launchService
      ensures errorMessage == None
      ensures var r := Launch.Resolve(old(launchService.store), env);
        && launchService.store == r.store
        && state == MappedState(r.outcome, forceStub)
        && isFallbackMode == FallbackMode(r.outcome, forceStub, old(isFallbackMode))
    {
      errorMessage := None;
      state := Loading;
      Start(env);
    }
  }
}
