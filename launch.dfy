/** The launch orchestrator: decides between the stub, a cached destination and a
    freshly resolved one, and is the only writer of the persisted decision. */
module Launch {
  import opened Wrappers
  import opened Urls
  import opened RemoteConfig
  import opened Backend
  import opened Tracking
  import opened LinkAssembly

  /** What the orchestrator tells the presentation layer. */
  datatype LaunchOutcome = Loading | ShowStub | ShowWeb(url: Url)

  /** The persisted decision: the stub flag and the cached destination. */
  datatype Store = Store(shouldShowStub: bool, cachedURL: Option<Url>)

  /** Why a resolution attempt failed. Every failure ends the same way (stub flag set,
      ShowStub returned); the reason is kept for the model's own statements. */
  datatype LaunchFailure =
    | PayloadUncollectible
    | RemoteConfigUnavailable(configError: RemoteConfigError)
    | AssemblyFailed
    | BackendUnavailable(backendError: BackendError)
    | BackendEmptyResult

  /** The collaborator calls a resolution makes, in order. */
  datatype Call =
    | CollectPayloadCall
    | FetchLinkPartsCall
    | RequestFinalLinkCall(url: Url)
    | PersistCookiesCall

  /** What the collaborators answer during one resolution: the sources the tracking
      service reads, the remote-configuration result, the query-string serialiser and
      URL parser used by link assembly, and the backend's answer for each request URL. */
  datatype Environment = Environment(
    sources: Sources,
    linkParts: Result<RemoteLinkParts, RemoteConfigError>,
    toQueryString: TrackingPayload -> string,
    parseURL: string -> Option<Url>,
    requestFinalLink: Url -> Result<BackendLinkResponse, BackendError>)

  /** The outcome readable from the store alone, without I/O: the stub flag wins over a
      cached destination, and with neither the UI keeps loading. */
  function InitialOutcome(s: Store): (r: LaunchOutcome)
    ensures r == ShowStub <==> s.shouldShowStub
    ensures r.ShowWeb? <==> !s.shouldShowStub && s.cachedURL.Some?
    ensures r.ShowWeb? ==> s.cachedURL == Some(r.url)
    ensures r == Loading <==> !s.shouldShowStub && s.cachedURL.None?
  {
    if s.shouldShowStub then ShowStub
    else if s.cachedURL.Some? then ShowWeb(s.cachedURL.value)
    else Loading
  }

  /** The result of the network part of a resolution, and the calls it made. */
  datatype Attempt = Attempt(result: Result<Url, LaunchFailure>, calls: seq<Call>)

  /** The backend request URL for an environment, when payload, remote configuration
      and assembly all succeed. */
  function RequestURL(env: Environment): Option<Url> {
    match CollectPayload(env.sources)
    case None => None
    case Some(payload) =>
      match env.linkParts
      case Failure(_) => None
      case Success(parts) => BuildBackendURL(parts, payload, env.toQueryString, env.parseURL)
  }

  /** Collect the payload, fetch the link parts, assemble the request URL, ask the
      backend: the first step that fails names the failure. */
  function Pipeline(env: Environment): (a: Attempt)
    ensures a.result == Failure(PayloadUncollectible) <==> CollectPayload(env.sources).None?
    ensures a.result.Failure? && a.result.error.RemoteConfigUnavailable? <==>
              CollectPayload(env.sources).Some? && env.linkParts.Failure?
    ensures FetchLinkPartsCall in a.calls <==> CollectPayload(env.sources).Some?
    ensures forall u :: RequestFinalLinkCall(u) in a.calls <==> RequestURL(env) == Some(u)
    ensures a.result.Success? <==>
              RequestURL(env).Some? && env.requestFinalLink(RequestURL(env).value).Success?
              && env.requestFinalLink(RequestURL(env).value).value.finalURL.Some?
    ensures a.result.Success? ==>
              env.requestFinalLink(RequestURL(env).value).value.finalURL == Some(a.result.value)
    ensures PersistCookiesCall !in a.calls
  {
    match CollectPayload(env.sources)
    case None => Attempt(Failure(PayloadUncollectible), [CollectPayloadCall])
    case Some(payload) =>
      var fetched := [CollectPayloadCall, FetchLinkPartsCall];
      match env.linkParts
      case Failure(e) => Attempt(Failure(RemoteConfigUnavailable(e)), fetched)
      case Success(parts) =>
        match BuildBackendURL(parts, payload, env.toQueryString, env.parseURL)
        case None => Attempt(Failure(AssemblyFailed), fetched)
        case Some(url) =>
          var requested := fetched + [RequestFinalLinkCall(url)];
          match env.requestFinalLink(url)
          case Failure(e) => Attempt(Failure(BackendUnavailable(e)), requested)
          case Success(response) =>
            match response.finalURL
            case None => Attempt(Failure(BackendEmptyResult), requested)
            case Some(finalURL) => Attempt(Success(finalURL), requested)
  }

  /** The outcome of one resolution, the store it leaves, and the calls it made. */
  datatype Resolution = Resolution(outcome: LaunchOutcome, store: Store, calls: seq<Call>)

  /** One resolution. Two short-circuits read the store and call nothing; otherwise every
      failure sets the stub flag and keeps the cached destination, and success caches the
      final URL, clears the flag and persists cookies once. */
  function Resolve(s: Store, env: Environment): (r: Resolution)
    ensures r.outcome != Loading
    ensures InitialOutcome(r.store) == r.outcome
    ensures s.shouldShowStub ==> r == Resolution(ShowStub, s, [])
    ensures !s.shouldShowStub && s.cachedURL.Some? ==> r == Resolution(ShowWeb(s.cachedURL.value), s, [])
    ensures r.calls != [] <==> !s.shouldShowStub && s.cachedURL.None?
    ensures r.outcome == ShowStub ==> r.store.shouldShowStub && r.store.cachedURL == s.cachedURL
    ensures r.outcome.ShowWeb? ==> r.store == Store(false, Some(r.outcome.url))
    ensures PersistCookiesCall in r.calls <==> r.calls != [] && r.outcome.ShowWeb?
    ensures PersistCookiesCall in r.calls ==>
              r.calls[|r.calls| - 1] == PersistCookiesCall && PersistCookiesCall !in r.calls[..|r.calls| - 1]
  {
    if s.shouldShowStub then Resolution(ShowStub, s, [])
    else if s.cachedURL.Some? then Resolution(ShowWeb(s.cachedURL.value), s, [])
    else
      var a := Pipeline(env);
      match a.result
      case Failure(_) => Resolution(ShowStub, s.(shouldShowStub := true), a.calls)
      case Success(finalURL) =>
        Resolution(ShowWeb(finalURL), s.(cachedURL := Some(finalURL), shouldShowStub := false),
                   a.calls + [PersistCookiesCall])
  }

  /** Cookies are persisted exactly once by a fresh successful resolution, and never
      otherwise. */
  lemma {:induction false} CookiesPersistedOnce(s: Store, env: Environment)
    ensures multiset(Resolve(s, env).calls)[PersistCookiesCall] ==
              if Resolve(s, env).calls != [] && Resolve(s, env).outcome.ShowWeb? then 1 else 0
  {
    var calls := Resolve(s, env).calls;
    if PersistCookiesCall in calls {
      var n := |calls| - 1;
      assert calls == calls[..n] + [PersistCookiesCall];
      assert multiset(calls[..n])[PersistCookiesCall] == 0;
    } else {
      assert multiset(calls)[PersistCookiesCall] == 0;
    }
  }

  /** Each of the five failure points of a fresh resolution ends in ShowStub with the
      stub flag set and the cached destination unchanged. */
  lemma FailureCollapse(s: Store, env: Environment)
    requires !s.shouldShowStub && s.cachedURL.None?
    requires Pipeline(env).result.Failure?
    ensures Resolve(s, env) == Resolution(ShowStub, Store(true, s.cachedURL), Pipeline(env).calls)
  {
  }

  /** A fresh resolution without a payload stops after the tracking call and shows the
      stub, keeping the cached destination. */
  lemma PayloadMissing(s: Store, env: Environment)
    requires !s.shouldShowStub && s.cachedURL.None?
    requires CollectPayload(env.sources).None?
    ensures Resolve(s, env) == Resolution(ShowStub, Store(true, s.cachedURL), [CollectPayloadCall])
  {
  }

  /** A fresh resolution whose remote configuration fails shows the stub after the tracking
      and configuration calls. */
  lemma ConfigUnavailable(s: Store, env: Environment)
    requires !s.shouldShowStub && s.cachedURL.None?
    requires CollectPayload(env.sources).Some? && env.linkParts.Failure?
    ensures Resolve(s, env) ==
              Resolution(ShowStub, Store(true, s.cachedURL), [CollectPayloadCall, FetchLinkPartsCall])
  {
  }

  /** A fresh resolution whose request URL cannot be assembled shows the stub without
      asking the backend. */
  lemma AssemblyUnavailable(s: Store, env: Environment)
    requires !s.shouldShowStub && s.cachedURL.None?
    requires CollectPayload(env.sources).Some? && env.linkParts.Success? && RequestURL(env).None?
    ensures Resolve(s, env) ==
              Resolution(ShowStub, Store(true, s.cachedURL), [CollectPayloadCall, FetchLinkPartsCall])
  {
  }

  /** A fresh resolution whose backend fails or answers without a final URL shows the stub
      after asking the backend once, for the assembled URL. */
  lemma BackendWithoutDestination(s: Store, env: Environment, url: Url)
    requires !s.shouldShowStub && s.cachedURL.None?
    requires RequestURL(env) == Some(url)
    requires env.requestFinalLink(url).Failure? || env.requestFinalLink(url).value.finalURL.None?
    ensures Resolve(s, env) ==
              Resolution(ShowStub, Store(true, s.cachedURL),
                         [CollectPayloadCall, FetchLinkPartsCall, RequestFinalLinkCall(url)])
  {
  }

  /** A fresh resolution whose backend answers the assembled request with a final URL
      shows that URL, caches it, clears the stub flag and persists cookies as its last
      call. */
  lemma FreshSuccess(s: Store, env: Environment, url: Url, finalURL: Url)
    requires !s.shouldShowStub && s.cachedURL.None?
    requires RequestURL(env) == Some(url)
    requires env.requestFinalLink(url).Success? && env.requestFinalLink(url).value.finalURL == Some(finalURL)
    ensures Resolve(s, env) ==
              Resolution(ShowWeb(finalURL), Store(false, Some(finalURL)),
                         [CollectPayloadCall, FetchLinkPartsCall, RequestFinalLinkCall(url), PersistCookiesCall])
  {
  }

  /** A store is decided once it holds the stub flag or a cached destination. */
  predicate Decided(s: Store) {
    s.shouldShowStub || s.cachedURL.Some?
  }

  /** The outcomes and the final store of resolutions run one after another. */
  datatype Run = Run(outcomes: seq<LaunchOutcome>, store: Store)

  function RunAll(s: Store, envs: seq<Environment>): (r: Run)
    ensures |r.outcomes| == |envs|
    decreases |envs|
  {
    if envs == [] then Run([], s)
    else
      var first := Resolve(s, envs[0]);
      var rest := RunAll(first.store, envs[1..]);
      Run([first.outcome] + rest.outcomes, rest.store)
  }

  /** A decided store is final: later resolutions change nothing and all repeat the
      outcome it shows at start-up. */
  lemma {:induction false} DecidedIsFinal(s: Store, envs: seq<Environment>)
    requires Decided(s)
    ensures RunAll(s, envs).store == s
    ensures forall i :: 0 <= i < |envs| ==> RunAll(s, envs).outcomes[i] == InitialOutcome(s)
    decreases |envs|
  {
    if envs != [] {
      DecidedIsFinal(s, envs[1..]);
    }
  }

  /** Every resolution decides the store. */
  lemma ResolveDecides(s: Store, env: Environment)
    ensures Decided(Resolve(s, env).store)
  {
  }

  /** Indexing past the head of a sequence indexes its tail. */
  lemma ConsIndex(x: LaunchOutcome, rest: seq<LaunchOutcome>)
    ensures ([x] + rest)[0] == x
    ensures forall j :: 1 <= j <= |rest| ==> ([x] + rest)[j] == rest[j - 1]
  {
  }

  /** The stub flag is sticky: once a resolution has returned ShowStub, every later
      resolution returns ShowStub too, whatever the collaborators answer. */
  lemma {:induction false} StubIsSticky(s: Store, envs: seq<Environment>, k: nat)
    requires k < |envs|
    requires RunAll(s, envs).outcomes[k] == ShowStub
    ensures forall j :: k <= j < |envs| ==> RunAll(s, envs).outcomes[j] == ShowStub
    decreases k
  {
    var first := Resolve(s, envs[0]);
    var rest := RunAll(first.store, envs[1..]).outcomes;
    assert RunAll(s, envs).outcomes == [first.outcome] + rest;
    ConsIndex(first.outcome, rest);
    if k == 0 {
      assert first.store.shouldShowStub;
      DecidedIsFinal(first.store, envs[1..]);
    } else {
      StubIsSticky(first.store, envs[1..], k - 1);
    }
  }

  /** The launch service, holding the persisted store. */
  class LaunchService {
    var store: Store

    constructor(persisted: Store)
      ensures store == persisted
    {
      store := persisted;
    }

    /** `resolveOutcome`: the guards and exits of the pipeline, each exit writing the
        store in place. Returns the outcome and the collaborator calls made. */
    method ResolveOutcome(env: Environment) returns (outcome: LaunchOutcome, calls: seq<Call>)
      modifies this
      ensures Resolution(outcome, store, calls) == Resolve(old(store), env)
    {
      if store.shouldShowStub {
        return ShowStub, [];
      }
      if store.cachedURL.Some? {
        return ShowWeb(store.cachedURL.value), [];
      }
      calls := [CollectPayloadCall];
      var payload := CollectPayload(env.sources);
      if payload.None? {
        PayloadMissing(store, env);
        store := store.(shouldShowStub := true);
        return ShowStub, calls;
      }
      calls := [CollectPayloadCall, FetchLinkPartsCall];
      if env.linkParts.Failure? {
        // the remote-configuration error is caught
        ConfigUnavailable(store, env);
        store := store.(shouldShowStub := true);
        return ShowStub, calls;
      }
      var linkParts := env.linkParts.value;
      var backendURL := BuildBackendURL(linkParts, payload.value, env.toQueryString, env.parseURL);
      if backendURL.None? {
        AssemblyUnavailable(store, env);
        store := store.(shouldShowStub := true);
        return ShowStub, calls;
      }
      calls := [CollectPayloadCall, FetchLinkPartsCall, RequestFinalLinkCall(backendURL.value)];
      var response := env.requestFinalLink(backendURL.value);
      if response.Failure? {
        // the backend error is caught
        BackendWithoutDestination(store, env, backendURL.value);
        store := store.(shouldShowStub := true);
        return ShowStub, calls;
      }
      if response.value.finalURL.None? {
        BackendWithoutDestination(store, env, backendURL.value);
        store := store.(shouldShowStub := true);
        return ShowStub, calls;
      }
      var finalURL := response.value.finalURL.value;
      FreshSuccess(store, env, backendURL.value, finalURL);
      store := store.(cachedURL := Some(finalURL));
      store := store.(shouldShowStub := false);
      calls := calls + [PersistCookiesCall];
      return ShowWeb(finalURL), calls;
    }
  }
}
