/** The tracking payload: the device and attribution record sent to the backend, and
    the rule that combines what the platform and the SDKs report into it. */
module Tracking {
  import opened Wrappers
  import opened Text

  /** The record the backend receives. */
  datatype TrackingPayload = TrackingPayload(
    appsFlyerID: string,
    appInstanceID: string,
    uuid: string,
    osVersion: string,
    deviceModel: string,
    bundleID: string,
    fcmToken: string,
    attToken: string)

  /** The device identity; without it there is no payload. */
  datatype DeviceContext = DeviceContext(uuid: string, osVersion: string, deviceModel: string, bundleID: string)

  /** What the platform reports: whether UIKit is available, a freshly generated UUID
      string, the OS version, the machine name from `uname`, and the bundle identifier. */
  datatype Platform = Platform(
    canImportUIKit: bool,
    uuidString: string,
    systemVersion: string,
    machine: string,
    bundleIdentifier: Option<string>)

  /** What each source answered in one collection. A value that came from `try?` is None
      when the call threw. The three push-token sources are read only on a device;
      `savedToken` is the `PushTokenStore.CurrentToken()` read at collection time. */
  datatype Sources = Sources(
    appsFlyerUID: string,
    installationID: Option<string>,
    attributionToken: Option<string>,
    platform: Platform,
    isSimulator: bool,
    simulatorUUID: string,
    savedToken: Option<string>,
    fetchedToken: Option<string>,
    instantToken: Option<string>)

  const SimulatorTokenPrefix: string := "simulator-token-"

  /** The device context: absent without UIKit or without a bundle identifier; otherwise
      the lower-cased fresh UUID and the platform's values, unchanged. */
  function CollectDeviceContext(p: Platform): (r: Option<DeviceContext>)
    ensures r.None? <==> !p.canImportUIKit || p.bundleIdentifier.None?
    ensures r.Some? ==> |r.value.uuid| == |p.uuidString|
    ensures r.Some? ==> forall i :: 0 <= i < |r.value.uuid| ==> !IsAsciiUpper(r.value.uuid[i])
    ensures r.Some? ==> r.value.uuid == Lowercase(p.uuidString)
    ensures r.Some? ==> r.value.osVersion == p.systemVersion && r.value.deviceModel == p.machine
    ensures r.Some? ==> Some(r.value.bundleID) == p.bundleIdentifier
  {
    if !p.canImportUIKit then None
    else
      match p.bundleIdentifier
      case None => None
      case Some(bundleID) => Some(DeviceContext(Lowercase(p.uuidString), p.systemVersion, p.machine, bundleID))
  }

  /** The first candidate that is present, in order; an independent statement of a chain
      of `??` operators. */
  function FirstPresent(candidates: seq<Option<string>>): (r: Option<string>)
    ensures r.None? <==> forall i :: 0 <= i < |candidates| ==> candidates[i].None?
    ensures r.Some? ==> exists i :: 0 <= i < |candidates| && candidates[i] == r
                                    && forall j :: 0 <= j < i ==> candidates[j].None?
  {
    if candidates == [] then None
    else if candidates[0].Some? then candidates[0]
    else FirstPresent(candidates[1..])
  }

  /** The first present of three candidates, unfolded. */
  lemma {:induction false} FirstPresentOfThree(a: Option<string>, b: Option<string>, c: Option<string>)
    ensures FirstPresent([a, b, c]) == if a.Some? then a else if b.Some? then b else c
  {
    var cs := [a, b, c];
    if a.None? {
      assert cs[1..] == [b, c];
      assert FirstPresent(cs) == FirstPresent([b, c]);
      if b.None? {
        var last := [c];
        assert [b, c][1..] == last;
        assert FirstPresent(cs) == FirstPresent(last);
        assert last[1..] == [];
        assert FirstPresent(last) == c;
      }
    }
  }

  /** The push token: on the simulator a fixed prefix and a fresh UUID; on a device the
      first present source in the order saved, fetched, instant, and the empty string
      when none is present. */
  function PushToken(src: Sources): (t: string)
    ensures src.isSimulator ==>
              |t| == |SimulatorTokenPrefix| + |src.simulatorUUID|
              && t[..|SimulatorTokenPrefix|] == SimulatorTokenPrefix
              && t[|SimulatorTokenPrefix|..] == src.simulatorUUID
    ensures !src.isSimulator ==>
              t == FirstPresent([src.savedToken, src.fetchedToken, src.instantToken]).GetOr("")
  {
    if src.isSimulator then SimulatorTokenPrefix + src.simulatorUUID
    else
      FirstPresentOfThree(src.savedToken, src.fetchedToken, src.instantToken);
      match src.savedToken
      case Some(saved) => saved
      case None =>
        match src.fetchedToken
        case Some(fetched) => fetched
        case None => src.instantToken.GetOr("")
  }

  /** On a device a present saved token wins, even when it is empty; a fetched token is
      used only when none is saved; the instant token only when neither of the others is
      present. */
  lemma DeviceTokenPriority(src: Sources)
    requires !src.isSimulator
    ensures src.savedToken.Some? ==> PushToken(src) == src.savedToken.value
    ensures src.savedToken.None? && src.fetchedToken.Some? ==> PushToken(src) == src.fetchedToken.value
    ensures src.savedToken.None? && src.fetchedToken.None? ==> PushToken(src) == src.instantToken.GetOr("")
  {
  }

  /** Joins the collected values into a payload. Only a missing device context is fatal;
      a failed installation-ID or attribution-token fetch degrades to the empty string. */
  function CollectPayload(src: Sources): (r: Option<TrackingPayload>)
    ensures r.None? <==> CollectDeviceContext(src.platform).None?
    ensures r.Some? ==> r.value.appsFlyerID == src.appsFlyerUID
    ensures r.Some? && src.installationID.None? ==> r.value.appInstanceID == ""
    ensures r.Some? && src.installationID.Some? ==> r.value.appInstanceID == src.installationID.value
    ensures r.Some? && src.attributionToken.None? ==> r.value.attToken == ""
    ensures r.Some? && src.attributionToken.Some? ==> r.value.attToken == src.attributionToken.value
    ensures r.Some? ==> r.value.fcmToken == PushToken(src)
    ensures r.Some? ==> var ctx := CollectDeviceContext(src.platform).value;
      r.value.uuid == ctx.uuid && r.value.osVersion == ctx.osVersion
      && r.value.deviceModel == ctx.deviceModel && r.value.bundleID == ctx.bundleID
  {
    match CollectDeviceContext(src.platform)
    case None => None
    case Some(context) =>
      var firebaseID := src.installationID.GetOr("");
      var att := src.attributionToken.GetOr("");
      Some(TrackingPayload(
        src.appsFlyerUID, firebaseID, context.uuid, context.osVersion,
        context.deviceModel, context.bundleID, PushToken(src), att))
  }

  /** The register the messaging delegate writes the latest push token into. */
  class PushTokenStore {
    var storedToken: Option<string>

    constructor()
      ensures storedToken == None
    {
      storedToken := None;
    }

    /** The last token written. */
    method CurrentToken() returns (t: Option<string>)
      ensures t == storedToken
    {
      t := storedToken;
    }

    /** Replaces the stored token; a later read returns exactly this value. */
    method Update(token: Option<string>)
      modifies this
      ensures storedToken == token
    {
      storedToken := token;
    }

    /** The messaging delegate callback: a new registration token is stored. */
    method DidReceiveRegistrationToken(fcmToken: Option<string>)
      modifies this
      ensures storedToken == fcmToken
    {
      Update(fcmToken);
    }
  }
}
