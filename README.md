# ZMTemplate launch decision, in Dafny

ZMTemplate is an iOS app whose first screen is decided at launch. The decision is either a
stub (shown as a fallback web page) or a web destination that a backend hands out. This
project models that launch-decision pipeline and the small rules around it:

- **Launch orchestrator** (`launch.dfy`, module `Launch`).
  - A persisted store `{shouldShowStub, cachedURL}`.
  - `InitialOutcome`, read from the store alone.
  - One resolution, as the pure function `Resolve` and the imperative `LaunchService.ResolveOutcome` that writes the store in place.
  - `RunAll`, for resolutions run one after another: the stub flag is sticky and a decided store is final.
  - The collaborators are the tracking service, remote configuration, link assembly, the backend and cookie persistence. They enter as an `Environment` of answers. Each resolution also returns the list of collaborator calls it made, in order.
- **Link assembly** (`link_assembly.dfy`). The backend URL is `"https://" + host + path + "?data=" + base64(utf8(query))`.
  - `base64.dfy` holds padded standard base64 (section 4 of RFC 4648).
  - `utf8.dfy` holds UTF-8 (RFC 3629).
  - Both come with a strict decoder and both round trips proved, so the `data` value decodes back to exactly the query string, and only one text carries a given query.
- **Payload combination** (`tracking.dfy`).
  - A missing device context drops the payload.
  - A failed fetch becomes `""`.
  - The push token follows the `??` priority chain.
  - `PushTokenStore` is a one-cell register.
- **Outcome to view state** (`presentation.dfy`). `RootViewModel` maps launch outcomes to the root view's state and keeps `isFallbackMode` in step.
- **Web layer** (`web_views.dfy`). Web views are records of the state they report and the commands sent to them. The module covers:
  - the child-before-host back/forward rule of `WebViewCoordinator`;
  - the scheme allow-list of the navigation delegate;
  - `createWebViewWith`;
  - the picker callbacks, which hand the pending upload completion its files at most once and then clear it.

Shared types: `wrappers.dfy` (Option, Result), `text.dfy` (bytes, ASCII lower-casing), `urls.dfy` (`Url`), `remote_config.dfy` and `backend.dfy` (the collaborators' records and errors).

On a device the push token is the first non-nil of the saved, fetched and instant tokens, else `""` (ZMTemplate/Services/TrackingService.swift:64). A saved empty token therefore beats a fetched non-empty one (`Tracking.PushToken`, `Tracking.DeviceTokenPriority`). The saved token is the `PushTokenStore` value read at collection time.

## Model

| member | source | states |
|---|---|---|
| Launch.InitialOutcome | ZMTemplate/Services/LaunchService.swift:30-41 | ShowStub exactly when the stub flag is set, whatever is cached; otherwise ShowWeb of the cached URL exactly when one is cached; otherwise Loading |
| Launch.Pipeline | ZMTemplate/Services/LaunchService.swift:53-80 | the network part of a resolution. A missing payload is the first failure. A remote-configuration error is the second and only happens after the payload. The backend is asked exactly when a request URL could be assembled, and for that URL. Success happens exactly when the backend answers with a final URL, and carries that URL. Cookies are never persisted here |
| Launch.Resolve | ZMTemplate/Services/LaunchService.swift:43-86 | never Loading. InitialOutcome of the new store equals the returned outcome. With the stub flag set: ShowStub, the store unchanged, no calls. With a cached URL: ShowWeb of it, the store unchanged, no calls. Collaborators are called exactly when neither holds. ShowStub leaves the flag set and the cache unchanged. ShowWeb(u) leaves the store {false, u}. A cookie-persistence call is made exactly on a fresh success, as the last call and only there. How a fresh resolution follows the collaborators' answers is stated exit by exit in the five lemmas below |
| Launch.CookiesPersistedOnce | ZMTemplate/Services/LaunchService.swift:76-80 | cookies are persisted exactly once by a fresh successful resolution, and never by any other |
| Launch.PayloadMissing | ZMTemplate/Services/LaunchService.swift:53-56 | a fresh resolution without a payload makes only the tracking call, shows the stub, sets the flag and keeps the cache |
| Launch.ConfigUnavailable | ZMTemplate/Services/LaunchService.swift:58-85 | a fresh resolution whose remote configuration fails makes the tracking and configuration calls, then shows the stub with the flag set |
| Launch.AssemblyUnavailable | ZMTemplate/Services/LaunchService.swift:62-67 | a fresh resolution whose request URL cannot be assembled shows the stub without asking the backend |
| Launch.BackendWithoutDestination | ZMTemplate/Services/LaunchService.swift:69-85 | a fresh resolution whose backend fails or answers without a final URL asks the backend once, for the assembled URL, then shows the stub with the flag set |
| Launch.FreshSuccess | ZMTemplate/Services/LaunchService.swift:69-80 | a fresh resolution whose backend answers the assembled URL with final URL F shows F, leaves the store {false, F}, and persists cookies as the last of four calls |
| Launch.FailureCollapse | ZMTemplate/Services/LaunchService.swift:53-85 | each of the five failure exits (nil payload, config error, nil URL, backend error, nil finalURL) returns ShowStub, sets the flag and keeps the cached URL |
| Launch.RunAll | ZMTemplate/Services/LaunchService.swift:43-86 | resolutions run in sequence, each on the store the previous one left; one outcome per resolution |
| Launch.DecidedIsFinal | ZMTemplate/Services/LaunchService.swift:44-51 | from a store with the flag set or a URL cached, any number of later resolutions leave the store unchanged and all return the start-up outcome |
| Launch.ResolveDecides | ZMTemplate/Services/LaunchService.swift:53-85 | after any resolution the store holds the flag or a cached URL |
| Launch.StubIsSticky | ZMTemplate/Services/LaunchService.swift:44-46 | once a resolution in a sequence returns ShowStub, every later one returns ShowStub, whatever the collaborators answer |
| Launch.LaunchService.constructor | ZMTemplate/Services/LaunchService.swift:16-28 | the service starts on the persisted store |
| Launch.LaunchService.ResolveOutcome | ZMTemplate/Services/LaunchService.swift:43-86 | the in-place resolution: its outcome, the store it writes and its calls are exactly those of Resolve on the old store |
| LinkAssembly.DataValue | ZMTemplate/Services/LinkAssemblyService.swift:11 | the data value is a multiple of 4 long, uses only the base64 alphabet and the pad, and holds no `?`, `&` or `#` |
| LinkAssembly.BackendURLString | ZMTemplate/Services/LinkAssemblyService.swift:14-15 | the text is `https://`, host and path with no separator, `?data=`, then the data value |
| LinkAssembly.AssembledTextCarries | ZMTemplate/Services/LinkAssemblyService.swift:10-15 | the assembled text starts with the prefix `https://` + host + path + `?data=`; the rest base64-decodes, then UTF-8-decodes, to exactly the query |
| LinkAssembly.CarriedIsAssembled | ZMTemplate/Services/LinkAssemblyService.swift:10-15 | any text with that prefix whose rest decodes to the query is exactly the assembled text |
| LinkAssembly.CarriesUnique | ZMTemplate/Services/LinkAssemblyService.swift:10-15 | two texts with that prefix that both decode to the same query are equal |
| LinkAssembly.BuildBackendURL | ZMTemplate/Services/LinkAssemblyService.swift:9-16 | the result is the URL parser applied to the one text that carries the payload's query string for these parts. It is None only when the parser rejects that text |
| Base64.Symbol | ZMTemplate/Services/LinkAssemblyService.swift:11 | every 6-bit value maps to an alphabet character |
| Base64.ValueOf | ZMTemplate/Services/LinkAssemblyService.swift:11 | the value an alphabet character carries maps back to that character |
| Base64.Encode | ZMTemplate/Services/LinkAssemblyService.swift:11 | the encoding is 4·⌈n/3⌉ characters long, a multiple of 4, in the alphabet, with pads only in the last two places |
| Base64.DecodeQuad | ZMTemplate/Services/LinkAssemblyService.swift:11 | a group decodes to 1 to 3 octets, and to 3 unless it is the last group |
| Base64.DecodeEncode | ZMTemplate/Services/LinkAssemblyService.swift:11 | decoding the encoding of any octet sequence gives it back |
| Base64.EncodeDecode | ZMTemplate/Services/LinkAssemblyService.swift:11 | any string that decodes is the encoding of what it decodes to |
| Utf8.EncodeChar | ZMTemplate/Services/LinkAssemblyService.swift:11 | a character takes 1 to 4 octets, as its code point's width |
| Utf8.Encode | ZMTemplate/Services/LinkAssemblyService.swift:11 | a string of n characters takes between n and 4n octets |
| Utf8.DecodeFirst | ZMTemplate/Services/LinkAssemblyService.swift:11 | a decoded character takes exactly its width in octets, within the input |
| Utf8.DecodeEncode | ZMTemplate/Services/LinkAssemblyService.swift:11 | decoding the UTF-8 encoding of any string gives it back |
| Utf8.EncodeDecode | ZMTemplate/Services/LinkAssemblyService.swift:11 | any octet sequence that decodes is the encoding of what it decodes to |
| Text.Lowercase | ZMTemplate/Services/TrackingService.swift:85 | same length, every character lower-cased in place, no upper-case letter left |
| Tracking.CollectDeviceContext | ZMTemplate/Services/TrackingService.swift:83-102 | None exactly when UIKit is unavailable or the bundle identifier is missing. Otherwise the UUID is lower-cased and keeps its length, and the OS version, machine and bundle identifier are copied unchanged |
| Tracking.FirstPresent | ZMTemplate/Services/TrackingService.swift:64 | None exactly when every candidate is None; otherwise the earliest present candidate |
| Tracking.PushToken | ZMTemplate/Services/TrackingService.swift:50-64 | on the simulator the token is `simulator-token-` followed by the fresh UUID; on a device it is the first present of saved, fetched, instant, else `""` |
| Tracking.DeviceTokenPriority | ZMTemplate/Services/TrackingService.swift:53-64 | on a device a present saved token wins even when empty; the fetched token only when none is saved; the instant token or `""` only when neither is present |
| Tracking.CollectPayload | ZMTemplate/Services/TrackingService.swift:45-77 | None exactly when the device context is None. A missing installation ID or attribution token becomes `""`, a present one is copied. The token is the push-token rule's. The AppsFlyer ID and the four context fields are copied |
| Tracking.PushTokenStore.constructor | ZMTemplate/Services/TrackingService.swift:15-19 | the store starts with no token |
| Tracking.PushTokenStore.CurrentToken | ZMTemplate/Services/TrackingService.swift:21-23 | returns the stored token |
| Tracking.PushTokenStore.Update | ZMTemplate/Services/TrackingService.swift:29-33 | the stored token becomes the given one (last write wins) |
| Tracking.PushTokenStore.DidReceiveRegistrationToken | ZMTemplate/Services/TrackingService.swift:25-27 | a received registration token is stored |
| Presentation.MappedState | ZMTemplate/WebView/RootViewModel.swift:47-64 | never Stub or Failed. forceStub maps everything to the fallback page. Otherwise: Loading exactly for Loading, the fallback page for ShowStub, Web(u) for ShowWeb(u) |
| Presentation.FallbackMode | ZMTemplate/WebView/RootViewModel.swift:47-64 | the flag is set by forceStub and by ShowStub, cleared by ShowWeb, and unchanged by Loading |
| Presentation.FallbackFlagMatchesState | ZMTemplate/WebView/RootViewModel.swift:49-63 | for a decided outcome the flag is set exactly for a forced or stub outcome, and then the fallback page is shown |
| Presentation.ResolvedStateIsWeb | ZMTemplate/WebView/RootViewModel.swift:40-44 | after a resolution the root view shows a web page, never loading |
| Presentation.RootViewModel.constructor | ZMTemplate/WebView/RootViewModel.swift:23-26 | the initial state and flag are the mapping of the start-up outcome read from the store |
| Presentation.RootViewModel.MapOutcome | ZMTemplate/WebView/RootViewModel.swift:47-65 | returns the mapped state and updates only the fallback flag, as FallbackMode says |
| Presentation.RootViewModel.ExecuteResolve | ZMTemplate/WebView/RootViewModel.swift:40-45 | the service's store becomes the resolution's. The state and flag become the mapping of its outcome |
| Presentation.RootViewModel.Start | ZMTemplate/WebView/RootViewModel.swift:28-32 | runs one resolution, as ExecuteResolve |
| Presentation.RootViewModel.Retry | ZMTemplate/WebView/RootViewModel.swift:34-38 | the error message is cleared. The final state is the mapping of a fresh resolution's outcome |
| WebViews.Choose | ZMTemplate/WebView/WebViewCoordinator.swift:44-58 | the child exactly when it exists and can move. Otherwise the host exactly when it exists and can move. Otherwise no view |
| WebViews.WebViewCoordinator.constructor | ZMTemplate/WebView/WebViewCoordinator.swift:13-21 | nothing loading, no views, the default Safari user agent |
| WebViews.WebViewCoordinator.Selected | ZMTemplate/WebView/WebViewCoordinator.swift:44-58 | the view chosen is one the coordinator holds |
| WebViews.WebViewCoordinator.UpdateState | ZMTemplate/WebView/WebViewCoordinator.swift:23-31 | copies canGoBack, canGoForward, isLoading and the URL from the view, and nothing else |
| WebViews.WebViewCoordinator.PushChild | ZMTemplate/WebView/WebViewCoordinator.swift:33-38 | a new view becomes the child and carries the coordinator's user agent |
| WebViews.WebViewCoordinator.CloseChild | ZMTemplate/WebView/WebViewCoordinator.swift:40-42 | the child is dropped and nothing else changes |
| WebViews.WebViewCoordinator.GoBack | ZMTemplate/WebView/WebViewCoordinator.swift:44-50 | the view Choose selects receives one "back"; every other view receives nothing |
| WebViews.WebViewCoordinator.GoForward | ZMTemplate/WebView/WebViewCoordinator.swift:52-58 | the same rule with canGoForward and "forward" |
| WebViews.MakeUIView | ZMTemplate/WebView/WebViewContainer.swift:18-42 | a new host view carries the coordinator's user agent, is attached and is told to load the launch URL |
| WebViews.DecidePolicy | ZMTemplate/WebView/WebViewContainer.swift:73-89 | no URL: cancel and open nothing. Allow exactly when the lower-cased scheme (`""` when missing) is one of the eight internal schemes. Otherwise cancel and hand the URL to the system opener |
| WebViews.DecisionIgnoresCase | ZMTemplate/WebView/WebViewContainer.swift:79 | schemes equal up to case get the same decision |
| WebViews.Deliver | ZMTemplate/WebView/WebViewContainer.swift:180-214 | a pending completion is invoked exactly once with the given files; with none pending nothing is invoked |
| WebViews.PickedFile | ZMTemplate/WebView/WebViewContainer.swift:198-205 | the encoded original image (through the temporary file) wins over the media URL. There is no file exactly when the image's file could not be written, or when there is neither an image nor a media URL |
| WebViews.ContainerCoordinator.constructor | ZMTemplate/WebView/WebViewContainer.swift:52-55 | no view, no app coordinator, nothing pending |
| WebViews.ContainerCoordinator.Attach | ZMTemplate/WebView/WebViewContainer.swift:57-61 | records the view and the app coordinator and makes the view the host |
| WebViews.ContainerCoordinator.DidChangeNavigation | ZMTemplate/WebView/WebViewContainer.swift:65-71 | the start and finish of a navigation copy the view's state into the app coordinator |
| WebViews.ContainerCoordinator.CreateWebViewWith | ZMTemplate/WebView/WebViewContainer.swift:93-100 | always returns no view. Loads the request into the current view exactly when there is no target frame |
| WebViews.ContainerCoordinator.WebViewDidClose | ZMTemplate/WebView/WebViewContainer.swift:102-104 | closing a window drops the app coordinator's child |
| WebViews.ContainerCoordinator.DocumentPickerWasCancelled | ZMTemplate/WebView/WebViewContainer.swift:180-183 | the pending completion, if any, gets nil once and is cleared |
| WebViews.ContainerCoordinator.DocumentPickerDidPick | ZMTemplate/WebView/WebViewContainer.swift:185-188 | the pending completion, if any, gets the picked URLs once and is cleared |
| WebViews.ContainerCoordinator.ImagePickerDidCancel | ZMTemplate/WebView/WebViewContainer.swift:192-196 | the pending completion, if any, gets nil once and is cleared |
| WebViews.ContainerCoordinator.ImagePickerDidFinish | ZMTemplate/WebView/WebViewContainer.swift:198-214 | the pending completion, if any, gets a one-element list with the picked file (or nil without one) once, and is cleared |

## Left out

- Concurrency is modelled sequentially. This covers:
  - the `async let` joins in `collectPayload`;
  - the concurrent queue with a barrier in `PushTokenStore`;
  - the main-queue hop in `updateState`;
  - the `Task` and `MainActor` hops in `RootViewModel`;
  - a retry racing an in-flight resolution.
- Presentation.RootViewModel.Start: the spawned task runs to completion inside the call, so the states observed while it is in flight are not modelled.
- The SDK, Firebase, installation, attribution, messaging and URLSession calls are inputs: the `Sources` record and the `Environment`'s `linkParts` and `requestFinalLink`. How the realtime database and the HTTP client produce them is not modelled.
- Backend: the 2xx status check and the JSON decoding are folded into the `requestFinalLink` input.
- `BackendError.InvalidURL` is declared but never thrown by the client. `Transport` stands for errors the URL session throws.
- `TrackingPayload.toQueryString` and `URL(string:)` are not part of this model. They are function parameters, so no field order and no parsing rule is assumed. `Url` keeps only `absoluteString` and `scheme`.
- LinkAssembly.BuildBackendURL: the UTF-8 conversion of a Swift string never fails, so its nil branch cannot happen here. The result is None only when the URL parser rejects the text.
- Text.Lowercase: lower-cases ASCII letters only, not the full Unicode case mapping of `lowercased()`, because it is applied only to UUID strings and URL schemes.
- UUID generation, `uname` and `UIDevice` values are inputs (`Platform`, `simulatorUUID`).
- JPEG encoding and temporary-file writing are inputs: `MediaInfo.jpegData` and the `saveTemporary` parameter.
- Nothing in the source ever sets `pendingFileUploadCompletion`. The callbacks are modelled for whatever value it holds.
- Completions are identified by number, and each call is recorded in `uploads`.
- Presentation.RootViewModel: `forceStub` is a constructor parameter where the source fixes it to false. The constant case is an instance of the model.
- `errorMessage` is only ever cleared in the source and is kept as a field.
- WebKit's behaviour is not modelled. Views record the load, back and forward commands sent to them, but not what WebKit then does with their navigation state.
- Weak references (`hostWebView`, the delegate's `webView` and `appCoordinator`) are modelled as plain nullable references; deallocation is not modelled.
- `makeUIView`'s view configuration is not modelled: media playback, JavaScript, insets, colours and gestures.
- `updateUIView` is `UpdateState`.
- Not modelled: the JavaScript alert, confirm and prompt panels; the camera and document-picker presenters; `RootView` and the app and delegate bootstrapping. They are UI presentation with no state of the core.
- The `print` logging in `LaunchService` is not modelled.
- `PersistenceService` and `CookieStoreManager` are not part of this model. The first is the `Store` value the service holds. The second is the `PersistCookiesCall` entry in the call list.
