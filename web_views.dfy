/** The web layer: the coordinator that tracks the host and child web views, and the
    navigation/UI delegate of the web-view container. WebKit's views are records of the
    state they report and of the commands sent to them; how WebKit carries out a
    command is not modelled. */
module WebViews {
  import opened Wrappers
  import opened Urls
  import opened Text

  const DefaultUserAgent: string := "Version/17.2 Mobile/15E148 Safari/604.1"

  /** A URL request; its URL is optional, as in `URLRequest`. */
  datatype Request = Request(url: Option<Url>)

  /** A command sent to a web view. */
  datatype Command = LoadCommand(request: Request) | GoBackCommand | GoForwardCommand

  /** A `WKWebView`. */
  class WebView {
    var canGoBack: bool
    var canGoForward: bool
    var isLoading: bool
    var url: Option<Url>
    var customUserAgent: Option<string>
    var commands: seq<Command>

    constructor()
      ensures !canGoBack && !canGoForward && !isLoading
      ensures url == None && customUserAgent == None && commands == []
    {
      canGoBack, canGoForward, isLoading := false, false, false;
      url, customUserAgent, commands := None, None, [];
    }

    method GoBack()
      modifies this`commands
      ensures commands == old(commands) + [GoBackCommand]
    {
      commands := commands + [GoBackCommand];
    }

    method GoForward()
      modifies this`commands
      ensures commands == old(commands) + [GoForwardCommand]
    {
      commands := commands + [GoForwardCommand];
    }

    method Load(request: Request)
      modifies this`commands
      ensures commands == old(commands) + [LoadCommand(request)]
    {
      commands := commands + [LoadCommand(request)];
    }
  }

  /** Which view a back or forward button acts on. */
  datatype Target = ChildView | HostView | NoView

  /** The child-before-host rule, given for each view whether it exists and can move:
      the child when it exists and can move; otherwise the host when it exists and can
      move; otherwise neither. */
  function Choose(childCan: Option<bool>, hostCan: Option<bool>): (t: Target)
    ensures t == ChildView <==> childCan == Some(true)
    ensures t == HostView <==> childCan != Some(true) && hostCan == Some(true)
    ensures t == NoView <==> childCan != Some(true) && hostCan != Some(true)
  {
    if childCan == Some(true) then ChildView
    else if hostCan == Some(true) then HostView
    else NoView
  }

  /** The app-wide web coordinator. */
  class WebViewCoordinator {
    var canGoBack: bool
    var canGoForward: bool
    var isLoading: bool
    var currentURL: Option<Url>
    var childWebView: WebView?
    var userAgent: string
    var hostWebView: WebView?

    constructor()
      ensures !canGoBack && !canGoForward && !isLoading && currentURL == None
      ensures childWebView == null && hostWebView == null && userAgent == DefaultUserAgent
    {
      canGoBack, canGoForward, isLoading, currentURL := false, false, false, None;
      childWebView, hostWebView, userAgent := null, null, DefaultUserAgent;
    }

    /** The views the coordinator knows about. */
    function Views(): set<WebView>
      reads this
    {
      (if childWebView != null then {childWebView} else {}) + (if hostWebView != null then {hostWebView} else {})
    }

    /** The view a back (forward = false) or forward (forward = true) button acts on. */
    function Selected(forward: bool): (v: WebView?)
      reads this, Views()
      ensures v != null ==> v in Views()
    {
      var childCan := if childWebView == null then None
                      else Some(if forward then childWebView.canGoForward else childWebView.canGoBack);
      var hostCan := if hostWebView == null then None
                     else Some(if forward then hostWebView.canGoForward else hostWebView.canGoBack);
      match Choose(childCan, hostCan)
      case ChildView => childWebView
      case HostView => hostWebView
      case NoView => null
    }

    /** Copies the navigation state a view reports (run on the main queue in the app). */
    method UpdateState(webView: WebView)
      modifies this`canGoBack, this`canGoForward, this`isLoading, this`currentURL
      ensures canGoBack == webView.canGoBack && canGoForward == webView.canGoForward
      ensures isLoading == webView.isLoading && currentURL == webView.url
    {
      canGoBack := webView.canGoBack;
      canGoForward := webView.canGoForward;
      isLoading := webView.isLoading;
      currentURL := webView.url;
    }

    /** Creates a view for a pop-up, gives it the coordinator's user agent and makes it
        the child. */
    method PushChild() returns (webView: WebView)
      modifies this`childWebView
      ensures fresh(webView) && childWebView == webView
      ensures webView.customUserAgent == Some(userAgent) && webView.commands == []
    {
      webView := new WebView();
      webView.customUserAgent := Some(userAgent);
      childWebView := webView;
    }

    method CloseChild()
      modifies this`childWebView
      ensures childWebView == null
    {
      childWebView := null;
    }

    /** Sends "back" to the selected view, if any; no other view and nothing else changes. */
    method GoBack()
      modifies Views()`commands
      ensures var v := old(Selected(false));
        v != null ==> v.commands == old(v.commands) + [GoBackCommand]
      ensures forall w :: w in Views() && w != old(Selected(false)) ==> w.commands == old(w.commands)
    {
      if childWebView != null && childWebView.canGoBack {
        childWebView.GoBack();
      } else if hostWebView != null && hostWebView.canGoBack {
        hostWebView.GoBack();
      }
    }

    /** Sends "forward" to the selected view, if any, by the same rule. */
    method GoForward()
      modifies Views()`commands
      ensures var v := old(Selected(true));
        v != null ==> v.commands == old(v.commands) + [GoForwardCommand]
      ensures forall w :: w in Views() && w != old(Selected(true)) ==> w.commands == old(w.commands)
    {
      if childWebView != null && childWebView.canGoForward {
        childWebView.GoForward();
      } else if hostWebView != null && hostWebView.canGoForward {
        hostWebView.GoForward();
      }
    }
  }

  /** `makeUIView`: a new host view with the app coordinator's user agent, attached to the
      delegate and told to load the launch URL. */
  method MakeUIView(url: Url, delegate: ContainerCoordinator, appCoordinator: WebViewCoordinator)
    returns (webView: WebView)
    modifies delegate`webView, delegate`appCoordinator, appCoordinator`hostWebView
    ensures fresh(webView)
    ensures webView.customUserAgent == Some(appCoordinator.userAgent)
    ensures webView.commands == [LoadCommand(Request(Some(url)))]
    ensures delegate.webView == webView && delegate.appCoordinator == appCoordinator
    ensures appCoordinator.hostWebView == webView
  {
    webView := new WebView();
    webView.customUserAgent := Some(appCoordinator.userAgent);
    delegate.Attach(webView, appCoordinator);
    webView.Load(Request(Some(url)));
  }

  /** The navigation policy handed back to WebKit. */
  datatype Policy = Allow | Cancel

  /** A navigation decision: the policy, and the URL handed to the system opener, if any. */
  datatype Decision = Decision(policy: Policy, openExternally: Option<Url>)

  /** A navigation action: its request, and whether it targets an existing frame. */
  datatype NavigationAction = NavigationAction(request: Request, hasTargetFrame: bool)

  /** The schemes the web view loads itself. */
  const InternalSchemes: set<string> := {"http", "https", "about", "srcdoc", "blob", "data", "javascript", "file"}

  /** `decidePolicyFor`: no URL cancels; a scheme that, lower-cased, is internal is
      allowed; any other URL (also one without a scheme) goes to the system opener and
      the navigation is cancelled. */
  function DecidePolicy(action: NavigationAction): (d: Decision)
    ensures action.request.url.None? ==> d == Decision(Cancel, None)
    ensures d.policy == Allow <==>
              action.request.url.Some? && Lowercase(action.request.url.value.scheme.GetOr("")) in InternalSchemes
    ensures d.openExternally.Some? <==> action.request.url.Some? && d.policy == Cancel
    ensures d.openExternally.Some? ==> d.openExternally == action.request.url
  {
    match action.request.url
    case None => Decision(Cancel, None)
    case Some(url) =>
      var scheme := Lowercase(url.scheme.GetOr(""));
      if scheme in InternalSchemes then Decision(Allow, None)
      else Decision(Cancel, Some(url))
  }

  /** The decision depends on the scheme only up to case. */
  lemma DecisionIgnoresCase(a1: NavigationAction, a2: NavigationAction)
    requires a1.request.url.Some? && a2.request.url.Some?
    requires Lowercase(a1.request.url.value.scheme.GetOr("")) == Lowercase(a2.request.url.value.scheme.GetOr(""))
    ensures DecidePolicy(a1).policy == DecidePolicy(a2).policy
  {
  }

  /** A completion handler waiting for the files a picker returns, by identity. */
  type CompletionId = nat

  /** One invocation of a completion handler and what it was given. */
  datatype Upload = Upload(completion: CompletionId, files: Option<seq<Url>>)

  /** The picker's result: the original image's JPEG data (None when there is no image or
      it did not encode) and the media URL. */
  datatype MediaInfo = MediaInfo(jpegData: Option<seq<byte>>, mediaURL: Option<Url>)

  /** The invocation the pending handler receives, if there is one. */
  function Deliver(pending: Option<CompletionId>, files: Option<seq<Url>>): (u: seq<Upload>)
    ensures |u| <= 1
    ensures u != [] <==> pending.Some?
    ensures u != [] ==> u[0] == Upload(pending.value, files)
  {
    match pending
    case None => []
    case Some(c) => [Upload(c, files)]
  }

  /** The file an image-picker result yields: the original image written to a temporary
      file when it encoded (None when writing failed), otherwise the media URL. */
  function PickedFile(info: MediaInfo, saveTemporary: seq<byte> -> Option<Url>): (f: Option<Url>)
    ensures info.jpegData.Some? ==> f == saveTemporary(info.jpegData.value)
    ensures info.jpegData.None? ==> f == info.mediaURL
    ensures f.None? <==> (info.jpegData.Some? && saveTemporary(info.jpegData.value).None?)
                         || (info.jpegData.None? && info.mediaURL.None?)
  {
    match info.jpegData
    case Some(data) => saveTemporary(data)
    case None => info.mediaURL
  }

  /** The navigation and UI delegate of the web-view container. */
  class ContainerCoordinator {
    var webView: WebView?
    var appCoordinator: WebViewCoordinator?
    var pendingFileUploadCompletion: Option<CompletionId>
    var uploads: seq<Upload>

    constructor()
      ensures webView == null && appCoordinator == null
      ensures pendingFileUploadCompletion == None && uploads == []
    {
      webView, appCoordinator := null, null;
      pendingFileUploadCompletion, uploads := None, [];
    }

    /** The app coordinator, as a frame. */
    function AppCoordinators(): set<WebViewCoordinator>
      reads this
    {
      if appCoordinator == null then {} else {appCoordinator}
    }

    /** Records the view and the app coordinator, and makes the view the host. */
    method Attach(webView: WebView, appCoordinator: WebViewCoordinator)
      modifies this`webView, this`appCoordinator, appCoordinator`hostWebView
      ensures this.webView == webView && this.appCoordinator == appCoordinator
      ensures appCoordinator.hostWebView == webView
    {
      this.webView := webView;
      this.appCoordinator := appCoordinator;
      appCoordinator.hostWebView := webView;
    }

    /** Navigation start and finish both refresh the app coordinator's state. */
    method DidChangeNavigation(webView: WebView)
      modifies AppCoordinators()`canGoBack, AppCoordinators()`canGoForward
      modifies AppCoordinators()`isLoading, AppCoordinators()`currentURL
      ensures appCoordinator != null ==>
        && appCoordinator.canGoBack == webView.canGoBack
        && appCoordinator.canGoForward == webView.canGoForward
        && appCoordinator.isLoading == webView.isLoading
        && appCoordinator.currentURL == webView.url
    {
      if appCoordinator != null {
        appCoordinator.UpdateState(webView);
      }
    }

    /** A page asked to open a new window: no window is created; a request without a
        target frame is loaded into the current view instead. */
    method CreateWebViewWith(webView: WebView, action: NavigationAction) returns (created: WebView?)
      modifies webView`commands
      ensures created == null
      ensures webView.commands == old(webView.commands) + (if action.hasTargetFrame then [] else [LoadCommand(action.request)])
    {
      if !action.hasTargetFrame {
        webView.Load(action.request);
      }
      return null;
    }

    /** A page closed its window: the child view is dropped. */
    method WebViewDidClose(webView: WebView)
      modifies AppCoordinators()`childWebView
      ensures appCoordinator != null ==> appCoordinator.childWebView == null
    {
      if appCoordinator != null {
        appCoordinator.CloseChild();
      }
    }

    method DocumentPickerWasCancelled()
      modifies this`pendingFileUploadCompletion, this`uploads
      ensures uploads == old(uploads) + Deliver(old(pendingFileUploadCompletion), None)
      ensures pendingFileUploadCompletion == None
    {
      uploads := uploads + Deliver(pendingFileUploadCompletion, None);
      pendingFileUploadCompletion := None;
    }

    method DocumentPickerDidPick(urls: seq<Url>)
      modifies this`pendingFileUploadCompletion, this`uploads
      ensures uploads == old(uploads) + Deliver(old(pendingFileUploadCompletion), Some(urls))
      ensures pendingFileUploadCompletion == None
    {
      uploads := uploads + Deliver(pendingFileUploadCompletion, Some(urls));
      pendingFileUploadCompletion := None;
    }

    method ImagePickerDidCancel()
      modifies this`pendingFileUploadCompletion, this`uploads
      ensures uploads == old(uploads) + Deliver(old(pendingFileUploadCompletion), None)
      ensures pendingFileUploadCompletion == None
    {
      uploads := uploads + Deliver(pendingFileUploadCompletion, None);
      pendingFileUploadCompletion := None;
    }

    /** The picked image (written to a temporary file) or else the media URL goes to the
        pending handler as a one-element list; with neither, the handler gets nil. */
    method ImagePickerDidFinish(info: MediaInfo, saveTemporary: seq<byte> -> Option<Url>)
      modifies this`pendingFileUploadCompletion, this`uploads
      ensures var f := PickedFile(info, saveTemporary);
        uploads == old(uploads) + Deliver(old(pendingFileUploadCompletion), if f.Some? then Some([f.value]) else None)
      ensures pendingFileUploadCompletion == None
    {
      var tempURL: Option<Url> := None;
      if info.jpegData.Some? {
        tempURL := saveTemporary(info.jpegData.value);
      } else if info.mediaURL.Some? {
        tempURL := info.mediaURL;
      }
      if tempURL.Some? {
        uploads := uploads + Deliver(pendingFileUploadCompletion, Some([tempURL.value]));
      } else {
        uploads := uploads + Deliver(pendingFileUploadCompletion, None);
      }
      pendingFileUploadCompletion := None;
    }
  }
}
