/**
 * The configuration server's protocol as values: the four protocol states,
 * the HTTP responses, what every control operation, route handler and
 * lifecycle notification does to the server's observable fields, and runs
 * of such events.  The class in module Server is proved against these
 * functions; the lemmas here state what holds of every run.
 */
module Protocol {
  import opened Wrappers
  import opened Pages

  /** `ConfigState`: the only protocol memory of a server. */
  datatype ConfigState = Stopped | Ready | InstalledConfig | BackToApp

  /** The responses the handlers produce. */
  datatype Response =
    | NotFound
    | Html(page: string)
    | Cert(contentType: string, body: seq<bv8>)
    | Empty
  {
    /** `.notFound` is 404; `.ok(...)` and `.raw(200, ...)` are 200. */
    function Status(): int {
      if NotFound? then 404 else 200
    }
  }

  const CertContentType: string := "application/x-x509-ca-cert"

  /** The routes registered by `setupHandlers`, and everything else. */
  datatype Route = StartRoute | InstallRoute | ShutdownRoute | NoRoute

  /** Which handler a request path reaches; a trailing `/` is ignored, as the router ignores empty segments. */
  function RouteOf(path: string): (r: Route)
    ensures r == StartRoute <==> path == "/start" || path == "/start/"
    ensures r == InstallRoute <==> path == "/install" || path == "/install/"
    ensures r == ShutdownRoute <==> path == "/shutdown" || path == "/shutdown/"
  {
    var p := if |path| > 1 && path[|path| - 1] == '/' then path[..|path| - 1] else path;
    if p == "/start" then StartRoute
    else if p == "/install" then InstallRoute
    else if p == "/shutdown" then ShutdownRoute
    else NoRoute
  }

  /** Why `start()` failed: `URLError(.badURL)`, or the error the bind threw. */
  datatype StartError = BadUrl | BindFailed

  /** What a server is built with and never changes: port, display name, certificate bytes. */
  datatype Settings = Settings(port: Port, name: string, payload: seq<bv8>)

  /**
   * The server's changing fields: `serverState`, `registeredForNotifications`,
   * whether `backgroundTask` holds a valid handle, whether the listener runs,
   * and the URLs handed to the system browser so far.
   */
  datatype View = View(state: ConfigState, registered: bool, taskHeld: bool, listening: bool, launched: seq<string>)

  /** A server right after `init`. */
  const Fresh: View := View(Stopped, false, false, false, [])

  /**
   * What every reachable view satisfies: notifications are registered exactly
   * while the server is not stopped, and a server that went back to the app
   * no longer listens.
   */
  predicate Coherent(v: View) {
    && (v.registered <==> v.state != Stopped)
    && (v.state == BackToApp ==> !v.listening)
  }

  // ---------------------------------------------------------------------
  // Pages the handlers serve
  // ---------------------------------------------------------------------

  /** The URL `start()` opens in the browser. */
  function StartUrl(cfg: Settings): string {
    BaseUrl(cfg.port, Some("start/"))
  }

  /** The page served at `/start`: it keeps navigating to `/install/`. */
  function InstallRedirectPage(cfg: Settings): string {
    BasePage(cfg.name, cfg.port, Some("install/"))
  }

  /** The page served at `/install` once the app is back in the foreground. */
  function TerminalPage(cfg: Settings): string {
    BasePage(cfg.name, cfg.port, None)
  }

  // ---------------------------------------------------------------------
  // One step per operation
  // ---------------------------------------------------------------------

  /** `registerForNotifications`. */
  function OnRegister(v: View): View {
    if !v.registered then v.(registered := true) else v
  }

  /** `unregisterFromNotifications`. */
  function OnUnregister(v: View): View {
    if v.registered then v.(registered := false) else v
  }

  /** `stop()`. */
  function OnStop(v: View): View {
    if v.state != Stopped then OnUnregister(v.(state := Stopped)) else v
  }

  /** `shutdown()`: the listener stops. */
  function OnShutdown(v: View): View {
    v.(listening := false)
  }

  /** `start()`, given whether the URL can be opened and whether the bind succeeds. */
  function OnStart(cfg: Settings, v: View, canOpenUrl: bool, bindSucceeds: bool): (View, Option<StartError>)
  {
    if !canOpenUrl then (v, Some(BadUrl))
    else if !bindSucceeds then (OnStop(v), Some(BindFailed))
    else
      var w := OnRegister(v.(listening := true, state := Ready));
      (w.(launched := w.launched + [StartUrl(cfg)]), None)
  }

  /** The `/start` handler. */
  function ServeStart(cfg: Settings, v: View): Response {
    if v.state == Ready then Html(InstallRedirectPage(cfg)) else NotFound
  }

  /** The `/install` handler. */
  function ServeInstall(cfg: Settings, v: View): (View, Response) {
    match v.state
    case Stopped => (v, NotFound)
    case Ready => (v.(state := InstalledConfig), Cert(CertContentType, cfg.payload))
    case InstalledConfig => (v, Html(InstructionsPage))
    case BackToApp => (v, Html(TerminalPage(cfg)))
  }

  /** The `/shutdown` handler. */
  function ServeShutdown(v: View): (View, Response) {
    (OnShutdown(v), Empty)
  }

  /** A request that reaches the running listener. */
  function Serve(cfg: Settings, v: View, path: string): (View, Response) {
    match RouteOf(path)
    case StartRoute => (v, ServeStart(cfg, v))
    case InstallRoute => ServeInstall(cfg, v)
    case ShutdownRoute => ServeShutdown(v)
    case NoRoute => (v, NotFound)
  }

  /** `returnedToApp`. */
  function OnReturnedToApp(v: View): View {
    if v.state != Stopped then v.(state := BackToApp, listening := false) else v
  }

  /** `stopBackgroundTask`: release the handle if one is held. */
  function OnTaskEnd(v: View): View {
    if v.taskHeld then v.(taskHeld := false) else v
  }

  /** `didEnterBackground`; `granted` says whether the OS handed out a valid handle. */
  function OnEnterBackground(v: View, granted: bool): View {
    if v.state != Stopped then v.(taskHeld := granted) else v
  }

  /** `willEnterForeground`. */
  function OnEnterForeground(v: View): View {
    if v.taskHeld then OnReturnedToApp(OnTaskEnd(v)) else v
  }

  // ---------------------------------------------------------------------
  // Runs
  // ---------------------------------------------------------------------

  /** Everything that can happen to a server, one at a time. */
  datatype Event =
    | StartCall(canOpenUrl: bool, bindSucceeds: bool)
    | StopCall
    | ShutdownCall
    | Request(path: string)
    | EnteredBackground(granted: bool)
    | WillEnterForeground
    | TaskExpired

  /** What an event gives back: a start result, an HTTP reply, a refused connection, or nothing. */
  datatype Output = Quiet | Started(err: Option<StartError>) | Reply(response: Response) | Refused

  function Step(cfg: Settings, v: View, e: Event): (View, Output)
  {
    match e
    case StartCall(canOpenUrl, bindSucceeds) =>
      var (w, err) := OnStart(cfg, v, canOpenUrl, bindSucceeds);
      (w, Started(err))
    case StopCall => (OnStop(v), Quiet)
    case ShutdownCall => (OnShutdown(v), Quiet)
    case Request(path) =>
      if v.listening then
        var (w, r) := Serve(cfg, v, path);
        (w, Reply(r))
      else (v, Refused)
    case EnteredBackground(granted) => (OnEnterBackground(v, granted), Quiet)
    case WillEnterForeground => (OnEnterForeground(v), Quiet)
    case TaskExpired => (OnTaskEnd(v), Quiet)
  }

  /** The view after the events `es`, taken in order from `v`. */
  function RunView(cfg: Settings, v: View, es: seq<Event>): View
    decreases |es|
  {
    if es == [] then v else Step(cfg, RunView(cfg, v, es[..|es| - 1]), es[|es| - 1]).0
  }

  /** What the `k`-th event of `es` gives back. */
  function OutputAt(cfg: Settings, v: View, es: seq<Event>, k: nat): Output
    requires k < |es|
  {
    Step(cfg, RunView(cfg, v, es[..k]), es[k]).1
  }

  lemma RunPrefix(cfg: Settings, v: View, es: seq<Event>, k: nat)
    requires k < |es|
    ensures RunView(cfg, v, es[..k + 1]) == Step(cfg, RunView(cfg, v, es[..k]), es[k]).0
  {
    assert es[..k + 1][..k] == es[..k];
    assert es[..k + 1][k] == es[k];
  }

  // ---------------------------------------------------------------------
  // Properties of single steps
  // ---------------------------------------------------------------------

  /** Every step keeps a coherent view coherent. */
  lemma StepKeepsCoherent(cfg: Settings, v: View, e: Event)
    requires Coherent(v)
    ensures Coherent(Step(cfg, v, e).0)
  {
  }

  /** Every state is entered only the way the protocol allows. */
  lemma StepEntersStatesOnlyAsAllowed(cfg: Settings, v: View, e: Event)
    ensures var w := Step(cfg, v, e).0;
      && (w.state == Ready && v.state != Ready ==> e == StartCall(true, true))
      && (w.state == InstalledConfig && v.state != InstalledConfig ==>
            e.Request? && RouteOf(e.path) == InstallRoute && v.state == Ready && v.listening)
      && (w.state == BackToApp && v.state != BackToApp ==>
            e == WillEnterForeground && v.taskHeld && v.state != Stopped)
      && (w.state == Stopped && v.state != Stopped ==> e == StopCall || e == StartCall(true, false))
  {
  }

  /** A handle is held only if the OS granted one while the server was not stopped. */
  lemma StepAcquiresTaskOnlyWhenGranted(cfg: Settings, v: View, e: Event)
    ensures Step(cfg, v, e).0.taskHeld && !v.taskHeld ==> e == EnteredBackground(true) && v.state != Stopped
  {
  }

  /** Every request the listener answers gets one of the six defined responses. */
  lemma RepliesAreDefined(cfg: Settings, v: View, path: string)
    ensures var r := Serve(cfg, v, path).1;
      || r == NotFound
      || r == Html(InstallRedirectPage(cfg))
      || r == Cert(CertContentType, cfg.payload)
      || r == Html(InstructionsPage)
      || r == Html(TerminalPage(cfg))
      || r == Empty
  {
  }

  /** `stop()` twice is `stop()` once, and it leaves a coherent server stopped and unregistered. */
  lemma StopIdempotent(v: View)
    ensures OnStop(OnStop(v)) == OnStop(v)
    ensures Coherent(v) ==> OnStop(v).state == Stopped && !OnStop(v).registered
  {
  }

  // ---------------------------------------------------------------------
  // Properties of runs
  // ---------------------------------------------------------------------

  lemma {:induction false} RunKeepsCoherent(cfg: Settings, v: View, es: seq<Event>)
    requires Coherent(v)
    ensures Coherent(RunView(cfg, v, es))
    decreases |es|
  {
    if es != [] {
      RunKeepsCoherent(cfg, v, es[..|es| - 1]);
      StepKeepsCoherent(cfg, RunView(cfg, v, es[..|es| - 1]), es[|es| - 1]);
    }
  }

  /**
   * A request that arrives after the app came back to the foreground finds the
   * listener stopped: the `/install` branch for `BackToApp` is never reached
   * from a coherent start.
   */
  lemma BackToAppRefusesRequests(cfg: Settings, v: View, es: seq<Event>, k: nat)
    requires Coherent(v)
    requires k < |es| && es[k].Request?
    requires RunView(cfg, v, es[..k]).state == BackToApp
    ensures OutputAt(cfg, v, es, k) == Refused
  {
    RunKeepsCoherent(cfg, v, es[..k]);
  }

  /** The `k`-th event is an `/install` request answered, in `Ready`, with the certificate. */
  ghost predicate InstallServedAt(cfg: Settings, v: View, es: seq<Event>, k: nat)
    requires k < |es|
  {
    var before := RunView(cfg, v, es[..k]);
    && es[k].Request? && RouteOf(es[k].path) == InstallRoute
    && before.state == Ready && before.listening
    && OutputAt(cfg, v, es, k) == Reply(Cert(CertContentType, cfg.payload))
  }

  /** `InstalledConfig` is reached only through an `/install` request served in `Ready`. */
  lemma {:induction false} InstalledOnlyAfterInstall(cfg: Settings, v: View, es: seq<Event>)
    requires v.state != InstalledConfig
    requires RunView(cfg, v, es).state == InstalledConfig
    ensures exists k: nat :: k < |es| && InstallServedAt(cfg, v, es, k)
    decreases |es|
  {
    var n := |es| - 1;
    var before := RunView(cfg, v, es[..n]);
    if before.state == InstalledConfig {
      InstalledOnlyAfterInstall(cfg, v, es[..n]);
      var k: nat :| k < n && InstallServedAt(cfg, v, es[..n], k);
      assert es[..n][..k] == es[..k];
      assert InstallServedAt(cfg, v, es, k);
    } else {
      StepEntersStatesOnlyAsAllowed(cfg, before, es[n]);
      assert es[..n + 1] == es;
      assert InstallServedAt(cfg, v, es, n);
    }
  }

  /** The `k`-th event is a foreground notification while a handle is held and the server runs. */
  ghost predicate ReturnedAt(cfg: Settings, v: View, es: seq<Event>, k: nat)
    requires k < |es|
  {
    var before := RunView(cfg, v, es[..k]);
    es[k] == WillEnterForeground && before.taskHeld && before.state != Stopped
  }

  /** `BackToApp` is reached only by coming back to the foreground while a background handle was held. */
  lemma {:induction false} BackToAppOnlyAfterForeground(cfg: Settings, v: View, es: seq<Event>)
    requires v.state != BackToApp
    requires RunView(cfg, v, es).state == BackToApp
    ensures exists k: nat :: k < |es| && ReturnedAt(cfg, v, es, k)
    decreases |es|
  {
    var n := |es| - 1;
    var before := RunView(cfg, v, es[..n]);
    if before.state == BackToApp {
      BackToAppOnlyAfterForeground(cfg, v, es[..n]);
      var k: nat :| k < n && ReturnedAt(cfg, v, es[..n], k);
      assert es[..n][..k] == es[..k];
      assert ReturnedAt(cfg, v, es, k);
    } else {
      StepEntersStatesOnlyAsAllowed(cfg, before, es[n]);
      assert ReturnedAt(cfg, v, es, n);
    }
  }

  /** The `k`-th event is a background notification, while the server runs, that got a handle. */
  ghost predicate GrantedAt(cfg: Settings, v: View, es: seq<Event>, k: nat)
    requires k < |es|
  {
    es[k] == EnteredBackground(true) && RunView(cfg, v, es[..k]).state != Stopped
  }

  /** A background handle is held only after the OS granted one to a running server. */
  lemma {:induction false} TaskHeldOnlyAfterGrant(cfg: Settings, v: View, es: seq<Event>)
    requires !v.taskHeld
    requires RunView(cfg, v, es).taskHeld
    ensures exists k: nat :: k < |es| && GrantedAt(cfg, v, es, k)
    decreases |es|
  {
    var n := |es| - 1;
    var before := RunView(cfg, v, es[..n]);
    if before.taskHeld {
      TaskHeldOnlyAfterGrant(cfg, v, es[..n]);
      var k: nat :| k < n && GrantedAt(cfg, v, es[..n], k);
      assert es[..n][..k] == es[..k];
      assert GrantedAt(cfg, v, es, k);
    } else {
      StepAcquiresTaskOnlyWhenGranted(cfg, before, es[n]);
      assert GrantedAt(cfg, v, es, n);
    }
  }

  /** The `k`-th event answers with certificate bytes. */
  ghost predicate CertServedAt(cfg: Settings, v: View, es: seq<Event>, k: nat)
    requires k < |es|
  {
    var out := OutputAt(cfg, v, es, k);
    out.Reply? && out.response.Cert?
  }

  /** The `k`-th event is a successful `start()`. */
  ghost predicate RestartAt(es: seq<Event>, k: nat)
    requires k < |es|
  {
    es[k] == StartCall(true, true)
  }

  /** After leaving `Ready` at step `i`, the server is `Ready` again only after a successful `start()`. */
  lemma {:induction false} ReadyAgainOnlyAfterRestart(cfg: Settings, v: View, es: seq<Event>, i: nat, m: nat)
    requires i < m <= |es|
    requires RunView(cfg, v, es[..i + 1]).state != Ready
    requires RunView(cfg, v, es[..m]).state == Ready
    ensures exists k: nat :: i < k < m && RestartAt(es, k)
    decreases m
  {
    var before := RunView(cfg, v, es[..m - 1]);
    RunPrefix(cfg, v, es, m - 1);
    if before.state == Ready {
      ReadyAgainOnlyAfterRestart(cfg, v, es, i, m - 1);
    } else {
      StepEntersStatesOnlyAsAllowed(cfg, before, es[m - 1]);
      assert RestartAt(es, m - 1);
    }
  }

  /** The certificate is served at most once per successful `start()`. */
  lemma CertServedOncePerStart(cfg: Settings, v: View, es: seq<Event>, i: nat, j: nat)
    requires i < j < |es|
    requires CertServedAt(cfg, v, es, i) && CertServedAt(cfg, v, es, j)
    ensures exists k: nat :: i < k < j && RestartAt(es, k)
  {
    RunPrefix(cfg, v, es, i);
    ReadyAgainOnlyAfterRestart(cfg, v, es, i, j);
  }

  // ---------------------------------------------------------------------
  // The URLs the protocol hands out reach the intended handlers
  // ---------------------------------------------------------------------

  /** The components the server hands out, as request paths, name the two handlers. */
  lemma HandlerPaths()
    ensures RouteOf("/" + "start/") == StartRoute
    ensures RouteOf("/" + "install/") == InstallRoute
  {
    assert "/" + "start/" == "/start/";
    assert "/" + "install/" == "/install/";
  }

  /** `start()` opens the server's own `/start/` URL, which the `/start` handler answers. */
  lemma StartUrlReachesStartHandler(cfg: Settings)
    ensures ParseBaseUrl(StartUrl(cfg)) == Some((cfg.port, Some("start/")))
    ensures RouteOf("/" + ParseBaseUrl(StartUrl(cfg)).value.1.value) == StartRoute
  {
    BaseUrlRoundTrip(cfg.port, Some("start/"));
    HandlerPaths();
  }

  /** The `/start` page's script keeps sending the browser to the server's own `/install/` URL. */
  lemma RedirectReachesInstallHandler(cfg: Settings)
    ensures Contains(InstallRedirectPage(cfg), ScriptElement(LoadEvery600Ms(BaseUrl(cfg.port, Some("install/")))))
    ensures ParseBaseUrl(BaseUrl(cfg.port, Some("install/"))) == Some((cfg.port, Some("install/")))
    ensures RouteOf("/" + ParseBaseUrl(BaseUrl(cfg.port, Some("install/"))).value.1.value) == InstallRoute
  {
    RedirectPageNavigates(cfg.name, cfg.port, "install/");
    BaseUrlRoundTrip(cfg.port, Some("install/"));
    HandlerPaths();
  }
}
