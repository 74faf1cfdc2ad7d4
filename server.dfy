/**
 * `ConfigServer`: one certificate payload served over a loopback listener,
 * gated by the protocol state.  Every method is proved to change the
 * server's fields exactly as the matching step of module Protocol says;
 * the listener, the notification center, the browser and the background
 * task API are reduced to the flags and inputs they contribute.
 */
module Server {
  import opened Wrappers
  import opened Pages
  import opened Protocol

  class ConfigServer {
    const listeningPort: Port
    const configName: string
    const configData: seq<bv8>

    var serverState: ConfigState
    var registeredForNotifications: bool
    /** Whether `backgroundTask` holds a handle other than `.invalid`. */
    var backgroundTaskHeld: bool
    /** Whether the HTTP listener is bound and serving. */
    var listening: bool
    /** The URLs handed to the system browser, oldest first. */
    var launchedUrls: seq<string>

    /** What the server was built with. */
    function Config(): Settings {
      Settings(listeningPort, configName, configData)
    }

    /** The server's changing fields as one value. */
    function Snapshot(): View
      reads this
    {
      View(serverState, registeredForNotifications, backgroundTaskHeld, listening, launchedUrls)
    }

    ghost predicate Valid()
      reads this
    {
      Coherent(Snapshot())
    }

    /** Stopped, unregistered and no longer listening: nothing can reach this server any more. */
    ghost predicate Retired()
      reads this
    {
      serverState == Stopped && !registeredForNotifications && !listening
    }

    /** `init(configData:port:)`: the payload is kept as given. */
    constructor (configData: seq<bv8>, port: Port)
      ensures Config() == Settings(port, DefaultConfigName, configData)
      ensures Snapshot() == Fresh
      ensures Valid()
    {
      listeningPort := port;
      configName := DefaultConfigName;
      this.configData := configData;
      serverState := Stopped;
      registeredForNotifications := false;
      backgroundTaskHeld := false;
      listening := false;
      launchedUrls := [];
    }

    /** `deinit`: notifications are always unregistered. */
    method Deinit()
      modifies this
      ensures !registeredForNotifications
      ensures Snapshot() == OnUnregister(old(Snapshot()))
    {
      UnregisterFromNotifications();
    }

    // -------------------------------------------------------------------
    // Control functions
    // -------------------------------------------------------------------

    /**
     * `start()`: with an openable URL and a successful bind the server is
     * `Ready`, registered, listening, and the browser was sent to `/start/`.
     */
    method Start(canOpenUrl: bool, bindSucceeds: bool) returns (err: Option<StartError>)
      requires Valid()
      modifies this
      ensures Valid()
      ensures (Snapshot(), err) == OnStart(Config(), old(Snapshot()), canOpenUrl, bindSucceeds)
      ensures !canOpenUrl ==> err == Some(BadUrl) && Snapshot() == old(Snapshot())
      ensures canOpenUrl && !bindSucceeds ==>
        && err == Some(BindFailed)
        && serverState == Stopped && !registeredForNotifications
        && launchedUrls == old(launchedUrls)
      ensures canOpenUrl && bindSucceeds ==>
        && err == None
        && serverState == Ready && registeredForNotifications && listening
        && launchedUrls == old(launchedUrls) + [BaseUrl(listeningPort, Some("start/"))]
    {
      var url := BaseUrl(listeningPort, Some("start/"));
      if canOpenUrl {
        var bindError: Option<StartError> := None;
        if bindSucceeds {
          listening := true;
        } else {
          bindError := Some(BindFailed);
        }
        if bindError == None {
          serverState := Ready;
          RegisterForNotifications();
          launchedUrls := launchedUrls + [url];
          return None;
        } else {
          Stop();
          return bindError;
        }
      }
      return Some(BadUrl);
    }

    /** `stop()`: afterwards the server is stopped and unregistered; a second call changes nothing. */
    method Stop()
      requires Valid()
      modifies this
      ensures Valid()
      ensures Snapshot() == OnStop(old(Snapshot()))
      ensures serverState == Stopped && !registeredForNotifications
      ensures old(serverState) == Stopped ==> Snapshot() == old(Snapshot())
    {
      if serverState != Stopped {
        serverState := Stopped;
        UnregisterFromNotifications();
      }
    }

    /** `shutdown()`: the listener stops, whatever the state. */
    method Shutdown()
      modifies this
      ensures Snapshot() == OnShutdown(old(Snapshot()))
      ensures !listening && serverState == old(serverState)
      ensures old(Valid()) ==> Valid()
    {
      listening := false;
    }

    // -------------------------------------------------------------------
    // Route handlers
    // -------------------------------------------------------------------

    /** `/start`: the redirect page in `Ready`, 404 otherwise; the state is not touched. */
    method HandleStart() returns (r: Response)
      ensures r == ServeStart(Config(), Snapshot())
      ensures r.Html? <==> serverState == Ready
      ensures serverState == Ready ==> r == Html(BasePage(configName, listeningPort, Some("install/")))
      ensures serverState != Ready ==> r == NotFound && r.Status() == 404
    {
      if serverState == Ready {
        var page := BasePage(configName, listeningPort, Some("install/"));
        r := Html(page);
      } else {
        r := NotFound;
      }
    }

    /** `/install`: the certificate bytes exactly once, from `Ready`; every other state is left alone. */
    method HandleInstall() returns (r: Response)
      modifies this
      ensures (Snapshot(), r) == ServeInstall(Config(), old(Snapshot()))
      ensures old(serverState) == Ready ==>
        serverState == InstalledConfig && r == Cert(CertContentType, configData) && r.Status() == 200
      ensures old(serverState) != Ready ==> Snapshot() == old(Snapshot())
      ensures old(serverState) == Stopped ==> r == NotFound
      ensures old(serverState) == InstalledConfig ==> r == Html(InstructionsPage)
      ensures old(serverState) == BackToApp ==> r == Html(BasePage(configName, listeningPort, None))
      ensures old(Valid()) ==> Valid()
    {
      match serverState
      case Stopped =>
        r := NotFound;
      case Ready =>
        serverState := InstalledConfig;
        r := Cert(CertContentType, configData);
      case InstalledConfig =>
        r := Html(InstructionsPage);
      case BackToApp =>
        var page := BasePage(configName, listeningPort, None);
        r := Html(page);
    }

    /** `/shutdown`: 200 with an empty body, and the listener stops, in any state. */
    method HandleShutdown() returns (r: Response)
      modifies this
      ensures (Snapshot(), r) == ServeShutdown(old(Snapshot()))
      ensures r == Empty && r.Status() == 200
      ensures !listening && serverState == old(serverState)
      ensures old(Valid()) ==> Valid()
    {
      Shutdown();
      r := Empty;
    }

    /** A request for `path`, dispatched as the route table says. */
    method Handle(path: string) returns (r: Response)
      modifies this
      ensures (Snapshot(), r) == Serve(Config(), old(Snapshot()), path)
      ensures RouteOf(path) == NoRoute ==> r == NotFound && Snapshot() == old(Snapshot())
      ensures old(Valid()) ==> Valid()
    {
      match RouteOf(path)
      case StartRoute =>
        r := HandleStart();
      case InstallRoute =>
        r := HandleInstall();
      case ShutdownRoute =>
        r := HandleShutdown();
      case NoRoute =>
        r := NotFound;
    }

    // -------------------------------------------------------------------
    // Lifecycle
    // -------------------------------------------------------------------

    /** `returnedToApp`: a running server moves to `BackToApp` and stops listening. */
    method ReturnedToApp()
      modifies this
      ensures Snapshot() == OnReturnedToApp(old(Snapshot()))
      ensures old(serverState) != Stopped ==> serverState == BackToApp && !listening
      ensures old(serverState) == Stopped ==> Snapshot() == old(Snapshot())
    {
      if serverState != Stopped {
        serverState := BackToApp;
        listening := false;
      }
    }

    /** `registerForNotifications`: a no-op when already registered. */
    method RegisterForNotifications()
      modifies this
      ensures Snapshot() == OnRegister(old(Snapshot()))
      ensures registeredForNotifications
      ensures old(registeredForNotifications) ==> Snapshot() == old(Snapshot())
    {
      if !registeredForNotifications {
        registeredForNotifications := true;
      }
    }

    /** `unregisterFromNotifications`: a no-op when not registered. */
    method UnregisterFromNotifications()
      modifies this
      ensures Snapshot() == OnUnregister(old(Snapshot()))
      ensures !registeredForNotifications
      ensures !old(registeredForNotifications) ==> Snapshot() == old(Snapshot())
    {
      if registeredForNotifications {
        registeredForNotifications := false;
      }
    }

    /** `didEnterBackground`: a handle is requested only while the server is not stopped. */
    method DidEnterBackground(granted: bool)
      requires Valid()
      modifies this
      ensures Valid()
      ensures Snapshot() == OnEnterBackground(old(Snapshot()), granted)
      ensures old(serverState) == Stopped ==> Snapshot() == old(Snapshot())
    {
      if serverState != Stopped {
        StartBackgroundTask(granted);
      }
    }

    /**
     * `willEnterForeground`: nothing unless a handle is held; otherwise the
     * handle is released and a running server goes back to the app.
     */
    method WillEnterForeground()
      requires Valid()
      modifies this
      ensures Valid()
      ensures Snapshot() == OnEnterForeground(old(Snapshot()))
      ensures !old(backgroundTaskHeld) ==> Snapshot() == old(Snapshot())
      ensures old(backgroundTaskHeld) ==> !backgroundTaskHeld
      ensures old(backgroundTaskHeld) && old(serverState) != Stopped ==> serverState == BackToApp && !listening
    {
      if backgroundTaskHeld {
        StopBackgroundTask();
        ReturnedToApp();
      }
    }

    /** `startBackgroundTask`: the handle the OS gives back replaces the field. */
    method StartBackgroundTask(granted: bool)
      modifies this
      ensures backgroundTaskHeld == granted
      ensures Snapshot() == old(Snapshot()).(taskHeld := granted)
    {
      backgroundTaskHeld := granted;
    }

    /** `stopBackgroundTask`, also run when the OS expires the task: idempotent. */
    method StopBackgroundTask()
      modifies this
      ensures Snapshot() == OnTaskEnd(old(Snapshot()))
      ensures !backgroundTaskHeld
      ensures !old(backgroundTaskHeld) ==> Snapshot() == old(Snapshot())
      ensures old(Valid()) ==> Valid()
    {
      if backgroundTaskHeld {
        backgroundTaskHeld := false;
      }
    }

    /** One event of a run, dispatched to the method that handles it. */
    method Apply(e: Event) returns (out: Output)
      requires Valid()
      modifies this
      ensures Valid()
      ensures (Snapshot(), out) == Step(Config(), old(Snapshot()), e)
    {
      match e
      case StartCall(canOpenUrl, bindSucceeds) =>
        var err := Start(canOpenUrl, bindSucceeds);
        out := Started(err);
      case StopCall =>
        Stop();
        out := Quiet;
      case ShutdownCall =>
        Shutdown();
        out := Quiet;
      case Request(path) =>
        if listening {
          var r := Handle(path);
          out := Reply(r);
        } else {
          out := Refused;
        }
      case EnteredBackground(granted) =>
        DidEnterBackground(granted);
        out := Quiet;
      case WillEnterForeground =>
        WillEnterForeground();
        out := Quiet;
      case TaskExpired =>
        StopBackgroundTask();
        out := Quiet;
    }
  }
}
