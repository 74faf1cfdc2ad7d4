# Certificate install server, modelled in Dafny

This project models the iOS side of a Capacitor plugin that installs a
trust certificate. A native app cannot hand iOS a certificate directly, so
the plugin starts a small HTTP server on `localhost` and opens the system
browser at it. The browser is walked through the steps: a `/start` page
keeps redirecting to `/install`. The first `/install` serves the
certificate bytes with content type `application/x-x509-ca-cert`. Later
requests get the follow-up instructions. Background and foreground
notifications keep the server alive while the browser is in front, and end
the flow once the user comes back to the app.

The model has six modules:

- `Wrappers` (`wrappers.dfy`) holds the `Option` type, the model's
  counterpart of Swift's optionals.
- `Pages` (`pages.dfy`) holds the two string builders, `baseURL` and
  `basePage`. They are pure functions, together with the decimal rendering
  of the port and a parser that reads a base URL back.
- `Protocol` (`protocol.dfy`) holds the protocol as values. It has the four
  states, the responses, one function per operation and handler giving the
  new server fields, and runs of events with lemmas about every run.
- `Server` (`server.dfy`) is the `ConfigServer` class. Its fields are the
  source's fields, and its methods update them in place. Each method except
  `StartBackgroundTask` is proved to match a `Protocol` step;
  `StartBackgroundTask` states its new fields directly. The class invariant
  `Valid()` is kept by the methods that run on a live server: `Start`,
  `Stop`, `Shutdown`, the three route handlers and `Handle`,
  `DidEnterBackground`, `WillEnterForeground`, `StopBackgroundTask` and
  `Apply`. It is not promised by the helpers that are private in the Swift
  class (`RegisterForNotifications`, `UnregisterFromNotifications`,
  `ReturnedToApp`, `StartBackgroundTask`), which run only inside those
  methods, nor by the teardown `Deinit`.
- `Installer` (`installer.dfy`) is the `CertInstaller` class. It keeps at
  most one live server. A ghost set `retired` holds every server it
  replaced, and its invariant says each of them is stopped, unregistered and
  no longer listening.
- `Scenarios` (`scenarios.dfy`) is client code. It shows what the class
  contracts let a caller conclude about the intended flows.

What the OS tells the source is passed in as a method argument:

- `canOpenUrl` stands for `UIApplication.shared.canOpenURL`;
- `bindSucceeds` stands for whether `localServer.start` throws;
- `granted` stands for whether `beginBackgroundTask` returned a valid handle.

The browser launch is recorded: the URLs passed to `UIApplication.shared.open`
are appended to `launchedUrls`.

Some behaviour of the code that a reader might not expect, and that the
model keeps:

- The display name is never set by the caller. Every server gets the title
  "Profile install", and the `name` argument of the plugin call is never
  read.
- The name is put into the page title without HTML escaping.
  `TerminalPageHasNoScript` therefore requires a name without `<`.
- The port may be any `in_port_t` value, 0 to 65535.
- When the OS expires the background task, only the handle is released. A
  later foreground notification then does nothing, and the server keeps
  serving (`Scenarios.ExpiredTaskKeepsServing`).
- `/install` in `BackToApp` would serve the page without a script. That
  branch is never reached, because `returnedToApp` stops the listener in the
  same step that enters `BackToApp` (`Protocol.BackToAppRefusesRequests`).

## Model

| member | source | states |
|---|---|---|
| `Pages.Decimal` | ios/Plugin/Plugin.swift:112 | the port is rendered as a non-empty string of digits with no leading zero |
| `Pages.DecimalValue` | ios/Plugin/Plugin.swift:112 | the rendered digits denote exactly the port |
| `Pages.BaseUrl` | ios/Plugin/Plugin.swift:110-117 | the URL starts with `http://localhost:` and, given a component, ends with `/` and that component; `BaseUrlRoundTrip` and `BaseUrlInjective` state that port and component can be read back |
| `Pages.BaseUrlRoundTrip` | ios/Plugin/Plugin.swift:110-117 | parsing `baseURL(port, component)` gives back that port and that component, with or without a component |
| `Pages.BaseUrlInjective` | ios/Plugin/Plugin.swift:110-117 | two base URLs are equal only when their ports and components are equal |
| `Pages.BasePage` | ios/Plugin/Plugin.swift:119-128 | the page starts with the fixed head, puts the display name right after it as the title, and ends with the fixed body; `RedirectPageNavigates` and `TerminalPageHasNoScript` state what the script part holds |
| `Pages.RedirectPageNavigates` | ios/Plugin/Plugin.swift:119-128 | with a component, the page holds a `<script>` element whose `load` function sets `window.location.href` to that component's base URL and which runs `load` every 600 ms |
| `Pages.TerminalPageHasNoScript` | ios/Plugin/Plugin.swift:119-128 | without a component, no `<` of the page is followed by `s` or `S`, so it opens no script element in any letter case (and contains no `<script>`), provided the unescaped title holds no `<` |
| `Pages.DefaultTerminalPageHasNoScript` | ios/Plugin/Plugin.swift:15 | the page without a component and with the default title "Profile install" opens no script element in any letter case |
| `Pages.InstructionsRequestShutdown` | ios/Plugin/Plugin.swift:98 | the instructions page holds a `<script>` element that fetches `/shutdown` |
| `Protocol.RouteOf` | ios/Plugin/Plugin.swift:80-104 | a path reaches the `/start`, `/install` or `/shutdown` handler exactly when it is that route, with or without one trailing `/`; `Server.ConfigServer.Handle` dispatches on it |
| `Protocol.StepKeepsCoherent` | ios/Plugin/Plugin.swift:40-184 | every operation, handler and notification keeps two facts: notifications are registered exactly while the state is not `Stopped`, and a server in `BackToApp` does not listen |
| `Protocol.RunKeepsCoherent` | ios/Plugin/Plugin.swift:40-184 | every run of events from a coherent server ends coherent |
| `Protocol.StepEntersStatesOnlyAsAllowed` | ios/Plugin/Plugin.swift:53 | `Ready` is entered only by a `start()` whose URL opens and whose bind succeeds |
| `Protocol.InstalledOnlyAfterInstall` | ios/Plugin/Plugin.swift:92-96 | a run ends in `InstalledConfig` only if some `/install` request was answered, while `Ready` and listening, with the certificate bytes |
| `Protocol.BackToAppOnlyAfterForeground` | ios/Plugin/Plugin.swift:130-136 | a run ends in `BackToApp` only after a foreground notification that came while a background handle was held and the server was not stopped |
| `Protocol.TaskHeldOnlyAfterGrant` | ios/Plugin/Plugin.swift:157-161 | a background handle is held only after a background notification, with the server not stopped, for which the OS granted a handle |
| `Protocol.StepAcquiresTaskOnlyWhenGranted` | ios/Plugin/Plugin.swift:170-177 | a single step acquires a handle only through a granted background notification while not stopped |
| `Protocol.ReadyAgainOnlyAfterRestart` | ios/Plugin/Plugin.swift:40-63 | once a run has left `Ready`, it is `Ready` again only after a successful `start()` in between |
| `Protocol.CertServedOncePerStart` | ios/Plugin/Plugin.swift:92-96 | between two responses carrying the certificate there is always a successful `start()` |
| `Protocol.BackToAppRefusesRequests` | ios/Plugin/Plugin.swift:99-101 | a request arriving in `BackToApp` finds the listener stopped, so this `/install` branch is never served |
| `Protocol.RepliesAreDefined` | ios/Plugin/Plugin.swift:78-108 | every request the listener answers gets one of six responses: 404, the redirect page, the certificate bytes, the instructions, the terminal page or an empty 200 |
| `Protocol.StopIdempotent` | ios/Plugin/Plugin.swift:65-71 | `stop()` twice equals `stop()` once, and on a coherent server it leaves the state `Stopped` and notifications unregistered |
| `Protocol.StartUrlReachesStartHandler` | ios/Plugin/Plugin.swift:42-43 | the URL `start()` opens parses to the server's own port and the component `start/`, and the path formed from that parsed component reaches the `/start` handler |
| `Protocol.RedirectReachesInstallHandler` | ios/Plugin/Plugin.swift:82 | the `/start` page holds a `<script>` element whose `load` navigates, every 600 ms, to a URL that parses to the server's own port and the component `install/`, and the path formed from that parsed component reaches the `/install` handler |
| `Server.ConfigServer.constructor` | ios/Plugin/Plugin.swift:29-36 | a new server keeps the given port and the payload unmodified, is `Stopped`, unregistered, holds no handle and does not listen |
| `Server.ConfigServer.Deinit` | ios/Plugin/Plugin.swift:24-27 | on teardown, notifications end up unregistered |
| `Server.ConfigServer.Start` | ios/Plugin/Plugin.swift:40-63 | an unopenable URL gives `BadUrl` and nothing changes; a failed bind gives `BindFailed`, leaves the server `Stopped` and unregistered, and opens no browser; otherwise the result is no error, the state is `Ready`, the server is registered and listening, and `/start/` was opened |
| `Server.ConfigServer.Stop` | ios/Plugin/Plugin.swift:65-71 | afterwards the state is `Stopped` and notifications are unregistered; a call on a stopped server changes nothing |
| `Server.ConfigServer.Shutdown` | ios/Plugin/Plugin.swift:73-75 | the listener stops and the protocol state is untouched |
| `Server.ConfigServer.HandleStart` | ios/Plugin/Plugin.swift:80-87 | the answer is HTML exactly when the state is `Ready`, and it is then the page redirecting to `install/`; otherwise it is 404; no field changes |
| `Server.ConfigServer.HandleInstall` | ios/Plugin/Plugin.swift:88-103 | in `Ready`: `InstalledConfig`, status 200, the certificate content type and exactly the constructor's bytes; in any other state nothing changes; `Stopped` gives 404, `InstalledConfig` the instructions, `BackToApp` the page without script |
| `Server.ConfigServer.HandleShutdown` | ios/Plugin/Plugin.swift:104-107 | in any state: 200 with an empty body, the listener stops, the protocol state is untouched |
| `Server.ConfigServer.Handle` | ios/Plugin/Plugin.swift:78-108 | a request goes to the handler its path names, ignoring a trailing `/`; an unregistered path gets 404 and changes nothing |
| `Server.ConfigServer.ReturnedToApp` | ios/Plugin/Plugin.swift:130-136 | a server that is not stopped moves to `BackToApp` and stops listening; a stopped one is left alone |
| `Server.ConfigServer.RegisterForNotifications` | ios/Plugin/Plugin.swift:138-145 | afterwards notifications are registered; when they already were, nothing changes |
| `Server.ConfigServer.UnregisterFromNotifications` | ios/Plugin/Plugin.swift:147-154 | afterwards notifications are unregistered; when they already were, nothing changes |
| `Server.ConfigServer.DidEnterBackground` | ios/Plugin/Plugin.swift:157-161 | a background handle is requested only when the state is not `Stopped` |
| `Server.ConfigServer.WillEnterForeground` | ios/Plugin/Plugin.swift:163-168 | without a held handle nothing changes; with one, the handle is released and a server that is not stopped moves to `BackToApp` and stops listening |
| `Server.ConfigServer.StartBackgroundTask` | ios/Plugin/Plugin.swift:170-177 | the handle the OS returns, valid or not, replaces the held one |
| `Server.ConfigServer.StopBackgroundTask` | ios/Plugin/Plugin.swift:179-184 | afterwards no handle is held; when none was, nothing changes |
| `Server.ConfigServer.Apply` | ios/Plugin/Plugin.swift:78-184 | each event (a control call, a request while listening, a notification, an expiry) changes the server exactly as the protocol step does, and a request to a stopped listener is refused |
| `Installer.ResultOf` | ios/Plugin/Plugin.swift:206-211 | the call succeeds exactly when `start()` returns no error, and otherwise fails with that error |
| `Installer.CertInstaller.constructor` | ios/Plugin/Plugin.swift:194 | a new installer holds no server |
| `Installer.CertInstaller.InstallCert` | ios/Plugin/Plugin.swift:196-214 | a missing value is rejected with "value required" before any server is touched; otherwise the port defaults to 8080, the previous server is stopped, shut down and retired, and a fresh server with the given bytes is started; the call succeeds exactly when the URL opens and the bind succeeds, and every replaced server stays stopped, unregistered and silent |

## Left out

- Threading is not modelled. `DispatchQueue.main.async` and the interleaving of handler callbacks with notification callbacks are left out, and every event is a sequential method call.
- The Swifter `HttpServer` is reduced to a `listening` flag, and its socket binding to the `bindSucceeds` input. A failed bind leaves the flag as it was. Its router is modelled only as far as matching `/start/` to `/start`, by ignoring one trailing `/`.
- `UIApplication.shared.canOpenURL` is the `canOpenUrl` input. `UIApplication.shared.open` is recorded in `launchedUrls`. The `URL(string:)!` unwrap is not modelled.
- `NotificationCenter` observer registration is reduced to the `registeredForNotifications` flag.
- `beginBackgroundTask` and `endBackgroundTask` are reduced to the `backgroundTaskHeld` flag. A second background notification while a handle is held overwrites the handle without ending it. The model shows the overwrite, but not the OS handle that is then never ended.
- `startTime` is written and never read, so it is not modelled.
- The payload enters as bytes: `value.data(using: .utf8)!` is not modelled. The port conversion `in_port_t(port)`, which traps outside 0 to 65535, becomes a requirement of `InstallCert`.
- `call.error("\(err as Any)")` is modelled as `StartFailed(err)`, not as the text of the error's description.
- android/src/main/java/com/start9labs/cert/CertInstaller.java, src/web.ts and src/definitions.ts are not part of this model. They are the Android intent wrapper, the browser download fallback and the TypeScript interface.
