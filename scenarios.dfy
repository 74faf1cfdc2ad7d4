/**
 * Client code: what a caller of the two classes can conclude from their
 * contracts alone, for the flows the system is built for.
 */
module Scenarios {
  import opened Wrappers
  import opened Pages
  import opened Protocol
  import opened Server
  import opened Installer

  /** The bytes of the text `CERT-DATA`. */
  const CertData: seq<bv8> := [0x43, 0x45, 0x52, 0x54, 0x2D, 0x44, 0x41, 0x54, 0x41]

  /** Start, then `/start`: the browser was sent to `/start/` and gets the redirect page. */
  method StartThenRedirect() {
    var s := new ConfigServer(CertData, 9000);
    var err := s.Start(true, true);
    assert err == None && s.serverState == Ready;
    assert s.launchedUrls == [BaseUrl(9000, Some("start/"))];
    var r := s.Handle("/start");
    assert r == Html(BasePage(DefaultConfigName, 9000, Some("install/")));
  }

  /** Once `Ready`, `/install` twice: the exact bytes, then the instructions; `/shutdown` ends listening. */
  method InstallThenInstructions() {
    var s := new ConfigServer(CertData, 9000);
    var err := s.Start(true, true);
    var r := s.Handle("/install/");
    assert r == Cert("application/x-x509-ca-cert", CertData);
    assert s.serverState == InstalledConfig;
    r := s.Handle("/install");
    assert r == Html(InstructionsPage) && s.serverState == InstalledConfig;
    r := s.Handle("/shutdown");
    assert r == Empty && !s.listening && s.serverState == InstalledConfig;
  }

  /**
   * The `/install` handler, called directly on a server that was never
   * started, answers 404; in a run such a server does not listen yet.
   */
  method InstallBeforeStart() {
    var s := new ConfigServer(CertData, 9000);
    var r := s.Handle("/install");
    assert r == NotFound && s.serverState == Stopped;
    var out := s.Apply(Request("/install"));
    assert out == Refused;
  }

  /** `stop()` leaves the listener running, so a later `/install` reaches the handler and is 404. */
  method InstallAfterStop() {
    var s := new ConfigServer(CertData, 9000);
    var err := s.Start(true, true);
    s.Stop();
    var out := s.Apply(Request("/install"));
    assert out == Reply(NotFound);
  }

  /** Background then foreground while `Ready`: the handle comes and goes and the listener stops. */
  method BackgroundRoundTrip() {
    var s := new ConfigServer([], 8080);
    var err := s.Start(true, true);
    s.DidEnterBackground(true);
    assert s.backgroundTaskHeld;
    s.WillEnterForeground();
    assert !s.backgroundTaskHeld && s.serverState == BackToApp && !s.listening;
  }

  /** An expired handle turns the later foreground notification into a no-op. */
  method ExpiredTaskKeepsServing() {
    var s := new ConfigServer([], 8080);
    var err := s.Start(true, true);
    s.DidEnterBackground(true);
    s.StopBackgroundTask();
    s.WillEnterForeground();
    assert s.serverState == Ready && s.listening;
  }

  /** A failed bind leaves the server stopped and the browser untouched. */
  method BindFailure() {
    var s := new ConfigServer(CertData, 9000);
    var err := s.Start(true, false);
    assert err == Some(BindFailed) && s.serverState == Stopped && s.launchedUrls == [];
  }

  /** Two installs in a row: the first server is retired, the second serves on its own port. */
  method InstallTwice() {
    var installer := new CertInstaller();
    var r1 := installer.InstallCert(Some(CertData), None, true, true);
    var first := installer.server;
    assert r1 == Resolved && first != null && first.listeningPort == 8080;
    var r2 := installer.InstallCert(Some(CertData), Some(9000), true, true);
    assert r2 == Resolved && installer.server != first;
    assert first in installer.retired && first.Retired() && !first.listening;
    assert installer.server != null && installer.server.listening && installer.server.listeningPort == 9000;
    var r3 := installer.InstallCert(None, Some(9001), true, true);
    assert r3 == Rejected("value required") && installer.server.listeningPort == 9000;
  }
}
