/**
 * `CertInstaller`: the plugin entry point.  It owns at most one
 * `ConfigServer`; each call stops and shuts down the previous server before
 * a new one replaces it, and reports the new server's start result.
 */
module Installer {
  import opened Wrappers
  import opened Pages
  import opened Protocol
  import opened Server

  /** The port used when the call does not name one. */
  const DefaultPort: Port := 8080

  /** How a plugin call ends: `call.success()` or `call.error(...)`. */
  datatype CallResult = Resolved | Rejected(message: string) | StartFailed(err: StartError)

  /** The call's answer for the result of `start()`. */
  function ResultOf(err: Option<StartError>): (r: CallResult)
    ensures r == Resolved <==> err == None
    ensures err.Some? ==> r == StartFailed(err.value)
  {
    match err
    case None => Resolved
    case Some(e) => StartFailed(e)
  }

  class CertInstaller {
    var server: ConfigServer?
    /** Every server this installer replaced. */
    ghost var retired: set<ConfigServer>

    /**
     * The single-flight invariant: the current server is coherent, and every
     * server it replaced is stopped, unregistered and no longer listening.
     */
    ghost predicate Valid()
      reads this, server, retired
    {
      && (server != null ==> server.Valid() && server !in retired)
      && forall s :: s in retired ==> s.Retired()
    }

    constructor ()
      ensures Valid()
      ensures server == null && retired == {}
    {
      server := null;
      retired := {};
    }

    /**
     * `installCert`: `value` and `port` are the call's optional arguments,
     * `canOpenUrl` and `bindSucceeds` what the OS answers inside `start()`.
     */
    method InstallCert(value: Option<seq<bv8>>, port: Option<int>, canOpenUrl: bool, bindSucceeds: bool)
      returns (result: CallResult)
      requires Valid()
      requires port.Some? ==> 0 <= port.value < 0x1_0000
      modifies this, server
      ensures Valid()
      ensures value.None? ==>
        && result == Rejected("value required")
        && server == old(server) && retired == old(retired)
        && (server != null ==> unchanged(server))
      ensures value.Some? ==>
        && server != null && fresh(server)
        && server.Config() == Settings(port.GetOr(DefaultPort), DefaultConfigName, value.value)
        && server.Snapshot() == OnStart(server.Config(), Fresh, canOpenUrl, bindSucceeds).0
        && result == ResultOf(OnStart(server.Config(), Fresh, canOpenUrl, bindSucceeds).1)
        && (result == Resolved <==> canOpenUrl && bindSucceeds)
        && retired == old(retired) + (if old(server) == null then {} else {old(server)})
    {
      if value.None? {
        return Rejected("value required");
      }
      var p: Port := if port.Some? then port.value else DefaultPort;
      if server != null {
        server.Stop();
        server.Shutdown();
        retired := retired + {server};
      }
      server := new ConfigServer(value.value, p);
      var err := server.Start(canOpenUrl, bindSucceeds);
      result := ResultOf(err);
    }
  }
}
