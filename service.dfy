/** The Service resource (service.py): restart a system service, unconditionally. */
module ServiceResource {
  import opened Wrappers
  import opened Transport
  import opened ResourceBase

  /** Service.__init__: the step must carry "service" (after the base "action"). */
  function New(attrs: Attrs, env: Option<Env>, scope: Scope,
               notIf: seq<Resource>, after: seq<Resource>): (r: Result<Resource, Failure>)
    requires "type" in attrs && attrs["type"] == "Service"
    ensures r.Success? <==> "action" in attrs && "service" in attrs
    ensures r.Success? ==> r.value == Init(Service(attrs["service"]), attrs, env, scope, notIf, after)
    ensures "action" !in attrs ==> r == Failure(MissingKey("action"))
    ensures "action" in attrs && "service" !in attrs ==> r == Failure(MissingKey("service"))
  {
    if "action" !in attrs then Failure(MissingKey("action"))
    else if "service" !in attrs then Failure(MissingKey("service"))
    else Success(Init(Service(attrs["service"]), attrs, env, scope, notIf, after))
  }

  function RestartEffect(w: World, r: Resource, h: HostState): (Outcome, HostState)
    requires r.kind.Service?
  {
    var (status, h1) := RunEffect(w, h, Restart(r.kind.service), r.env, false);
    (Exit(status), h1)
  }

  /** restart issues exactly one command, "service <name> restart", with the env; it
      returns that command's status and every call is a real restart (no probe). */
  lemma RestartIssuesOneCommand(w: World, r: Resource, h: HostState)
    requires r.kind.Service?
    ensures var (o, h1) := RestartEffect(w, r, h);
            && Render(Restart(r.kind.service)) == "service " + r.kind.service + " restart"
            && h1.trace == h.trace + [Exec(Restart(r.kind.service), r.env, false)]
            && o == Exit(ExitStatus(w, h.packages, Restart(r.kind.service)))
            && h1.packages == h.packages && h1.files == h.files
  {
  }

  /** No idempotency check: restarting twice issues the command twice. */
  lemma RestartTwiceRestartsTwice(w: World, r: Resource, h: HostState)
    requires r.kind.Service?
    ensures var h2 := RestartEffect(w, r, RestartEffect(w, r, h).1).1;
            h2.trace == h.trace + [Exec(Restart(r.kind.service), r.env, false), Exec(Restart(r.kind.service), r.env, false)]
  {
  }

  method ConvergeRestart(r: Resource, host: Host) returns (out: Outcome)
    requires r.kind.Service?
    modifies host
    ensures (out, host.State()) == RestartEffect(host.world, r, old(host.State()))
  {
    var status := host.Run(Restart(r.kind.service), r.env, false);
    out := Exit(status);
  }
}
