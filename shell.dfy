/** The Shell resource (shell.py): run the configured command verbatim. It has no
    probe and no skip path; a guard's command runs quietly. */
module ShellResource {
  import opened Wrappers
  import opened Transport
  import opened ResourceBase

  /** Shell.__init__: the step must carry "command" (after the base "action"). */
  function New(attrs: Attrs, env: Option<Env>, scope: Scope,
               notIf: seq<Resource>, after: seq<Resource>): (r: Result<Resource, Failure>)
    requires "type" in attrs && attrs["type"] == "Shell"
    ensures r.Success? <==> "action" in attrs && "command" in attrs
    ensures r.Success? ==> r.value == Init(Shell(attrs["command"]), attrs, env, scope, notIf, after)
    ensures "action" !in attrs ==> r == Failure(MissingKey("action"))
    ensures "action" in attrs && "command" !in attrs ==> r == Failure(MissingKey("command"))
  {
    if "action" !in attrs then Failure(MissingKey("action"))
    else if "command" !in attrs then Failure(MissingKey("command"))
    else Success(Init(Shell(attrs["command"]), attrs, env, scope, notIf, after))
  }

  function ShellRunEffect(w: World, r: Resource, h: HostState): (Outcome, HostState)
    requires r.kind.Shell?
  {
    var (status, h1) := RunEffect(w, h, Raw(r.kind.command), r.env, r.scope == NotIf);
    (Exit(status), h1)
  }

  /** run sends exactly one call, the command text unchanged with the resource's env,
      quiet iff the resource is a guard, and returns that call's exit status. */
  lemma RunSendsCommandVerbatim(w: World, r: Resource, h: HostState)
    requires r.kind.Shell?
    ensures var (o, h1) := ShellRunEffect(w, r, h);
            && Render(Raw(r.kind.command)) == r.kind.command
            && h1.trace == h.trace + [Exec(Raw(r.kind.command), r.env, r.scope == NotIf)]
            && o == Exit(ExitStatus(w, h.packages, Raw(r.kind.command)))
            && h1.packages == h.packages && h1.files == h.files
  {
  }

  method ConvergeRun(r: Resource, host: Host) returns (out: Outcome)
    requires r.kind.Shell?
    modifies host
    ensures (out, host.State()) == ShellRunEffect(host.world, r, old(host.State()))
  {
    var status := host.Run(Raw(r.kind.command), r.env, r.scope == NotIf);
    out := Exit(status);
  }
}
