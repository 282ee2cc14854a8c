/** The DebPackage resource (debpackage.py): install or purge a Debian package, each
    guarded by a dpkg-query probe. */
module DebPackageResource {
  import opened Wrappers
  import opened Transport
  import opened ResourceBase

  /** DebPackage.__init__: the package is the "package" key when present, otherwise the
      raw "name" key (which must then exist). */
  function New(attrs: Attrs, env: Option<Env>, scope: Scope,
               notIf: seq<Resource>, after: seq<Resource>): (r: Result<Resource, Failure>)
    requires "type" in attrs && attrs["type"] == "DebPackage"
    ensures r.Success? <==> "action" in attrs && ("package" in attrs || "name" in attrs)
    ensures r.Success? ==> r.value.kind == DebPackage(if "package" in attrs then attrs["package"] else attrs["name"])
    ensures r.Success? ==> r.value == Init(r.value.kind, attrs, env, scope, notIf, after)
    ensures "action" !in attrs ==> r == Failure(MissingKey("action"))
  {
    if "action" !in attrs then Failure(MissingKey("action"))
    else if "package" in attrs then Success(Init(DebPackage(attrs["package"]), attrs, env, scope, notIf, after))
    else if "name" in attrs then Success(Init(DebPackage(attrs["name"]), attrs, env, scope, notIf, after))
    else Failure(MissingKey("name"))
  }

  /** _package_installed: the quiet probe, without the resource's env. */
  function InstalledEffect(w: World, pkg: string, h: HostState): (bool, HostState)
  {
    var (status, h1) := RunEffect(w, h, Probe(pkg), map[], true);
    (status == 0, h1)
  }

  function InstallEffect(w: World, r: Resource, h: HostState): (Outcome, HostState)
    requires r.kind.DebPackage?
  {
    var (installed, h1) := InstalledEffect(w, r.kind.package, h);
    if installed then (Exit(0), Log(h1, Skipped(r.name, AlreadyInstalled)))
    else
      var (status, h2) := RunEffect(w, h1, Install(r.kind.package), r.env, false);
      (Exit(status), h2)
  }

  function RemoveEffect(w: World, r: Resource, h: HostState): (Outcome, HostState)
    requires r.kind.DebPackage?
  {
    var (installed, h1) := InstalledEffect(w, r.kind.package, h);
    if !installed then (Exit(0), Log(h1, Skipped(r.name, NotInstalled)))
    else
      var (status, h2) := RunEffect(w, h1, Purge(r.kind.package), r.env, false);
      (Exit(status), h2)
  }

  /** The probe says "installed" exactly when its command exits with 0, which on the
      simulated host is when the package is in the installed set; it changes nothing. */
  lemma ProbeMeansInstalled(w: World, pkg: string, h: HostState)
    ensures InstalledEffect(w, pkg, h).0 <==> ExitStatus(w, h.packages, Probe(pkg)) == 0
    ensures InstalledEffect(w, pkg, h).0 <==> pkg in h.packages
    ensures InstalledEffect(w, pkg, h).1 == Log(h, Exec(Probe(pkg), map[], true))
  {
  }

  /** install of an installed package: only the probe and the skip notice, status 0. */
  lemma InstallSkipsWhenInstalled(w: World, r: Resource, h: HostState)
    requires r.kind.DebPackage? && r.kind.package in h.packages
    ensures InstallEffect(w, r, h)
         == (Exit(0), Log(Log(h, Exec(Probe(r.kind.package), map[], true)), Skipped(r.name, AlreadyInstalled)))
  {
  }

  /** install of an absent package: the probe, then apt-get install -y with the
      resource's env, whose exit status is returned unchanged; on success the package
      is installed. */
  lemma InstallRunsWhenAbsent(w: World, r: Resource, h: HostState)
    requires r.kind.DebPackage? && r.kind.package !in h.packages
    ensures var h1 := Log(h, Exec(Probe(r.kind.package), map[], true));
            var (o, h2) := InstallEffect(w, r, h);
            o == Exit(ExitStatus(w, h1.packages, Install(r.kind.package)))
            && h2.trace == h1.trace + [Exec(Install(r.kind.package), r.env, false)]
            && h2.files == h.files
            && h2.packages == if o.status == 0 then h.packages + {r.kind.package} else h.packages
  {
  }

  /** remove of an absent package: only the probe and the skip notice, status 0. */
  lemma RemoveSkipsWhenAbsent(w: World, r: Resource, h: HostState)
    requires r.kind.DebPackage? && r.kind.package !in h.packages
    ensures RemoveEffect(w, r, h)
         == (Exit(0), Log(Log(h, Exec(Probe(r.kind.package), map[], true)), Skipped(r.name, NotInstalled)))
  {
  }

  /** remove of an installed package: the probe, then apt-get --purge autoremove -y
      with the env, whose status is returned; on success the package is gone. */
  lemma RemoveRunsWhenInstalled(w: World, r: Resource, h: HostState)
    requires r.kind.DebPackage? && r.kind.package in h.packages
    ensures var h1 := Log(h, Exec(Probe(r.kind.package), map[], true));
            var (o, h2) := RemoveEffect(w, r, h);
            o == Exit(ExitStatus(w, h1.packages, Purge(r.kind.package)))
            && h2.trace == h1.trace + [Exec(Purge(r.kind.package), r.env, false)]
            && h2.files == h.files
            && h2.packages == if o.status == 0 then h.packages - {r.kind.package} else h.packages
  {
  }

  /** Idempotence: after an install that returned 0, a second install runs only the
      probe and reports the skip. */
  lemma InstallIdempotent(w: World, r: Resource, h: HostState)
    requires r.kind.DebPackage?
    requires InstallEffect(w, r, h).0 == Exit(0)
    ensures var h1 := InstallEffect(w, r, h).1;
            InstallEffect(w, r, h1) == (Exit(0), Log(Log(h1, Exec(Probe(r.kind.package), map[], true)), Skipped(r.name, AlreadyInstalled)))
  {
    var h1 := InstallEffect(w, r, h).1;
    assert r.kind.package in h1.packages;
  }

  /** Idempotence of remove: after a remove that returned 0, a second one runs only the
      probe and reports the skip. */
  lemma RemoveIdempotent(w: World, r: Resource, h: HostState)
    requires r.kind.DebPackage?
    requires RemoveEffect(w, r, h).0 == Exit(0)
    ensures var h1 := RemoveEffect(w, r, h).1;
            RemoveEffect(w, r, h1) == (Exit(0), Log(Log(h1, Exec(Probe(r.kind.package), map[], true)), Skipped(r.name, NotInstalled)))
  {
    var h1 := RemoveEffect(w, r, h).1;
    assert r.kind.package !in h1.packages;
  }

  method PackageInstalled(pkg: string, host: Host) returns (installed: bool)
    modifies host
    ensures (installed, host.State()) == InstalledEffect(host.world, pkg, old(host.State()))
  {
    var status := host.Run(Probe(pkg), map[], true);
    installed := status == 0;
  }

  method ConvergeInstall(r: Resource, host: Host) returns (out: Outcome)
    requires r.kind.DebPackage?
    modifies host
    ensures (out, host.State()) == InstallEffect(host.world, r, old(host.State()))
  {
    var installed := PackageInstalled(r.kind.package, host);
    if installed {
      host.Note(Skipped(r.name, AlreadyInstalled));
      return Exit(0);
    }
    var status := host.Run(Install(r.kind.package), r.env, false);
    out := Exit(status);
  }

  method ConvergeRemove(r: Resource, host: Host) returns (out: Outcome)
    requires r.kind.DebPackage?
    modifies host
    ensures (out, host.State()) == RemoveEffect(host.world, r, old(host.State()))
  {
    var installed := PackageInstalled(r.kind.package, host);
    if !installed {
      host.Note(Skipped(r.name, NotInstalled));
      return Exit(0);
    }
    var status := host.Run(Purge(r.kind.package), r.env, false);
    out := Exit(status);
  }
}
