/** The simulated remote host that stands in for the SSH and SFTP clients. Its state is
    the set of installed packages, the files by path, and the trace of every observable
    call in order; what commands exit with, and what the name lookups answer, is fixed
    by a World. Every transport call appends one event to the trace. */
module Transport {
  import opened Wrappers
  import opened PosixPath

  newtype byte = x: int | 0 <= x < 256

  type Env = map<string, string>

  /** Permission bits: the part of st_mode that chmod sets (mode & 0o7777). */
  type Perm = p: nat | p < 4096

  /** A remote file: st_mode is fileType * 0o10000 + perm, st_size is |content|. */
  datatype FileRecord = FileRecord(fileType: nat, perm: Perm, uid: int, gid: int, content: seq<byte>)

  function StMode(f: FileRecord): nat
  {
    f.fileType * 4096 + f.perm
  }

  /** The commands the resources send, with the text Render gives each. */
  datatype Command =
    | Probe(package: string)
    | Install(package: string)
    | Purge(package: string)
    | Touch(path: string)
    | Remove(path: string)
    | GroupId(group: string)
    | UserId(user: string)
    | Restart(service: string)
    | Raw(text: string)

  /** The exact command line each resource builds (debpackage.py, file.py, service.py,
      shell.py). */
  function Render(c: Command): string
  {
    match c
    case Probe(p) => "dpkg-query -W --showformat='${Status}\n' " + p + " | grep 'install ok installed'"
    case Install(p) => "apt-get install -y " + p
    case Purge(p) => "apt-get --purge autoremove -y " + p
    case Touch(f) => "touch " + f
    case Remove(f) => "rm " + f
    case GroupId(g) => "getent group " + g + " | awk -F: '{printf \"%d\",$3}'"
    case UserId(u) => "id -u " + u
    case Restart(s) => "service " + s + " restart"
    case Raw(t) => t
  }

  /** Why a resource reported "Skipped". */
  datatype SkipReason =
    | NotIfGuard
    | AlreadyInstalled
    | NotInstalled
    | AlreadyDeleted(path: string)
    | AlreadyConverged(path: string)

  /** One observable call. Skipped is the resource's skip notice; the rest are remote. */
  datatype Event =
    | Exec(cmd: Command, env: Env, quiet: bool)
    | OpenSession
    | CloseSession
    | ListDir(dir: string)
    | Stat(path: string)
    | Chmod(path: string, mode: nat)
    | Chown(path: string, uid: int, gid: int)
    | OpenWrite(path: string)
    | Truncate(path: string)
    | Write(path: string, chunk: seq<byte>)
    | Read(path: string)
    | Skipped(name: string, reason: SkipReason)

  /** The calls that change the remote host. */
  predicate IsMutation(e: Event)
  {
    match e
    case Exec(c, _, _) => !(c.Probe? || c.GroupId? || c.UserId?)
    case Chmod(_, _) => true
    case Chown(_, _, _) => true
    case OpenWrite(_) => true
    case Truncate(_) => true
    case Write(_, _) => true
    case _ => false
  }

  /** The fixed facts of a run: exit statuses by command text (0 when absent), the
      group and user databases, the local files, and the record a new file gets. */
  datatype World = World(
    status: map<string, int>,
    groups: map<string, nat>,
    users: map<string, nat>,
    local: map<string, seq<byte>>,
    blank: FileRecord)

  datatype HostState = HostState(packages: set<string>, files: map<string, FileRecord>, trace: seq<Event>)

  function Log(h: HostState, e: Event): (h': HostState)
    ensures h'.packages == h.packages && h'.files == h.files && h'.trace == h.trace + [e]
  {
    h.(trace := h.trace + [e])
  }

  /** The exit status of a command: the package probe (dpkg-query piped into grep)
      succeeds iff the package is installed; any other command exits with what the
      World says for its text. */
  function ExitStatus(w: World, packages: set<string>, c: Command): int
  {
    if c.Probe? then (if c.package in packages then 0 else 1)
    else if Render(c) in w.status then w.status[Render(c)]
    else 0
  }

  /** client.run(cmd, env, quiet): log the call, then apply the command's effect when
      it exits with 0. */
  function RunEffect(w: World, h: HostState, c: Command, env: Env, quiet: bool): (r: (int, HostState))
    ensures r.0 == ExitStatus(w, h.packages, c)
    ensures r.1.trace == h.trace + [Exec(c, env, quiet)]
    ensures r.0 != 0 ==> r.1.packages == h.packages && r.1.files == h.files
  {
    var status := ExitStatus(w, h.packages, c);
    var h1 := Log(h, Exec(c, env, quiet));
    if status != 0 then (status, h1)
    else match c
      case Install(p) => (status, h1.(packages := h1.packages + {p}))
      case Purge(p) => (status, h1.(packages := h1.packages - {p}))
      case Touch(f) => (status, if f in h1.files then h1 else h1.(files := h1.files[f := w.blank.(content := [])]))
      case Remove(f) => (status, h1.(files := h1.files - {f}))
      case _ => (status, h1)
  }

  /** The quiet id lookup (getent group / id -u) whose output is parsed with int():
      an unknown name prints nothing and int("") raises, modelled as None. */
  function LookupEffect(w: World, h: HostState, c: Command): (r: (Option<nat>, HostState))
    requires c.GroupId? || c.UserId?
    ensures r.1 == Log(h, Exec(c, map[], true))
  {
    (LookupValue(w, c), Log(h, Exec(c, map[], true)))
  }

  /** What the lookup prints for a known name; None for an unknown one. */
  function LookupValue(w: World, c: Command): Option<nat>
    requires c.GroupId? || c.UserId?
  {
    match c
    case GroupId(g) => if g in w.groups then Some(w.groups[g]) else None
    case UserId(u) => if u in w.users then Some(w.users[u]) else None
  }

  /** sftp.listdir(dir): the basenames of the files whose dirname is dir. */
  function Listing(files: map<string, FileRecord>, dir: string): set<string>
  {
    set p | p in files && Dirname(p) == dir :: Basename(p)
  }

  /** Every file is listed, under its basename, in its own directory. */
  lemma ListedInOwnDirectory(h: HostState, p: string)
    requires p in h.files
    ensures Basename(p) in Listing(h.files, Dirname(p))
  {
  }

  function StatEffect(h: HostState, p: string): (r: (Option<FileRecord>, HostState))
    ensures r.1 == Log(h, Stat(p))
    ensures r.0.Some? <==> p in h.files
  {
    (if p in h.files then Some(h.files[p]) else None, Log(h, Stat(p)))
  }

  /** sftp.chmod(path, mode): the server keeps the file type and sets mode & 0o7777.
      On an absent path SFTP raises IOError, which this and the chown, truncate and
      write effects leave out: create only calls them on a path it has just stat'ed or
      opened for writing. */
  function ChmodEffect(h: HostState, p: string, mode: nat): HostState
  {
    var h1 := Log(h, Chmod(p, mode));
    if p in h1.files then h1.(files := h1.files[p := h1.files[p].(perm := mode % 4096)]) else h1
  }

  function ChownEffect(h: HostState, p: string, uid: int, gid: int): HostState
  {
    var h1 := Log(h, Chown(p, uid, gid));
    if p in h1.files then h1.(files := h1.files[p := h1.files[p].(uid := uid, gid := gid)]) else h1
  }

  /** sftp.open(path, 'wb'): creates the file when absent, truncates it otherwise. */
  function OpenWriteEffect(w: World, h: HostState, p: string): HostState
  {
    var h1 := Log(h, OpenWrite(p));
    if p in h1.files then h1.(files := h1.files[p := h1.files[p].(content := [])])
    else h1.(files := h1.files[p := w.blank.(content := [])])
  }

  function TruncateEffect(h: HostState, p: string): HostState
  {
    var h1 := Log(h, Truncate(p));
    if p in h1.files then h1.(files := h1.files[p := h1.files[p].(content := [])]) else h1
  }

  /** dest.write(chunk) on a handle positioned at the end of what was written so far. */
  function WriteEffect(h: HostState, p: string, chunk: seq<byte>): HostState
  {
    var h1 := Log(h, Write(p, chunk));
    if p in h1.files then h1.(files := h1.files[p := h1.files[p].(content := h1.files[p].content + chunk)]) else h1
  }

  function ReadEffect(h: HostState, p: string): (r: (Option<seq<byte>>, HostState))
    ensures r.1 == Log(h, Read(p))
  {
    (if p in h.files then Some(h.files[p].content) else None, Log(h, Read(p)))
  }

  /** The remote host, updated in place by the transport calls. */
  class Host {
    const world: World
    var packages: set<string>
    var files: map<string, FileRecord>
    var trace: seq<Event>

    function State(): HostState
      reads this
    {
      HostState(packages, files, trace)
    }

    constructor (w: World, s: HostState)
      ensures world == w && State() == s
    {
      world := w;
      packages, files, trace := s.packages, s.files, s.trace;
    }

    method Run(c: Command, env: Env, quiet: bool) returns (status: int)
      modifies this
      ensures (status, State()) == RunEffect(world, old(State()), c, env, quiet)
    {
      status := ExitStatus(world, packages, c);
      trace := trace + [Exec(c, env, quiet)];
      if status == 0 {
        match c
        case Install(p) => packages := packages + {p};
        case Purge(p) => packages := packages - {p};
        case Touch(f) => if f !in files { files := files[f := world.blank.(content := [])]; }
        case Remove(f) => files := files - {f};
        case _ =>
      }
    }

    method Lookup(c: Command) returns (id: Option<nat>)
      requires c.GroupId? || c.UserId?
      modifies this
      ensures (id, State()) == LookupEffect(world, old(State()), c)
    {
      trace := trace + [Exec(c, map[], true)];
      match c
      case GroupId(g) => id := if g in world.groups then Some(world.groups[g]) else None;
      case UserId(u) => id := if u in world.users then Some(world.users[u]) else None;
    }

    /** Appends an event that has no effect on packages or files. */
    method Note(e: Event)
      modifies this
      ensures State() == Log(old(State()), e)
    {
      trace := trace + [e];
    }

    method ListDirectory(dir: string) returns (names: set<string>)
      modifies this
      ensures names == Listing(old(files), dir) && State() == Log(old(State()), ListDir(dir))
    {
      names := set p | p in files && Dirname(p) == dir :: Basename(p);
      trace := trace + [ListDir(dir)];
    }

    method StatFile(p: string) returns (st: Option<FileRecord>)
      modifies this
      ensures (st, State()) == StatEffect(old(State()), p)
    {
      st := if p in files then Some(files[p]) else None;
      trace := trace + [Stat(p)];
    }

    method ChmodFile(p: string, mode: nat)
      modifies this
      ensures State() == ChmodEffect(old(State()), p, mode)
    {
      trace := trace + [Chmod(p, mode)];
      if p in files { files := files[p := files[p].(perm := mode % 4096)]; }
    }

    method ChownFile(p: string, uid: int, gid: int)
      modifies this
      ensures State() == ChownEffect(old(State()), p, uid, gid)
    {
      trace := trace + [Chown(p, uid, gid)];
      if p in files { files := files[p := files[p].(uid := uid, gid := gid)]; }
    }

    method OpenForWrite(p: string)
      modifies this
      ensures State() == OpenWriteEffect(world, old(State()), p)
    {
      trace := trace + [OpenWrite(p)];
      if p in files {
        files := files[p := files[p].(content := [])];
      } else {
        files := files[p := world.blank.(content := [])];
      }
    }

    method TruncateFile(p: string)
      modifies this
      ensures State() == TruncateEffect(old(State()), p)
    {
      trace := trace + [Truncate(p)];
      if p in files { files := files[p := files[p].(content := [])]; }
    }

    method WriteChunk(p: string, chunk: seq<byte>)
      modifies this
      ensures State() == WriteEffect(old(State()), p, chunk)
    {
      trace := trace + [Write(p, chunk)];
      if p in files { files := files[p := files[p].(content := files[p].content + chunk)]; }
    }

    method ReadFile(p: string) returns (data: Option<seq<byte>>)
      modifies this
      ensures (data, State()) == ReadEffect(old(State()), p)
    {
      data := if p in files then Some(files[p].content) else None;
      trace := trace + [Read(p)];
    }
  }
}
