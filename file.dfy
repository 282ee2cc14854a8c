/** The File resource (file.py): delete a remote file, or create one and converge its
    existence, mode, owner and group, and content facet by facet, reporting "already
    converged" only when no facet had to change anything. */
module FileResource {
  import opened Wrappers
  import opened PosixPath
  import opened Numerals
  import opened Transport
  import opened ResourceBase

  function Opt(attrs: Attrs, key: string): Option<string>
  {
    if key in attrs then Some(attrs[key]) else None
  }

  /** File.__init__: every File field is stored only when the step carries it. */
  function New(attrs: Attrs, env: Option<Env>, scope: Scope,
               notIf: seq<Resource>, after: seq<Resource>): (r: Result<Resource, Failure>)
    requires "type" in attrs && attrs["type"] == "File"
    ensures r.Success? <==> "action" in attrs
    ensures r.Success? ==> r.value.kind == File(Opt(attrs, "source"), Opt(attrs, "destination"), Opt(attrs, "file"),
                                                Opt(attrs, "group"), Opt(attrs, "mode"), Opt(attrs, "owner"))
    ensures r.Success? ==> r.value == Init(r.value.kind, attrs, env, scope, notIf, after)
    ensures r.Failure? ==> r == Failure(MissingKey("action"))
  {
    if "action" !in attrs then Failure(MissingKey("action"))
    else
      var kind := File(Opt(attrs, "source"), Opt(attrs, "destination"), Opt(attrs, "file"),
                       Opt(attrs, "group"), Opt(attrs, "mode"), Opt(attrs, "owner"));
      Success(Init(kind, attrs, env, scope, notIf, after))
  }

  // ---------------------------------------------------------------------------
  // Chunks: iterating a binary file yields its lines, each ending at a newline.

  const Newline: byte := 10

  /** The length of the first line of s: up to and including the first newline, or
      all of s when there is none. */
  function LineLength(s: seq<byte>): (k: nat)
    requires s != []
    ensures 0 < k <= |s|
  {
    if s[0] == Newline || |s| == 1 then 1 else 1 + LineLength(s[1..])
  }

  /** The first line holds no newline except as its last byte, and it stops at the
      first newline. */
  lemma {:induction false} LineLengthStopsAtNewline(s: seq<byte>)
    requires s != []
    ensures forall j :: 0 <= j < LineLength(s) - 1 ==> s[j] != Newline
    ensures LineLength(s) < |s| ==> s[LineLength(s) - 1] == Newline
  {
    if !(s[0] == Newline || |s| == 1) {
      LineLengthStopsAtNewline(s[1..]);
    }
  }

  /** The chunks `for line in src` yields from bytes s. */
  function Lines(s: seq<byte>): seq<seq<byte>>
    decreases |s|
  {
    if s == [] then [] else [s[..LineLength(s)]] + Lines(s[LineLength(s)..])
  }

  /** Python's line iteration: the chunks are non-empty, newline-free except for a
      final newline, and every chunk but the last ends in a newline. */
  lemma {:induction false} LinesAreLines(s: seq<byte>)
    ensures forall i :: 0 <= i < |Lines(s)| ==> Lines(s)[i] != []
    ensures forall i, j :: 0 <= i < |Lines(s)| && 0 <= j < |Lines(s)[i]| - 1 ==> Lines(s)[i][j] != Newline
    ensures forall i :: 0 <= i < |Lines(s)| - 1 ==> Lines(s)[i][|Lines(s)[i]| - 1] == Newline
    decreases |s|
  {
    if s != [] {
      var k := LineLength(s);
      LineLengthStopsAtNewline(s);
      LinesAreLines(s[k..]);
      var ls := Lines(s);
      assert ls[0] == s[..k];
      assert forall i :: 1 <= i < |ls| ==> ls[i] == Lines(s[k..])[i - 1];
      if |ls| > 1 {
        assert k < |s|;
      }
    }
  }

  function Flatten(ls: seq<seq<byte>>): seq<byte>
  {
    if ls == [] then [] else ls[0] + Flatten(ls[1..])
  }

  /** Writing the chunks one after another reproduces the source bytes exactly. */
  lemma {:induction false} LinesFlatten(s: seq<byte>)
    ensures Flatten(Lines(s)) == s
    decreases |s|
  {
    if s != [] {
      var k := LineLength(s);
      LinesFlatten(s[k..]);
      assert Lines(s)[1..] == Lines(s[k..]);
      assert s[..k] + s[k..] == s;
    }
  }

  function WriteEvents(p: string, cs: seq<seq<byte>>): seq<Event>
  {
    if cs == [] then [] else [Write(p, cs[0])] + WriteEvents(p, cs[1..])
  }

  /** dest.write(line) for each chunk in turn. */
  function WriteChunksEffect(h: HostState, p: string, cs: seq<seq<byte>>): HostState
    decreases cs
  {
    if cs == [] then h else WriteChunksEffect(WriteEffect(h, p, cs[0]), p, cs[1..])
  }

  /** On an existing file the chunks are appended in order, one Write event each. */
  lemma {:induction false} WriteChunksAppend(h: HostState, p: string, cs: seq<seq<byte>>)
    requires p in h.files
    ensures var h' := WriteChunksEffect(h, p, cs);
            && h'.packages == h.packages
            && h'.trace == h.trace + WriteEvents(p, cs)
            && h'.files == h.files[p := h.files[p].(content := h.files[p].content + Flatten(cs))]
    decreases cs
  {
    var rec := h.files[p];
    if cs == [] {
      assert rec.content + Flatten(cs) == rec.content;
      assert h.files[p := rec.(content := rec.content)] == h.files;
    } else {
      var rec1 := rec.(content := rec.content + cs[0]);
      var h1 := WriteEffect(h, p, cs[0]);
      assert h1.files == h.files[p := rec1];
      assert h1.trace == h.trace + [Write(p, cs[0])];
      WriteChunksAppend(h1, p, cs[1..]);
      assert Flatten(cs) == cs[0] + Flatten(cs[1..]);
      assert rec1.content + Flatten(cs[1..]) == rec.content + Flatten(cs);
      assert h.files[p := rec1][p := rec1.(content := rec1.content + Flatten(cs[1..]))]
          == h.files[p := rec.(content := rec.content + Flatten(cs))];
      assert WriteEvents(p, cs) == [Write(p, cs[0])] + WriteEvents(p, cs[1..]);
      assert h1.trace + WriteEvents(p, cs[1..]) == h.trace + WriteEvents(p, cs);
    }
  }

  /** _file_write: open the destination for writing, truncate it, write every chunk. */
  function FileWriteEffect(w: World, h: HostState, dst: string, data: seq<byte>): HostState
  {
    WriteChunksEffect(TruncateEffect(OpenWriteEffect(w, h, dst), dst), dst, Lines(data))
  }

  /** After _file_write the destination holds exactly the source bytes, keeps its own
      type, mode and owner (or gets the new-file record), and nothing else changed. */
  lemma FileWriteReplacesContent(w: World, h: HostState, dst: string, data: seq<byte>)
    ensures var h' := FileWriteEffect(w, h, dst, data);
            && h'.packages == h.packages
            && h'.trace == h.trace + [OpenWrite(dst), Truncate(dst)] + WriteEvents(dst, Lines(data))
            && h'.files == h.files[dst := (if dst in h.files then h.files[dst] else w.blank).(content := data)]
  {
    var rec := (if dst in h.files then h.files[dst] else w.blank).(content := []);
    var h2 := TruncateEffect(OpenWriteEffect(w, h, dst), dst);
    OpenTruncateEmpties(w, h, dst);
    WriteAfterTruncate(h, h2, dst, rec, data);
  }

  /** Writing the chunks of data into an emptied record leaves exactly data there. */
  lemma WriteAfterTruncate(h: HostState, h2: HostState, dst: string, rec: FileRecord, data: seq<byte>)
    requires rec.content == []
    requires h2 == h.(files := h.files[dst := rec], trace := h.trace + [OpenWrite(dst), Truncate(dst)])
    ensures var h' := WriteChunksEffect(h2, dst, Lines(data));
            && h'.packages == h.packages
            && h'.trace == h.trace + [OpenWrite(dst), Truncate(dst)] + WriteEvents(dst, Lines(data))
            && h'.files == h.files[dst := rec.(content := data)]
  {
    assert h2.files[dst] == rec;
    var cs := Lines(data);
    WriteChunksAppend(h2, dst, cs);
    LinesFlatten(data);
    assert rec.content + Flatten(cs) == data;
    assert h2.files[dst := rec.(content := data)] == h.files[dst := rec.(content := data)];
  }

  /** Opening for writing and truncating leave the destination empty, with its own
      record or the new-file one. */
  lemma OpenTruncateEmpties(w: World, h: HostState, dst: string)
    ensures var h2 := TruncateEffect(OpenWriteEffect(w, h, dst), dst);
            var rec := (if dst in h.files then h.files[dst] else w.blank).(content := []);
            && h2.packages == h.packages
            && h2.files == h.files[dst := rec]
            && h2.trace == h.trace + [OpenWrite(dst), Truncate(dst)]
  {
    var rec := (if dst in h.files then h.files[dst] else w.blank).(content := []);
    var h1 := OpenWriteEffect(w, h, dst);
    assert h1.files == h.files[dst := rec];
    assert h1.files[dst := rec] == h1.files;
  }

  // ---------------------------------------------------------------------------
  // The facets.

  /** _file_exists(sftp, src, dest): whether basename(src) is listed in dirname(dest). */
  function FileExistsEffect(h: HostState, src: string, dst: string): (bool, HostState)
  {
    (Basename(src) in Listing(h.files, Dirname(dst)), Log(h, ListDir(Dirname(dst))))
  }

  /** A group or owner made of digits is used as the id; anything else is looked up
      on the remote host (_get_gid, _get_uid). */
  function ResolveId(w: World, text: string, lookup: Command): Option<nat>
    requires lookup.GroupId? || lookup.UserId?
  {
    if IsDigits(text) then Some(DecimalValue(text)) else LookupValue(w, lookup)
  }

  /** The remote calls an id resolution makes: none for digits, one quiet lookup for a name. */
  function LookupEvents(text: string, lookup: Command): seq<Event>
  {
    if IsDigits(text) then [] else [Exec(lookup, map[], true)]
  }

  function ResolveIdEffect(w: World, h: HostState, text: string, lookup: Command): (Option<nat>, HostState)
    requires lookup.GroupId? || lookup.UserId?
  {
    if IsDigits(text) then (Some(DecimalValue(text)), h) else LookupEffect(w, h, lookup)
  }

  /** A group or owner made of digits is its decimal value and costs no remote call;
      a name costs exactly one quiet lookup and resolves iff the host's group or user
      table knows it, to the id the table gives. Nothing but the trace changes, and
      the id does not depend on the host state. */
  lemma ResolveIdCalls(w: World, h: HostState, text: string, lookup: Command)
    requires lookup.GroupId? || lookup.UserId?
    ensures IsDigits(text) ==> ResolveIdEffect(w, h, text, lookup) == (Some(DecimalValue(text)), h)
    ensures !IsDigits(text) ==> ResolveIdEffect(w, h, text, lookup).1 == Log(h, Exec(lookup, map[], true))
    ensures !IsDigits(text) && lookup.GroupId? ==>
              ResolveIdEffect(w, h, text, lookup).0 == if lookup.group in w.groups then Some(w.groups[lookup.group]) else None
    ensures !IsDigits(text) && lookup.UserId? ==>
              ResolveIdEffect(w, h, text, lookup).0 == if lookup.user in w.users then Some(w.users[lookup.user]) else None
    ensures ResolveIdEffect(w, h, text, lookup).0 == ResolveId(w, text, lookup)
    ensures ResolveIdEffect(w, h, text, lookup).1 == h.(trace := h.trace + LookupEvents(text, lookup))
  {
    assert IsDigits(text) ==> h.trace + LookupEvents(text, lookup) == h.trace;
  }

  /** Content: rewrite when the sizes differ; when they agree, read the destination and
      rewrite only if the bytes differ. The result says whether it rewrote. */
  function ContentEffect(w: World, src: string, dst: string, size: nat, h: HostState): (Result<bool, Failure>, HostState)
  {
    if src !in w.local then (Failure(NoLocalFile(src)), h)
    else if |w.local[src]| != size then (Success(true), FileWriteEffect(w, h, dst, w.local[src]))
    else
      var (current, h1) := ReadEffect(h, dst);
      if current.None? then (Failure(NoSuchFile(dst)), h1)
      else if current.value == w.local[src] then (Success(false), h1)
      else (Success(true), FileWriteEffect(w, h1, dst, w.local[src]))
  }

  /** Mode: chmod when the last four characters of oct(st_mode) differ from the
      configured text; None when that text is not a number int(mode, 8) accepts.
      The flag says whether chmod was issued. */
  function ModeEffect(h: HostState, dst: string, rec: FileRecord, mode: string): (Option<bool>, HostState)
  {
    if ModeText(StMode(rec)) == mode then (Some(false), h)
    else if ParseOctal(mode).None? then (None, h)
    else (Some(true), ChmodEffect(h, dst, ParseOctal(mode).value))
  }

  /** Owner and group: one chown when either id differs from the stat. */
  function OwnerEffect(h: HostState, dst: string, rec: FileRecord, uid: nat, gid: nat): (bool, HostState)
  {
    if rec.gid != gid || rec.uid != uid then (true, ChownEffect(h, dst, uid, gid)) else (false, h)
  }

  /** The "already converged" notice when nothing changed, then the session closes. */
  function FinishEffect(name: string, dst: string, changed: bool, h: HostState): HostState
  {
    Log(if changed then h else Log(h, Skipped(name, AlreadyConverged(dst))), CloseSession)
  }

  /** From the single stat on: mode, then owner and group, then content, then the skip
      notice when nothing changed, then the session is closed. */
  function FacetsEffect(w: World, r: Resource, src: string, dst: string, touched: bool,
                        gid: nat, uid: nat, h: HostState): (Outcome, HostState)
    requires r.kind.File?
  {
    var (st, h1) := StatEffect(h, dst);
    if st.None? then (Abort(NoSuchFile(dst)), h1)
    else if r.kind.mode.None? then (Abort(MissingAttribute("mode")), h1)
    else
      var (chmodded, h2) := ModeEffect(h1, dst, st.value, r.kind.mode.value);
      if chmodded.None? then (Abort(BadNumber(r.kind.mode.value)), h2)
      else
        var (chowned, h3) := OwnerEffect(h2, dst, st.value, uid, gid);
        var (rewritten, h4) := ContentEffect(w, src, dst, |st.value.content|, h3);
        if rewritten.Failure? then (Abort(rewritten.error), h4)
        else (Exit(0), FinishEffect(r.name, dst, touched || chmodded.value || chowned || rewritten.value, h4))
  }

  /** Which path's basename the existence test of _converge_create looks for in
      dirname(destination). The code as written passes the source path
      (file.py:55, 121); the evidently intended test looks for the destination's own
      basename. */
  datatype ExistenceTest = SourceName | DestinationName

  /** The path whose basename the existence test looks for. */
  function Probed(test: ExistenceTest, src: string, dst: string): string
  {
    if test == SourceName then src else dst
  }

  /** What _converge_create has settled before its stat: the paths, whether it had
      to touch the destination, and the numeric ids. */
  datatype Target = Target(src: string, dst: string, touched: bool, gid: nat, uid: nat)

  /** The existence test of _converge_create: list dirname(destination) and, when
      basename(source) is not there, touch the destination. The result says whether
      it was listed. */
  function LocateEffect(w: World, src: string, dst: string, h: HostState): (bool, HostState)
  {
    var (present, h1) := FileExistsEffect(h, src, dst);
    if present then (true, h1) else (false, RunEffect(w, h1, Touch(dst), map[], true).1)
  }

  /** The group, then the owner, each numeric or looked up. */
  function IdsEffect(w: World, f: Kind, h: HostState): (Result<(nat, nat), Failure>, HostState)
    requires f.File?
  {
    if f.group.None? then (Failure(MissingAttribute("group")), h)
    else
      var (gid, h3) := ResolveIdEffect(w, h, f.group.value, GroupId(f.group.value));
      if gid.None? then (Failure(BadNumber("")), h3)
      else if f.owner.None? then (Failure(MissingAttribute("owner")), h3)
      else
        var (uid, h4) := ResolveIdEffect(w, h3, f.owner.value, UserId(f.owner.value));
        if uid.None? then (Failure(BadNumber("")), h4)
        else (Success((gid.value, uid.value)), h4)
  }

  /** _converge_create up to the stat: open the session, touch the destination unless
      the basename the existence test looks for is listed in its directory, resolve the
      group and then the owner. */
  function PrepareEffect(w: World, r: Resource, test: ExistenceTest, h: HostState): (Result<Target, Failure>, HostState)
    requires r.kind.File?
  {
    var f := r.kind;
    var h0 := Log(h, OpenSession);
    if f.source.None? then (Failure(MissingAttribute("source")), h0)
    else if f.destination.None? then (Failure(MissingAttribute("destination")), h0)
    else
      var src, dst := f.source.value, f.destination.value;
      var (present, h2) := LocateEffect(w, Probed(test, src, dst), dst, h0);
      var (ids, h4) := IdsEffect(w, f, h2);
      if ids.Failure? then (Failure(ids.error), h4)
      else (Success(Target(src, dst, !present, ids.value.0, ids.value.1)), h4)
  }

  /** _converge_create: the preparation, then the facets. */
  function CreateEffect(w: World, r: Resource, test: ExistenceTest, h: HostState): (Outcome, HostState)
    requires r.kind.File?
  {
    var (t, h4) := PrepareEffect(w, r, test, h);
    if t.Failure? then (Abort(t.error), h4)
    else FacetsEffect(w, r, t.value.src, t.value.dst, t.value.touched, t.value.gid, t.value.uid, h4)
  }

  /** _converge_delete: rm the file, quietly, iff its basename is listed in its
      directory; status 0 in both branches, whatever rm returns. */
  function DeleteEffect(w: World, r: Resource, h: HostState): (Outcome, HostState)
    requires r.kind.File?
  {
    var h0 := Log(h, OpenSession);
    if r.kind.file.None? then (Abort(MissingAttribute("file")), h0)
    else
      var p := r.kind.file.value;
      var (present, h1) := FileExistsEffect(h0, p, p);
      if present then (Exit(0), RunEffect(w, h1, Remove(p), map[], true).1)
      else (Exit(0), Log(h1, Skipped(r.name, AlreadyDeleted(p))))
  }

  // ---------------------------------------------------------------------------
  // What delete and create promise.

  /** delete issues rm iff basename(file) is listed in dirname(file), reports the skip
      otherwise, and returns 0 either way (an rm failure is not surfaced). */
  lemma DeleteRemovesIffListed(w: World, r: Resource, h: HostState)
    requires r.kind.File? && r.kind.file.Some?
    ensures var p := r.kind.file.value;
            var listed := Basename(p) in Listing(h.files, Dirname(p));
            var (o, h') := DeleteEffect(w, r, h);
            && o == Exit(0)
            && h'.trace == h.trace + [OpenSession, ListDir(Dirname(p))]
                 + (if listed then [Exec(Remove(p), map[], true)] else [Skipped(r.name, AlreadyDeleted(p))])
            && h'.packages == h.packages
            && h'.files == if listed && ExitStatus(w, h.packages, Remove(p)) == 0 then h.files - {p} else h.files
  {
    var p := r.kind.file.value;
    var h0 := Log(h, OpenSession);
    var (present, h1) := FileExistsEffect(h0, p, p);
    assert h1.trace == h.trace + [OpenSession, ListDir(Dirname(p))] && h1.files == h.files;
    if present {
      var h2 := RunEffect(w, h1, Remove(p), map[], true).1;
      assert DeleteEffect(w, r, h) == (Exit(0), h2);
    } else {
      assert DeleteEffect(w, r, h) == (Exit(0), Log(h1, Skipped(r.name, AlreadyDeleted(p))));
    }
  }

  /** create never returns a non-zero status: it converges with 0 or the run aborts. */
  lemma CreateNeverFailsSoftly(w: World, r: Resource, test: ExistenceTest, h: HostState)
    requires r.kind.File?
    ensures CreateEffect(w, r, test, h).0 == Exit(0) || CreateEffect(w, r, test, h).0.Abort?
  {
    var (t, h4) := PrepareEffect(w, r, test, h);
    if t.Failure? {
      assert CreateEffect(w, r, test, h) == (Abort(t.error), h4);
    } else {
      var g := t.value;
      assert CreateEffect(w, r, test, h) == FacetsEffect(w, r, g.src, g.dst, g.touched, g.gid, g.uid, h4);
      FacetsNeverFailSoftly(w, r, g.src, g.dst, g.touched, g.gid, g.uid, h4);
    }
  }

  /** The facets end with 0 or abort the run. */
  lemma FacetsNeverFailSoftly(w: World, r: Resource, src: string, dst: string, touched: bool,
                              gid: nat, uid: nat, h: HostState)
    requires r.kind.File?
    ensures var o := FacetsEffect(w, r, src, dst, touched, gid, uid, h).0;
            o == Exit(0) || o.Abort?
  {
  }

  /** The state one successful create leaves the destination in. */
  predicate Settled(rec: FileRecord, mode: string, uid: nat, gid: nat, data: seq<byte>)
  {
    rec.fileType >= 1 && ModeText(StMode(rec)) == mode && rec.uid == uid && rec.gid == gid && rec.content == data
  }

  predicate NoMutation(es: seq<Event>)
  {
    forall e :: e in es ==> !IsMutation(e)
  }

  /** A successful content facet leaves the destination with the source bytes and
      every other field as it was. */
  lemma ContentSettles(w: World, src: string, dst: string, size: nat, h: HostState)
    requires dst in h.files
    requires ContentEffect(w, src, dst, size, h).0.Success?
    ensures src in w.local
    ensures var h' := ContentEffect(w, src, dst, size, h).1;
            dst in h'.files && h'.files[dst] == h.files[dst].(content := w.local[src])
  {
    var data := w.local[src];
    if |data| != size {
      FileWriteReplacesContent(w, h, dst, data);
    } else {
      var h1 := Log(h, Read(dst));
      if h.files[dst].content != data {
        FileWriteReplacesContent(w, h1, dst, data);
      }
    }
  }

  /** A mode of four octal digits is settled by the mode facet on a file with type
      bits; the other fields stay. */
  lemma ModeSettles(h: HostState, dst: string, rec: FileRecord, mode: string)
    requires dst in h.files && h.files[dst] == rec && rec.fileType >= 1
    requires |mode| == 4 && IsOctalDigits(mode)
    ensures var (chmodded, h') := ModeEffect(h, dst, rec, mode);
            && chmodded.Some? && dst in h'.files
            && ModeText(StMode(h'.files[dst])) == mode
            && h'.files[dst] == rec.(perm := h'.files[dst].perm)
  {
    if ModeText(StMode(rec)) != mode {
      ChmodRecordSettles(rec, mode);
      var rec' := rec.(perm := ParseOctal(mode).value % 4096);
      assert ModeEffect(h, dst, rec, mode).1.files[dst] == rec';
    }
  }

  /** A record chmodded to int(mode, 8) shows mode as its mode text. */
  lemma ChmodRecordSettles(rec: FileRecord, mode: string)
    requires rec.fileType >= 1 && |mode| == 4 && IsOctalDigits(mode)
    ensures ParseOctal(mode).Some?
    ensures ModeText(StMode(rec.(perm := ParseOctal(mode).value % 4096))) == mode
  {
    ChmodSettlesMode(rec.fileType, mode);
  }

  /** The owner facet leaves the destination with the resolved ids, when the stat it
      compares with is the destination's current owner and group. */
  lemma OwnerSettles(h: HostState, dst: string, rec: FileRecord, uid: nat, gid: nat)
    requires dst in h.files && h.files[dst].uid == rec.uid && h.files[dst].gid == rec.gid
    ensures var h' := OwnerEffect(h, dst, rec, uid, gid).1;
            dst in h'.files && h'.files[dst] == h.files[dst].(uid := uid, gid := gid)
  {
  }

  /** A file with type bits that FacetsEffect converges successfully ends Settled,
      when the configured mode is four octal digits. */
  lemma FacetsSettle(w: World, r: Resource, src: string, dst: string, touched: bool,
                     gid: nat, uid: nat, h: HostState)
    requires r.kind.File? && r.kind.mode.Some?
    requires |r.kind.mode.value| == 4 && IsOctalDigits(r.kind.mode.value)
    requires dst in h.files ==> h.files[dst].fileType >= 1
    requires FacetsEffect(w, r, src, dst, touched, gid, uid, h).0 == Exit(0)
    ensures src in w.local
    ensures var h' := FacetsEffect(w, r, src, dst, touched, gid, uid, h).1;
            dst in h'.files && Settled(h'.files[dst], r.kind.mode.value, uid, gid, w.local[src])
  {
    var mode := r.kind.mode.value;
    var h1 := Log(h, Stat(dst));
    var rec := h.files[dst];
    ModeSettles(h1, dst, rec, mode);
    var h2 := ModeEffect(h1, dst, rec, mode).1;
    OwnerSettles(h2, dst, rec, uid, gid);
    var h3 := OwnerEffect(h2, dst, rec, uid, gid).1;
    var rec3 := h3.files[dst];
    assert rec3 == rec.(perm := rec3.perm, uid := uid, gid := gid);
    assert StMode(rec3) == StMode(h2.files[dst]);
    ContentSettles(w, src, dst, |rec.content|, h3);
    var h4 := ContentEffect(w, src, dst, |rec.content|, h3).1;
    assert FacetsEffect(w, r, src, dst, touched, gid, uid, h).1.files == h4.files;
  }

  predicate NoSkips(es: seq<Event>)
  {
    forall e :: e in es ==> !e.Skipped?
  }

  lemma {:induction false} WriteEventsAreWrites(p: string, cs: seq<seq<byte>>)
    ensures |WriteEvents(p, cs)| == |cs|
    ensures forall i :: 0 <= i < |cs| ==> WriteEvents(p, cs)[i] == Write(p, cs[i])
    decreases cs
  {
    if cs != [] {
      WriteEventsAreWrites(p, cs[1..]);
    }
  }

  /** Going from h to h' only appends events, none of them a skip notice, and they
      hold a mutation exactly when changed. */
  predicate Reports(h: HostState, h': HostState, changed: bool)
  {
    && h.trace <= h'.trace
    && NoSkips(h'.trace[|h.trace|..])
    && (NoMutation(h'.trace[|h.trace|..]) <==> !changed)
  }

  lemma ReportsCompose(h1: HostState, h2: HostState, h3: HostState, a: bool, b: bool)
    requires Reports(h1, h2, a) && Reports(h2, h3, b)
    ensures Reports(h1, h3, a || b)
  {
    assert h3.trace[|h1.trace|..] == h2.trace[|h1.trace|..] + h3.trace[|h2.trace|..];
  }

  lemma LogReports(h: HostState, e: Event)
    requires !e.Skipped?
    ensures Reports(h, Log(h, e), IsMutation(e))
  {
    assert Log(h, e).trace[|h.trace|..] == [e];
  }

  /** _file_write is a mutation and reports no skip. */
  lemma FileWriteMutates(w: World, h: HostState, dst: string, data: seq<byte>)
    ensures Reports(h, FileWriteEffect(w, h, dst, data), true)
  {
    FileWriteReplacesContent(w, h, dst, data);
    WriteEventsAreWrites(dst, Lines(data));
    var ws := WriteEvents(dst, Lines(data));
    var tail := [OpenWrite(dst), Truncate(dst)] + ws;
    assert FileWriteEffect(w, h, dst, data).trace[|h.trace|..] == tail;
    assert tail[0] == OpenWrite(dst) && IsMutation(tail[0]);
    forall e | e in tail
      ensures !e.Skipped?
    {
      if e in ws {
        var i :| 0 <= i < |ws| && ws[i] == e;
      }
    }
  }

  /** The content facet rewrites iff the sizes differ or, with equal sizes, the bytes
      differ; a rewrite is a mutation, a read-back is not, and neither reports a skip. */
  lemma ContentRewritesIffDiffers(w: World, src: string, dst: string, size: nat, h: HostState)
    requires src in w.local && dst in h.files
    ensures var (rw, h') := ContentEffect(w, src, dst, size, h);
            && rw == Success(|w.local[src]| != size || h.files[dst].content != w.local[src])
            && Reports(h, h', rw.value)
  {
    var data := w.local[src];
    if |data| != size {
      FileWriteMutates(w, h, dst, data);
    } else {
      var h0 := Log(h, Read(dst));
      LogReports(h, Read(dst));
      if h.files[dst].content != data {
        FileWriteMutates(w, h0, dst, data);
        ReportsCompose(h, h0, FileWriteEffect(w, h0, dst, data), false, true);
      }
    }
  }

  /** The mode facet chmods exactly when the last four characters of oct(st_mode)
      differ from the configured text and that text parses; the chmod is a mutation
      and the facet reports it as a change. */
  lemma ModeReports(h: HostState, dst: string, rec: FileRecord, mode: string)
    requires ModeEffect(h, dst, rec, mode).0.Some?
    ensures ModeEffect(h, dst, rec, mode).0 == Some(true) <==> ModeText(StMode(rec)) != mode && ParseOctal(mode).Some?
    ensures ModeEffect(h, dst, rec, mode).0 == Some(false) <==> ModeText(StMode(rec)) == mode
    ensures Reports(h, ModeEffect(h, dst, rec, mode).1, ModeEffect(h, dst, rec, mode).0.value)
  {
    if ModeText(StMode(rec)) != mode {
      LogReports(h, Chmod(dst, ParseOctal(mode).value));
    }
  }

  /** The owner facet chowns exactly when the stat's gid or uid differs from the
      resolved one; the chown is a mutation and the facet reports it as a change. */
  lemma OwnerReports(h: HostState, dst: string, rec: FileRecord, uid: nat, gid: nat)
    ensures OwnerEffect(h, dst, rec, uid, gid).0 <==> (rec.gid != gid || rec.uid != uid)
    ensures Reports(h, OwnerEffect(h, dst, rec, uid, gid).1, OwnerEffect(h, dst, rec, uid, gid).0)
  {
    if rec.gid != gid || rec.uid != uid {
      LogReports(h, Chown(dst, uid, gid));
    }
  }

  /** "Already converged" is reported iff the destination was not touched and no facet
      mutated anything. */
  lemma ConvergedIffNothingChanged(w: World, r: Resource, src: string, dst: string, touched: bool,
                                   gid: nat, uid: nat, h: HostState)
    requires r.kind.File? && src in w.local
    requires FacetsEffect(w, r, src, dst, touched, gid, uid, h).0 == Exit(0)
    ensures var h' := FacetsEffect(w, r, src, dst, touched, gid, uid, h).1;
            && h.trace <= h'.trace
            && (Skipped(r.name, AlreadyConverged(dst)) in h'.trace[|h.trace|..]
                <==> !touched && NoMutation(h'.trace[|h.trace|..]))
  {
    var rec := h.files[dst];
    var h1 := Log(h, Stat(dst));
    LogReports(h, Stat(dst));
    var (cm, h2) := ModeEffect(h1, dst, rec, r.kind.mode.value);
    ModeReports(h1, dst, rec, r.kind.mode.value);
    ReportsCompose(h, h1, h2, false, cm.value);
    var (co, h3) := OwnerEffect(h2, dst, rec, uid, gid);
    OwnerReports(h2, dst, rec, uid, gid);
    ReportsCompose(h, h2, h3, cm.value, co);
    var (rw, h4) := ContentEffect(w, src, dst, |rec.content|, h3);
    ContentRewritesIffDiffers(w, src, dst, |rec.content|, h3);
    ReportsCompose(h, h3, h4, cm.value || co, rw.value);
    assert FacetsEffect(w, r, src, dst, touched, gid, uid, h).1
        == FinishEffect(r.name, dst, touched || (cm.value || co || rw.value), h4);
    FinishReports(r.name, dst, touched, cm.value || co || rw.value, h, h4);
  }

  /** The notice follows a run of events without skips and holds a mutation iff
      something changed: it appears iff nothing was touched and nothing mutated. */
  lemma FinishReports(name: string, dst: string, touched: bool, changed: bool, h: HostState, h4: HostState)
    requires Reports(h, h4, changed)
    ensures var h' := FinishEffect(name, dst, touched || changed, h4);
            && h.trace <= h'.trace
            && (Skipped(name, AlreadyConverged(dst)) in h'.trace[|h.trace|..]
                <==> !touched && NoMutation(h'.trace[|h.trace|..]))
  {
    var pre := h4.trace[|h.trace|..];
    var es5 := if touched || changed then [] else [Skipped(name, AlreadyConverged(dst))];
    var h' := FinishEffect(name, dst, touched || changed, h4);
    assert h'.trace == h4.trace + es5 + [CloseSession];
    assert h'.trace[|h.trace|..] == pre + es5 + [CloseSession];
  }

  /** On a destination that is already Settled, FacetsEffect only stats, reads back
      the content and reports "already converged": no mutation at all. */
  lemma FacetsNoopWhenSettled(w: World, r: Resource, src: string, dst: string,
                              gid: nat, uid: nat, h: HostState)
    requires r.kind.File? && r.kind.mode.Some? && src in w.local && dst in h.files
    requires Settled(h.files[dst], r.kind.mode.value, uid, gid, w.local[src])
    ensures FacetsEffect(w, r, src, dst, false, gid, uid, h)
         == (Exit(0), h.(trace := h.trace + [Stat(dst), Read(dst), Skipped(r.name, AlreadyConverged(dst)), CloseSession]))
  {
    var h1 := Log(h, Stat(dst));
    var h4 := Log(h1, Read(dst));
    assert ContentEffect(w, src, dst, |h.files[dst].content|, h1) == (Success(false), h4);
    assert h.trace + [Stat(dst)] + [Read(dst)] + [Skipped(r.name, AlreadyConverged(dst))] + [CloseSession]
        == h.trace + [Stat(dst), Read(dst), Skipped(r.name, AlreadyConverged(dst)), CloseSession];
  }

  /** The facets trigger independently. With owner and content already right and only
      the mode text differing, the run is stat, chmod, the read-back of equal bytes and
      the close: no chown, no rewrite, and no "already converged". */
  lemma FacetsChmodOnly(w: World, r: Resource, src: string, dst: string, touched: bool,
                        gid: nat, uid: nat, h: HostState)
    requires r.kind.File? && r.kind.mode.Some? && src in w.local && dst in h.files
    requires h.files[dst].uid == uid && h.files[dst].gid == gid && h.files[dst].content == w.local[src]
    requires ModeText(StMode(h.files[dst])) != r.kind.mode.value && ParseOctal(r.kind.mode.value).Some?
    ensures var (o, h') := FacetsEffect(w, r, src, dst, touched, gid, uid, h);
            var m := ParseOctal(r.kind.mode.value).value;
            && o == Exit(0)
            && h'.packages == h.packages
            && h'.files == h.files[dst := h.files[dst].(perm := m % 4096)]
            && h'.trace == h.trace + [Stat(dst), Chmod(dst, m), Read(dst), CloseSession]
  {
    var rec := h.files[dst];
    var m := ParseOctal(r.kind.mode.value).value;
    var h1 := Log(h, Stat(dst));
    var h2 := ChmodEffect(h1, dst, m);
    assert ModeEffect(h1, dst, rec, r.kind.mode.value) == (Some(true), h2);
    assert OwnerEffect(h2, dst, rec, uid, gid) == (false, h2);
    var h4 := Log(h2, Read(dst));
    assert ContentEffect(w, src, dst, |rec.content|, h2) == (Success(false), h4);
    assert FacetsEffect(w, r, src, dst, touched, gid, uid, h) == (Exit(0), Log(h4, CloseSession));
  }

  /** With mode text and owner already right and only the bytes differing, the run
      rewrites the destination (after a read-back when the sizes agree) and closes:
      it mutates, but never chmods or chowns. */
  lemma FacetsRewriteOnly(w: World, r: Resource, src: string, dst: string, touched: bool,
                          gid: nat, uid: nat, h: HostState)
    requires r.kind.File? && r.kind.mode.Some? && src in w.local && dst in h.files
    requires h.files[dst].uid == uid && h.files[dst].gid == gid && h.files[dst].content != w.local[src]
    requires ModeText(StMode(h.files[dst])) == r.kind.mode.value
    ensures var (o, h') := FacetsEffect(w, r, src, dst, touched, gid, uid, h);
            var data := w.local[src];
            && o == Exit(0)
            && h'.packages == h.packages
            && h'.files == h.files[dst := h.files[dst].(content := data)]
            && h.trace <= h'.trace
            && h'.trace[|h.trace|..]
               == [Stat(dst)] + (if |h.files[dst].content| == |data| then [Read(dst)] else [])
                  + [OpenWrite(dst), Truncate(dst)] + WriteEvents(dst, Lines(data)) + [CloseSession]
            && !NoMutation(h'.trace[|h.trace|..])
            && forall e :: e in h'.trace[|h.trace|..] ==> !e.Chmod? && !e.Chown?
  {
    var rec := h.files[dst];
    var data := w.local[src];
    var h1 := Log(h, Stat(dst));
    assert ModeEffect(h1, dst, rec, r.kind.mode.value) == (Some(false), h1);
    assert OwnerEffect(h1, dst, rec, uid, gid) == (false, h1);
    var h3 := if |rec.content| == |data| then Log(h1, Read(dst)) else h1;
    var h4 := FileWriteEffect(w, h3, dst, data);
    assert ContentEffect(w, src, dst, |rec.content|, h1) == (Success(true), h4);
    assert FacetsEffect(w, r, src, dst, touched, gid, uid, h) == (Exit(0), Log(h4, CloseSession));
    FileWriteReplacesContent(w, h3, dst, data);
    var ws := WriteEvents(dst, Lines(data));
    var pre := [Stat(dst)] + (if |rec.content| == |data| then [Read(dst)] else []);
    assert h3.trace == h.trace + pre;
    assert h4.trace == h3.trace + [OpenWrite(dst), Truncate(dst)] + ws;
    assert Log(h4, CloseSession).trace == h.trace + pre + [OpenWrite(dst), Truncate(dst)] + ws + [CloseSession];
    SliceOfRewrite(h.trace, pre, ws, dst);
    RewriteTail(pre, ws, dst, data);
  }

  lemma SliceOfRewrite(t: seq<Event>, pre: seq<Event>, ws: seq<Event>, dst: string)
    ensures var full := t + pre + [OpenWrite(dst), Truncate(dst)] + ws + [CloseSession];
            t <= full && full[|t|..] == pre + [OpenWrite(dst), Truncate(dst)] + ws + [CloseSession]
  {
    var tail := pre + [OpenWrite(dst), Truncate(dst)] + ws + [CloseSession];
    assert t + pre + [OpenWrite(dst), Truncate(dst)] + ws + [CloseSession] == t + tail;
  }

  /** The tail of a rewrite run: a mutation, and only writes after the prefix. */
  lemma RewriteTail(pre: seq<Event>, ws: seq<Event>, dst: string, data: seq<byte>)
    requires ws == WriteEvents(dst, Lines(data))
    requires forall e :: e in pre ==> e.Stat? || e.Read?
    ensures var tail := pre + [OpenWrite(dst), Truncate(dst)] + ws + [CloseSession];
            && !NoMutation(tail)
            && forall e :: e in tail ==> !e.Chmod? && !e.Chown?
  {
    var tail := pre + [OpenWrite(dst), Truncate(dst)] + ws + [CloseSession];
    assert OpenWrite(dst) in tail;
    WriteEventsOnlyWrite(dst, Lines(data));
  }

  /** The chunk writes of _file_write are all Write calls. */
  lemma {:induction false} WriteEventsOnlyWrite(p: string, cs: seq<seq<byte>>)
    ensures forall e :: e in WriteEvents(p, cs) ==> e.Write?
    decreases cs
  {
    if cs != [] {
      WriteEventsOnlyWrite(p, cs[1..]);
    }
  }

  /** The lookups id resolution makes: the group's, then, once the group resolved and
      an owner is configured, the owner's. */
  function IdsEvents(w: World, f: Kind): (es: seq<Event>)
    requires f.File?
    ensures |es| <= 2
    ensures forall e :: e in es ==>
              && e.Exec? && e.env == map[] && e.quiet
              && ((f.group.Some? && e.cmd == GroupId(f.group.value)) || (f.owner.Some? && e.cmd == UserId(f.owner.value)))
    ensures forall e :: e in es ==> !IsMutation(e) && !e.Skipped? && (e.Exec? ==> !e.cmd.Touch?)
  {
    if f.group.None? then []
    else if ResolveId(w, f.group.value, GroupId(f.group.value)).None? || f.owner.None?
    then LookupEvents(f.group.value, GroupId(f.group.value))
    else LookupEvents(f.group.value, GroupId(f.group.value)) + LookupEvents(f.owner.value, UserId(f.owner.value))
  }

  /** Id resolution succeeds exactly when both attributes are present and both resolve,
      and yields ResolveId of each; it only adds the lookups to the trace. */
  lemma IdsOnlyLookUp(w: World, f: Kind, h: HostState)
    requires f.File?
    ensures var (ids, h') := IdsEffect(w, f, h);
            var ok := f.group.Some? && f.owner.Some?
                      && ResolveId(w, f.group.value, GroupId(f.group.value)).Some?
                      && ResolveId(w, f.owner.value, UserId(f.owner.value)).Some?;
            && (ids.Success? <==> ok)
            && (ok ==> ids.value == (ResolveId(w, f.group.value, GroupId(f.group.value)).value,
                                     ResolveId(w, f.owner.value, UserId(f.owner.value)).value))
            && h' == h.(trace := h.trace + IdsEvents(w, f))
  {
    if f.group.Some? {
      ResolveIdCalls(w, h, f.group.value, GroupId(f.group.value));
      var h3 := ResolveIdEffect(w, h, f.group.value, GroupId(f.group.value)).1;
      if ResolveId(w, f.group.value, GroupId(f.group.value)).Some? && f.owner.Some? {
        ResolveIdCalls(w, h3, f.owner.value, UserId(f.owner.value));
        var es3 := LookupEvents(f.group.value, GroupId(f.group.value));
        var es4 := LookupEvents(f.owner.value, UserId(f.owner.value));
        assert h.trace + es3 + es4 == h.trace + (es3 + es4);
      }
    }
  }

  /** The existence test lists the destination's directory and touches the destination
      iff basename(source) is not listed there. */
  lemma LocateTouchesIffUnlisted(w: World, src: string, dst: string, h: HostState)
    ensures var (present, h') := LocateEffect(w, src, dst, h);
            && present == (Basename(src) in Listing(h.files, Dirname(dst)))
            && h'.trace == h.trace + [ListDir(Dirname(dst))]
                           + (if present then [] else [Exec(Touch(dst), map[], true)])
            && (present ==> h'.files == h.files && h'.packages == h.packages)
  {
  }

  /** The preparation never changes the type bits of an existing destination, and a
      touched one gets the new-file record. */
  lemma PrepareKeepsTypeBits(w: World, r: Resource, test: ExistenceTest, h: HostState)
    requires r.kind.File? && r.kind.destination.Some?
    requires w.blank.fileType >= 1
    requires r.kind.destination.value in h.files ==> h.files[r.kind.destination.value].fileType >= 1
    ensures var (t, h') := PrepareEffect(w, r, test, h);
            var dst := r.kind.destination.value;
            dst in h'.files ==> h'.files[dst].fileType >= 1
  {
    var f := r.kind;
    if f.source.Some? {
      var h2 := LocateEffect(w, Probed(test, f.source.value, f.destination.value), f.destination.value, Log(h, OpenSession)).1;
      IdsOnlyLookUp(w, f, h2);
    }
  }

  /** The preparation succeeds exactly when every attribute is present and both ids
      resolve; it then targets the configured paths with the resolved ids. */
  lemma PrepareTargets(w: World, r: Resource, test: ExistenceTest, h: HostState)
    requires r.kind.File?
    ensures var f := r.kind;
            var t := PrepareEffect(w, r, test, h).0;
            var ok := f.source.Some? && f.destination.Some? && f.group.Some? && f.owner.Some?
                      && ResolveId(w, f.group.value, GroupId(f.group.value)).Some?
                      && ResolveId(w, f.owner.value, UserId(f.owner.value)).Some?;
            && (t.Success? <==> ok)
            && (ok ==> t.value.src == f.source.value && t.value.dst == f.destination.value
                       && t.value.gid == ResolveId(w, f.group.value, GroupId(f.group.value)).value
                       && t.value.uid == ResolveId(w, f.owner.value, UserId(f.owner.value)).value)
  {
    var f := r.kind;
    if f.source.Some? && f.destination.Some? {
      IdsOnlyLookUp(w, f, LocateEffect(w, Probed(test, f.source.value, f.destination.value), f.destination.value, Log(h, OpenSession)).1);
    }
  }

  /** The preparation opens the session, lists the destination's directory, runs
      `touch` on the destination iff the basename the test looks for is not listed
      there, and then only looks ids up. */
  lemma PrepareTouchesIffUnlisted(w: World, r: Resource, test: ExistenceTest, h: HostState)
    requires r.kind.File? && r.kind.source.Some? && r.kind.destination.Some?
    ensures var h' := PrepareEffect(w, r, test, h).1;
            var src, dst := r.kind.source.value, r.kind.destination.value;
            var unlisted := Basename(Probed(test, src, dst)) !in Listing(h.files, Dirname(dst));
            && h.trace + [OpenSession, ListDir(Dirname(dst))] <= h'.trace
            && (Exec(Touch(dst), map[], true) in h'.trace[|h.trace|..] <==> unlisted)
  {
    var src, dst := r.kind.source.value, r.kind.destination.value;
    PrepareTrace(w, r, test, h);
    TouchIn(h.trace, PrepareEffect(w, r, test, h).1.trace, dst,
            Basename(Probed(test, src, dst)) !in Listing(h.files, Dirname(dst)), IdsEvents(w, r.kind));
  }

  /** A trace that lists, optionally touches, and then only makes events that are no
      touch, holds the touch exactly when it was made. */
  lemma TouchIn(t: seq<Event>, t': seq<Event>, dst: string, touched: bool, es: seq<Event>)
    requires forall e :: e in es ==> e.Exec? ==> !e.cmd.Touch?
    requires t' == t + [OpenSession, ListDir(Dirname(dst))]
                   + (if touched then [Exec(Touch(dst), map[], true)] else []) + es
    ensures t + [OpenSession, ListDir(Dirname(dst))] <= t'
    ensures Exec(Touch(dst), map[], true) in t'[|t|..] <==> touched
  {
    var es2 := if touched then [Exec(Touch(dst), map[], true)] else [];
    assert t'[|t|..] == [OpenSession, ListDir(Dirname(dst))] + es2 + es;
  }

  /** The trace of a preparation with both paths configured: open, list, the touch
      when unlisted, the id lookups; a successful preparation records as `touched`
      exactly whether the basename the test looks for was unlisted. */
  lemma PrepareTrace(w: World, r: Resource, test: ExistenceTest, h: HostState)
    requires r.kind.File? && r.kind.source.Some? && r.kind.destination.Some?
    ensures var (t, h') := PrepareEffect(w, r, test, h);
            var src, dst := r.kind.source.value, r.kind.destination.value;
            var unlisted := Basename(Probed(test, src, dst)) !in Listing(h.files, Dirname(dst));
            && h'.trace == h.trace + [OpenSession, ListDir(Dirname(dst))]
                           + (if unlisted then [Exec(Touch(dst), map[], true)] else [])
                           + IdsEvents(w, r.kind)
            && (t.Success? ==> t.value.touched == unlisted)
  {
    var f := r.kind;
    var src, dst := f.source.value, f.destination.value;
    var h0 := Log(h, OpenSession);
    LocateTouchesIffUnlisted(w, Probed(test, src, dst), dst, h0);
    var (present, h2) := LocateEffect(w, Probed(test, src, dst), dst, h0);
    var es2 := if present then [] else [Exec(Touch(dst), map[], true)];
    assert h2.trace == h.trace + [OpenSession, ListDir(Dirname(dst))] + es2;
    IdsOnlyLookUp(w, f, h2);
    assert PrepareEffect(w, r, test, h).1 == IdsEffect(w, f, h2).1;
  }

  /** A preparation on a host where the destination exists under the basename the
      test looks for touches nothing and makes no mutation. */
  lemma PrepareOnListed(w: World, r: Resource, test: ExistenceTest, h: HostState)
    requires r.kind.File? && r.kind.source.Some? && r.kind.destination.Some?
    requires r.kind.group.Some? && r.kind.owner.Some?
    requires Basename(Probed(test, r.kind.source.value, r.kind.destination.value)) == Basename(r.kind.destination.value)
    requires r.kind.destination.value in h.files
    ensures var (t, h') := PrepareEffect(w, r, test, h);
            && (t.Success? ==> !t.value.touched)
            && h'.files == h.files && h'.packages == h.packages
            && |h.trace| <= |h'.trace| && NoMutation(h'.trace[|h.trace|..])
  {
    var f := r.kind;
    var src, dst := f.source.value, f.destination.value;
    var h0 := Log(h, OpenSession);
    ListedInOwnDirectory(h0, dst);
    LocateTouchesIffUnlisted(w, Probed(test, src, dst), dst, h0);
    var h2 := LocateEffect(w, Probed(test, src, dst), dst, h0).1;
    IdsOnlyLookUp(w, f, h2);
    var h' := IdsEffect(w, f, h2).1;
    var es := IdsEvents(w, f);
    assert h'.trace == h.trace + ([OpenSession, ListDir(Dirname(dst))] + es);
  }

  /** A create whose preparation touched nothing and finds the destination Settled
      makes no mutation and reports "already converged". */
  lemma CreateOnSettled(w: World, r: Resource, test: ExistenceTest, h: HostState)
    requires r.kind.File? && r.kind.mode.Some? && PrepareEffect(w, r, test, h).0.Success?
    requires var (t, h4) := PrepareEffect(w, r, test, h);
             var g := t.value;
             && !g.touched && g.src in w.local && g.dst in h4.files
             && Settled(h4.files[g.dst], r.kind.mode.value, g.uid, g.gid, w.local[g.src])
             && h4.files == h.files && h4.packages == h.packages
             && |h.trace| <= |h4.trace| && NoMutation(h4.trace[|h.trace|..])
    ensures var (o, h') := CreateEffect(w, r, test, h);
            var dst := PrepareEffect(w, r, test, h).0.value.dst;
            && o == Exit(0)
            && h'.files == h.files && h'.packages == h.packages
            && |h.trace| <= |h'.trace|
            && NoMutation(h'.trace[|h.trace|..])
            && Skipped(r.name, AlreadyConverged(dst)) in h'.trace[|h.trace|..]
  {
    var (t, h4) := PrepareEffect(w, r, test, h);
    var g := t.value;
    assert CreateEffect(w, r, test, h) == FacetsEffect(w, r, g.src, g.dst, false, g.gid, g.uid, h4);
    FacetsAfterQuietPrepare(w, r, g.src, g.dst, g.gid, g.uid, h, h4);
  }

  /** Facets on a Settled destination, after a preparation that mutated nothing,
      leave the whole run free of mutations and report "already converged". */
  lemma FacetsAfterQuietPrepare(w: World, r: Resource, src: string, dst: string,
                                gid: nat, uid: nat, h: HostState, h4: HostState)
    requires r.kind.File? && r.kind.mode.Some? && src in w.local && dst in h4.files
    requires Settled(h4.files[dst], r.kind.mode.value, uid, gid, w.local[src])
    requires h4.files == h.files && h4.packages == h.packages
    requires |h.trace| <= |h4.trace| && NoMutation(h4.trace[|h.trace|..])
    ensures var (o, h') := FacetsEffect(w, r, src, dst, false, gid, uid, h4);
            && o == Exit(0)
            && h'.files == h.files && h'.packages == h.packages
            && |h.trace| <= |h'.trace|
            && NoMutation(h'.trace[|h.trace|..])
            && Skipped(r.name, AlreadyConverged(dst)) in h'.trace[|h.trace|..]
  {
    FacetsNoopWhenSettled(w, r, src, dst, gid, uid, h4);
    var tail := [Stat(dst), Read(dst), Skipped(r.name, AlreadyConverged(dst)), CloseSession];
    var h' := FacetsEffect(w, r, src, dst, false, gid, uid, h4).1;
    assert h' == h4.(trace := h4.trace + tail);
    assert h'.trace[|h.trace|..] == h4.trace[|h.trace|..] + tail;
    assert tail[2] in h'.trace[|h.trace|..];
  }

  /** Idempotence of create: when the existence test looks for the destination's own
      basename, the mode is four octal digits and files carry type bits, a second create
      after a successful one makes no mutation at all and reports "already converged".
      With the test as written that needs source and destination to share a basename. */
  lemma CreateIdempotent(w: World, r: Resource, test: ExistenceTest, h: HostState)
    requires r.kind.File? && r.kind.source.Some? && r.kind.destination.Some? && r.kind.mode.Some?
    requires Basename(Probed(test, r.kind.source.value, r.kind.destination.value)) == Basename(r.kind.destination.value)
    requires |r.kind.mode.value| == 4 && IsOctalDigits(r.kind.mode.value)
    requires w.blank.fileType >= 1
    requires r.kind.destination.value in h.files ==> h.files[r.kind.destination.value].fileType >= 1
    requires CreateEffect(w, r, test, h).0 == Exit(0)
    ensures var h1 := CreateEffect(w, r, test, h).1;
            var (o, h2) := CreateEffect(w, r, test, h1);
            && o == Exit(0)
            && h2.files == h1.files && h2.packages == h1.packages
            && |h1.trace| <= |h2.trace|
            && NoMutation(h2.trace[|h1.trace|..])
            && Skipped(r.name, AlreadyConverged(r.kind.destination.value)) in h2.trace[|h1.trace|..]
  {
    var (t, a4) := PrepareEffect(w, r, test, h);
    var g := t.value;
    PrepareTargets(w, r, test, h);
    PrepareKeepsTypeBits(w, r, test, h);
    FacetsSettle(w, r, g.src, g.dst, g.touched, g.gid, g.uid, a4);
    var h1 := CreateEffect(w, r, test, h).1;
    assert h1 == FacetsEffect(w, r, g.src, g.dst, g.touched, g.gid, g.uid, a4).1;
    PrepareOnListed(w, r, test, h1);
    PrepareTargets(w, r, test, h1);
    CreateOnSettled(w, r, test, h1);
  }

  /** With the existence test on the destination's own basename, create is idempotent
      whatever the source is called. */
  lemma CorrectedCreateIdempotent(w: World, r: Resource, h: HostState)
    requires r.kind.File? && r.kind.source.Some? && r.kind.destination.Some? && r.kind.mode.Some?
    requires |r.kind.mode.value| == 4 && IsOctalDigits(r.kind.mode.value)
    requires w.blank.fileType >= 1
    requires r.kind.destination.value in h.files ==> h.files[r.kind.destination.value].fileType >= 1
    requires CreateEffect(w, r, DestinationName, h).0 == Exit(0)
    ensures var h1 := CreateEffect(w, r, DestinationName, h).1;
            var (o, h2) := CreateEffect(w, r, DestinationName, h1);
            && o == Exit(0)
            && h2.files == h1.files && h2.packages == h1.packages
            && |h1.trace| <= |h2.trace|
            && NoMutation(h2.trace[|h1.trace|..])
            && Skipped(r.name, AlreadyConverged(r.kind.destination.value)) in h2.trace[|h1.trace|..]
  {
    CreateIdempotent(w, r, DestinationName, h);
  }

  // ---------------------------------------------------------------------------
  // Create changes no file but its destination.

  lemma ContentOnlyAtDestination(w: World, src: string, dst: string, size: nat, h: HostState)
    ensures var h' := ContentEffect(w, src, dst, size, h).1;
            && h'.files - {dst} == h.files - {dst} && h'.packages == h.packages
            && h.trace <= h'.trace
  {
    if src in w.local {
      FileWriteReplacesContent(w, h, dst, w.local[src]);
      FileWriteReplacesContent(w, ReadEffect(h, dst).1, dst, w.local[src]);
    }
  }

  lemma FacetsOnlyAtDestination(w: World, r: Resource, src: string, dst: string, touched: bool,
                                gid: nat, uid: nat, h: HostState)
    requires r.kind.File?
    ensures var h' := FacetsEffect(w, r, src, dst, touched, gid, uid, h).1;
            && h'.files - {dst} == h.files - {dst} && h'.packages == h.packages
            && h.trace <= h'.trace
  {
    var (st, h1) := StatEffect(h, dst);
    if st.Some? && r.kind.mode.Some? {
      var (chmodded, h2) := ModeEffect(h1, dst, st.value, r.kind.mode.value);
      if chmodded.Some? {
        var h3 := OwnerEffect(h2, dst, st.value, uid, gid).1;
        assert h3.files - {dst} == h.files - {dst} && h3.packages == h.packages && h.trace <= h3.trace;
        ContentOnlyAtDestination(w, src, dst, |st.value.content|, h3);
      }
    }
  }

  lemma PrepareOnlyAtDestination(w: World, r: Resource, test: ExistenceTest, h: HostState)
    requires r.kind.File? && r.kind.destination.Some?
    ensures var h' := PrepareEffect(w, r, test, h).1;
            var dst := r.kind.destination.value;
            h'.files - {dst} == h.files - {dst} && h'.packages == h.packages
  {
    var f := r.kind;
    if f.source.Some? {
      var dst := f.destination.value;
      var h2 := LocateEffect(w, Probed(test, f.source.value, dst), dst, Log(h, OpenSession)).1;
      assert h2.files - {dst} == h.files - {dst} && h2.packages == h.packages;
      IdsOnlyLookUp(w, f, h2);
    }
  }

  /** create leaves every remote file other than its destination, and the packages, as
      they were. */
  lemma CreateOnlyAtDestination(w: World, r: Resource, test: ExistenceTest, h: HostState)
    requires r.kind.File? && r.kind.destination.Some?
    ensures var h' := CreateEffect(w, r, test, h).1;
            var dst := r.kind.destination.value;
            h'.files - {dst} == h.files - {dst} && h'.packages == h.packages
  {
    PrepareOnlyAtDestination(w, r, test, h);
    var (t, h4) := PrepareEffect(w, r, test, h);
    if t.Success? {
      var g := t.value;
      assert g.dst == r.kind.destination.value;
      FacetsOnlyAtDestination(w, r, g.src, g.dst, g.touched, g.gid, g.uid, h4);
    }
  }

  // ---------------------------------------------------------------------------
  // The existence test as written looks for basename(source).

  /** As written, a destination that does not exist yet, in a directory that holds a
      file with the source's basename, is not touched: the stat that follows fails. */
  lemma AsWrittenMissingDestinationAborts(w: World, r: Resource, h: HostState)
    requires r.kind.File? && r.kind.source.Some? && r.kind.destination.Some?
    requires r.kind.group.Some? && r.kind.owner.Some?
    requires ResolveId(w, r.kind.group.value, GroupId(r.kind.group.value)).Some?
    requires ResolveId(w, r.kind.owner.value, UserId(r.kind.owner.value)).Some?
    requires Basename(r.kind.source.value) in Listing(h.files, Dirname(r.kind.destination.value))
    requires r.kind.destination.value !in h.files
    ensures var (o, h') := CreateEffect(w, r, SourceName, h);
            o == Abort(NoSuchFile(r.kind.destination.value)) && h'.files == h.files
  {
    var src, dst := r.kind.source.value, r.kind.destination.value;
    var h0 := Log(h, OpenSession);
    LocateTouchesIffUnlisted(w, src, dst, h0);
    IdsOnlyLookUp(w, r.kind, LocateEffect(w, src, dst, h0).1);
  }

  /** The listing of a directory on a host with a single file. */
  lemma ListingOfOne(p: string, rec: FileRecord, dir: string)
    ensures Listing(map[p := rec], dir) == if Dirname(p) == dir then {Basename(p)} else {}
  {
  }

  /** The paths of the concrete case below, split as os.path splits them. */
  lemma HostsPaths()
    ensures Basename("conf/hosts") == "hosts"
    ensures Dirname("/etc/hosts") == "/etc" && Basename("/etc/hosts") == "hosts"
    ensures Dirname("/etc/hosts.new") == "/etc" && Basename("/etc/hosts.new") == "hosts.new"
  {
    assert "conf/hosts" == "conf" + "/" + "hosts";
    assert "/etc/hosts" == "/etc" + "/" + "hosts";
    assert "/etc/hosts.new" == "/etc" + "/" + "hosts.new";
    SplitJoin("conf", "hosts");
    SplitJoin("/etc", "hosts");
    SplitJoin("/etc", "hosts.new");
  }

  /** A concrete case: installing conf/hosts as /etc/hosts.new on a host that has
      /etc/hosts aborts with the stat of /etc/hosts.new and leaves the files alone. */
  lemma RenamedDestinationAborts(w: World, rec: FileRecord)
    ensures var r := Resource(File(Some("conf/hosts"), Some("/etc/hosts.new"), None, Some("0"), Some("0644"), Some("0")),
                              "create", Steps, "hosts", map[], [], []);
            var h := HostState({}, map["/etc/hosts" := rec], []);
            var (o, h') := CreateEffect(w, r, SourceName, h);
            o == Abort(NoSuchFile("/etc/hosts.new")) && h'.files == h.files
  {
    var r := Resource(File(Some("conf/hosts"), Some("/etc/hosts.new"), None, Some("0"), Some("0644"), Some("0")),
                      "create", Steps, "hosts", map[], [], []);
    var h := HostState({}, map["/etc/hosts" := rec], []);
    HostsPaths();
    ListingOfOne("/etc/hosts", rec, "/etc");
    assert IsDigits("0");
    AsWrittenMissingDestinationAborts(w, r, h);
  }

  /** The same case with the existence test on the destination's basename: the new
      path is not listed, so create touches it before the stat. */
  lemma RenamedDestinationTouchedWhenCorrected(w: World, rec: FileRecord)
    ensures var r := Resource(File(Some("conf/hosts"), Some("/etc/hosts.new"), None, Some("0"), Some("0644"), Some("0")),
                              "create", Steps, "hosts", map[], [], []);
            var h := HostState({}, map["/etc/hosts" := rec], []);
            Exec(Touch("/etc/hosts.new"), map[], true) in PrepareEffect(w, r, DestinationName, h).1.trace
  {
    var r := Resource(File(Some("conf/hosts"), Some("/etc/hosts.new"), None, Some("0"), Some("0644"), Some("0")),
                      "create", Steps, "hosts", map[], [], []);
    var h := HostState({}, map["/etc/hosts" := rec], []);
    HostsPaths();
    ListingOfOne("/etc/hosts", rec, "/etc");
    PrepareTouchesIffUnlisted(w, r, DestinationName, h);
  }

  /** Facets succeed only when the local source exists. */
  lemma FacetsNeedLocalSource(w: World, r: Resource, src: string, dst: string, touched: bool,
                              gid: nat, uid: nat, h: HostState)
    requires r.kind.File? && FacetsEffect(w, r, src, dst, touched, gid, uid, h).0 == Exit(0)
    ensures src in w.local
  {
  }

  /** Facets after a touch never report "already converged". */
  lemma TouchedFacetsNeverConverge(w: World, r: Resource, src: string, dst: string,
                                   gid: nat, uid: nat, h: HostState)
    requires r.kind.File? && FacetsEffect(w, r, src, dst, true, gid, uid, h).0 == Exit(0)
    ensures var h' := FacetsEffect(w, r, src, dst, true, gid, uid, h).1;
            h.trace <= h'.trace && Skipped(r.name, AlreadyConverged(dst)) !in h'.trace[|h.trace|..]
  {
    FacetsNeedLocalSource(w, r, src, dst, true, gid, uid, h);
    ConvergedIffNothingChanged(w, r, src, dst, true, gid, uid, h);
  }

  /** A preparation whose existence test finds nothing touches the destination, makes
      no skip notice, and records the touch. */
  lemma TouchedPrepare(w: World, r: Resource, test: ExistenceTest, h: HostState)
    requires r.kind.File? && r.kind.source.Some? && r.kind.destination.Some?
    requires Basename(Probed(test, r.kind.source.value, r.kind.destination.value))
             !in Listing(h.files, Dirname(r.kind.destination.value))
    ensures var (t, h4) := PrepareEffect(w, r, test, h);
            var dst := r.kind.destination.value;
            && h.trace <= h4.trace
            && Exec(Touch(dst), map[], true) in h4.trace[|h.trace|..]
            && Skipped(r.name, AlreadyConverged(dst)) !in h4.trace[|h.trace|..]
            && (t.Success? ==> t.value.touched && t.value.dst == dst)
  {
    var dst := r.kind.destination.value;
    PrepareTrace(w, r, test, h);
    TouchedTail(h.trace, PrepareEffect(w, r, test, h).1.trace, dst, IdsEvents(w, r.kind), r.name);
  }

  /** A trace that opens, lists, touches and then makes no skip notice holds the touch
      and no "already converged" notice. */
  lemma TouchedTail(t: seq<Event>, t': seq<Event>, dst: string, es: seq<Event>, name: string)
    requires forall e :: e in es ==> !e.Skipped?
    requires t' == t + [OpenSession, ListDir(Dirname(dst))] + [Exec(Touch(dst), map[], true)] + es
    ensures t <= t'
    ensures Exec(Touch(dst), map[], true) in t'[|t|..]
    ensures Skipped(name, AlreadyConverged(dst)) !in t'[|t|..]
  {
    var pre := [OpenSession, ListDir(Dirname(dst)), Exec(Touch(dst), map[], true)] + es;
    assert t'[|t|..] == pre;
    assert pre[2] == Exec(Touch(dst), map[], true);
  }

  /** What the tail of a trace holds, given the two tails it is made of. */
  lemma TailJoin(t0: seq<Event>, t1: seq<Event>, t2: seq<Event>, x: Event, y: Event, b: bool)
    requires t0 <= t1 && t1 <= t2 && x in t1[|t0|..]
    requires b ==> y !in t1[|t0|..] && y !in t2[|t1|..]
    ensures t0 <= t2 && x in t2[|t0|..] && (b ==> y !in t2[|t0|..])
  {
    assert t2[|t0|..] == t1[|t0|..] + t2[|t1|..];
  }

  /** A create whose existence test finds nothing touches the destination and, when it
      succeeds, never reports "already converged". */
  lemma TouchedNeverConverged(w: World, r: Resource, test: ExistenceTest, h: HostState)
    requires r.kind.File? && r.kind.source.Some? && r.kind.destination.Some?
    requires Basename(Probed(test, r.kind.source.value, r.kind.destination.value))
             !in Listing(h.files, Dirname(r.kind.destination.value))
    ensures var (o, h') := CreateEffect(w, r, test, h);
            var dst := r.kind.destination.value;
            && h.trace <= h'.trace
            && Exec(Touch(dst), map[], true) in h'.trace[|h.trace|..]
            && (o == Exit(0) ==> Skipped(r.name, AlreadyConverged(dst)) !in h'.trace[|h.trace|..])
  {
    var dst := r.kind.destination.value;
    TouchedPrepare(w, r, test, h);
    var (t, h4) := PrepareEffect(w, r, test, h);
    if t.Failure? {
      assert CreateEffect(w, r, test, h) == (Abort(t.error), h4);
    } else {
      var g := t.value;
      var (o, h') := FacetsEffect(w, r, g.src, dst, true, g.gid, g.uid, h4);
      assert CreateEffect(w, r, test, h) == (o, h');
      FacetsOnlyAtDestination(w, r, g.src, dst, true, g.gid, g.uid, h4);
      if o == Exit(0) {
        TouchedFacetsNeverConverge(w, r, g.src, dst, g.gid, g.uid, h4);
      }
      TailJoin(h.trace, h4.trace, h'.trace, Exec(Touch(dst), map[], true),
               Skipped(r.name, AlreadyConverged(dst)), o == Exit(0));
    }
  }

  /** As written, when source and destination have different basenames and no file in
      the destination's directory carries the source's basename, create touches the
      destination, never reports "already converged", and leaves the source's basename
      unlisted, so the next run touches again. */
  lemma AsWrittenTouchesEveryRun(w: World, r: Resource, h: HostState)
    requires r.kind.File? && r.kind.source.Some? && r.kind.destination.Some?
    requires Basename(r.kind.source.value) != Basename(r.kind.destination.value)
    requires Basename(r.kind.source.value) !in Listing(h.files, Dirname(r.kind.destination.value))
    ensures var (o, h') := CreateEffect(w, r, SourceName, h);
            var src, dst := r.kind.source.value, r.kind.destination.value;
            && h.trace <= h'.trace
            && Exec(Touch(dst), map[], true) in h'.trace[|h.trace|..]
            && (o == Exit(0) ==> Skipped(r.name, AlreadyConverged(dst)) !in h'.trace[|h.trace|..])
            && Basename(src) !in Listing(h'.files, Dirname(dst))
  {
    var src, dst := r.kind.source.value, r.kind.destination.value;
    TouchedNeverConverged(w, r, SourceName, h);
    CreateOnlyAtDestination(w, r, SourceName, h);
    UnlistedSurvives(h.files, CreateEffect(w, r, SourceName, h).1.files, dst, Basename(src), Dirname(dst));
  }

  /** A name absent from a listing stays absent when only a file with another basename
      changes. */
  lemma UnlistedSurvives(m: map<string, FileRecord>, m': map<string, FileRecord>, dst: string, name: string, dir: string)
    requires m' - {dst} == m - {dst} && Basename(dst) != name
    requires name !in Listing(m, dir)
    ensures name !in Listing(m', dir)
  {
    if name in Listing(m', dir) {
      var p :| p in m' && Dirname(p) == dir && Basename(p) == name;
      KeptOutside(m, m', dst, p);
      assert false;
    }
  }

  lemma KeptOutside(m: map<string, FileRecord>, m': map<string, FileRecord>, dst: string, p: string)
    requires m' - {dst} == m - {dst}
    requires p in m' && p != dst
    ensures p in m
  {
    assert p in m' - {dst};
  }

  // ---------------------------------------------------------------------------
  // The imperative operations.

  method FileExists(src: string, dst: string, host: Host) returns (present: bool)
    modifies host
    ensures (present, host.State()) == FileExistsEffect(old(host.State()), src, dst)
  {
    var names := host.ListDirectory(Dirname(dst));
    present := Basename(src) in names;
  }

  method GetGid(group: string, host: Host) returns (gid: Option<nat>)
    modifies host
    ensures (gid, host.State()) == LookupEffect(host.world, old(host.State()), GroupId(group))
  {
    gid := host.Lookup(GroupId(group));
  }

  method GetUid(owner: string, host: Host) returns (uid: Option<nat>)
    modifies host
    ensures (uid, host.State()) == LookupEffect(host.world, old(host.State()), UserId(owner))
  {
    uid := host.Lookup(UserId(owner));
  }

  method FileWrite(dst: string, data: seq<byte>, host: Host)
    modifies host
    ensures host.State() == FileWriteEffect(host.world, old(host.State()), dst, data)
  {
    host.OpenForWrite(dst);
    host.TruncateFile(dst);
    var chunks := Lines(data);
    var i := 0;
    while i < |chunks|
      invariant 0 <= i <= |chunks|
      invariant WriteChunksEffect(host.State(), dst, chunks[i..]) == FileWriteEffect(host.world, old(host.State()), dst, data)
    {
      assert chunks[i..][1..] == chunks[i + 1..];
      host.WriteChunk(dst, chunks[i]);
      i := i + 1;
    }
  }

  method ConvergeDelete(r: Resource, host: Host) returns (out: Outcome)
    requires r.kind.File?
    modifies host
    ensures (out, host.State()) == DeleteEffect(host.world, r, old(host.State()))
  {
    host.Note(OpenSession);
    if r.kind.file.None? {
      return Abort(MissingAttribute("file"));
    }
    var p := r.kind.file.value;
    var present := FileExists(p, p, host);
    if present {
      var _ := host.Run(Remove(p), map[], true);
    } else {
      host.Note(Skipped(r.name, AlreadyDeleted(p)));
    }
    out := Exit(0);
  }

  method ConvergeCreate(r: Resource, test: ExistenceTest, host: Host) returns (out: Outcome)
    requires r.kind.File?
    modifies host
    ensures (out, host.State()) == CreateEffect(host.world, r, test, old(host.State()))
  {
    var f := r.kind;
    host.Note(OpenSession);
    var skip := true;
    if f.source.None? {
      return Abort(MissingAttribute("source"));
    }
    if f.destination.None? {
      return Abort(MissingAttribute("destination"));
    }
    var src, dst := f.source.value, f.destination.value;
    ghost var h0 := host.State();
    var present := FileExists(Probed(test, src, dst), dst, host);
    if !present {
      var _ := host.Run(Touch(dst), map[], true);
      skip := false;
    }
    ghost var h2 := host.State();
    assert LocateEffect(host.world, Probed(test, src, dst), dst, h0) == (present, h2);
    if f.group.None? {
      return Abort(MissingAttribute("group"));
    }
    var gid: Option<nat>;
    if !IsDigits(f.group.value) {
      gid := GetGid(f.group.value, host);
    } else {
      gid := Some(DecimalValue(f.group.value));
    }
    if gid.None? {
      return Abort(BadNumber(""));
    }
    if f.owner.None? {
      return Abort(MissingAttribute("owner"));
    }
    var uid: Option<nat>;
    if !IsDigits(f.owner.value) {
      uid := GetUid(f.owner.value, host);
    } else {
      uid := Some(DecimalValue(f.owner.value));
    }
    if uid.None? {
      return Abort(BadNumber(""));
    }
    ghost var h4 := host.State();
    assert IdsEffect(host.world, f, h2) == (Success((gid.value, uid.value)), h4);
    assert CreateEffect(host.world, r, test, old(host.State()))
        == FacetsEffect(host.world, r, src, dst, !present, gid.value, uid.value, h4);
    out := ConvergeFacets(r, src, dst, skip, gid.value, uid.value, host);
  }

  /** The mode facet of _converge_create; None when the mode text is not octal. */
  method ConvergeMode(dst: string, rec: FileRecord, mode: string, host: Host) returns (chmodded: Option<bool>)
    modifies host
    ensures (chmodded, host.State()) == ModeEffect(old(host.State()), dst, rec, mode)
  {
    if ModeText(StMode(rec)) == mode {
      return Some(false);
    }
    var m := ParseOctal(mode);
    if m.None? {
      return None;
    }
    host.ChmodFile(dst, m.value);
    chmodded := Some(true);
  }

  /** The owner-and-group facet of _converge_create. */
  method ConvergeOwner(dst: string, rec: FileRecord, uid: nat, gid: nat, host: Host) returns (chowned: bool)
    modifies host
    ensures (chowned, host.State()) == OwnerEffect(old(host.State()), dst, rec, uid, gid)
  {
    chowned := rec.gid != gid || rec.uid != uid;
    if chowned {
      host.ChownFile(dst, uid, gid);
    }
  }

  /** The content facet of _converge_create. */
  method ConvergeContent(src: string, dst: string, size: nat, host: Host) returns (rewritten: Result<bool, Failure>)
    modifies host
    ensures (rewritten, host.State()) == ContentEffect(host.world, src, dst, size, old(host.State()))
  {
    if src !in host.world.local {
      return Failure(NoLocalFile(src));
    }
    var data := host.world.local[src];
    if |data| != size {
      FileWrite(dst, data, host);
      return Success(true);
    }
    var current := host.ReadFile(dst);
    if current.None? {
      return Failure(NoSuchFile(dst));
    }
    if current.value == data {
      return Success(false);
    }
    FileWrite(dst, data, host);
    rewritten := Success(true);
  }

  /** The part of _converge_create from the stat on; skip is the flag threaded
      through the facets, still true when the destination was not touched. */
  method ConvergeFacets(r: Resource, src: string, dst: string, skip: bool,
                        gid: nat, uid: nat, host: Host) returns (out: Outcome)
    requires r.kind.File?
    modifies host
    ensures (out, host.State()) == FacetsEffect(host.world, r, src, dst, !skip, gid, uid, old(host.State()))
  {
    var st := host.StatFile(dst);
    if st.None? {
      return Abort(NoSuchFile(dst));
    }
    if r.kind.mode.None? {
      return Abort(MissingAttribute("mode"));
    }
    var chmodded := ConvergeMode(dst, st.value, r.kind.mode.value, host);
    if chmodded.None? {
      return Abort(BadNumber(r.kind.mode.value));
    }
    var chowned := ConvergeOwner(dst, st.value, uid, gid, host);
    var rewritten := ConvergeContent(src, dst, |st.value.content|, host);
    if rewritten.Failure? {
      return Abort(rewritten.error);
    }
    if skip && !chmodded.value && !chowned && !rewritten.value {
      host.Note(Skipped(r.name, AlreadyConverged(dst)));
    }
    host.Note(CloseSession);
    out := Exit(0);
  }
}
