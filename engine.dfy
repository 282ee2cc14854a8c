/** Resource.converge (resource.py): evaluate every not_if guard, skip when there were
    guards and all of them returned 0, otherwise run the resource's own action through
    '_converge_' + action, abort the run when that fails outside a not_if scope, then
    converge the after-children in order, aborting on the first one that fails. */
module Convergence {
  import opened Wrappers
  import opened Transport
  import opened ResourceBase
  import DebPackageResource
  import FileResource
  import ServiceResource
  import ShellResource

  /** getattr(self, '_converge_' + action): each class has its own action names; any
      other action is an AttributeError, raised before the action touches the host.
      File create runs with the existence test on the destination's own basename
      (FileResource.ExistenceTest); the test as written is the SourceName case. */
  function ActEffect(w: World, r: Resource, h: HostState): (Outcome, HostState)
  {
    match r.kind
    case DebPackage(_) =>
      if r.action == "install" then DebPackageResource.InstallEffect(w, r, h)
      else if r.action == "remove" then DebPackageResource.RemoveEffect(w, r, h)
      else (Abort(UnknownAction(r.action)), h)
    case File(_, _, _, _, _, _) =>
      if r.action == "create" then FileResource.CreateEffect(w, r, FileResource.DestinationName, h)
      else if r.action == "delete" then FileResource.DeleteEffect(w, r, h)
      else (Abort(UnknownAction(r.action)), h)
    case Service(_) =>
      if r.action == "restart" then ServiceResource.RestartEffect(w, r, h)
      else (Abort(UnknownAction(r.action)), h)
    case Shell(_) =>
      if r.action == "run" then ShellResource.ShellRunEffect(w, r, h)
      else (Abort(UnknownAction(r.action)), h)
  }

  /** The action names the resource's class defines. */
  predicate KnownAction(r: Resource)
  {
    match r.kind
    case DebPackage(_) => r.action == "install" || r.action == "remove"
    case File(_, _, _, _, _, _) => r.action == "create" || r.action == "delete"
    case Service(_) => r.action == "restart"
    case Shell(_) => r.action == "run"
  }

  /** The failures a resource's own action can end the run with. */
  predicate ActionFailure(f: Failure)
  {
    f.UnknownAction? || f.MissingAttribute? || f.BadNumber? || f.NoSuchFile? || f.NoLocalFile?
  }

  /** An own action aborts only for its own reasons (an unknown action, a missing
      attribute, an id or mode that is not a number, a missing file), never with the
      exits converge itself reserves. */
  lemma ActionFailuresOnly(w: World, r: Resource, h: HostState)
    ensures var o := ActEffect(w, r, h).0;
            o.Abort? ==> ActionFailure(o.failure)
  {
  }

  /** converge(client): guards, then the skip decision, then the own action and the
      after-children. */
  function ConvergeEffect(w: World, r: Resource, h: HostState): (Outcome, HostState)
    decreases r, 2
  {
    var (skip, h1) := GuardsEffect(w, r.notIf, r.notIf != [], h);
    if skip.Failure? then (Abort(skip.error), h1)
    else if skip.value then (Exit(0), Log(h1, Skipped(r.name, NotIfGuard)))
    else ProceedEffect(w, r, h1)
  }

  /** The part of converge after the guards: the own action, the abort when it fails
      outside a not_if scope, then the after-children; the result is the action's
      status. */
  function ProceedEffect(w: World, r: Resource, h: HostState): (Outcome, HostState)
    decreases r, 1
  {
    var (own, h1) := ActEffect(w, r, h);
    if own.Abort? then (own, h1)
    else if own.status != 0 && r.scope != NotIf then (Abort(ResourceFailed(r.name)), h1)
    else
      var (children, h2) := InOrderEffect(w, r.after, h1);
      if children == Exit(0) then (Exit(own.status), h2)
      else if children.Abort? then (children, h2)
      else (Abort(ChildFailed(r.name)), h2)
  }

  /** The guard loop: every guard is converged in turn, and a non-zero status clears
      the skip flag without stopping the loop. A guard that aborts ends the run. */
  function GuardsEffect(w: World, gs: seq<Resource>, skip: bool, h: HostState): (Result<bool, Failure>, HostState)
    decreases gs
  {
    if gs == [] then (Success(skip), h)
    else
      var (o, h1) := ConvergeEffect(w, gs[0], h);
      if o.Abort? then (Failure(o.failure), h1)
      else GuardsEffect(w, gs[1..], skip && o.status == 0, h1)
  }

  /** Converging resources one after another, stopping at the first that does not
      return 0: the after-children of a resource and the top-level steps alike.
      The result is that first outcome, or Exit(0) when every one returned 0. */
  function InOrderEffect(w: World, rs: seq<Resource>, h: HostState): (Outcome, HostState)
    decreases rs
  {
    if rs == [] then (Exit(0), h)
    else
      var (o, h1) := ConvergeEffect(w, rs[0], h);
      if o != Exit(0) then (o, h1) else InOrderEffect(w, rs[1..], h1)
  }

  // ---------------------------------------------------------------------------
  // A reference for the guard loop.

  /** Converge every resource in turn with no early stop on a status, collecting the
      statuses; None when one of them aborts, with its failure. */
  function ConvergeEach(w: World, rs: seq<Resource>, h: HostState): (Result<seq<int>, Failure>, HostState)
  {
    if rs == [] then (Success([]), h)
    else
      var (o, h1) := ConvergeEffect(w, rs[0], h);
      if o.Abort? then (Failure(o.failure), h1)
      else
        var (rest, h2) := ConvergeEach(w, rs[1..], h1);
        if rest.Failure? then (rest, h2) else (Success([o.status] + rest.value), h2)
  }

  predicate AllZero(ss: seq<int>)
  {
    forall i :: 0 <= i < |ss| ==> ss[i] == 0
  }

  /** The guard loop converges every guard whatever the statuses, and its verdict is
      the starting flag and-ed with "every guard returned 0". */
  lemma {:induction false} GuardsConvergeEach(w: World, gs: seq<Resource>, skip: bool, h: HostState)
    ensures var (each, h') := ConvergeEach(w, gs, h);
            GuardsEffect(w, gs, skip, h)
              == (if each.Failure? then Failure(each.error) else Success(skip && AllZero(each.value)), h')
    decreases gs
  {
    if gs != [] {
      var (o, h1) := ConvergeEffect(w, gs[0], h);
      if !o.Abort? {
        GuardsConvergeEach(w, gs[1..], skip && o.status == 0, h1);
        var (rest, h2) := ConvergeEach(w, gs[1..], h1);
        if rest.Success? {
          assert AllZero([o.status] + rest.value) <==> o.status == 0 && AllZero(rest.value) by {
            var ss := [o.status] + rest.value;
            assert ss[0] == o.status;
            assert forall i :: 0 <= i < |rest.value| ==> rest.value[i] == ss[i + 1];
          }
        }
      }
    }
  }

  /** With guards, converge skips exactly when every guard returned 0, reporting the
      skip and returning 0 without the own action or the after-children; when one did
      not, it proceeds from the state the guards left. */
  lemma SkipIffGuardsPass(w: World, r: Resource, h: HostState)
    requires r.notIf != []
    ensures var (each, h1) := ConvergeEach(w, r.notIf, h);
            each.Success? ==>
              ConvergeEffect(w, r, h)
                == if AllZero(each.value) then (Exit(0), Log(h1, Skipped(r.name, NotIfGuard)))
                   else ProceedEffect(w, r, h1)
  {
    GuardsConvergeEach(w, r.notIf, true, h);
  }

  /** Without guards converge always proceeds, on the state it was given. */
  lemma NoGuardsProceeds(w: World, r: Resource, h: HostState)
    requires r.notIf == []
    ensures ConvergeEffect(w, r, h) == ProceedEffect(w, r, h)
  {
  }

  /** A guard that aborts ends the run at once: nothing after it runs. */
  lemma GuardAbortStops(w: World, r: Resource, h: HostState)
    ensures var (each, h1) := ConvergeEach(w, r.notIf, h);
            each.Failure? ==> ConvergeEffect(w, r, h) == (Abort(each.error), h1)
  {
    GuardsConvergeEach(w, r.notIf, r.notIf != [], h);
  }

  /** When the own action fails outside a not_if scope the run aborts before any
      after-child is converged; inside a not_if scope the children still run, and
      when they all return 0 the guard's status is the action's. */
  lemma FailedActionStopsUnlessGuard(w: World, r: Resource, h: HostState)
    ensures var (own, h1) := ActEffect(w, r, h);
            own.Exit? && own.status != 0 ==>
              && (r.scope != NotIf ==> ProceedEffect(w, r, h) == (Abort(ResourceFailed(r.name)), h1))
              && (r.scope == NotIf && InOrderEffect(w, r.after, h1).0 == Exit(0) ==>
                    ProceedEffect(w, r, h) == (Exit(own.status), InOrderEffect(w, r.after, h1).1))
  {
  }

  /** After-children run in order, each on the state the previous one left, and the
      first that does not return 0 ends the loop: an abort propagates, a non-zero
      status aborts the run as a child failure. */
  lemma ChildrenInOrder(w: World, r: Resource, h: HostState)
    ensures var (own, h1) := ActEffect(w, r, h);
            var (children, h2) := InOrderEffect(w, r.after, h1);
            own.Exit? && (own.status == 0 || r.scope == NotIf) ==>
              ProceedEffect(w, r, h)
                == (if children == Exit(0) then Exit(own.status)
                    else if children.Abort? then children else Abort(ChildFailed(r.name)), h2)
  {
  }

  /** The first resource that does not return 0 stops the sequence; those before it
      all returned 0, and those after it never run. */
  lemma {:induction false} InOrderStopsAtFirst(w: World, rs: seq<Resource>, h: HostState, k: nat)
    requires k < |rs|
    requires InOrderEffect(w, rs[..k], h).0 == Exit(0)
    requires ConvergeEffect(w, rs[k], InOrderEffect(w, rs[..k], h).1).0 != Exit(0)
    ensures InOrderEffect(w, rs, h) == ConvergeEffect(w, rs[k], InOrderEffect(w, rs[..k], h).1)
    decreases k
  {
    if k > 0 {
      var (o, h1) := ConvergeEffect(w, rs[0], h);
      assert rs[..k][0] == rs[0] && rs[..k][1..] == rs[1..][..k - 1];
      InOrderStopsAtFirst(w, rs[1..], h1, k - 1);
    }
  }

  /** An action the class does not define aborts the run once the guards have let it
      through, without touching the host. */
  lemma UnknownActionAborts(w: World, r: Resource, h: HostState)
    requires !KnownAction(r)
    ensures ProceedEffect(w, r, h) == (Abort(UnknownAction(r.action)), h)
  {
  }

  // ---------------------------------------------------------------------------
  // Outcomes of well-scoped trees.

  /** In order, with no resource of the not_if scope, the outcome is 0 or an abort:
      each such resource aborts itself rather than return a non-zero status. */
  lemma {:induction false} InOrderZeroOrAbort(w: World, rs: seq<Resource>, h: HostState)
    requires forall i :: 0 <= i < |rs| ==> rs[i].scope != NotIf
    ensures InOrderEffect(w, rs, h).0 == Exit(0) || InOrderEffect(w, rs, h).0.Abort?
    decreases rs
  {
    if rs != [] {
      OutsideGuardZeroOrAbort(w, rs[0], h);
      var (o, h1) := ConvergeEffect(w, rs[0], h);
      if o == Exit(0) {
        InOrderZeroOrAbort(w, rs[1..], h1);
      }
    }
  }

  /** A resource outside a not_if scope returns 0 or aborts the run. */
  lemma OutsideGuardZeroOrAbort(w: World, r: Resource, h: HostState)
    requires r.scope != NotIf
    ensures ConvergeEffect(w, r, h).0 == Exit(0) || ConvergeEffect(w, r, h).0.Abort?
  {
  }

  /** A failure some resource raised itself, as opposed to the exits of the two
      loops: "after-child failed" in converge and "step failed" in main. */
  predicate RaisedByResource(f: Failure)
  {
    !f.ChildFailed? && !f.StepFailed?
  }

  /** In a well-scoped tree the "after-child failed" exit is dead code: an
      after-child that fails has already aborted the run itself. */
  lemma {:induction false} WellScopedNoChildFailure(w: World, r: Resource, h: HostState)
    requires WellScoped(r)
    ensures ConvergeEffect(w, r, h).0.Abort? ==> RaisedByResource(ConvergeEffect(w, r, h).0.failure)
    decreases r, 2
  {
    var (skip, h1) := GuardsEffect(w, r.notIf, r.notIf != [], h);
    GuardsNoChildFailure(w, r.notIf, r.notIf != [], h);
    if skip == Success(false) {
      var (own, h2) := ActEffect(w, r, h1);
      ActionFailuresOnly(w, r, h1);
      if own.Exit? && (own.status == 0 || r.scope == NotIf) {
        InOrderNoChildFailure(w, r.after, h2);
      }
    }
  }

  lemma {:induction false} GuardsNoChildFailure(w: World, gs: seq<Resource>, skip: bool, h: HostState)
    requires forall i :: 0 <= i < |gs| ==> WellScoped(gs[i])
    ensures var res := GuardsEffect(w, gs, skip, h).0;
            res.Failure? ==> RaisedByResource(res.error)
    decreases gs
  {
    if gs != [] {
      WellScopedNoChildFailure(w, gs[0], h);
      var (o, h1) := ConvergeEffect(w, gs[0], h);
      if !o.Abort? {
        GuardsNoChildFailure(w, gs[1..], skip && o.status == 0, h1);
      }
    }
  }

  lemma {:induction false} InOrderNoChildFailure(w: World, cs: seq<Resource>, h: HostState)
    requires forall i :: 0 <= i < |cs| ==> cs[i].scope != NotIf && WellScoped(cs[i])
    ensures var o := InOrderEffect(w, cs, h).0;
            o == Exit(0) || (o.Abort? && RaisedByResource(o.failure))
    decreases cs
  {
    if cs != [] {
      WellScopedNoChildFailure(w, cs[0], h);
      OutsideGuardZeroOrAbort(w, cs[0], h);
      var (o, h1) := ConvergeEffect(w, cs[0], h);
      if o == Exit(0) {
        InOrderNoChildFailure(w, cs[1..], h1);
      }
    }
  }

  // ---------------------------------------------------------------------------
  // The imperative traversal.

  /** The dispatch through getattr(self, '_converge_' + action). */
  method Act(r: Resource, host: Host) returns (out: Outcome)
    modifies host
    ensures (out, host.State()) == ActEffect(host.world, r, old(host.State()))
  {
    match r.kind
    case DebPackage(_) =>
      if r.action == "install" {
        out := DebPackageResource.ConvergeInstall(r, host);
      } else if r.action == "remove" {
        out := DebPackageResource.ConvergeRemove(r, host);
      } else {
        out := Abort(UnknownAction(r.action));
      }
    case File(_, _, _, _, _, _) =>
      if r.action == "create" {
        out := FileResource.ConvergeCreate(r, FileResource.DestinationName, host);
      } else if r.action == "delete" {
        out := FileResource.ConvergeDelete(r, host);
      } else {
        out := Abort(UnknownAction(r.action));
      }
    case Service(_) =>
      if r.action == "restart" {
        out := ServiceResource.ConvergeRestart(r, host);
      } else {
        out := Abort(UnknownAction(r.action));
      }
    case Shell(_) =>
      if r.action == "run" {
        out := ShellResource.ConvergeRun(r, host);
      } else {
        out := Abort(UnknownAction(r.action));
      }
  }

  /** Resource.converge: the guard loop, the skip, then Proceed. */
  method Converge(r: Resource, host: Host) returns (out: Outcome)
    modifies host
    ensures (out, host.State()) == ConvergeEffect(host.world, r, old(host.State()))
    decreases r, 2
  {
    ghost var h0 := host.State();
    var skip := r.notIf != [];
    var i := 0;
    while i < |r.notIf|
      invariant 0 <= i <= |r.notIf|
      invariant GuardsEffect(host.world, r.notIf[i..], skip, host.State())
             == GuardsEffect(host.world, r.notIf, r.notIf != [], h0)
    {
      assert r.notIf[i..][0] == r.notIf[i] && r.notIf[i..][1..] == r.notIf[i + 1..];
      var o := Converge(r.notIf[i], host);
      if o.Abort? {
        return o;
      }
      if o.status != 0 {
        skip := false;
      }
      i := i + 1;
    }
    if skip {
      host.Note(Skipped(r.name, NotIfGuard));
      return Exit(0);
    }
    out := Proceed(r, host);
  }

  /** The rest of Resource.converge: the own action and the after-children. */
  method Proceed(r: Resource, host: Host) returns (out: Outcome)
    modifies host
    ensures (out, host.State()) == ProceedEffect(host.world, r, old(host.State()))
    decreases r, 1
  {
    var own := Act(r, host);
    if own.Abort? {
      return own;
    }
    if own.status != 0 && r.scope != NotIf {
      return Abort(ResourceFailed(r.name));
    }
    ghost var h1 := host.State();
    var j := 0;
    while j < |r.after|
      invariant 0 <= j <= |r.after|
      invariant InOrderEffect(host.world, r.after[j..], host.State()) == InOrderEffect(host.world, r.after, h1)
    {
      assert r.after[j..][0] == r.after[j] && r.after[j..][1..] == r.after[j + 1..];
      var c := Converge(r.after[j], host);
      if c.Abort? {
        return c;
      }
      if c.status != 0 {
        return Abort(ChildFailed(r.name));
      }
      j := j + 1;
    }
    out := Exit(own.status);
  }
}
