/** The entry point (pickup.py): mk_resource turns a configuration step into a resource
    tree, and main builds every step before it converges them in order, exiting with
    "step failed" on the first that does not return 0. */
module Pickup {
  import opened Wrappers
  import opened Transport
  import opened ResourceBase
  import opened Convergence
  import DebPackageResource
  import FileResource
  import ServiceResource
  import ShellResource

  /** A step of the configuration: its string-valued keys (type, action, name and the
      kind's own attributes), its env mapping, and its after and not_if lists. A step
      without after or not_if builds as if the list were empty, so an absent key is
      the empty list here. */
  datatype Step = Step(attrs: Attrs, env: Option<Env>, after: seq<Step>, notIf: seq<Step>)

  /** The resource classes getattr(resources, type) finds. */
  predicate IsResourceClass(t: string)
  {
    t == "DebPackage" || t == "File" || t == "Service" || t == "Shell"
  }

  /** mk_resource(step, scope): the after-children first, then the guards, each with
      its own scope; then the class named by "type"; a step that itself has a "scope"
      key passes that keyword twice; finally the class's constructor. */
  function Build(s: Step, scope: Scope): Result<Resource, Failure>
    decreases s
  {
    var after := BuildAll(s.after, After);
    if after.Failure? then Failure(after.error)
    else
      var notIf := BuildAll(s.notIf, NotIf);
      if notIf.Failure? then Failure(notIf.error)
      else if "type" !in s.attrs then Failure(MissingKey("type"))
      else if !IsResourceClass(s.attrs["type"]) then Failure(UnknownType(s.attrs["type"]))
      else if "scope" in s.attrs then Failure(DuplicateScope)
      else if s.attrs["type"] == "DebPackage" then DebPackageResource.New(s.attrs, s.env, scope, notIf.value, after.value)
      else if s.attrs["type"] == "File" then FileResource.New(s.attrs, s.env, scope, notIf.value, after.value)
      else if s.attrs["type"] == "Service" then ServiceResource.New(s.attrs, s.env, scope, notIf.value, after.value)
      else ShellResource.New(s.attrs, s.env, scope, notIf.value, after.value)
  }

  /** [mk_resource(s, scope) for s in steps]: the first failure ends the list. */
  function BuildAll(ss: seq<Step>, scope: Scope): Result<seq<Resource>, Failure>
    decreases ss
  {
    if ss == [] then Success([])
    else
      var r := Build(ss[0], scope);
      if r.Failure? then Failure(r.error)
      else
        var rest := BuildAll(ss[1..], scope);
        if rest.Failure? then rest else Success([r.value] + rest.value)
  }

  /** The list comprehension builds every step in order: it succeeds iff every step
      builds, and then holds exactly those resources. */
  lemma {:induction false} BuildAllSpec(ss: seq<Step>, scope: Scope)
    ensures BuildAll(ss, scope).Success? <==> forall i :: 0 <= i < |ss| ==> Build(ss[i], scope).Success?
    ensures BuildAll(ss, scope).Success? ==>
              |BuildAll(ss, scope).value| == |ss|
              && forall i :: 0 <= i < |ss| ==> Build(ss[i], scope) == Success(BuildAll(ss, scope).value[i])
    decreases ss
  {
    if ss != [] {
      BuildAllSpec(ss[1..], scope);
      assert forall i :: 1 <= i < |ss| ==> ss[i] == ss[1..][i - 1];
      if Build(ss[0], scope).Success? && BuildAll(ss[1..], scope).Success? {
        var v := BuildAll(ss, scope).value;
        assert v[0] == Build(ss[0], scope).value;
        assert forall i :: 1 <= i < |ss| ==> v[i] == BuildAll(ss[1..], scope).value[i - 1];
      }
    }
  }

  /** Otherwise it fails with the error of the first step that does not build. */
  lemma {:induction false} BuildAllFirstFailure(ss: seq<Step>, scope: Scope, k: nat)
    requires k < |ss| && Build(ss[k], scope).Failure?
    requires forall i :: 0 <= i < k ==> Build(ss[i], scope).Success?
    ensures BuildAll(ss, scope) == Failure(Build(ss[k], scope).error)
    decreases k
  {
    if k > 0 {
      assert Build(ss[0], scope).Success?;
      assert forall i :: 0 <= i < k - 1 ==> ss[1..][i] == ss[i + 1];
      BuildAllFirstFailure(ss[1..], scope, k - 1);
    }
  }

  /** Building one more step extends the list, or fails with that step's error. */
  lemma {:induction false} BuildAllAppend(ss: seq<Step>, s: Step, scope: Scope)
    requires BuildAll(ss, scope).Success?
    ensures BuildAll(ss + [s], scope)
         == if Build(s, scope).Failure? then Failure(Build(s, scope).error)
            else Success(BuildAll(ss, scope).value + [Build(s, scope).value])
    decreases ss
  {
    if ss == [] {
      assert [] + [s] == [s] && [s][1..] == [];
      if Build(s, scope).Success? {
        assert [Build(s, scope).value] + [] == [] + [Build(s, scope).value];
      }
    } else {
      assert (ss + [s])[0] == ss[0] && (ss + [s])[1..] == ss[1..] + [s];
      BuildAllAppend(ss[1..], s, scope);
      var r := Build(ss[0], scope).value;
      var rest := BuildAll(ss[1..], scope).value;
      if Build(s, scope).Success? {
        assert [r] + (rest + [Build(s, scope).value]) == ([r] + rest) + [Build(s, scope).value];
      }
    }
  }

  /** mk_resource yields the shape converge relies on: the resource has the scope it
      was built in, every guard the not_if scope and every after-child the after
      scope, all the way down; and its children are the steps' own, in order. */
  lemma {:induction false} BuildWellScoped(s: Step, scope: Scope)
    ensures var r := Build(s, scope);
            r.Success? ==>
              && r.value.scope == scope && WellScoped(r.value)
              && r.value.after == BuildAll(s.after, After).value
              && r.value.notIf == BuildAll(s.notIf, NotIf).value
    decreases s, 1
  {
    BuildAllWellScoped(s.after, After);
    BuildAllWellScoped(s.notIf, NotIf);
    var r := Build(s, scope);
    if r.Success? {
      assert r.value.scope == scope;
      assert r.value.after == BuildAll(s.after, After).value;
      assert r.value.notIf == BuildAll(s.notIf, NotIf).value;
    }
  }

  lemma {:induction false} BuildAllWellScoped(ss: seq<Step>, scope: Scope)
    ensures var rs := BuildAll(ss, scope);
            rs.Success? ==> forall i :: 0 <= i < |rs.value| ==> rs.value[i].scope == scope && WellScoped(rs.value[i])
    decreases ss
  {
    BuildAllSpec(ss, scope);
    forall i | 0 <= i < |ss|
      ensures Build(ss[i], scope).Success? ==> Build(ss[i], scope).value.scope == scope && WellScoped(Build(ss[i], scope).value)
    {
      BuildWellScoped(ss[i], scope);
    }
  }

  /** The step loop of main: converge each built step in order; a step that returns
      non-zero ends the run with "step failed". */
  function ConvergeAll(w: World, rs: seq<Resource>, h: HostState): (Outcome, HostState)
  {
    var (o, h1) := InOrderEffect(w, rs, h);
    (if o.Exit? && o.status != 0 then Abort(StepFailed) else o, h1)
  }

  /** main from the configuration on: build every step, then converge them. */
  function ApplyEffect(w: World, ss: seq<Step>, h: HostState): (Outcome, HostState)
  {
    var rs := BuildAll(ss, Steps);
    if rs.Failure? then (Abort(rs.error), h) else ConvergeAll(w, rs.value, h)
  }

  /** A configuration error anywhere in the steps ends the run before any resource
      converges: the host is left exactly as it was. */
  lemma ConfigErrorTouchesNothing(w: World, ss: seq<Step>, h: HostState, k: nat)
    requires k < |ss| && Build(ss[k], Steps).Failure?
    ensures ApplyEffect(w, ss, h).0.Abort? && ApplyEffect(w, ss, h).1 == h
  {
    BuildAllSpec(ss, Steps);
  }

  /** For a configuration that builds, the run ends with 0 or an abort raised by a
      resource itself: neither the "step failed" exit of main nor the after-child
      exit of converge can be reached, since every resource outside a not_if scope
      aborts rather than return non-zero. */
  lemma OnlyResourcesAbort(w: World, ss: seq<Step>, h: HostState)
    requires BuildAll(ss, Steps).Success?
    ensures var o := ApplyEffect(w, ss, h).0;
            o == Exit(0) || (o.Abort? && RaisedByResource(o.failure))
  {
    var rs := BuildAll(ss, Steps).value;
    BuildAllWellScoped(ss, Steps);
    InOrderZeroOrAbort(w, rs, h);
    InOrderNoChildFailure(w, rs, h);
  }

  /** main's two loops: build every step, then converge them one after another. */
  method Apply(ss: seq<Step>, host: Host) returns (out: Outcome)
    modifies host
    ensures (out, host.State()) == ApplyEffect(host.world, ss, old(host.State()))
  {
    var rs: seq<Resource> := [];
    var i := 0;
    while i < |ss|
      invariant 0 <= i <= |ss|
      invariant BuildAll(ss[..i], Steps) == Success(rs)
      invariant host.State() == old(host.State())
    {
      var b := Build(ss[i], Steps);
      BuildAllAppend(ss[..i], ss[i], Steps);
      assert ss[..i + 1] == ss[..i] + [ss[i]];
      if b.Failure? {
        BuildAllPrefixFailure(ss, i + 1, Steps);
        return Abort(b.error);
      }
      rs := rs + [b.value];
      i := i + 1;
    }
    assert ss[..i] == ss;
    ghost var h0 := host.State();
    var j := 0;
    while j < |rs|
      invariant 0 <= j <= |rs|
      invariant InOrderEffect(host.world, rs[j..], host.State()) == InOrderEffect(host.world, rs, h0)
    {
      assert rs[j..][0] == rs[j] && rs[j..][1..] == rs[j + 1..];
      var o := Converge(rs[j], host);
      if o.Abort? {
        return o;
      }
      if o.status != 0 {
        return Abort(StepFailed);
      }
      j := j + 1;
    }
    out := Exit(0);
  }

  /** A failure in a prefix of the steps is the failure of the whole list. */
  lemma {:induction false} BuildAllPrefixFailure(ss: seq<Step>, n: nat, scope: Scope)
    requires n <= |ss| && BuildAll(ss[..n], scope).Failure?
    ensures BuildAll(ss, scope) == BuildAll(ss[..n], scope)
    decreases n
  {
    assert n > 0;
    if Build(ss[0], scope).Success? {
      assert ss[..n][0] == ss[0] && ss[..n][1..] == ss[1..][..n - 1];
      BuildAllPrefixFailure(ss[1..], n - 1, scope);
    } else {
      assert ss[..n][0] == ss[0];
    }
  }
}
