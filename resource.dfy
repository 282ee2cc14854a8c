/** The resource entity shared by every kind (resource.py): its fields and the defaults
    Resource.__init__ gives them. The traversal that converges a resource is in module
    Convergence, after the kinds it dispatches to. */
module ResourceBase {
  import opened Wrappers
  import opened Transport

  /** Where in the configuration a resource was declared. */
  datatype Scope = Steps | After | NotIf

  /** The scope string the source passes to the constructor. */
  function ScopeText(s: Scope): string
  {
    match s
    case Steps => "steps"
    case After => "after"
    case NotIf => "not_if"
  }

  /** The four resource classes and the fields each one stores. A File stores only the
      keys the step carries, so each of its fields is optional. */
  datatype Kind =
    | DebPackage(package: string)
    | File(source: Option<string>, destination: Option<string>, file: Option<string>,
           group: Option<string>, mode: Option<string>, owner: Option<string>)
    | Service(service: string)
    | Shell(command: string)

  /** The class name, which is also the step's "type". */
  function TypeName(k: Kind): string
  {
    match k
    case DebPackage(_) => "DebPackage"
    case File(_, _, _, _, _, _) => "File"
    case Service(_) => "Service"
    case Shell(_) => "Shell"
  }

  datatype Resource = Resource(
    kind: Kind,
    action: string,
    scope: Scope,
    name: string,
    env: Env,
    notIf: seq<Resource>,
    after: seq<Resource>)

  /** What ends a run early: sys.exit calls and the uncaught exceptions the source
      raises (KeyError, AttributeError, ValueError, IOError). */
  datatype Failure =
    | ResourceFailed(name: string)     // sys.exit after a failed own action
    | ChildFailed(name: string)        // sys.exit after a failed after-child
    | StepFailed                       // sys.exit in the top-level loop
    | UnknownAction(action: string)    // getattr(self, '_converge_' + action) fails
    | MissingAttribute(attr: string)   // a File attribute the step did not set
    | MissingKey(key: string)          // kwargs[key] during construction
    | UnknownType(typeName: string)    // no resource class of that name
    | DuplicateScope                   // the step itself has a "scope" key
    | BadNumber(text: string)          // int() of text that is not a number
    | NoSuchFile(path: string)         // stat or open of an absent remote file
    | NoLocalFile(path: string)        // os.path.getsize of an absent local file

  /** The shape mk_resource builds: every guard has the not_if scope and every
      after-child the after scope, all the way down. */
  predicate WellScoped(r: Resource)
    decreases r
  {
    && (forall i :: 0 <= i < |r.notIf| ==> r.notIf[i].scope == NotIf && WellScoped(r.notIf[i]))
    && (forall i :: 0 <= i < |r.after| ==> r.after[i].scope == After && WellScoped(r.after[i]))
  }

  /** The result of converging: an exit status, or the run is aborted. */
  datatype Outcome = Exit(status: int) | Abort(failure: Failure)

  /** The step's keys other than after and not_if, as keyword arguments. */
  type Attrs = map<string, string>

  /** True when the step gives a non-empty "name". */
  predicate HasName(attrs: Attrs)
  {
    "name" in attrs && attrs["name"] != ""
  }

  /** Resource.__init__ once the kind's own fields are known: the name defaults to
      scope.type.action when absent or empty, env defaults to the empty map, and the
      built guard and child lists are kept as given. */
  function Init(kind: Kind, attrs: Attrs, env: Option<Env>, scope: Scope,
                notIf: seq<Resource>, after: seq<Resource>): (r: Resource)
    requires "action" in attrs
    ensures r.kind == kind && r.action == attrs["action"] && r.scope == scope
    ensures r.notIf == notIf && r.after == after
    ensures r.env == if env.Some? then env.value else map[]
    ensures HasName(attrs) ==> r.name == attrs["name"]
    ensures !HasName(attrs) ==> r.name == ScopeText(scope) + "." + TypeName(kind) + "." + attrs["action"]
  {
    var name := if HasName(attrs) then attrs["name"]
                else ScopeText(scope) + "." + TypeName(kind) + "." + attrs["action"];
    Resource(kind, attrs["action"], scope, name, if env.Some? then env.value else map[], notIf, after)
  }
}
