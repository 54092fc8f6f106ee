/** The shared vocabulary of the pipeline library: Python values, exceptions, user callables as the
    library introspects them, references to steps, events, and the callables the library builds
    around user functions. User code is never modelled by its body: a callable is a term, and what
    it does when called is given to the operations that call it. */
module Types {

  datatype Option<+T> = None | Some(value: T) {
    function GetOr(default: T): T {
      match this
      case Some(v) => v
      case None => default
    }
  }

  datatype Result<+T, +E> = Ok(value: T) | Err(error: E)

  /** A Python exception: the name of its class, the module that class is defined in, and str(e). */
  datatype Exc = Exc(typeName: string, moduleName: string, message: string)

  /** A type annotation, or a pipe's state/context type argument, compared by identity. */
  datatype PyType = AnyType | EmptyAnnotation | Named(qualname: string)

  /** One parameter of a function, as inspect.signature reports it. */
  datatype Param = Param(name: string, annotation: PyType, hasDefault: bool)

  /** A user-written function: its __name__, an identity, and its parameters in declaration order. */
  datatype UserFunc = UserFunc(name: string, id: nat, params: seq<Param>)

  /** What the library accepts wherever it takes "a step name or the step's function". */
  datatype Ref = ByName(name: string) | ByFunc(func: UserFunc)

  /** A step name is the string itself, or the __name__ of the function given for it. */
  function ResolveName(r: Ref): string {
    match r
    case ByName(s) => s
    case ByFunc(f) => f.name
  }

  /** Python truthiness of a name-or-function: only the empty string is falsy. */
  predicate RefTruthy(r: Ref) {
    !(r.ByName? && r.name == "")
  }

  /** Python values that flow through steps: payloads, results, tokens, injected arguments.
      Next, MapItems, RunSub and Suspend are the control values a step may return or yield;
      StopValue is the Stop sentinel. */
  datatype Value =
    | NoneValue
    | BoolValue(b: bool)
    | IntValue(i: int)
    | StrValue(s: string)
    | ExcValue(e: Exc)
    | Opaque(id: nat)
    | Next(target: Ref)
    | MapItems(items: seq<Value>, mapTarget: string)
    | RunSub(pipeId: nat, state: Value)
    | Suspend(reason: string)
    | StopValue

  /** The classes a streaming step's yielded item is checked against: _Next, _Map, _Run, Suspend.
      Stop is not among them. */
  predicate IsControl(v: Value) {
    v.Next? || v.MapItems? || v.RunSub? || v.Suspend?
  }

  /** Decimal digits of a natural number. */
  function NatToString(n: nat): (r: string)
    ensures |r| >= 1
    decreases n
  {
    var d := ["0", "1", "2", "3", "4", "5", "6", "7", "8", "9"][n % 10];
    if n < 10 then d else NatToString(n / 10) + d
  }

  /** str(v) for the values the library turns into text. Objects without a string form of their
      own are shown by a fixed placeholder. */
  function Display(v: Value): string {
    match v
    case NoneValue => "None"
    case BoolValue(b) => if b then "True" else "False"
    case IntValue(i) => if i < 0 then "-" + NatToString(-i) else NatToString(i)
    case StrValue(s) => s
    case ExcValue(e) => e.message
    case StopValue => "Stop"
    case _ => "<object>"
  }

  datatype EventType =
    | Start | Token | StepStart | StepEnd | StepError | PipelineError | Finish | Suspended
    | MapStart | MapWorker | MapComplete | BarrierWait | BarrierRelease | Timeout | Cancelled

  /** An event of a run: its type, the stage it concerns, and its payload. */
  datatype Event = Event(eventType: EventType, stage: string, payload: Value)

  /** Values stored in a step's metadata dictionary. MRoutes is a normalised switch route table
      (keys in insertion order, each mapped to a step name or "Stop"); MOther is any other object. */
  datatype MetaValue =
    | MNone
    | MBool(b: bool)
    | MInt(i: int)
    | MReal(r: real)
    | MStr(s: string)
    | MFunc(f: UserFunc)
    | MRoutes(routes: seq<(Value, string)>)
    | MOther(id: nat)

  /** Python truthiness of a metadata value. */
  predicate Truthy(v: MetaValue) {
    match v
    case MNone => false
    case MBool(b) => b
    case MInt(i) => i != 0
    case MReal(r) => r != 0.0
    case MStr(s) => s != ""
    case MFunc(_) => true
    case MRoutes(rs) => |rs| > 0
    case MOther(_) => true
  }

  /** Where a switch route leads: a step (by name or function), or Stop. */
  datatype RouteTarget = ToStep(step: Ref) | ToStop

  /** A switch's routes: a dictionary from result values to targets, kept as an association list in
      insertion order, or a user function from the result to a target. */
  datatype Routes = DictRoutes(entries: seq<(Value, RouteTarget)>) | DynamicRoutes(router: UserFunc)

  /** A middleware: the tenacity retry middleware the library installs by default, or a user one. */
  datatype Middleware = RetryMiddleware | UserMiddleware(id: nat)

  /** The StepContext every middleware receives. */
  datatype StepContext = StepContext(name: string, kwargs: map<string, MetaValue>, pipeName: string)

  /** The callable a pipe stores for a step: the user's function, one of the wrappers the map,
      switch and sub decorators put around it, and the middleware layers applied over that. */
  datatype Callable =
    | Plain(f: UserFunc)
    | MapWrapper(f: UserFunc, target: string)
    | SwitchWrapper(f: UserFunc, routes: Routes, default: Option<Ref>, stage: string)
    | SubWrapper(f: UserFunc, pipeId: nat)
    | Wrapped(mw: Middleware, inner: Callable, ctx: StepContext)
}
