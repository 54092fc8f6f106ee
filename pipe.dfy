/** Pipe registration and introspection (justpipe/pipe.py): the class whose decorators record each
    step's metadata, injection mapping, topology and wrapped callable, and what `steps()`,
    `topology` and a switch's routing derive from them. */
module PipeRegistry {
  import opened Types
  import opened Signature

  /** The `to` argument: absent, one target, or a list of targets. */
  datatype To = NoTargets | Single(target: Ref) | Several(targets: seq<Ref>)

  /** Python truthiness of `to`. */
  predicate ToTruthy(to: To) {
    match to
    case NoTargets => false
    case Single(t) => RefTruthy(t)
    case Several(ts) => |ts| > 0
  }

  function Names(ts: seq<Ref>): (r: seq<string>)
    ensures |r| == |ts| && forall i :: 0 <= i < |ts| ==> r[i] == ResolveName(ts[i])
  {
    if ts == [] then [] else [ResolveName(ts[0])] + Names(ts[1..])
  }

  /** The resolved names written to the topology: a single target becomes a one-element list. */
  function TargetNames(to: To): (r: seq<string>)
    ensures to.Single? ==> r == [ResolveName(to.target)]
    ensures to.Several? ==> |r| == |to.targets| && forall i :: 0 <= i < |r| ==> r[i] == ResolveName(to.targets[i])
  {
    match to
    case NoTargets => []
    case Single(t) => [ResolveName(t)]
    case Several(ts) => Names(ts)
  }

  /** `name or func`: the given name unless it is absent or the empty string. */
  function NameOr(name: Option<Ref>, func: UserFunc): Ref {
    if name.Some? && RefTruthy(name.value) then name.value else ByFunc(func)
  }

  /** What a sub-pipeline argument offers: its `name` attribute if it has one, and an identity. */
  datatype SubPipe = SubPipe(name: Option<string>, id: nat)

  /** Errors raised while registering: a DefinitionError from signature analysis, or the
      ValueError of a decorator called without its required argument. */
  datatype PipeError = Definition(err: DefinitionError) | ValueError(message: string)

  datatype Kind = StepKind | MapKind | SwitchKind | SubKind

  /** The StepInfo `steps()` yields. */
  datatype StepInfo = StepInfo(name: string, timeout: MetaValue, retries: MetaValue, barrierTimeout: MetaValue,
                               hasErrorHandler: bool, targets: seq<string>, kind: Kind)

  /** The names a decorator or `_register_step_config` binds to its own positional or explicit
      parameters: Python refuses a keyword of one of these names in `**kwargs`, so the keywords
      never hold them. `expected_unknowns` is not among them: a decorator's keywords pass it on to
      `_register_step_config`, which binds it to its own parameter. */
  const BoundNames: set<string> :=
    {"self", "name", "to", "barrier_timeout", "on_error", "name_or_func", "func"}
  /** The names map, switch and sub additionally bind: their own parameters and the keywords they
      pass to `_register_step_config` explicitly. */
  const MapBound: set<string> := {"using", "map_target"}
  const SwitchBound: set<string> := {"routes", "default", "switch_routes", "switch_default"}
  const SubBound: set<string> := {"using", "sub_pipeline", "sub_pipeline_obj"}

  /** Keywords a decorator can receive: none of the names it binds, framework keys, if a caller
      passes them, of the types the library writes them with, and an `expected_unknowns` keyword,
      if any, of its declared type `int` (a `bool` is an `int` in Python). */
  predicate KwargsFree(kwargs: map<string, MetaValue>, bound: set<string>) {
    && kwargs.Keys !! (BoundNames + bound) && WellFormedMeta(kwargs)
    && ("expected_unknowns" in kwargs ==> kwargs["expected_unknowns"].MInt? || kwargs["expected_unknowns"].MBool?)
  }

  /** The unknown-parameter allowance a decorated function is analysed with: the
      `expected_unknowns` keyword when the caller passes one, 1 otherwise. */
  function Allowance(kwargs: map<string, MetaValue>): int {
    if "expected_unknowns" !in kwargs then 1
    else match kwargs["expected_unknowns"]
      case MInt(i) => i
      case MBool(b) => if b then 1 else 0
      case _ => 1
  }

  /** The keywords `_register_step_config` gathers into its own `**kwargs` and stores: the
      decorator's keywords without `expected_unknowns`, which binds to the named parameter. */
  function Forwarded(kwargs: map<string, MetaValue>): (f: map<string, MetaValue>)
    ensures "expected_unknowns" !in f
    ensures forall k :: k in f <==> k in kwargs && k != "expected_unknowns"
    ensures forall k :: k in f ==> f[k] == kwargs[k]
  {
    map k | k in kwargs && k != "expected_unknowns" :: kwargs[k]
  }

  /** Keywords that carry none of the keys `steps()` reads to tell the kinds apart. */
  predicate NoFrameworkKeys(kwargs: map<string, MetaValue>) {
    "map_target" !in kwargs && "switch_routes" !in kwargs && "switch_default" !in kwargs && "sub_pipeline" !in kwargs
  }

  /** The metadata keys the library reads back have the types it writes them with. */
  predicate WellFormedMeta(meta: map<string, MetaValue>) {
    && ("map_target" in meta ==> meta["map_target"].MStr?)
    && ("switch_default" in meta ==> meta["switch_default"].MStr? || meta["switch_default"] == MNone)
  }

  function MetaGet(meta: map<string, MetaValue>, key: string): MetaValue {
    if key in meta then meta[key] else MNone
  }

  function HandlerMeta(h: Option<UserFunc>): MetaValue {
    if h.Some? then MFunc(h.value) else MNone
  }

  /** `{**kwargs, "barrier_timeout": ..., "on_error": ...}`: every keyword plus the two explicit
      keys, which win over a keyword of the same name. */
  function StoredMeta(kwargs: map<string, MetaValue>, barrierTimeout: MetaValue, onError: Option<UserFunc>)
    : (meta: map<string, MetaValue>)
    ensures meta.Keys == kwargs.Keys + {"barrier_timeout", "on_error"}
    ensures forall k :: k in kwargs && k != "barrier_timeout" && k != "on_error" ==> meta[k] == kwargs[k]
    ensures meta["barrier_timeout"] == barrierTimeout && meta["on_error"] == HandlerMeta(onError)
  {
    kwargs["barrier_timeout" := barrierTimeout]["on_error" := HandlerMeta(onError)]
  }

  /** The whole mutable state of a pipe. `stepOrder` is the insertion order of `stepMetadata`'s keys,
      which is the order `steps()` reports them in. */
  datatype PipeState = PipeState(
    middleware: seq<Middleware>,
    steps: map<string, Callable>,
    topology: map<string, seq<string>>,
    onError: Option<UserFunc>,
    injectionMetadata: map<string, map<string, Source>>,
    stepMetadata: map<string, map<string, MetaValue>>,
    stepOrder: seq<string>)

  /** The order lists each metadata key once, and every entry is well formed. */
  ghost predicate ValidOrder(stepMetadata: map<string, map<string, MetaValue>>, stepOrder: seq<string>) {
    && (forall i, j :: 0 <= i < j < |stepOrder| ==> stepOrder[i] != stepOrder[j])
    && (forall n :: n in stepMetadata <==> n in stepOrder)
    && (forall n :: n in stepMetadata ==> WellFormedMeta(stepMetadata[n]))
  }

  ghost predicate ValidState(s: PipeState) {
    ValidOrder(s.stepMetadata, s.stepOrder)
  }

  /** Writing one step's metadata entry: a new key goes to the end of the order, an existing key
      keeps its place. */
  function WithMetadata(s: PipeState, stage: string, meta: map<string, MetaValue>): PipeState {
    s.(stepMetadata := s.stepMetadata[stage := meta],
       stepOrder := if stage in s.stepMetadata then s.stepOrder else s.stepOrder + [stage])
  }

  /** Writing a well-formed entry keeps the order duplicate-free and in step with the keys. */
  lemma WithMetadataValid(s: PipeState, stage: string, meta: map<string, MetaValue>)
    requires ValidState(s) && WellFormedMeta(meta)
    ensures ValidState(WithMetadata(s, stage, meta))
  {
  }

  /** Writing the topology entry, which happens only for a truthy `to`. */
  function WithTopology(s: PipeState, stage: string, to: To): PipeState {
    if ToTruthy(to) then s.(topology := s.topology[stage := TargetNames(to)]) else s
  }

  /** The part of _register_step_config after the step's own mapping is stored: the error
      handler's mapping, analysed with no unknown parameter allowed, then the topology. */
  function RegisterHandler(s: PipeState, stateType: PyType, contextType: PyType, stage: string, to: To,
                           onError: Option<UserFunc>): (PipeState, Result<string, PipeError>)
  {
    if onError.None? then (WithTopology(s, stage, to), Ok(stage))
    else match Analysis(onError.value, stateType, contextType, 0)
      case Err(e) => (s, Err(Definition(e)))
      case Ok(h) => (WithTopology(s.(injectionMetadata := s.injectionMetadata[stage + ":on_error" := h]), stage, to), Ok(stage))
  }

  /** _register_step_config. The metadata is written first, so it stays written when a signature
      analysis raises; the step's mapping, then the handler's, then the topology follow. */
  function RegisterConfig(s: PipeState, stateType: PyType, contextType: PyType, nameOrFunc: Ref, func: UserFunc,
                          to: To, barrierTimeout: MetaValue, onError: Option<UserFunc>, expectedUnknowns: int,
                          kwargs: map<string, MetaValue>): (PipeState, Result<string, PipeError>)
  {
    var stage := ResolveName(nameOrFunc);
    var s1 := WithMetadata(s, stage, StoredMeta(kwargs, barrierTimeout, onError));
    match Analysis(func, stateType, contextType, expectedUnknowns)
    case Err(e) => (s1, Err(Definition(e)))
    case Ok(m) => RegisterHandler(s1.(injectionMetadata := s1.injectionMetadata[stage := m]), stateType, contextType, stage, to, onError)
  }

  /** The middleware folded over a callable in list order: each one wraps the result so far, so the
      last middleware is the outermost layer. */
  function Fold(mws: seq<Middleware>, f: Callable, ctx: StepContext): Callable {
    if mws == [] then f else Wrapped(mws[|mws| - 1], Fold(mws[..|mws| - 1], f, ctx), ctx)
  }

  /** The innermost callable and the middleware layers around it, innermost first. */
  function Peel(c: Callable): (Callable, seq<Middleware>) {
    match c
    case Wrapped(mw, inner, _) => var (base, mws) := Peel(inner); (base, mws + [mw])
    case _ => (c, [])
  }

  /** Peeling a folded callable gives back the callable and the middleware list in order. */
  lemma {:induction false} PeelFold(mws: seq<Middleware>, f: Callable, ctx: StepContext)
    requires !f.Wrapped?
    ensures Peel(Fold(mws, f, ctx)) == (f, mws)
  {
    if mws != [] {
      PeelFold(mws[..|mws| - 1], f, ctx);
      assert mws[..|mws| - 1] + [mws[|mws| - 1]] == mws;
    }
  }

  /** _wrap_step: the stored callable for the step. */
  function Wrap(s: PipeState, stage: string, f: Callable, kwargs: map<string, MetaValue>, pipeName: string): PipeState {
    s.(steps := s.steps[stage := Fold(s.middleware, f, StepContext(stage, kwargs, pipeName))])
  }

  /** The step decorator applied to a function: register, then store the wrapped function. */
  function StepSpec(s: PipeState, pipeName: string, stateType: PyType, contextType: PyType, name: Option<Ref>,
                    func: UserFunc, to: To, barrierTimeout: MetaValue, onError: Option<UserFunc>,
                    kwargs: map<string, MetaValue>): (PipeState, Result<string, PipeError>)
  {
    var (s1, r) := RegisterConfig(s, stateType, contextType, NameOr(name, func), func, to, barrierTimeout, onError,
                                  Allowance(kwargs), Forwarded(kwargs));
    if r.Ok? then (Wrap(s1, r.value, Plain(func), kwargs, pipeName), r) else (s1, r)
  }

  /** The map decorator: ValueError without `using`; otherwise the metadata also records the
      resolved map target and the stored callable collects the items into a map of that target. */
  function MapSpec(s: PipeState, pipeName: string, stateType: PyType, contextType: PyType, name: Option<Ref>,
                   using: Option<Ref>, func: UserFunc, to: To, barrierTimeout: MetaValue, onError: Option<UserFunc>,
                   kwargs: map<string, MetaValue>): (PipeState, Result<string, PipeError>)
  {
    if using.None? then (s, Err(ValueError("@pipe.map requires 'using' parameter")))
    else
      var target := ResolveName(using.value);
      var (s1, r) := RegisterConfig(s, stateType, contextType, NameOr(name, func), func, to, barrierTimeout, onError,
                                    Allowance(kwargs), Forwarded(kwargs)["map_target" := MStr(target)]);
      if r.Ok? then (Wrap(s1, r.value, MapWrapper(func, target), kwargs, pipeName), r) else (s1, r)
  }

  /** How a route target is written into the metadata: "Stop" for Stop, the resolved name otherwise. */
  function NormalizedTarget(t: RouteTarget): string {
    match t
    case ToStop => "Stop"
    case ToStep(r) => ResolveName(r)
  }

  /** The normalised route table: the same keys in the same order, each target normalised. */
  function NormalizeRoutes(entries: seq<(Value, RouteTarget)>): (r: seq<(Value, string)>)
    ensures |r| == |entries|
    ensures forall i :: 0 <= i < |entries| ==> r[i] == (entries[i].0, NormalizedTarget(entries[i].1))
  {
    if entries == [] then [] else [(entries[0].0, NormalizedTarget(entries[0].1))] + NormalizeRoutes(entries[1..])
  }

  /** The metadata a switch adds to its keywords: the normalised route table, or "dynamic" for a
      routing function, and the resolved default when it is truthy. */
  function SwitchMeta(kwargs: map<string, MetaValue>, routes: Routes, default: Option<Ref>): (meta: map<string, MetaValue>)
    ensures meta.Keys == kwargs.Keys + {"switch_routes", "switch_default"}
    ensures forall k :: k in kwargs && k != "switch_routes" && k != "switch_default" ==> meta[k] == kwargs[k]
    ensures meta["switch_routes"] == if routes.DictRoutes? then MRoutes(NormalizeRoutes(routes.entries)) else MStr("dynamic")
    ensures meta["switch_default"] == if default.Some? && RefTruthy(default.value) then MStr(ResolveName(default.value)) else MNone
  {
    var stored := match routes
      case DictRoutes(entries) => MRoutes(NormalizeRoutes(entries))
      case DynamicRoutes(_) => MStr("dynamic");
    var defaultMeta := if default.Some? && RefTruthy(default.value) then MStr(ResolveName(default.value)) else MNone;
    kwargs["switch_routes" := stored]["switch_default" := defaultMeta]
  }

  /** The metadata a sub step adds to its keywords: the sub-pipeline's name, "SubPipe" when it has
      none, and the object itself. */
  function SubMeta(kwargs: map<string, MetaValue>, sub: SubPipe): (meta: map<string, MetaValue>)
    ensures meta.Keys == kwargs.Keys + {"sub_pipeline", "sub_pipeline_obj"}
    ensures forall k :: k in kwargs && k != "sub_pipeline" && k != "sub_pipeline_obj" ==> meta[k] == kwargs[k]
    ensures meta["sub_pipeline"] == MStr(if sub.name.Some? then sub.name.value else "SubPipe")
    ensures meta["sub_pipeline_obj"] == MOther(sub.id)
  {
    var subName := if sub.name.Some? then sub.name.value else "SubPipe";
    kwargs["sub_pipeline" := MStr(subName)]["sub_pipeline_obj" := MOther(sub.id)]
  }

  /** The switch decorator: ValueError without `routes`; otherwise the metadata records the
      normalised route table (or "dynamic" for a routing function) and the resolved default, no
      topology is written, and the stored callable routes the function's result at run time. */
  function SwitchSpec(s: PipeState, pipeName: string, stateType: PyType, contextType: PyType, name: Option<Ref>,
                      routes: Option<Routes>, default: Option<Ref>, func: UserFunc, barrierTimeout: MetaValue,
                      onError: Option<UserFunc>, kwargs: map<string, MetaValue>): (PipeState, Result<string, PipeError>)
    requires routes.Some? ==> DistinctKeys(routes.value)
  {
    if routes.None? then (s, Err(ValueError("@pipe.switch requires 'routes' parameter")))
    else
      var (s1, r) := RegisterConfig(s, stateType, contextType, NameOr(name, func), func, NoTargets, barrierTimeout, onError,
                                    Allowance(kwargs), SwitchMeta(Forwarded(kwargs), routes.value, default));
      if r.Ok? then (Wrap(s1, r.value, SwitchWrapper(func, routes.value, default, r.value), kwargs, pipeName), r) else (s1, r)
  }

  /** The sub decorator: ValueError without `using`; otherwise the metadata records the
      sub-pipeline's name ("SubPipe" when it has none) and the object itself. */
  function SubSpec(s: PipeState, pipeName: string, stateType: PyType, contextType: PyType, name: Option<Ref>,
                   using: Option<SubPipe>, func: UserFunc, to: To, barrierTimeout: MetaValue, onError: Option<UserFunc>,
                   kwargs: map<string, MetaValue>): (PipeState, Result<string, PipeError>)
  {
    if using.None? then (s, Err(ValueError("@pipe.sub requires 'using' parameter")))
    else
      var (s1, r) := RegisterConfig(s, stateType, contextType, NameOr(name, func), func, to, barrierTimeout, onError,
                                    Allowance(kwargs), SubMeta(Forwarded(kwargs), using.value));
      if r.Ok? then (Wrap(s1, r.value, SubWrapper(func, using.value.id), kwargs, pipeName), r) else (s1, r)
  }

  /** The on_error decorator: the global handler is set before its signature is analysed. */
  function OnErrorSpec(s: PipeState, stateType: PyType, contextType: PyType, func: UserFunc): (PipeState, Result<(), PipeError>) {
    var s1 := s.(onError := Some(func));
    match Analysis(func, stateType, contextType, 0)
    case Err(e) => (s1, Err(Definition(e)))
    case Ok(m) => (s1.(injectionMetadata := s1.injectionMetadata["system:on_error" := m]), Ok(()))
  }

  /** The step kind, by priority map > switch > sub > step. */
  function KindOf(meta: map<string, MetaValue>): (k: Kind)
    ensures k == MapKind <==> "map_target" in meta
    ensures k == SwitchKind <==> "map_target" !in meta && "switch_routes" in meta
    ensures k == SubKind <==> "map_target" !in meta && "switch_routes" !in meta && "sub_pipeline" in meta
  {
    if "map_target" in meta then MapKind
    else if "switch_routes" in meta then SwitchKind
    else if "sub_pipeline" in meta then SubKind
    else StepKind
  }

  /** The route values of a normalised table other than "Stop", in table order. */
  function RouteNames(routes: seq<(Value, string)>): seq<string> {
    if routes == [] then []
    else (if routes[0].1 != "Stop" then [routes[0].1] else []) + RouteNames(routes[1..])
  }

  /** A name is among the route names exactly when some route's value is that name and it is not
      "Stop". */
  lemma {:induction false} RouteNamesContent(routes: seq<(Value, string)>, t: string)
    ensures t in RouteNames(routes) <==> t != "Stop" && exists i :: 0 <= i < |routes| && routes[i].1 == t
  {
    if routes != [] {
      RouteNamesContent(routes[1..], t);
      assert forall i :: 1 <= i < |routes| ==> routes[i] == routes[1..][i - 1];
      if t != "Stop" && exists i :: 0 <= i < |routes| && routes[i].1 == t {
        var i :| 0 <= i < |routes| && routes[i].1 == t;
        if i > 0 { assert routes[1..][i - 1].1 == t; }
      }
    }
  }

  function TopologyOf(topology: map<string, seq<string>>, name: string): seq<string> {
    if name in topology then topology[name] else []
  }

  /** The map target, when the entry has one. */
  function MapTargets(meta: map<string, MetaValue>): seq<string>
    requires WellFormedMeta(meta)
  {
    if "map_target" in meta then [meta["map_target"].s] else []
  }

  /** The non-Stop values of a route table; a dynamic switch has none. */
  function RouteTargets(meta: map<string, MetaValue>): seq<string> {
    var routes := MetaGet(meta, "switch_routes");
    if routes.MRoutes? then RouteNames(routes.routes) else []
  }

  /** The switch default, when it is truthy. */
  function DefaultTargets(meta: map<string, MetaValue>): seq<string>
    requires WellFormedMeta(meta)
  {
    var default := MetaGet(meta, "switch_default");
    if Truthy(default) then [default.s] else []
  }

  /** The StepInfo of one metadata entry: its targets are the topology's, then the map target, then
      the non-Stop switch routes, then a truthy switch default; retries is 0 when falsy. */
  function Describe(name: string, meta: map<string, MetaValue>, topology: map<string, seq<string>>): StepInfo
    requires WellFormedMeta(meta)
  {
    StepInfo(name, MetaGet(meta, "timeout"),
             if Truthy(MetaGet(meta, "retries")) then meta["retries"] else MInt(0),
             MetaGet(meta, "barrier_timeout"), MetaGet(meta, "on_error") != MNone,
             TopologyOf(topology, name) + MapTargets(meta) + RouteTargets(meta) + DefaultTargets(meta),
             KindOf(meta))
  }

  /** The first route whose key equals `key`. */
  function Lookup(entries: seq<(Value, RouteTarget)>, key: Value): (r: Option<RouteTarget>)
    ensures r.Some? <==> exists i :: 0 <= i < |entries| && entries[i].0 == key
    ensures r.Some? ==> exists i :: 0 <= i < |entries| && entries[i] == (key, r.value)
                                    && forall j :: 0 <= j < i ==> entries[j].0 != key
  {
    if entries == [] then None
    else if entries[0].0 == key then Some(entries[0].1)
    else
      var r := Lookup(entries[1..], key);
      assert forall i :: 1 <= i < |entries| ==> entries[i] == entries[1..][i - 1];
      r
  }

  function LookupNormalized(routes: seq<(Value, string)>, key: Value): Option<string> {
    if routes == [] then None
    else if routes[0].0 == key then Some(routes[0].1)
    else LookupNormalized(routes[1..], key)
  }

  /** The normalised table answers a lookup as the original table does, with the target
      normalised: it keeps the keys, and maps a Stop target to "Stop". */
  lemma {:induction false} NormalizeAgreesWithLookup(entries: seq<(Value, RouteTarget)>, key: Value)
    ensures LookupNormalized(NormalizeRoutes(entries), key)
            == (var t := Lookup(entries, key); if t.Some? then Some(NormalizedTarget(t.value)) else None)
  {
    if entries != [] {
      NormalizeAgreesWithLookup(entries[1..], key);
      assert NormalizeRoutes(entries)[1..] == NormalizeRoutes(entries[1..]);
    }
  }

  /** The error a switch raises for a result that matches no route and no default. */
  function NoRouteError(stage: string, result: Value): Exc {
    Exc("ValueError", "builtins",
        "Step '" + stage + "' (switch) returned " + Display(result) + ", which matches no route and no default was provided.")
  }

  /** A route dictionary holds each key once, as every Python dict does. */
  predicate DistinctKeys(routes: Routes) {
    routes.DictRoutes? ==> forall i, j :: 0 <= i < j < |routes.entries| ==> routes.entries[i].0 != routes.entries[j].0
  }

  /** The routing of switch_wrapper: a dictionary lookup falling back to the default, or the
      routing function's answer (`router` stands for its code: a target, None, or an exception it
      raises, which propagates); no target raises. */
  function ResolveRoute(routes: Routes, default: Option<Ref>, stage: string, result: Value,
                        router: (UserFunc, Value) -> Result<Option<RouteTarget>, Exc>): (r: Result<Value, Exc>)
    ensures r.Ok? ==> r.value == StopValue || r.value.Next?
    ensures routes.DynamicRoutes? ==>
      var answer := router(routes.router, result);
      && (answer.Err? ==> r == Err(answer.error))
      && (answer.Ok? && answer.value.None? ==> r == Err(NoRouteError(stage, result)))
      && (answer.Ok? && answer.value == Some(ToStop) ==> r == Ok(StopValue))
      && (answer.Ok? && answer.value.Some? && answer.value.value.ToStep? ==> r == Ok(Next(answer.value.value.step)))
  {
    var target := match routes
      case DictRoutes(entries) =>
        var t := Lookup(entries, result);
        Ok(if t.Some? then t else if default.Some? then Some(ToStep(default.value)) else None)
      case DynamicRoutes(f) => router(f, result);
    if target.Err? then Err(target.error)
    else match target.value
      case None => Err(NoRouteError(stage, result))
      case Some(ToStop) => Ok(StopValue)
      case Some(ToStep(t)) => Ok(Next(t))
  }

  /** The result of a switch callable: what the user function raised, or the routing of what it
      returned, including what a routing function raised. */
  function SwitchWrapperResult(c: Callable, inner: Result<Value, Exc>, router: (UserFunc, Value) -> Result<Option<RouteTarget>, Exc>)
    : (r: Result<Value, Exc>)
    requires c.SwitchWrapper?
    ensures inner.Err? ==> r == inner
    ensures inner.Ok? && c.routes.DynamicRoutes? && router(c.routes.router, inner.value).Err? ==>
              r == Err(router(c.routes.router, inner.value).error)
    ensures r.Ok? ==> inner.Ok? && (r.value == StopValue || r.value.Next?)
  {
    if inner.Err? then inner else ResolveRoute(c.routes, c.default, c.stage, inner.value, router)
  }

  /** The first entry whose key equals `key` is what the lookup finds. */
  lemma {:induction false} LookupFirst(entries: seq<(Value, RouteTarget)>, key: Value, i: nat)
    requires i < |entries| && entries[i].0 == key && forall j :: 0 <= j < i ==> entries[j].0 != key
    ensures Lookup(entries, key) == Some(entries[i].1)
  {
    if i > 0 {
      assert entries[0].0 != key;
      LookupFirst(entries[1..], key, i - 1);
    }
  }

  /** A dictionary switch routes a result to the target of the first route with that key: Stop to
      Stop, a step to _Next of it. */
  lemma DictRouteHit(entries: seq<(Value, RouteTarget)>, default: Option<Ref>, stage: string, result: Value,
                     router: (UserFunc, Value) -> Result<Option<RouteTarget>, Exc>, i: nat)
    requires i < |entries| && entries[i].0 == result && forall j :: 0 <= j < i ==> entries[j].0 != result
    ensures ResolveRoute(DictRoutes(entries), default, stage, result, router)
            == if entries[i].1.ToStop? then Ok(StopValue) else Ok(Next(entries[i].1.step))
  {
    LookupFirst(entries, result, i);
  }

  /** In a dictionary, which holds each key once, the route of a result is the target stored
      under that key. */
  lemma DistinctRouteHit(entries: seq<(Value, RouteTarget)>, default: Option<Ref>, stage: string, result: Value,
                         router: (UserFunc, Value) -> Result<Option<RouteTarget>, Exc>, i: nat)
    requires DistinctKeys(DictRoutes(entries)) && i < |entries| && entries[i].0 == result
    ensures ResolveRoute(DictRoutes(entries), default, stage, result, router)
            == if entries[i].1.ToStop? then Ok(StopValue) else Ok(Next(entries[i].1.step))
  {
    assert forall j :: 0 <= j < i ==> entries[j].0 != entries[i].0;
    DictRouteHit(entries, default, stage, result, router, i);
  }

  /** A result without a route goes to the default, and raises when there is no default. */
  lemma DictRouteMiss(entries: seq<(Value, RouteTarget)>, default: Option<Ref>, stage: string, result: Value,
                      router: (UserFunc, Value) -> Result<Option<RouteTarget>, Exc>)
    requires forall i :: 0 <= i < |entries| ==> entries[i].0 != result
    ensures ResolveRoute(DictRoutes(entries), default, stage, result, router)
            == if default.Some? then Ok(Next(default.value)) else Err(NoRouteError(stage, result))
  {
  }

  /** Registration always writes the metadata entry — every keyword plus the two explicit keys —
      even when a signature analysis then raises; it succeeds exactly when both analyses do, and
      then stores the mappings and, for a truthy `to`, the topology entry. Nothing else changes. */
  lemma RegisterEffects(s: PipeState, stateType: PyType, contextType: PyType, nameOrFunc: Ref, func: UserFunc,
                        to: To, barrierTimeout: MetaValue, onError: Option<UserFunc>, expectedUnknowns: int,
                        kwargs: map<string, MetaValue>)
    ensures var (s', r) := RegisterConfig(s, stateType, contextType, nameOrFunc, func, to, barrierTimeout, onError,
                                          expectedUnknowns, kwargs);
      var stage := ResolveName(nameOrFunc);
      var main := Analysis(func, stateType, contextType, expectedUnknowns);
      var handler := if onError.Some? then Analysis(onError.value, stateType, contextType, 0) else Ok(map[]);
      && s'.stepMetadata == s.stepMetadata[stage := StoredMeta(kwargs, barrierTimeout, onError)]
      && s'.stepOrder == (if stage in s.stepMetadata then s.stepOrder else s.stepOrder + [stage])
      && s'.steps == s.steps && s'.middleware == s.middleware && s'.onError == s.onError
      && (r.Ok? <==> main.Ok? && handler.Ok?)
      && (r.Err? ==> s'.topology == s.topology
                     && r == Err(Definition(if main.Err? then main.error else handler.error)))
      && (r.Ok? ==> && r.value == stage
                    && s'.topology == (if ToTruthy(to) then s.topology[stage := TargetNames(to)] else s.topology)
                    && s'.injectionMetadata
                       == (if onError.Some? then s.injectionMetadata[stage := main.value][stage + ":on_error" := handler.value]
                           else s.injectionMetadata[stage := main.value]))
  {
    var stage := ResolveName(nameOrFunc);
    var s1 := WithMetadata(s, stage, StoredMeta(kwargs, barrierTimeout, onError));
    var main := Analysis(func, stateType, contextType, expectedUnknowns);
    if main.Ok? {
      HandlerEffects(s1.(injectionMetadata := s1.injectionMetadata[stage := main.value]), stateType, contextType, stage, to, onError);
    }
  }

  /** The handler stage of registration touches only the handler's mapping and the topology, and
      fails, changing nothing, exactly when the handler's analysis fails. */
  lemma HandlerEffects(s: PipeState, stateType: PyType, contextType: PyType, stage: string, to: To,
                       onError: Option<UserFunc>)
    ensures var (s', r) := RegisterHandler(s, stateType, contextType, stage, to, onError);
      var handler := if onError.Some? then Analysis(onError.value, stateType, contextType, 0) else Ok(map[]);
      && s'.stepMetadata == s.stepMetadata && s'.stepOrder == s.stepOrder
      && s'.steps == s.steps && s'.middleware == s.middleware && s'.onError == s.onError
      && (r.Ok? <==> handler.Ok?)
      && (r.Err? ==> s' == s && r == Err(Definition(handler.error)))
      && (r.Ok? ==> && r.value == stage
                    && s'.topology == (if ToTruthy(to) then s.topology[stage := TargetNames(to)] else s.topology)
                    && s'.injectionMetadata
                       == (if onError.Some? then s.injectionMetadata[stage + ":on_error" := handler.value] else s.injectionMetadata))
  {
  }

  /** Registration keeps the pipe's invariant. */
  lemma RegisterKeepsValid(s: PipeState, stateType: PyType, contextType: PyType, nameOrFunc: Ref, func: UserFunc,
                           to: To, barrierTimeout: MetaValue, onError: Option<UserFunc>, expectedUnknowns: int,
                           kwargs: map<string, MetaValue>)
    requires ValidState(s) && WellFormedMeta(kwargs)
    ensures ValidState(RegisterConfig(s, stateType, contextType, nameOrFunc, func, to, barrierTimeout, onError,
                                      expectedUnknowns, kwargs).0)
  {
    var stage := ResolveName(nameOrFunc);
    var meta := StoredMeta(kwargs, barrierTimeout, onError);
    WithMetadataValid(s, stage, meta);
    RegisterEffects(s, stateType, contextType, nameOrFunc, func, to, barrierTimeout, onError, expectedUnknowns, kwargs);
    var s' := RegisterConfig(s, stateType, contextType, nameOrFunc, func, to, barrierTimeout, onError, expectedUnknowns, kwargs).0;
    assert s'.stepMetadata == WithMetadata(s, stage, meta).stepMetadata;
    assert s'.stepOrder == WithMetadata(s, stage, meta).stepOrder;
  }

  /** A registered step is stored as the middleware folded around its function: peeling the stored
      callable gives back the function and the pipe's middleware list in order, the last one being
      the outermost layer. A failed registration stores nothing. */
  lemma {:induction false} StepStoresFolded(s: PipeState, pipeName: string, stateType: PyType, contextType: PyType,
                                            name: Option<Ref>, func: UserFunc, to: To, barrierTimeout: MetaValue,
                                            onError: Option<UserFunc>, kwargs: map<string, MetaValue>)
    ensures var (s', r) := StepSpec(s, pipeName, stateType, contextType, name, func, to, barrierTimeout, onError, kwargs);
      && (r.Ok? ==> && r.value in s'.steps
                    && Peel(s'.steps[r.value]) == (Plain(func), s.middleware)
                    && (s.middleware != [] ==> s'.steps[r.value].Wrapped? && s'.steps[r.value].mw == s.middleware[|s.middleware| - 1])
                    && s'.steps == s.steps[r.value := s'.steps[r.value]])
      && (r.Err? ==> s'.steps == s.steps)
  {
    var (s1, r) := RegisterConfig(s, stateType, contextType, NameOr(name, func), func, to, barrierTimeout, onError,
                                  Allowance(kwargs), Forwarded(kwargs));
    RegisterEffects(s, stateType, contextType, NameOr(name, func), func, to, barrierTimeout, onError, Allowance(kwargs), Forwarded(kwargs));
    if r.Ok? {
      PeelFold(s1.middleware, Plain(func), StepContext(r.value, kwargs, pipeName));
    }
  }

  /** A step decorator's `expected_unknowns` keyword is the allowance the function is analysed with
      (1 without it): registration fails exactly when the function has more unrecognised
      parameters than that, or the error handler has any. The keyword is not stored in the
      step's metadata, and the stored entry holds every other keyword. */
  lemma StepAllowance(s: PipeState, pipeName: string, stateType: PyType, contextType: PyType,
                      name: Option<Ref>, func: UserFunc, to: To, barrierTimeout: MetaValue,
                      onError: Option<UserFunc>, kwargs: map<string, MetaValue>)
    ensures var (s', r) := StepSpec(s, pipeName, stateType, contextType, name, func, to, barrierTimeout, onError, kwargs);
      var stage := ResolveName(NameOr(name, func));
      && stage in s'.stepMetadata && "expected_unknowns" !in s'.stepMetadata[stage]
      && (forall k :: k in kwargs && k != "expected_unknowns" && k != "barrier_timeout" && k != "on_error"
                      ==> k in s'.stepMetadata[stage] && s'.stepMetadata[stage][k] == kwargs[k])
      && (r.Ok? <==> |Unknowns(func.params, stateType, contextType)| <= Allowance(kwargs)
                     && (onError.Some? ==> |Unknowns(onError.value.params, stateType, contextType)| == 0))
      && (|Unknowns(func.params, stateType, contextType)| > Allowance(kwargs) ==>
            r == Err(Definition(TooManyUnknowns(func.name, Unknowns(func.params, stateType, contextType), Allowance(kwargs)))))
  {
    RegisterEffects(s, stateType, contextType, NameOr(name, func), func, to, barrierTimeout, onError, Allowance(kwargs), Forwarded(kwargs));
  }

  /** on_error sets the global handler whatever its signature, and stores the handler's mapping
      under "system:on_error" exactly when the handler has no unrecognised parameter. */
  lemma OnErrorEffects(s: PipeState, stateType: PyType, contextType: PyType, func: UserFunc)
    ensures var (s', r) := OnErrorSpec(s, stateType, contextType, func);
      && s'.onError == Some(func)
      && s'.stepMetadata == s.stepMetadata && s'.steps == s.steps && s'.topology == s.topology
      && s'.middleware == s.middleware && s'.stepOrder == s.stepOrder
      && (r.Ok? <==> |Unknowns(func.params, stateType, contextType)| == 0)
      && (r.Ok? ==> s'.injectionMetadata == s.injectionMetadata["system:on_error" := Mapping(func.params, stateType, contextType)])
      && (r.Err? ==> s'.injectionMetadata == s.injectionMetadata)
  {
  }

  /** Every stored entry reports its name, its barrier timeout, an error handler exactly when one
      was given, its timeout keyword, and its retries keyword, 0 when that is falsy. */
  lemma DescribeStored(name: string, m: map<string, MetaValue>, barrierTimeout: MetaValue, onError: Option<UserFunc>,
                       topology: map<string, seq<string>>)
    requires WellFormedMeta(m)
    ensures WellFormedMeta(StoredMeta(m, barrierTimeout, onError))
    ensures var info := Describe(name, StoredMeta(m, barrierTimeout, onError), topology);
      && info.name == name && info.hasErrorHandler == onError.Some? && info.barrierTimeout == barrierTimeout
      && info.timeout == MetaGet(m, "timeout")
      && info.retries == (if Truthy(MetaGet(m, "retries")) then m["retries"] else MInt(0))
  {
  }

  /** A plain step reports kind "step" and the topology's targets only. */
  lemma DescribeStep(name: string, kwargs: map<string, MetaValue>, barrierTimeout: MetaValue, onError: Option<UserFunc>,
                     topology: map<string, seq<string>>)
    requires NoFrameworkKeys(kwargs)
    ensures WellFormedMeta(StoredMeta(kwargs, barrierTimeout, onError))
    ensures var info := Describe(name, StoredMeta(kwargs, barrierTimeout, onError), topology);
      info.kind == StepKind && info.targets == TopologyOf(topology, name)
  {
  }

  /** A map step reports kind "map" and its map target after the topology's targets. */
  lemma DescribeMap(name: string, kwargs: map<string, MetaValue>, target: string, barrierTimeout: MetaValue,
                    onError: Option<UserFunc>, topology: map<string, seq<string>>)
    requires NoFrameworkKeys(kwargs)
    ensures WellFormedMeta(StoredMeta(kwargs["map_target" := MStr(target)], barrierTimeout, onError))
    ensures var info := Describe(name, StoredMeta(kwargs["map_target" := MStr(target)], barrierTimeout, onError), topology);
      info.kind == MapKind && info.targets == TopologyOf(topology, name) + [target]
  {
  }

  /** A stored switch entry has kind "switch" and holds the route table and the default. */
  lemma SwitchStored(kwargs: map<string, MetaValue>, routes: Routes, default: Option<Ref>,
                     barrierTimeout: MetaValue, onError: Option<UserFunc>)
    requires NoFrameworkKeys(kwargs)
    ensures var meta := StoredMeta(SwitchMeta(kwargs, routes, default), barrierTimeout, onError);
      && WellFormedMeta(meta) && "map_target" !in meta && "sub_pipeline" !in meta && KindOf(meta) == SwitchKind
      && meta["switch_routes"] == (if routes.DictRoutes? then MRoutes(NormalizeRoutes(routes.entries)) else MStr("dynamic"))
      && meta["switch_default"] == (if default.Some? && RefTruthy(default.value) then MStr(ResolveName(default.value)) else MNone)
  {
  }

  /** A switch step's targets are the non-Stop route targets in route order (none for a routing
      function), then the default when it resolves to a non-empty name. */
  lemma DescribeSwitch(name: string, kwargs: map<string, MetaValue>, routes: Routes, default: Option<Ref>,
                       barrierTimeout: MetaValue, onError: Option<UserFunc>, topology: map<string, seq<string>>)
    requires NoFrameworkKeys(kwargs)
    ensures WellFormedMeta(StoredMeta(SwitchMeta(kwargs, routes, default), barrierTimeout, onError))
    ensures var info := Describe(name, StoredMeta(SwitchMeta(kwargs, routes, default), barrierTimeout, onError), topology);
      info.targets == TopologyOf(topology, name)
                         + (if routes.DictRoutes? then RouteNames(NormalizeRoutes(routes.entries)) else [])
                         + (if default.Some? && ResolveName(default.value) != "" then [ResolveName(default.value)] else [])
  {
    SwitchStored(kwargs, routes, default, barrierTimeout, onError);
  }

  /** A stored sub entry has kind "sub" and none of the keys that add targets. */
  lemma SubStored(kwargs: map<string, MetaValue>, sub: SubPipe, barrierTimeout: MetaValue, onError: Option<UserFunc>)
    requires NoFrameworkKeys(kwargs)
    ensures var meta := StoredMeta(SubMeta(kwargs, sub), barrierTimeout, onError);
      && WellFormedMeta(meta) && KindOf(meta) == SubKind
      && "map_target" !in meta && "switch_routes" !in meta && "switch_default" !in meta
  {
  }

  /** A sub step reports kind "sub" and the topology's targets. */
  lemma DescribeSub(name: string, kwargs: map<string, MetaValue>, sub: SubPipe, barrierTimeout: MetaValue,
                    onError: Option<UserFunc>, topology: map<string, seq<string>>)
    requires NoFrameworkKeys(kwargs)
    ensures WellFormedMeta(StoredMeta(SubMeta(kwargs, sub), barrierTimeout, onError))
    ensures var info := Describe(name, StoredMeta(SubMeta(kwargs, sub), barrierTimeout, onError), topology);
      info.kind == SubKind && info.targets == TopologyOf(topology, name)
  {
    SubStored(kwargs, sub, barrierTimeout, onError);
  }

  /** The switch targets `steps()` reports are the resolved step targets of the routes: a name is
      among them exactly when some route leads to a step of that name, other than "Stop". */
  lemma SwitchTargetsAreStepRoutes(entries: seq<(Value, RouteTarget)>, t: string)
    ensures t in RouteNames(NormalizeRoutes(entries))
            <==> t != "Stop" && exists i :: 0 <= i < |entries| && entries[i].1.ToStep? && ResolveName(entries[i].1.step) == t
  {
    var n := NormalizeRoutes(entries);
    RouteNamesContent(n, t);
    if t in RouteNames(n) {
      var i :| 0 <= i < |n| && n[i].1 == t;
      assert entries[i].1.ToStep?;
    }
    if t != "Stop" && exists i :: 0 <= i < |entries| && entries[i].1.ToStep? && ResolveName(entries[i].1.step) == t {
      var i :| 0 <= i < |entries| && entries[i].1.ToStep? && ResolveName(entries[i].1.step) == t;
      assert n[i].1 == t;
    }
  }

  class Pipe {
    const name: string
    const queueSize: int
    const validateOnRun: bool
    /** The type arguments the pipe was instantiated with, Any when it was not. */
    const stateType: PyType
    const contextType: PyType
    var middleware: seq<Middleware>
    var steps: map<string, Callable>
    var topology: map<string, seq<string>>
    var onError: Option<UserFunc>
    var injectionMetadata: map<string, map<string, Source>>
    var stepMetadata: map<string, map<string, MetaValue>>
    var stepOrder: seq<string>

    ghost function State(): PipeState
      reads this
    {
      PipeState(middleware, steps, topology, onError, injectionMetadata, stepMetadata, stepOrder)
    }

    ghost predicate Valid()
      reads this`stepMetadata, this`stepOrder
    {
      ValidOrder(stepMetadata, stepOrder)
    }

    /** A new pipe: the given middleware list copied, or the retry middleware alone when none is
        given; no steps. */
    constructor (name: string, middleware: Option<seq<Middleware>>, queueSize: int, validateOnRun: bool,
                 stateType: PyType, contextType: PyType)
      ensures Valid()
      ensures this.name == name && this.queueSize == queueSize && this.validateOnRun == validateOnRun
      ensures this.stateType == stateType && this.contextType == contextType
      ensures this.middleware == if middleware.Some? then middleware.value else [RetryMiddleware]
      ensures steps == map[] && topology == map[] && onError == None
      ensures injectionMetadata == map[] && stepMetadata == map[] && stepOrder == []
    {
      this.name := name;
      this.queueSize := queueSize;
      this.validateOnRun := validateOnRun;
      this.stateType := stateType;
      this.contextType := contextType;
      this.middleware := if middleware.Some? then middleware.value else [RetryMiddleware];
      steps, topology, onError := map[], map[], None;
      injectionMetadata, stepMetadata, stepOrder := map[], map[], [];
    }

    /** add_middleware: appended, so it wraps outside every earlier one for steps registered later. */
    method AddMiddleware(mw: Middleware)
      requires Valid()
      modifies this
      ensures Valid()
      ensures State() == old(State()).(middleware := old(middleware) + [mw])
    {
      middleware := middleware + [mw];
    }

    /** on_error: sets the global handler, then records its injection mapping. */
    method OnError(func: UserFunc) returns (r: Result<(), PipeError>)
      requires Valid()
      modifies this
      ensures Valid()
      ensures (State(), r) == OnErrorSpec(old(State()), stateType, contextType, func)
    {
      onError := Some(func);
      var m := AnalyzeSignature(func, stateType, contextType, 0);
      if m.Err? {
        return Err(Definition(m.error));
      }
      injectionMetadata := injectionMetadata["system:on_error" := m.value];
      r := Ok(());
    }

    /** Assigning `_step_metadata[stage]`: a dictionary keeps a new key at the end of its order and
        an existing key in its place. */
    method SetMetadata(stage: string, meta: map<string, MetaValue>)
      requires Valid() && WellFormedMeta(meta)
      modifies this
      ensures Valid()
      ensures State() == WithMetadata(old(State()), stage, meta)
    {
      WithMetadataValid(State(), stage, meta);
      stepMetadata, stepOrder := stepMetadata[stage := meta], if stage in stepMetadata then stepOrder else stepOrder + [stage];
    }

    /** _register_step_config. */
    method RegisterStepConfig(nameOrFunc: Ref, func: UserFunc, to: To, barrierTimeout: MetaValue,
                              onErrorHandler: Option<UserFunc>, expectedUnknowns: int, kwargs: map<string, MetaValue>)
      returns (r: Result<string, PipeError>)
      requires Valid() && WellFormedMeta(kwargs)
      modifies this
      ensures Valid()
      ensures (State(), r) == RegisterConfig(old(State()), stateType, contextType, nameOrFunc, func, to,
                                             barrierTimeout, onErrorHandler, expectedUnknowns, kwargs)
    {
      var stage := ResolveName(nameOrFunc);
      SetMetadata(stage, StoredMeta(kwargs, barrierTimeout, onErrorHandler));
      var main := AnalyzeSignature(func, stateType, contextType, expectedUnknowns);
      if main.Err? {
        return Err(Definition(main.error));
      }
      injectionMetadata := injectionMetadata[stage := main.value];
      r := RegisterHandlerConfig(stage, to, onErrorHandler);
    }

    /** The end of _register_step_config: the error handler's mapping, then the topology entry. */
    method RegisterHandlerConfig(stage: string, to: To, onErrorHandler: Option<UserFunc>) returns (r: Result<string, PipeError>)
      requires Valid()
      modifies this
      ensures Valid()
      ensures (State(), r) == RegisterHandler(old(State()), stateType, contextType, stage, to, onErrorHandler)
    {
      if onErrorHandler.Some? {
        var h := AnalyzeSignature(onErrorHandler.value, stateType, contextType, 0);
        if h.Err? {
          return Err(Definition(h.error));
        }
        injectionMetadata := injectionMetadata[stage + ":on_error" := h.value];
      }
      if ToTruthy(to) {
        topology := topology[stage := TargetNames(to)];
      }
      r := Ok(stage);
    }

    /** _wrap_step: each middleware in list order wraps the callable built so far. */
    method WrapStep(stage: string, func: Callable, kwargs: map<string, MetaValue>)
      requires Valid()
      modifies this
      ensures Valid()
      ensures State() == Wrap(old(State()), stage, func, kwargs, name)
    {
      var wrapped := func;
      var ctx := StepContext(stage, kwargs, name);
      for i := 0 to |middleware|
        invariant wrapped == Fold(middleware[..i], func, ctx)
      {
        assert middleware[..i + 1][..i] == middleware[..i];
        wrapped := Wrapped(middleware[i], wrapped, ctx);
      }
      assert middleware[..|middleware|] == middleware;
      steps := steps[stage := wrapped];
    }

    /** The step decorator applied to `func`. */
    method Step(name: Option<Ref>, func: UserFunc, to: To, barrierTimeout: MetaValue, onErrorHandler: Option<UserFunc>,
                kwargs: map<string, MetaValue>) returns (r: Result<string, PipeError>)
      requires Valid() && KwargsFree(kwargs, {})
      modifies this
      ensures Valid()
      ensures (State(), r) == StepSpec(old(State()), this.name, stateType, contextType, name, func, to,
                                       barrierTimeout, onErrorHandler, kwargs)
    {
      r := RegisterStepConfig(NameOr(name, func), func, to, barrierTimeout, onErrorHandler, Allowance(kwargs), Forwarded(kwargs));
      if r.Ok? {
        WrapStep(r.value, Plain(func), kwargs);
      }
    }

    /** The map decorator applied to `func`. */
    method Map(name: Option<Ref>, using: Option<Ref>, func: UserFunc, to: To, barrierTimeout: MetaValue,
               onErrorHandler: Option<UserFunc>, kwargs: map<string, MetaValue>) returns (r: Result<string, PipeError>)
      requires Valid() && KwargsFree(kwargs, MapBound)
      modifies this
      ensures Valid()
      ensures (State(), r) == MapSpec(old(State()), this.name, stateType, contextType, name, using, func, to,
                                      barrierTimeout, onErrorHandler, kwargs)
    {
      if using.None? {
        return Err(ValueError("@pipe.map requires 'using' parameter"));
      }
      var target := ResolveName(using.value);
      r := RegisterStepConfig(NameOr(name, func), func, to, barrierTimeout, onErrorHandler, Allowance(kwargs),
                              Forwarded(kwargs)["map_target" := MStr(target)]);
      if r.Ok? {
        WrapStep(r.value, MapWrapper(func, target), kwargs);
      }
    }

    /** The switch decorator applied to `func`. */
    method Switch(name: Option<Ref>, routes: Option<Routes>, default: Option<Ref>, func: UserFunc,
                  barrierTimeout: MetaValue, onErrorHandler: Option<UserFunc>, kwargs: map<string, MetaValue>)
      returns (r: Result<string, PipeError>)
      requires Valid() && KwargsFree(kwargs, SwitchBound) && (routes.Some? ==> DistinctKeys(routes.value))
      modifies this
      ensures Valid()
      ensures (State(), r) == SwitchSpec(old(State()), this.name, stateType, contextType, name, routes, default, func,
                                         barrierTimeout, onErrorHandler, kwargs)
    {
      if routes.None? {
        return Err(ValueError("@pipe.switch requires 'routes' parameter"));
      }
      r := RegisterStepConfig(NameOr(name, func), func, NoTargets, barrierTimeout, onErrorHandler, Allowance(kwargs),
                              SwitchMeta(Forwarded(kwargs), routes.value, default));
      if r.Ok? {
        WrapStep(r.value, SwitchWrapper(func, routes.value, default, r.value), kwargs);
      }
    }

    /** The sub decorator applied to `func`. */
    method Sub(name: Option<Ref>, using: Option<SubPipe>, func: UserFunc, to: To, barrierTimeout: MetaValue,
               onErrorHandler: Option<UserFunc>, kwargs: map<string, MetaValue>) returns (r: Result<string, PipeError>)
      requires Valid() && KwargsFree(kwargs, SubBound)
      modifies this
      ensures Valid()
      ensures (State(), r) == SubSpec(old(State()), this.name, stateType, contextType, name, using, func, to,
                                      barrierTimeout, onErrorHandler, kwargs)
    {
      if using.None? {
        return Err(ValueError("@pipe.sub requires 'using' parameter"));
      }
      r := RegisterStepConfig(NameOr(name, func), func, to, barrierTimeout, onErrorHandler, Allowance(kwargs),
                              SubMeta(Forwarded(kwargs), using.value));
      if r.Ok? {
        WrapStep(r.value, SubWrapper(func, using.value.id), kwargs);
      }
    }

    /** steps(): one StepInfo per metadata entry, in registration order. */
    method StepInfos() returns (infos: seq<StepInfo>)
      requires Valid()
      ensures |infos| == |stepOrder|
      ensures forall i :: 0 <= i < |infos| ==>
        stepOrder[i] in stepMetadata && infos[i] == Describe(stepOrder[i], stepMetadata[stepOrder[i]], topology)
    {
      infos := [];
      for i := 0 to |stepOrder|
        invariant |infos| == i
        invariant forall j :: 0 <= j < i ==>
          stepOrder[j] in stepMetadata && infos[j] == Describe(stepOrder[j], stepMetadata[stepOrder[j]], topology)
      {
        var n := stepOrder[i];
        infos := infos + [Describe(n, stepMetadata[n], topology)];
      }
    }

    /** The topology property: a copy, holding every entry and nothing else. */
    function TopologyView(): (t: map<string, seq<string>>)
      reads this
      ensures t.Keys == topology.Keys && forall k :: k in t ==> t[k] == topology[k]
    {
      map k | k in topology :: topology[k]
    }
  }
}
