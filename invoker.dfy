/** The step invoker: argument injection, running one step, splitting a streaming step's output
    into tokens and a control value, and choosing error handlers (justpipe/invoker.py). */
module Invoker {
  import opened Types
  import opened Signature

  /** What calling a stored step callable does: return a value, raise, or (an async generator)
      yield items in order, possibly raising after the last of them. */
  datatype Behaviour = Returned(value: Value) | Raised(error: Exc) | Streamed(items: seq<Value>, raisedAfter: Option<Exc>)

  /** What calling a user error handler does: return, raise an `Exception`, or raise a
      `BaseException` that is not an `Exception` (such as `asyncio.CancelledError` or
      `KeyboardInterrupt`), which `except Exception` does not catch. */
  datatype HandlerOutcome = Returns(value: Value) | Raises(error: Exc) | Interrupts(error: Exc)

  /** The values that can be injected: the run's state and context, the error being handled and
      the failing step's name (None when there is none). */
  datatype Env = Env(state: Value, context: Value, error: Value, stepName: Value)

  /** The value injected for a parameter tagged `src`; "unknown" parameters are never injected. */
  function SourceValue(src: Source, env: Env): Value {
    match src
    case State => env.state
    case Context => env.context
    case Error => env.error
    case StepName => env.stepName
    case Unknown => NoneValue
  }

  /** The keyword arguments injected for an injection mapping. */
  function Injected(inj: map<string, Source>, env: Env): map<string, Value> {
    map k | k in inj && inj[k] != Unknown :: SourceValue(inj[k], env)
  }

  /** `(payload or {}).copy()` updated with the injections: the payload's entries, overridden by
      the injections on a shared key. The payload itself is a value and is left as it was. */
  function MergeKwargs(payload: Option<map<string, Value>>, injections: map<string, Value>): (r: map<string, Value>)
    ensures r.Keys == payload.GetOr(map[]).Keys + injections.Keys
    ensures forall k :: k in injections ==> r[k] == injections[k]
    ensures forall k :: k in payload.GetOr(map[]) && k !in injections ==> r[k] == payload.GetOr(map[])[k]
  {
    payload.GetOr(map[]) + injections
  }

  /** The TOKEN events a streaming step emits: one per yielded item that is not a control value. */
  function TokenEvents(name: string, items: seq<Value>): seq<Event> {
    if items == [] then []
    else
      var x := items[|items| - 1];
      TokenEvents(name, items[..|items| - 1]) + (if IsControl(x) then [] else [Event(Token, name, x)])
  }

  /** The value a streaming step returns: its last yielded control value, or None. */
  function LastControl(items: seq<Value>): Value {
    if items == [] then NoneValue
    else if IsControl(items[|items| - 1]) then items[|items| - 1]
    else LastControl(items[..|items| - 1])
  }

  /** The error raised for an unregistered step name. */
  function StepNotFound(name: string): Exc {
    Exc("ValueError", "builtins", "Step not found: " + name)
  }

  /** The loop of `_exec` over an async generator's items: non-control items are put on the queue
      as TOKEN events (returned here in the order they are put), control items replace the
      value to return. */
  method CollectStream(name: string, items: seq<Value>) returns (tokens: seq<Event>, last: Value)
    ensures tokens == TokenEvents(name, items)
    ensures last == LastControl(items)
  {
    tokens, last := [], NoneValue;
    var i := 0;
    while i < |items|
      invariant 0 <= i <= |items|
      invariant tokens == TokenEvents(name, items[..i])
      invariant last == LastControl(items[..i])
    {
      var item := items[i];
      assert items[..i + 1][..i] == items[..i];
      if IsControl(item) {
        last := item;
      } else {
        tokens := tokens + [Event(Token, name, item)];
      }
      i := i + 1;
    }
    assert items[..|items|] == items;
  }

  /** TOKEN events follow yield order: the events of a concatenation are those of its parts, in
      order. */
  lemma {:induction false} TokenEventsAppend(name: string, a: seq<Value>, b: seq<Value>)
    ensures TokenEvents(name, a + b) == TokenEvents(name, a) + TokenEvents(name, b)
  {
    if b != [] {
      var b' := b[..|b| - 1];
      assert (a + b)[..|a + b| - 1] == a + b';
      TokenEventsAppend(name, a, b');
    } else {
      assert a + b == a;
    }
  }

  /** Every TOKEN event carries the step's name and a non-control item that was yielded, and every
      non-control item yielded is emitted. */
  lemma {:induction false} TokenEventsContent(name: string, items: seq<Value>)
    ensures forall e :: e in TokenEvents(name, items) ==>
      e.eventType == Token && e.stage == name && !IsControl(e.payload) && e.payload in items
    ensures forall x :: x in items && !IsControl(x) ==> Event(Token, name, x) in TokenEvents(name, items)
  {
    if items != [] {
      var pre := items[..|items| - 1];
      TokenEventsContent(name, pre);
      assert items == pre + [items[|items| - 1]];
    }
  }

  /** The returned value is None exactly when no control value was yielded; otherwise it is a
      yielded control value after which none was yielded. */
  lemma {:induction false} LastControlIsLast(items: seq<Value>)
    ensures LastControl(items) == NoneValue <==> forall i :: 0 <= i < |items| ==> !IsControl(items[i])
    ensures LastControl(items) != NoneValue ==>
      exists i :: 0 <= i < |items| && items[i] == LastControl(items) && IsControl(items[i])
        && forall j :: i < j < |items| ==> !IsControl(items[j])
  {
    if items != [] {
      var pre := items[..|items| - 1];
      LastControlIsLast(pre);
      if !IsControl(items[|items| - 1]) && LastControl(pre) != NoneValue {
        var i :| 0 <= i < |pre| && pre[i] == LastControl(pre) && IsControl(pre[i])
          && forall j :: i < j < |pre| ==> !IsControl(pre[j]);
        assert items[i] == pre[i];
      }
      if forall i :: 0 <= i < |pre| ==> !IsControl(pre[i]) {
        assert forall i :: 0 <= i < |items| - 1 ==> items[i] == pre[i];
      }
    }
  }

  class StepInvoker {
    const steps: map<string, Callable>
    const injectionMetadata: map<string, map<string, Source>>
    const stepMetadata: map<string, map<string, MetaValue>>
    const onError: Option<UserFunc>
    var state: Value
    var context: Value

    constructor (steps: map<string, Callable>, injectionMetadata: map<string, map<string, Source>>,
                 stepMetadata: map<string, map<string, MetaValue>>, onError: Option<UserFunc>)
      ensures this.steps == steps && this.injectionMetadata == injectionMetadata
      ensures this.stepMetadata == stepMetadata && this.onError == onError
      ensures state == NoneValue && context == NoneValue
    {
      this.steps := steps;
      this.injectionMetadata := injectionMetadata;
      this.stepMetadata := stepMetadata;
      this.onError := onError;
      state := NoneValue;
      context := NoneValue;
    }

    /** set_context: the state and context injected from now on. */
    method SetContext(state: Value, context: Value)
      modifies this
      ensures this.state == state && this.context == context
    {
      this.state := state;
      this.context := context;
    }

    /** `injection_metadata.get(meta_key, {})`. */
    function MetaFor(metaKey: string): map<string, Source> {
      if metaKey in injectionMetadata then injectionMetadata[metaKey] else map[]
    }

    /** _resolve_injections: exactly the parameters tagged state, context, error or step_name get a
        keyword argument, holding the current state, the current context, `error` and
        `stepName` respectively; an unregistered meta key yields no arguments. */
    method ResolveInjections(metaKey: string, error: Value, stepName: Value) returns (kwargs: map<string, Value>)
      ensures kwargs == Injected(MetaFor(metaKey), Env(state, context, error, stepName))
      ensures forall k :: k in kwargs <==> k in MetaFor(metaKey) && MetaFor(metaKey)[k] != Unknown
      ensures metaKey !in injectionMetadata ==> kwargs == map[]
    {
      var inj := MetaFor(metaKey);
      ghost var env := Env(state, context, error, stepName);
      kwargs := map[];
      var todo := inj.Keys;
      while todo != {}
        invariant todo <= inj.Keys
        invariant kwargs.Keys == set k | k in inj && k !in todo && inj[k] != Unknown
        invariant forall k :: k in kwargs ==> kwargs[k] == SourceValue(inj[k], env)
        decreases todo
      {
        var k :| k in todo;
        var source := inj[k];
        if source == State {
          kwargs := kwargs[k := state];
        } else if source == Context {
          kwargs := kwargs[k := context];
        } else if source == Error {
          kwargs := kwargs[k := error];
        } else if source == StepName {
          kwargs := kwargs[k := stepName];
        }
        todo := todo - {k};
      }
    }

    /** The keyword arguments a step runs with: the payload overlaid with its injections. */
    function StepKwargs(name: string, payload: Option<map<string, Value>>): map<string, Value>
      reads this
    {
      MergeKwargs(payload, Injected(MetaFor(name), Env(state, context, NoneValue, NoneValue)))
    }

    /** execute: an unregistered name raises "Step not found" before anything else happens;
        otherwise the step runs on the payload overlaid with its injections, and its result is
        what it returns or raises, or for a streaming step its TOKEN events and its last control
        value (or the error it raised after yielding). `behave` stands for the step's code. */
    method Execute(name: string, payload: Option<map<string, Value>>, behave: (Callable, map<string, Value>) -> Behaviour)
      returns (tokens: seq<Event>, r: Result<Value, Exc>)
      ensures name !in steps ==> tokens == [] && r == Err(StepNotFound(name))
      ensures name in steps && behave(steps[name], StepKwargs(name, payload)).Returned? ==>
        tokens == [] && r == Ok(behave(steps[name], StepKwargs(name, payload)).value)
      ensures name in steps && behave(steps[name], StepKwargs(name, payload)).Raised? ==>
        tokens == [] && r == Err(behave(steps[name], StepKwargs(name, payload)).error)
      ensures name in steps && behave(steps[name], StepKwargs(name, payload)).Streamed? ==>
        tokens == TokenEvents(name, behave(steps[name], StepKwargs(name, payload)).items)
        && (behave(steps[name], StepKwargs(name, payload)).raisedAfter.Some? ==>
              r == Err(behave(steps[name], StepKwargs(name, payload)).raisedAfter.value))
        && (behave(steps[name], StepKwargs(name, payload)).raisedAfter.None? ==>
              r == Ok(LastControl(behave(steps[name], StepKwargs(name, payload)).items)))
    {
      if name !in steps {
        return [], Err(StepNotFound(name));
      }
      var func := steps[name];
      var injections := ResolveInjections(name, NoneValue, NoneValue);
      var kwargs := MergeKwargs(payload, injections);
      match behave(func, kwargs)
      case Returned(v) =>
        tokens, r := [], Ok(v);
      case Raised(e) =>
        tokens, r := [], Err(e);
      case Streamed(items, raisedAfter) =>
        var last;
        tokens, last := CollectStream(name, items);
        r := if raisedAfter.Some? then Err(raisedAfter.value) else Ok(last);
    }

    /** The step-level handler: the `on_error` entry of the step's metadata, when it is set. */
    function StepHandler(name: string): (h: Option<UserFunc>)
      ensures forall f :: h == Some(f) <==>
        name in stepMetadata && "on_error" in stepMetadata[name] && stepMetadata[name]["on_error"] == MFunc(f)
    {
      if name in stepMetadata && "on_error" in stepMetadata[name] && stepMetadata[name]["on_error"].MFunc?
      then Some(stepMetadata[name]["on_error"].f)
      else None
    }

    /** handle_error: call the step's handler (the global one when it has none or `useGlobal` is
        set); if the step's handler raises and a different global handler exists, handle the new
        error once more with the global handler; with no handler, re-raise. `run` stands for the
        handlers' code. */
    function HandleError(name: string, error: Exc, useGlobal: bool, run: (UserFunc, map<string, Value>) -> HandlerOutcome)
      : (r: Result<Value, Exc>)
      reads this
      ensures HandlerChain(name, useGlobal) != [] ==>
        var h := HandlerChain(name, useGlobal)[0];
        var first := run(h.0, HandlerKwargs(h.1, name, error));
        && (first.Returns? ==> r == Ok(first.value))
        && (first.Interrupts? ==> r == Err(first.error))
      decreases if useGlobal then 0 else 1
    {
      var stepHandler := StepHandler(name);
      var handler := if stepHandler.None? || useGlobal then onError else stepHandler;
      var metaKey := if stepHandler.None? || useGlobal then "system:on_error" else name + ":on_error";
      if handler.Some? then
        match run(handler.value, HandlerKwargs(metaKey, name, error))
        case Returns(v) => Ok(v)
        case Raises(e) =>
          if handler != onError && onError.Some? then HandleError(name, e, true, run) else Err(e)
        case Interrupts(e) => Err(e)
      else
        Err(error)
    }

    /** The keyword arguments a handler resolved from `metaKey` receives for `error` in step `name`. */
    function HandlerKwargs(metaKey: string, name: string, error: Exc): map<string, Value>
      reads this
    {
      Injected(MetaFor(metaKey), Env(state, context, ExcValue(error), StrValue(name)))
    }

    /** The handlers tried for an error, in order, each with the meta key its arguments are
        resolved from: at most two, the second only as an escalation to a different global
        handler, none when neither a step nor a global handler applies. */
    function HandlerChain(name: string, useGlobal: bool): (chain: seq<(UserFunc, string)>)
      ensures |chain| <= 2
      ensures chain == [] <==> onError.None? && (StepHandler(name).None? || useGlobal)
      ensures StepHandler(name).Some? && !useGlobal ==>
                |chain| >= 1 && chain[0] == (StepHandler(name).value, name + ":on_error")
      ensures (StepHandler(name).None? || useGlobal) && onError.Some? ==> chain == [(onError.value, "system:on_error")]
      ensures |chain| == 2 <==>
                !useGlobal && StepHandler(name).Some? && onError.Some? && onError.value != StepHandler(name).value
      ensures |chain| == 2 ==> chain[1] == (onError.value, "system:on_error")
    {
      var stepHandler := StepHandler(name);
      if stepHandler.Some? && !useGlobal then
        [(stepHandler.value, name + ":on_error")]
          + (if onError.Some? && onError.value != stepHandler.value then [(onError.value, "system:on_error")] else [])
      else if onError.Some? then [(onError.value, "system:on_error")]
      else []
    }

    /** Reference semantics of a handler chain: the first handler that returns gives the result;
        each later handler receives the error the previous one raised; after the last, the
        current error is raised; an interrupt propagates at once. */
    function RunChain(chain: seq<(UserFunc, string)>, name: string, error: Exc, run: (UserFunc, map<string, Value>) -> HandlerOutcome): Result<Value, Exc>
      reads this
    {
      if chain == [] then Err(error)
      else
        match run(chain[0].0, HandlerKwargs(chain[0].1, name, error))
        case Returns(v) => Ok(v)
        case Raises(e) => RunChain(chain[1..], name, e, run)
        case Interrupts(e) => Err(e)
    }

    /** handle_error behaves as running its handler chain. */
    lemma HandleErrorIsChain(name: string, error: Exc, useGlobal: bool, run: (UserFunc, map<string, Value>) -> HandlerOutcome)
      ensures HandleError(name, error, useGlobal, run) == RunChain(HandlerChain(name, useGlobal), name, error, run)
      decreases if useGlobal then 0 else 1
    {
      var stepHandler := StepHandler(name);
      if stepHandler.Some? && !useGlobal && onError.Some? && onError.value != stepHandler.value {
        match run(stepHandler.value, HandlerKwargs(name + ":on_error", name, error))
        case Returns(v) =>
        case Raises(e) =>
          HandleErrorIsChain(name, e, true, run);
        case Interrupts(e) =>
      }
    }

    /** With neither an applicable step handler nor a global handler, the original error is
        re-raised. */
    lemma NoHandlerReRaises(name: string, error: Exc, useGlobal: bool, run: (UserFunc, map<string, Value>) -> HandlerOutcome)
      requires onError.None? && (StepHandler(name).None? || useGlobal)
      ensures HandleError(name, error, useGlobal, run) == Err(error)
    {
    }

    /** When the step's handler raises `e` and a different global handler exists, the global handler
        is called once with `e`: its return value is the result, and what it raises is re-raised. */
    lemma EscalatesOnce(name: string, error: Exc, run: (UserFunc, map<string, Value>) -> HandlerOutcome, e: Exc)
      requires StepHandler(name).Some? && onError.Some? && onError.value != StepHandler(name).value
      requires run(StepHandler(name).value, HandlerKwargs(name + ":on_error", name, error)) == Raises(e)
      ensures var second := run(onError.value, HandlerKwargs("system:on_error", name, e));
        && (second.Returns? ==> HandleError(name, error, false, run) == Ok(second.value))
        && (!second.Returns? ==> HandleError(name, error, false, run) == Err(second.error))
    {
      HandleErrorIsChain(name, error, false, run);
      var chain := HandlerChain(name, false);
      assert chain[1..][1..] == [];
    }

    /** A handler that raises when no different global handler exists has its error re-raised. */
    lemma HandlerErrorReRaised(name: string, error: Exc, useGlobal: bool, run: (UserFunc, map<string, Value>) -> HandlerOutcome, e: Exc)
      requires HandlerChain(name, useGlobal) != [] && |HandlerChain(name, useGlobal)| == 1
      requires var h := HandlerChain(name, useGlobal)[0];
        run(h.0, HandlerKwargs(h.1, name, error)) == Raises(e)
      ensures HandleError(name, error, useGlobal, run) == Err(e)
    {
      HandleErrorIsChain(name, error, useGlobal, run);
    }
  }
}
