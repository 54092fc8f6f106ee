# justpipe core, modelled in Dafny

justpipe is a Python library for pipelines of async steps. A `Pipe` records steps through the decorators `step`, `map`, `switch` and `sub`, wraps each in its middleware, and reports them through `steps()` and `topology`. A step invoker injects state, context, error and step name into the steps and error handlers, and runs them. A scheduler counts the worker completions of map fan-outs. A failure journal classifies where a failure came from. `TestResult` answers queries over the events of a run.

This project models that core and proves properties of the model:

| module | file | what it models |
|---|---|---|
| `Types` | `types.dfy` | The shared Python values: exceptions, parameters, callables as symbolic terms, stored metadata values, events, routes and middleware. |
| `Signature` | `signature.dfy` | `_analyze_signature` (justpipe/utils.py): the loop that tags each parameter as state, context, error, step_name or unknown. It raises `DefinitionError` when there are too many unknown parameters. |
| `Invoker` | `invoker.dfy` | `_StepInvoker` (justpipe/invoker.py): injection resolution, `execute` and the split of a streaming step's yields into TOKEN events and a control value. Also `handle_error`'s choice among the step handler, the global handler and escalation. |
| `PipeRegistry` | `pipe.dfy` | `Pipe` (justpipe/pipe.py): a class over its dictionaries. It covers `__init__`, `add_middleware`, `on_error`, `_register_step_config`, `_wrap_step`, the four decorators, switch route normalisation and routing, `steps()` and `topology`. |
| `Scheduler` | `scheduler.dfy` | `_MapBatch` and `_Scheduler.on_step_completed`, as tests/unit/runtime/test_scheduler.py pins them. |
| `Testing` | `testing.dfy` | `TestResult.filter`, `step_starts`, `tokens`, `was_called` and `find_error`, as tests/unit/test_testresult.py pins them. |
| `FailureJournal` | `failure_journal.dfy` | `_FailureJournal`'s prefix configuration, built-in classification, classifier-based resolution and `record_failure`, as tests/unit/test_failure_journal.py pins them. |

The code that changes state is imperative Dafny. Each such method is proved against a specification function of the old state.
- `Signature.AnalyzeSignature` is the loop over parameters, proved equal to `Analysis`.
- `Pipe` is a class with the source's dictionaries as `map` fields. Its insertion order is kept as `stepOrder`, and `Valid()` ties the two together.
- `MapBatch` objects have their `remaining` counters decremented in place.
- The failure journal's `ExecutionLog` has its two lists appended to.

The pure parts are functions with lemmas: route normalisation, switch routing, handler selection, the testing queries and failure resolution.

User code cannot be seen from here, so it becomes parameters:
- `behave` stands for what a stored step does when called: it returns, raises or yields.
- `run` stands for what an error handler does: it returns, raises an `Exception`, or raises a `BaseException` that `except Exception` does not catch.
- `router` stands for what a dynamic switch's routing function does: it answers a target or None, or it raises.
- A source classifier is a function from its context to a `ClassifierOutcome`.

## Model

| member | source | states |
|---|---|---|
| `Signature.Analysis` | justpipe/utils.py:44-52 | It raises `DefinitionError`, naming the function, the unknown list and the allowance, exactly when the unknown parameters outnumber `expected_unknowns`. Otherwise it returns the mapping. |
| `Signature.Classify` | justpipe/utils.py:23-41 | The tag of one parameter, by the rules in the source's order; `TypeMatchWins` and `AliasTagUnique` state what that order means. |
| `Signature.AnalyzeSignature` | justpipe/utils.py:19-52 | The loop of `_analyze_signature` returns or raises exactly what `Analysis` says. It visits the parameters in order, updating the mapping and the unknown list. |
| `Signature.AnalysisStep` | justpipe/utils.py:22-42 | One more parameter extends the mapping by its tag, or leaves it as it was when the parameter is skipped for its default. It extends the unknown list only for an "unknown" tag. |
| `Signature.MappingKeys` | justpipe/utils.py:19-42 | A name is a key of the mapping exactly when some parameter of that name received a tag. Every key is a parameter name. |
| `Signature.MappingValue` | justpipe/utils.py:22-41 | With distinct parameter names, each tagged parameter maps to its tag, and one that has a default and matches no rule is absent. |
| `Signature.UnknownCount` | justpipe/utils.py:40-42 | The number of "unknown" entries in the mapping equals the length of the unknown list. |
| `Signature.TypeMatchWins` | justpipe/utils.py:23-27 | A type-annotation match wins over every name alias, the state type before the context type, and only when the pipe's type is not `Any`. With both types `Any`, the annotation plays no part. |
| `Signature.AliasTagUnique` | justpipe/utils.py:6-36 | The four alias sets are pairwise disjoint. Without a type match, a parameter gets a tag exactly when its name is in that tag's alias set. |
| `Invoker.MergeKwargs` | justpipe/invoker.py:86-87 | The arguments are the payload's keys plus the injected ones, and the injections win on a shared key. A missing payload counts as empty. The payload value itself is left as it was. |
| `Invoker.CollectStream` | justpipe/invoker.py:89-97 | The loop over a streaming step's items emits exactly `TokenEvents` and returns `LastControl`. |
| `Invoker.TokenEventsAppend` | justpipe/invoker.py:92-96 | TOKEN events follow yield order: the events of two runs of items are those of the first run, then those of the second. |
| `Invoker.TokenEventsContent` | justpipe/invoker.py:92-96 | Every TOKEN event carries the step's name and a yielded non-control item. Every yielded non-control item is emitted. |
| `Invoker.LastControlIsLast` | justpipe/invoker.py:91-97 | The returned value is None exactly when no `_Next`/`_Map`/`_Run`/`Suspend` was yielded. Otherwise it is a yielded control value after which none was yielded. |
| `Invoker.StepInvoker.constructor` | justpipe/invoker.py:32-44 | The invoker keeps the given steps, metadata and global handler. Its state and context start as None. |
| `Invoker.StepInvoker.SetContext` | justpipe/invoker.py:46-49 | Sets the state and context later injections use. |
| `Invoker.StepInvoker.ResolveInjections` | justpipe/invoker.py:51-69 | Exactly the parameters tagged state, context, error or step_name get an argument, each holding its source's value. "unknown" entries are skipped, and an unregistered meta key yields no arguments. |
| `Invoker.StepInvoker.Execute` | justpipe/invoker.py:71-99 | An unknown name raises "Step not found: name" before any injection. Otherwise the step receives the payload overlaid with its injections. The result is what the step returns or raises; a streaming step gives its TOKEN events and its last control value, or the error raised after yielding. |
| `Invoker.StepInvoker.StepHandler` | justpipe/invoker.py:112-113 | The step handler is `f` exactly when the step's metadata holds `f` under `on_error`. A missing step, a missing key or a value that is not a function gives none. |
| `Invoker.StepInvoker.HandleError` | justpipe/invoker.py:108-133 | The first handler of its chain is called with the error, and what it returns is the result. A `BaseException` that is not an `Exception` propagates at once, with no escalation. `HandleErrorIsChain` states the whole behaviour, escalation included. |
| `Invoker.StepInvoker.HandlerChain` | justpipe/invoker.py:112-130 | At most two handlers are tried. There are none exactly when there is no global handler and either the step has no handler or `use_global` is set. A step handler, unless `use_global` is set, comes first with meta key `name:on_error`. Without one, or with `use_global`, the global handler alone is tried with meta key "system:on_error". A second handler is tried exactly when the step has one, `use_global` is not set and a different global handler exists; it is that global handler with "system:on_error". |
| `Invoker.StepInvoker.HandleErrorIsChain` | justpipe/invoker.py:108-133 | `handle_error` is the same as trying its handler chain in order: each handler receives the error the one before raised. |
| `Invoker.StepInvoker.NoHandlerReRaises` | justpipe/invoker.py:116-133 | With no applicable handler at all, the original error is re-raised. |
| `Invoker.StepInvoker.EscalatesOnce` | justpipe/invoker.py:123-129 | When the step handler raises an `Exception` and a different global handler exists, the global handler is called once with the new error. Its return value is the result, and whatever it raises propagates. |
| `Invoker.StepInvoker.HandlerErrorReRaised` | justpipe/invoker.py:127-130 | A handler that raises with no different global handler to escalate to has its error re-raised. |
| `PipeRegistry.Names` | justpipe/pipe.py:126-128 | Every target is resolved to its name, in order. |
| `PipeRegistry.TargetNames` | justpipe/pipe.py:124-128 | A single target becomes a one-element list of its resolved name. A list is resolved element by element. |
| `PipeRegistry.StoredMeta` | justpipe/pipe.py:105-109 | The metadata entry holds every keyword plus `barrier_timeout` and `on_error`, and the two explicit keys win. |
| `PipeRegistry.Allowance` | justpipe/pipe.py:91-117 | The unknown-parameter allowance is the `expected_unknowns` keyword a decorator passes on, and 1 when there is none. |
| `PipeRegistry.Forwarded` | justpipe/pipe.py:91-109 | The keywords `_register_step_config` collects are the decorator's keywords except `expected_unknowns`, with their values. |
| `PipeRegistry.WithMetadataValid` | justpipe/pipe.py:105-109 | Writing a well-formed metadata entry keeps the key order duplicate-free and in step with the keys. |
| `PipeRegistry.PeelFold` | justpipe/pipe.py:136-140 | Folding the middleware over a callable can be undone: peeling gives back the callable and the middleware list in order. |
| `PipeRegistry.NormalizeRoutes` | justpipe/pipe.py:239-244 | The normalised table has the same keys in the same order. A Stop target becomes "Stop" and any other target its resolved name. |
| `PipeRegistry.SwitchMeta` | justpipe/pipe.py:246-257 | A switch entry adds `switch_routes`, which is the normalised table or "dynamic" for a routing function. It also adds `switch_default`, the resolved default when that is truthy and None otherwise. The other keywords are unchanged. |
| `PipeRegistry.SubMeta` | justpipe/pipe.py:297-306 | A sub entry adds `sub_pipeline`, the sub-pipeline's name or "SubPipe" when it has none, and `sub_pipeline_obj`, the object itself. The other keywords are unchanged. |
| `PipeRegistry.KindOf` | justpipe/pipe.py:329-337 | Kind by priority: map when `map_target` is present, else switch when `switch_routes` is present, else sub when `sub_pipeline` is present, else step. Each case is stated in both directions. |
| `PipeRegistry.Describe` | justpipe/pipe.py:328-356 | The StepInfo of one entry: its targets are the topology's, then the map target, the non-Stop switch routes and a truthy default. The Describe lemmas below state its fields for each kind. |
| `PipeRegistry.RouteNamesContent` | justpipe/pipe.py:343-344 | A name is among a table's route targets exactly when some route has it as its value and it is not "Stop". |
| `PipeRegistry.Lookup` | justpipe/pipe.py:262 | The dictionary lookup finds a target exactly when some route has the key, and the target it finds belongs to such a route. |
| `PipeRegistry.NormalizeAgreesWithLookup` | justpipe/pipe.py:239-265 | The normalised table answers every lookup as the original one does, with the target normalised. |
| `PipeRegistry.ResolveRoute` | justpipe/pipe.py:259-273 | A switch returns only `Stop` or a `_Next` of some target. A routing function's raise propagates unchanged. Its answer None raises the no-route ValueError, Stop gives `Stop`, and a step gives `_Next` of it. |
| `PipeRegistry.LookupFirst` | justpipe/pipe.py:262 | The lookup finds the target of the first route with the key. |
| `PipeRegistry.DictRouteHit` | justpipe/pipe.py:261-273 | A result with a route goes to that route: a Stop target returns `Stop`, and any other target returns `_Next` of it. |
| `PipeRegistry.DictRouteMiss` | justpipe/pipe.py:261-272 | A result without a route goes to `_Next(default)`. With no default it raises "… (switch) returned …, which matches no route and no default was provided." |
| `PipeRegistry.DistinctRouteHit` | justpipe/pipe.py:261-273 | In a route dictionary, which holds each key once, a result is routed to the target stored under it: `Stop` for Stop, `_Next` of a step. |
| `PipeRegistry.SwitchWrapperResult` | justpipe/pipe.py:259-273 | What the user function raises propagates, and so does what a routing function raises. A value comes out only when the function returned, and it is `Stop` or a `_Next`. |
| `PipeRegistry.RegisterEffects` | justpipe/pipe.py:104-130 | Registration always writes the metadata entry and keeps the key order, even when an analysis then raises. It succeeds exactly when the step's and the handler's analyses do, returning the stage name. On success it stores both mappings and a topology entry for a truthy `to`. On failure it raises the first DefinitionError and leaves the topology alone. |
| `PipeRegistry.HandlerEffects` | justpipe/pipe.py:119-128 | The handler part of registration touches only the handler's mapping and the topology. When the handler's analysis raises, it changes nothing. |
| `PipeRegistry.RegisterConfig` | justpipe/pipe.py:91-130 | `_register_step_config` as one function of the pipe's state: metadata, then the step's mapping, then the handler's, then the topology. `RegisterEffects` and `HandlerEffects` state what it changes. |
| `PipeRegistry.RegisterKeepsValid` | justpipe/pipe.py:104-109 | Registration keeps the pipe's invariant: the key order is duplicate-free and lists exactly the metadata keys. |
| `PipeRegistry.StepStoresFolded` | justpipe/pipe.py:142-157 | A step that registers is stored as its function wrapped by the pipe's middleware in list order, so the last middleware is outermost. No other step changes, and a failed registration stores nothing. |
| `PipeRegistry.StepAllowance` | justpipe/pipe.py:100-117 | A step's `expected_unknowns` keyword is its allowance: registration fails exactly when the function has more unrecognised parameters than that or the handler has any, and then raises the DefinitionError naming the allowance. The keyword is not stored in the metadata, and every other keyword is. |
| `PipeRegistry.OnErrorEffects` | justpipe/pipe.py:83-89 | `on_error` sets the global handler whatever its signature. It stores the handler's mapping under "system:on_error" exactly when the handler has no unrecognised parameter, and changes neither the steps, the metadata and its order, the topology nor the middleware. |
| `PipeRegistry.DescribeStored` | justpipe/pipe.py:348-356 | Every StepInfo reports its name, `timeout` and `barrier_timeout`. It reports an error handler exactly when one was given. `retries` is the keyword's value, or 0 when that is falsy. |
| `PipeRegistry.DescribeStep` | justpipe/pipe.py:326-356 | A plain step reports kind "step", and its targets are the topology's. |
| `PipeRegistry.DescribeMap` | justpipe/pipe.py:330-342 | A map step reports kind "map", and its map target comes after the topology's targets. |
| `PipeRegistry.SwitchStored` | justpipe/pipe.py:246-257 | A stored switch entry has kind "switch" and holds the normalised table, or "dynamic", and the resolved default. |
| `PipeRegistry.DescribeSwitch` | justpipe/pipe.py:339-346 | A switch's targets are the topology's, then the non-Stop route targets in route order (none for a routing function), then the default when it is non-empty. |
| `PipeRegistry.SubStored` | justpipe/pipe.py:297-306 | A stored sub entry has kind "sub" and none of the keys that add targets. |
| `PipeRegistry.DescribeSub` | justpipe/pipe.py:334-340 | A sub step reports kind "sub", and its targets are the topology's. |
| `PipeRegistry.SwitchTargetsAreStepRoutes` | justpipe/pipe.py:239-244 | A name is among a switch's route targets exactly when some route leads to a step that resolves to that name and the name is not "Stop". |
| `PipeRegistry.Pipe.constructor` | justpipe/pipe.py:38-57 | A new pipe keeps its name and options. Its middleware is a copy of the given list, or the retry middleware alone when none is given. All its dictionaries start empty. |
| `PipeRegistry.Pipe.AddMiddleware` | justpipe/pipe.py:68-69 | The middleware goes at the end of the list, and nothing else changes. |
| `PipeRegistry.Pipe.OnError` | justpipe/pipe.py:83-89 | The new state is `OnErrorSpec` of the old one. The global handler is set before its signature is analysed. |
| `PipeRegistry.Pipe.SetMetadata` | justpipe/pipe.py:105-109 | Assigning a metadata entry keeps a new key at the end of the order and an existing key in its place. |
| `PipeRegistry.Pipe.RegisterStepConfig` | justpipe/pipe.py:91-130 | The new state and the result are what `RegisterConfig` gives for the old state, and the invariant is kept. `RegisterEffects` says what that means. |
| `PipeRegistry.Pipe.RegisterHandlerConfig` | justpipe/pipe.py:119-128 | The end of registration stores the handler's mapping and then the topology entry, exactly as `RegisterHandler` says; `HandlerEffects` states what that means. The invariant is kept. |
| `PipeRegistry.Pipe.WrapStep` | justpipe/pipe.py:132-140 | The loop stores the step wrapped by each middleware in list order. Nothing else changes. |
| `PipeRegistry.Pipe.Step` | justpipe/pipe.py:142-161 | Registers the step and then stores its wrapped function, as `StepSpec`. |
| `PipeRegistry.Pipe.Map` | justpipe/pipe.py:163-209 | Without `using` it raises ValueError and changes nothing. Otherwise it registers with `map_target` and stores the map wrapper, as `MapSpec`. |
| `PipeRegistry.Pipe.Switch` | justpipe/pipe.py:211-278 | Without `routes` it raises ValueError and changes nothing. Otherwise it registers with the switch keys and no `to`, and stores the switch wrapper, as `SwitchSpec`. |
| `PipeRegistry.Pipe.Sub` | justpipe/pipe.py:280-315 | Without `using` it raises ValueError and changes nothing. Otherwise it registers with the sub keys and stores the sub wrapper, as `SubSpec`. |
| `PipeRegistry.Pipe.StepInfos` | justpipe/pipe.py:326-356 | `steps()` yields one StepInfo per metadata entry, in registration order. `Describe` gives each one's fields, and the Describe lemmas above state them. |
| `Scheduler.FirstMatch` | tests/unit/runtime/test_scheduler.py:125-135 | A completion counts towards the oldest batch that targets the step and still waits. It finds no batch exactly when none matches. |
| `Scheduler.FirstMatchAt` | tests/unit/runtime/test_scheduler.py:125-135 | The first matching batch in list order is the one a completion counts towards. |
| `Scheduler.Scheduler.constructor` | tests/unit/runtime/test_scheduler.py:8-14 | A new scheduler holds no batches. |
| `Scheduler.MapBatch.constructor` | tests/unit/runtime/test_scheduler.py:17-24 | A new batch holds its target, item count, remaining counter and owner. |
| `Scheduler.Scheduler.OnStepCompleted` | tests/unit/runtime/test_scheduler.py:30-120 | An unknown owner returns nothing and changes nothing. Otherwise the oldest matching batch's counter drops by one and the batches at zero are returned, oldest first. The others stay in order, and the owner's key goes once none stay. |
| `Scheduler.CountCompletion` | tests/unit/runtime/test_scheduler.py:30-37 | The counting loop changes exactly the counter `Decremented` names. |
| `Scheduler.Partition` | tests/unit/runtime/test_scheduler.py:43-94 | The loop splits the batches into those at zero and the others, both in list order. |
| `Scheduler.DecrementedChangesOne` | tests/unit/runtime/test_scheduler.py:125-135 | A completion changes only the oldest matching batch, by exactly one, and changes no target. |
| `Scheduler.DecrementedOutstanding` | tests/unit/runtime/test_scheduler.py:100-108 | The outstanding total drops by one exactly when some batch waits for the completed step. Otherwise it is unchanged. |
| `Scheduler.SelectAppend` | tests/unit/runtime/test_scheduler.py:71-81 | Selecting from two runs of batches gives the first run's selection, then the second's. |
| `Scheduler.SelectMembers` | tests/unit/runtime/test_scheduler.py:43-94 | Each batch lands among the drained ones exactly when its counter is zero, and among the kept ones exactly when it is not. |
| `Scheduler.SelectPartition` | tests/unit/runtime/test_scheduler.py:43-94 | Together, the drained and the kept batches are exactly the owner's batches, each as often as it was held. |
| `Scheduler.SelectDistinct` | tests/unit/runtime/test_scheduler.py:71-81 | Selecting from a list without duplicates gives a list without duplicates. |
| `Scheduler.OldestBatchCounts` | tests/unit/runtime/test_scheduler.py:71-135 | Of two batches that wait for the same worker, only the oldest is decremented. A completion of a step no batch targets changes nothing. |
| `Scheduler.UnknownOwner` | tests/unit/runtime/test_scheduler.py:114-119 | A completion for an owner with no batches returns nothing. |
| `Scheduler.EmptyMapDrainsOnOwner` | tests/unit/runtime/test_scheduler.py:57-65 | An owner whose map had no items gets its batch back, and its key removed, when the owner itself completes. |
| `Scheduler.WrongTargetIgnored` | tests/unit/runtime/test_scheduler.py:100-108 | A completion of a step no batch targets returns nothing and leaves the counter at 3. |
| `Testing.TestResult.Filter` | tests/unit/test_testresult.py:15-37 | `filter(t)` keeps only events of type `t` and keeps every one of them. It is never longer than the run. |
| `Testing.TestResult.StepStarts` | tests/unit/test_testresult.py:43-64 | `step_starts` is the stages of the STEP_START events, one per event, in order. |
| `Testing.TestResult.Tokens` | tests/unit/test_testresult.py:70-90 | `tokens` is the payloads of the TOKEN events, one per event, in order. |
| `Testing.TestResult.WasCalled` | tests/unit/test_testresult.py:96-104 | `was_called(stage)` holds exactly when some STEP_START event names the stage. |
| `Testing.TestResult.FindError` | tests/unit/test_testresult.py:110-130 | `find_error` is None exactly when no STEP_ERROR event (of the stage, when one is given) exists. Otherwise it is the text of the first such event's payload. |
| `Testing.FilterMembers` | tests/unit/test_testresult.py:15-27 | The filtered run holds only events of the type and every event of it, and is never longer than the run. |
| `Testing.Stages` | tests/unit/test_testresult.py:43-54 | Each filtered event gives its stage, in order. |
| `Testing.Payloads` | tests/unit/test_testresult.py:70-80 | Each filtered event gives its payload, in order. |
| `Testing.StartedIn` | tests/unit/test_testresult.py:96-104 | A stage is started exactly when some STEP_START event names it. |
| `Testing.FirstError` | tests/unit/test_testresult.py:110-130 | It finds the first matching STEP_ERROR event, and finds none exactly when there is none. |
| `Testing.FilterAppend` | tests/unit/test_testresult.py:15-27 | `filter` keeps event order: filtering a run followed by another run gives the first run's matches, then the second's. |
| `Testing.FilterMultiplicity` | tests/unit/test_testresult.py:15-27 | `filter` keeps each event of the type as often as the run holds it, and no other event. |
| `Testing.FilterEmpty` | tests/unit/test_testresult.py:30-37 | A run filters to the empty list exactly when it holds no event of the type. |
| `Testing.WasCalledIsStepStart` | tests/unit/test_testresult.py:43-104 | `was_called(stage)` holds exactly when the stage is among `step_starts`. |
| `Testing.FindErrorIsFirstFiltered` | tests/unit/test_testresult.py:110-119 | `find_error()` without a stage is the text of the first event `filter(STEP_ERROR)` returns, or None when there is none. |
| `Testing.FindErrorScenario` | tests/unit/test_testresult.py:122-130 | With errors in stages a and b: the first error overall is "first", b's is "second", and a stage that never failed gives None. |
| `FailureJournal.JournalPrefixes` | tests/unit/test_failure_journal.py:26-43 | The prefixes are the defaults first, then the configured ones in their order. A prefix is held exactly when it is a default or configured. |
| `FailureJournal.HasPrefix` | tests/unit/test_failure_journal.py:47-51 | It holds exactly when some prefix in the list starts the module name. |
| `FailureJournal.ClassifyBuiltin` | tests/unit/test_failure_journal.py:47-62 | An error whose type's module starts with a journal prefix is EXTERNAL_DEP. No error, or an error from any other module, gives the default source. |
| `FailureJournal.RaisedMessage` | tests/unit/test_failure_journal.py:116-117 | The text for a classifier that raised holds the exception's type name and its message. |
| `FailureJournal.InvalidMessage` | tests/unit/test_failure_journal.py:138-139 | The text for an invalid classifier result holds "returned invalid value" and the value's repr. |
| `FailureJournal.ResolveSource` | tests/unit/test_failure_journal.py:66-139 | With no classifier, or one that returns None, the source is the built-in classification and there is no diagnostic. A valid source from the classifier wins, with no diagnostic. A raise or an invalid value gives the built-in classification and one CLASSIFIER_ERROR diagnostic for the step, naming what went wrong. |
| `FailureJournal.DiagnosticExactlyOnMisbehaviour` | tests/unit/test_failure_journal.py:66-139 | A diagnostic comes out exactly when a configured classifier raised or returned an invalid value. The source is the classifier's exactly when it returned a FailureSource, and the built-in classification otherwise. |
| `FailureJournal.ExecutionLog.constructor` | tests/unit/test_failure_journal.py:151 | A new log holds no failures and no diagnostics. |
| `FailureJournal.Journal.constructor` | tests/unit/test_failure_journal.py:26-43 | A journal holds the merged prefixes and the configured classifier, if any. |
| `FailureJournal.Journal.RecordFailure` | tests/unit/test_failure_journal.py:143-201 | It appends exactly one failure entry with the given kind, reason, message, step and error, and the resolved source. It appends one diagnostic when the classifier misbehaved and none otherwise. Nothing already logged changes. |
| `FailureJournal.PrefixScenarios` | tests/unit/test_failure_journal.py:26-43 | The defaults include httpx, requests, openai and asyncpg. With custom prefixes, httpx and redis are kept and mylib and custom_sdk are added. |
| `FailureJournal.BuiltinScenarios` | tests/unit/test_failure_journal.py:47-62 | An error from httpx.errors is EXTERNAL_DEP. No error, and a builtins error, keep the default. |
| `FailureJournal.RecordScenarios` | tests/unit/test_failure_journal.py:143-201 | A raising classifier leaves one failure entry with the built-in classification and one CLASSIFIER_ERROR diagnostic. A classifier that returns EXTERNAL_DEP sets the entry's source and adds no diagnostic. |

## Left out

- The web run viewer (trace reconstruction, critical path, replay) is not part of this model. The model covers the library core above.
- Asyncio: queues, `asyncio.wait_for` and the step timeout paths (justpipe/invoker.py:101-106) are not modelled. TOKEN events are the sequence the invoker would put on the queue, in order.
- Invoker.StepInvoker.Execute: does not raise `TimeoutError` for a step that exceeds its `timeout` metadata, because time is not modelled.
- `_default_error_handler` (justpipe/invoker.py:135-145): it only logs, with a timestamp and a traceback. The model keeps only the re-raise after it.
- Python introspection is replaced by data:
  - `inspect.signature` gives the parameter list of a `UserFunc`;
  - `_get_types` gives the pipe's `stateType` and `contextType`;
  - `isasyncgenfunction` and `iscoroutinefunction` are the `Behaviour` a step shows.
- Callable truthiness (`if not func`, `if not handler`) is taken as true for every function. Handler identity (`handler != self._on_error`) is equality of `UserFunc` values.
- `_validate_routing_target` and `_resolve_name` come from a module that is not part of this model. Names resolve as `ResolveName` says, and validation is left out.
- The retry middleware (tenacity) and user middleware are symbolic `Wrapped` layers. What a middleware does when called is left out.
- The bodies of `map_wrapper` and `sub_wrapper` (what they do when a run calls them) are not modelled. Only the switch wrapper's routing is.
- `on_startup`, `on_shutdown`, `add_event_hook`, `graph`, `validate` and `run` are left out. The first three only append to lists nothing here reads; the others delegate to a renderer, a graph checker and a runner that are not part of this model.
- The direct form `@pipe.step` without parentheses (justpipe/pipe.py:159-160) is `Pipe.Step` called with the function as its own name.
- PipeRegistry.Pipe.Step, PipeRegistry.Pipe.Map, PipeRegistry.Pipe.Switch and PipeRegistry.Pipe.Sub (and PipeRegistry.Pipe.RegisterStepConfig): require keywords that do not reuse a name the decorator or `_register_step_config` binds explicitly, because Python itself rejects such calls with TypeError. An `expected_unknowns` keyword is admitted and becomes the allowance. The refused names are:
  - for every decorator (`BoundNames`): `self`, `name`, `to`, `barrier_timeout`, `on_error`, `name_or_func`, `func`;
  - for `map` also (`MapBound`): `using` and `map_target`, which it passes itself;
  - for `switch` also (`SwitchBound`): `routes`, `default`, `switch_routes`, `switch_default`;
  - for `sub` also (`SubBound`): `using`, `sub_pipeline`, `sub_pipeline_obj`.
- PipeRegistry.Pipe.Step, PipeRegistry.Pipe.Map, PipeRegistry.Pipe.Switch and PipeRegistry.Pipe.Sub: also require a user `map_target` keyword (possible on `step`, `switch` and `sub`, which do not bind it) to be a string, a user `switch_default` keyword (possible on `step`, `map` and `sub`) to be a string or None, and `expected_unknowns` to be an `int` or `bool`. `steps()` types its targets as strings and reads these keys back as names, and `_analyze_signature` compares the allowance with a length. Other types would make those reads fail or compare differently, which is not modelled.
- PipeRegistry.Pipe.Switch and PipeRegistry.SwitchSpec: require a route dictionary to hold each key once, as every Python `dict` does.
- PipeRegistry.DescribeStep, PipeRegistry.DescribeMap, PipeRegistry.DescribeSwitch and PipeRegistry.DescribeSub: assume the user's keywords hold none of the framework keys (`map_target`, `switch_routes`, `switch_default`, `sub_pipeline`). A step given such a keyword would report another kind; `KindOf` states the general rule.
- PipeRegistry.ResolveRoute: its own contract states the shape of the result and the routing-function case. `DictRouteHit`, `DistinctRouteHit` and `DictRouteMiss` state the dictionary behaviour. A routing function's answer is the `router` parameter.
- The `topology` property (justpipe/pipe.py:359-361) is modelled by `Pipe.TopologyView` as the topology's value. `dict(self._topology)` is a shallow copy whose target lists are the pipe's own, so a caller that mutates one changes the pipe; the model does not capture that sharing.
- Dictionary aliasing is not modelled: the invoker holds the pipe's dictionaries by reference, and here it holds copies of their values. A dictionary route's keys are compared by value equality, not by Python hashing.
- The scheduler's source is outside this model; the model follows tests/unit/runtime/test_scheduler.py:
  - A completion decrements the oldest batch that targets the step and still waits.
  - Every batch of a known owner that stands at zero is then returned.
  - This also drains an empty map when the owner itself completes.
  - The scheduler's other collaborators (orchestrator, failure handler, steps) are left out.
- The failure journal's source is outside this model; the model follows tests/unit/test_failure_journal.py:
  - The default prefixes are the five the tests name: httpx, requests, openai, asyncpg, redis.
  - A prefix matches as a plain string prefix of the error type's module.
  - The diagnostic texts use their own wording around the words the tests check.
  - The classifier is consulted whether or not there is an error.
- The immutability of the classification config and context dataclasses (tests/unit/test_failure_classification.py) is not modelled; they are Dafny values.
- `str()` of a value: numbers, strings, booleans, None and exceptions are shown as Python shows them. Other objects get a fixed placeholder.
