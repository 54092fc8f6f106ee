/** The queries a test runs over the collected events of a pipeline run
    (tests/unit/test_testresult.py). */
module Testing {
  import opened Types

  /** The events of a run, in emission order, and the state the run ended with. */
  datatype TestResult = TestResult(events: seq<Event>, finalState: Value) {

    /** filter(t): the events of type `t`, in their original order. */
    function Filter(t: EventType): (r: seq<Event>)
      ensures forall i :: 0 <= i < |r| ==> r[i].eventType == t
      ensures forall e :: e in r <==> e in events && e.eventType == t
      ensures |r| <= |events|
    {
      FilterMembers(events, t);
      FilterOf(events, t)
    }

    /** step_starts: the stages of the STEP_START events, in order. */
    function StepStarts(): (r: seq<string>)
      ensures |r| == |Filter(StepStart)|
      ensures forall i :: 0 <= i < |r| ==> r[i] == Filter(StepStart)[i].stage
    {
      Stages(Filter(StepStart))
    }

    /** tokens: the payloads of the TOKEN events, in order. */
    function Tokens(): (r: seq<Value>)
      ensures |r| == |Filter(Token)|
      ensures forall i :: 0 <= i < |r| ==> r[i] == Filter(Token)[i].payload
    {
      Payloads(Filter(Token))
    }

    /** was_called(stage): some STEP_START event names the stage. */
    function WasCalled(stage: string): (r: bool)
      ensures r <==> exists i :: 0 <= i < |events| && events[i].eventType == StepStart && events[i].stage == stage
    {
      StartedIn(events, stage)
    }

    /** find_error(stage): the message of the first STEP_ERROR event, of the given stage when one is
        given; None when there is none. */
    function FindError(stage: Option<string>): (r: Option<string>)
      ensures r.None? <==> forall i :: 0 <= i < |events| ==> !IsErrorOf(events[i], stage)
      ensures r.Some? ==> exists i :: 0 <= i < |events| && IsErrorOf(events[i], stage) && r.value == Display(events[i].payload)
                                      && forall j :: 0 <= j < i ==> !IsErrorOf(events[j], stage)
    {
      FirstError(events, stage)
    }
  }

  function FilterOf(es: seq<Event>, t: EventType): seq<Event> {
    if es == [] then []
    else if es[0].eventType == t then [es[0]] + FilterOf(es[1..], t)
    else FilterOf(es[1..], t)
  }

  /** filter keeps only events of the type, keeps every one of them, and never grows the run. */
  lemma {:induction false} FilterMembers(es: seq<Event>, t: EventType)
    ensures var r := FilterOf(es, t);
      && (forall i :: 0 <= i < |r| ==> r[i].eventType == t)
      && (forall e :: e in r <==> e in es && e.eventType == t)
      && |r| <= |es|
  {
    if es != [] {
      FilterMembers(es[1..], t);
      assert forall e :: e in es <==> e == es[0] || e in es[1..];
    }
  }

  function Stages(es: seq<Event>): (r: seq<string>)
    ensures |r| == |es| && forall i :: 0 <= i < |es| ==> r[i] == es[i].stage
  {
    if es == [] then [] else [es[0].stage] + Stages(es[1..])
  }

  function Payloads(es: seq<Event>): (r: seq<Value>)
    ensures |r| == |es| && forall i :: 0 <= i < |es| ==> r[i] == es[i].payload
  {
    if es == [] then [] else [es[0].payload] + Payloads(es[1..])
  }

  function StartedIn(es: seq<Event>, stage: string): (r: bool)
    ensures r <==> exists i :: 0 <= i < |es| && es[i].eventType == StepStart && es[i].stage == stage
  {
    if es == [] then false
    else
      assert forall i :: 1 <= i < |es| ==> es[i] == es[1..][i - 1];
      (es[0].eventType == StepStart && es[0].stage == stage) || StartedIn(es[1..], stage)
  }

  /** A STEP_ERROR event, of the given stage when one is given. */
  predicate IsErrorOf(e: Event, stage: Option<string>) {
    e.eventType == StepError && (stage.None? || e.stage == stage.value)
  }

  function FirstError(es: seq<Event>, stage: Option<string>): (r: Option<string>)
    ensures r.None? <==> forall i :: 0 <= i < |es| ==> !IsErrorOf(es[i], stage)
    ensures r.Some? ==> exists i :: 0 <= i < |es| && IsErrorOf(es[i], stage) && r.value == Display(es[i].payload)
                                    && forall j :: 0 <= j < i ==> !IsErrorOf(es[j], stage)
  {
    if es == [] then None
    else if IsErrorOf(es[0], stage) then Some(Display(es[0].payload))
    else
      var r := FirstError(es[1..], stage);
      assert forall i :: 1 <= i < |es| ==> es[i] == es[1..][i - 1];
      r
  }

  /** filter keeps the order of the events: filtering a run that is one run of events followed by
      another gives the first run's matches followed by the second's. */
  lemma {:induction false} FilterAppend(xs: seq<Event>, ys: seq<Event>, t: EventType)
    ensures FilterOf(xs + ys, t) == FilterOf(xs, t) + FilterOf(ys, t)
  {
    if xs == [] {
      assert xs + ys == ys;
    } else {
      var zs := xs + ys;
      assert zs[0] == xs[0];
      assert zs[1..] == xs[1..] + ys;
      FilterAppend(xs[1..], ys, t);
      var head := if xs[0].eventType == t then [xs[0]] else [];
      assert FilterOf(zs, t) == head + FilterOf(xs[1..] + ys, t);
      assert FilterOf(xs, t) == head + FilterOf(xs[1..], t);
    }
  }

  /** filter keeps each event of the type as often as the run holds it, and no other event. */
  lemma {:induction false} FilterMultiplicity(es: seq<Event>, t: EventType, e: Event)
    ensures multiset(FilterOf(es, t))[e] == if e.eventType == t then multiset(es)[e] else 0
  {
    if es != [] {
      FilterMultiplicity(es[1..], t, e);
      assert multiset(es) == multiset{es[0]} + multiset(es[1..]) by { assert es == [es[0]] + es[1..]; }
    }
  }

  /** A run filters to nothing exactly when it holds no event of the type. */
  lemma {:induction false} FilterEmpty(es: seq<Event>, t: EventType)
    ensures FilterOf(es, t) == [] <==> forall i :: 0 <= i < |es| ==> es[i].eventType != t
  {
    if es != [] {
      FilterEmpty(es[1..], t);
      assert forall i :: 1 <= i < |es| ==> es[i] == es[1..][i - 1];
    }
  }

  /** was_called agrees with step_starts: a stage was called exactly when it is among the stages
      step_starts lists. */
  lemma WasCalledIsStepStart(r: TestResult, stage: string)
    ensures r.WasCalled(stage) <==> stage in r.StepStarts()
  {
    var starts := r.Filter(StepStart);
    if r.WasCalled(stage) {
      var i :| 0 <= i < |r.events| && r.events[i].eventType == StepStart && r.events[i].stage == stage;
      assert r.events[i] in starts;
      var k :| 0 <= k < |starts| && starts[k] == r.events[i];
      assert r.StepStarts()[k] == stage;
    }
    if stage in r.StepStarts() {
      var k :| 0 <= k < |r.StepStarts()| && r.StepStarts()[k] == stage;
      assert starts[k] in r.events;
    }
  }

  /** find_error without a stage is the message of the first event filter(STEP_ERROR) returns. */
  lemma {:induction false} FindErrorIsFirstFiltered(es: seq<Event>)
    ensures FirstError(es, None) == if FilterOf(es, StepError) == [] then None else Some(Display(FilterOf(es, StepError)[0].payload))
  {
    if es != [] && es[0].eventType != StepError {
      FindErrorIsFirstFiltered(es[1..]);
    }
  }

  /** The failing scenario of a run with errors in two stages: the first error overall, the error
      of a named stage, and None for a stage that never failed. */
  lemma FindErrorScenario()
    ensures var r := TestResult([Event(StepError, "a", ExcValue(Exc("ValueError", "builtins", "first"))),
                                 Event(StepError, "b", ExcValue(Exc("RuntimeError", "builtins", "second")))], NoneValue);
      && r.FindError(None) == Some("first")
      && r.FindError(Some("b")) == Some("second")
      && r.FindError(Some("nonexistent")) == None
  {
    var es := [Event(StepError, "a", ExcValue(Exc("ValueError", "builtins", "first"))),
               Event(StepError, "b", ExcValue(Exc("RuntimeError", "builtins", "second")))];
    assert es[1..] == [es[1]] && es[1..][1..] == [];
    assert Display(es[0].payload) == "first" && Display(es[1].payload) == "second";
    assert FirstError(es[1..][1..], Some("nonexistent")) == None;
    assert FirstError(es[1..], Some("nonexistent")) == None;
  }
}
