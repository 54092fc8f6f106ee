/** Failure-source classification and recording of the run telemetry: the journal decides whether
    a failure came from user code, the framework or an external dependency, optionally asking a
    user classifier, and writes failure entries and classifier diagnostics into the execution log
    (tests/unit/test_failure_journal.py). */
module FailureJournal {
  import opened Types

  datatype FailureKind = Step | Infra | Validation
  datatype FailureSource = UserCode | Framework | ExternalDep
  datatype FailureReason = StepError | ClassifierError | InternalError | ValidationError

  /** What a user classifier is shown. */
  datatype ClassificationContext = ClassificationContext(
    error: Option<Exc>, kind: FailureKind, reason: FailureReason, step: Option<string>, defaultSource: FailureSource)

  /** What a call of the user classifier did: returned a FailureSource, returned None, returned
      something else (with its repr), or raised. */
  datatype ClassifierOutcome = ValidSource(source: FailureSource) | NoneResult | Invalid(repr: string) | Raises(exc: Exc)

  /** The user's configuration: an optional classifier and extra module prefixes. */
  datatype ClassificationConfig = ClassificationConfig(
    sourceClassifier: Option<ClassificationContext -> ClassifierOutcome>, externalDependencyPrefixes: seq<string>)

  /** One recorded failure. */
  datatype FailureRecord = FailureRecord(
    kind: FailureKind, source: FailureSource, reason: FailureReason,
    errorMessage: Option<string>, step: Option<string>, error: Option<Exc>)

  /** A diagnostic about the classification itself; its error is a text. */
  datatype Diagnostic = Diagnostic(
    kind: FailureKind, source: FailureSource, reason: FailureReason, error: string, step: Option<string>)

  /** The module prefixes that mark an external dependency out of the box. */
  const DefaultPrefixes: seq<string> := ["httpx", "requests", "openai", "asyncpg", "redis"]

  /** `t` occurs somewhere in `s`. */
  ghost predicate Contains(s: string, t: string) {
    exists i, j :: 0 <= i <= j <= |s| && s[i..j] == t
  }

  lemma ContainsSelf(t: string)
    ensures Contains(t, t)
  {
    assert t[0..|t|] == t;
  }

  /** Text that holds a part still holds it once more text is added after it, or before it. */
  lemma ContainsExtended(a: string, b: string, t: string)
    ensures Contains(a, t) ==> Contains(a + b, t)
    ensures Contains(b, t) ==> Contains(a + b, t)
  {
    if Contains(a, t) {
      var i, j :| 0 <= i <= j <= |a| && a[i..j] == t;
      assert (a + b)[i..j] == a[i..j];
    }
    if Contains(b, t) {
      var i, j :| 0 <= i <= j <= |b| && b[i..j] == t;
      assert (a + b)[|a| + i..|a| + j] == b[i..j];
    }
  }

  /** The prefixes of a journal: the defaults first, then the configured ones in their order. */
  function JournalPrefixes(config: Option<ClassificationConfig>): (r: seq<string>)
    ensures |r| >= |DefaultPrefixes| && r[..|DefaultPrefixes|] == DefaultPrefixes
    ensures config.Some? ==> r[|DefaultPrefixes|..] == config.value.externalDependencyPrefixes
    ensures config.None? ==> r == DefaultPrefixes
    ensures forall p :: p in r <==> p in DefaultPrefixes || (config.Some? && p in config.value.externalDependencyPrefixes)
  {
    var custom := if config.Some? then config.value.externalDependencyPrefixes else [];
    var r := DefaultPrefixes + custom;
    assert r[|DefaultPrefixes|..] == custom;
    r
  }

  /** Some prefix of the list starts the module name. */
  function HasPrefix(moduleName: string, prefixes: seq<string>): (r: bool)
    ensures r <==> exists i :: 0 <= i < |prefixes| && prefixes[i] <= moduleName
  {
    if prefixes == [] then false
    else
      assert forall i :: 1 <= i < |prefixes| ==> prefixes[i] == prefixes[1..][i - 1];
      prefixes[0] <= moduleName || HasPrefix(moduleName, prefixes[1..])
  }

  /** _classify_failure_source_builtin: an error whose type lives in a module under one of the
      prefixes is an external dependency's; no error, or any other error, keeps the default. */
  function ClassifyBuiltin(prefixes: seq<string>, error: Option<Exc>, default: FailureSource): (r: FailureSource)
    ensures error.None? ==> r == default
    ensures error.Some? && (exists i :: 0 <= i < |prefixes| && prefixes[i] <= error.value.moduleName) ==> r == ExternalDep
    ensures error.Some? && (forall i :: 0 <= i < |prefixes| ==> !(prefixes[i] <= error.value.moduleName)) ==> r == default
  {
    if error.Some? && HasPrefix(error.value.moduleName, prefixes) then ExternalDep else default
  }

  /** The diagnostic recorded when the classifier misbehaves. */
  function ClassifierDiagnostic(message: string, step: Option<string>): (d: Diagnostic)
    ensures d.kind == Infra && d.source == Framework && d.reason == ClassifierError
    ensures d.error == message && d.step == step
  {
    Diagnostic(Infra, Framework, ClassifierError, message, step)
  }

  const RaisedLead: string := "Failure source classifier raised "
  const InvalidLead: string := "Failure source classifier "
  const InvalidWhat: string := "returned invalid value"

  /** The diagnostic text for a classifier that raised: its exception's type and message. */
  function RaisedMessage(e: Exc): (m: string)
    ensures Contains(m, e.typeName) && Contains(m, e.message)
  {
    var withType := RaisedLead + e.typeName;
    ContainsSelf(e.typeName);
    ContainsExtended(RaisedLead, e.typeName, e.typeName);
    ContainsExtended(withType, ": ", e.typeName);
    ContainsExtended(withType + ": ", e.message, e.typeName);
    ContainsSelf(e.message);
    ContainsExtended(withType + ": ", e.message, e.message);
    withType + ": " + e.message
  }

  /** The diagnostic text for a classifier that returned something other than a FailureSource:
      the words "returned invalid value" and the value's repr. */
  function InvalidMessage(repr: string): (m: string)
    ensures Contains(m, "returned invalid value") && Contains(m, repr)
  {
    var lead := InvalidLead + InvalidWhat + " ";
    ContainsSelf(InvalidWhat);
    ContainsExtended(InvalidLead, InvalidWhat, InvalidWhat);
    ContainsExtended(InvalidLead + InvalidWhat, " ", InvalidWhat);
    ContainsExtended(lead, repr, InvalidWhat);
    ContainsSelf(repr);
    ContainsExtended(lead, repr, repr);
    lead + repr
  }

  /** _resolve_failure_source: without a classifier, or when it returns None, the built-in
      classification; when it returns a FailureSource, that source; when it raises or returns
      anything else, the built-in classification and a classifier diagnostic for the step. */
  function ResolveSource(
    prefixes: seq<string>, classifier: Option<ClassificationContext -> ClassifierOutcome>,
    error: Option<Exc>, kind: FailureKind, reason: FailureReason, step: Option<string>, default: FailureSource)
    : (r: (FailureSource, Option<Diagnostic>))
    ensures var builtin := ClassifyBuiltin(prefixes, error, default);
      var outcome := if classifier.Some? then Some(classifier.value(ClassificationContext(error, kind, reason, step, default))) else None;
      && (outcome.None? || outcome.value.NoneResult? ==> r == (builtin, None))
      && (outcome.Some? && outcome.value.ValidSource? ==> r == (outcome.value.source, None))
      && (outcome.Some? && outcome.value.Invalid? ==>
            && r.0 == builtin && r.1.Some?
            && r.1.value.kind == Infra && r.1.value.source == Framework && r.1.value.reason == ClassifierError
            && r.1.value.step == step
            && Contains(r.1.value.error, "returned invalid value") && Contains(r.1.value.error, outcome.value.repr))
      && (outcome.Some? && outcome.value.Raises? ==>
            && r.0 == builtin && r.1.Some?
            && r.1.value.kind == Infra && r.1.value.source == Framework && r.1.value.reason == ClassifierError
            && r.1.value.step == step
            && Contains(r.1.value.error, outcome.value.exc.typeName) && Contains(r.1.value.error, outcome.value.exc.message))
  {
    var builtin := ClassifyBuiltin(prefixes, error, default);
    match classifier
    case None => (builtin, None)
    case Some(f) =>
      match f(ClassificationContext(error, kind, reason, step, default))
      case ValidSource(s) => (s, None)
      case NoneResult => (builtin, None)
      case Invalid(repr) => (builtin, Some(ClassifierDiagnostic(InvalidMessage(repr), step)))
      case Raises(e) => (builtin, Some(ClassifierDiagnostic(RaisedMessage(e), step)))
  }

  /** A diagnostic comes out exactly when a classifier is configured and it raised or returned an
      invalid value; the source is the classifier's exactly when it returned a FailureSource. */
  lemma DiagnosticExactlyOnMisbehaviour(
    prefixes: seq<string>, classifier: Option<ClassificationContext -> ClassifierOutcome>,
    error: Option<Exc>, kind: FailureKind, reason: FailureReason, step: Option<string>, default: FailureSource)
    ensures var r := ResolveSource(prefixes, classifier, error, kind, reason, step, default);
      var outcome := if classifier.Some? then Some(classifier.value(ClassificationContext(error, kind, reason, step, default))) else None;
      && (r.1.Some? <==> outcome.Some? && (outcome.value.Invalid? || outcome.value.Raises?))
      && (outcome.Some? && outcome.value.ValidSource? ==> r.0 == outcome.value.source)
      && (!(outcome.Some? && outcome.value.ValidSource?) ==> r.0 == ClassifyBuiltin(prefixes, error, default))
  {
  }

  /** The log a run writes failures and diagnostics into. */
  class ExecutionLog {
    var failures: seq<FailureRecord>
    var diagnostics: seq<Diagnostic>

    constructor ()
      ensures failures == [] && diagnostics == []
    {
      failures := [];
      diagnostics := [];
    }
  }

  /** The journal: its module prefixes and its optional classifier, fixed at construction. */
  class Journal {
    const prefixes: seq<string>
    const classifier: Option<ClassificationContext -> ClassifierOutcome>

    /** A journal built from an optional configuration. */
    constructor (config: Option<ClassificationConfig>)
      ensures prefixes == JournalPrefixes(config)
      ensures classifier == if config.Some? then config.value.sourceClassifier else None
    {
      prefixes := JournalPrefixes(config);
      classifier := if config.Some? then config.value.sourceClassifier else None;
    }

    /** record_failure: appends one failure entry carrying the given kind, reason, message, step
        and error and the resolved source, and one diagnostic when the classifier misbehaved. */
    method RecordFailure(
      log: ExecutionLog, kind: FailureKind, source: FailureSource, reason: FailureReason,
      errorMessage: Option<string>, step: Option<string>, error: Option<Exc>)
      modifies log
      ensures var r := ResolveSource(prefixes, classifier, error, kind, reason, step, source);
        && log.failures == old(log.failures) + [FailureRecord(kind, r.0, reason, errorMessage, step, error)]
        && log.diagnostics == old(log.diagnostics) + (if r.1.Some? then [r.1.value] else [])
    {
      var resolved := ResolveSource(prefixes, classifier, error, kind, reason, step, source);
      log.failures := log.failures + [FailureRecord(kind, resolved.0, reason, errorMessage, step, error)];
      if resolved.1.Some? {
        log.diagnostics := log.diagnostics + [resolved.1.value];
      }
    }
  }

  /** The defaults are present without configuration, and kept when custom prefixes are added. */
  lemma PrefixScenarios()
    ensures var d := JournalPrefixes(None);
      "httpx" in d && "requests" in d && "openai" in d && "asyncpg" in d
    ensures var c := JournalPrefixes(Some(ClassificationConfig(None, ["mylib", "custom_sdk"])));
      "httpx" in c && "redis" in c && "mylib" in c && "custom_sdk" in c
  {
  }

  /** An error from module httpx.errors is an external dependency's; no error and a builtins error
      keep the default. */
  lemma BuiltinScenarios()
    ensures ClassifyBuiltin(JournalPrefixes(None), Some(Exc("FakeExternalError", "httpx.errors", "connection refused")), UserCode) == ExternalDep
    ensures ClassifyBuiltin(JournalPrefixes(None), None, Framework) == Framework
    ensures ClassifyBuiltin(JournalPrefixes(None), Some(Exc("ValueError", "builtins", "bad value")), UserCode) == UserCode
  {
    var d := JournalPrefixes(None);
    assert d[0] == "httpx" && d[0] <= "httpx.errors";
    var b := "builtins";
    assert forall i :: 0 <= i < |d| ==> d[i][0] != b[0];
  }

  /** A classifier that raises gives the failure entry the built-in classification of its error
      (for the builtins error here, the passed source) and adds exactly one diagnostic; one that
      returns a source overrides the entry's source and adds none. */
  method RecordScenarios()
  {
    var raising := (ctx: ClassificationContext) => Raises(Exc("TypeError", "builtins", "bad classifier"));
    var j := new Journal(Some(ClassificationConfig(Some(raising), [])));
    var log := new ExecutionLog();
    j.RecordFailure(log, Step, UserCode, FailureReason.StepError, Some("step failed"), Some("failing_step"), Some(Exc("ValueError", "builtins", "root cause")));
    assert |log.failures| == 1 && log.failures[0].source == ClassifyBuiltin(j.prefixes, Some(Exc("ValueError", "builtins", "root cause")), UserCode);
    assert |log.diagnostics| == 1 && log.diagnostics[0].reason == ClassifierError;

    var overriding := (ctx: ClassificationContext) => ValidSource(ExternalDep);
    var j2 := new Journal(Some(ClassificationConfig(Some(overriding), [])));
    var log2 := new ExecutionLog();
    j2.RecordFailure(log2, Step, UserCode, FailureReason.StepError, None, Some("api_call"), Some(Exc("FakeExternalError", "httpx.errors", "timeout")));
    assert |log2.failures| == 1 && log2.failures[0].source == ExternalDep;
    assert log2.diagnostics == [];
  }
}
