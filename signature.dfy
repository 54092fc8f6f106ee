/** Injection-signature analysis: which argument the library injects into each parameter of a step
    or error handler (justpipe/utils.py). */
module Signature {
  import opened Types

  const StateAliases: set<string> := {"s", "state"}
  const ContextAliases: set<string> := {"c", "ctx", "context"}
  const ErrorAliases: set<string> := {"e", "error", "exception"}
  const StepNameAliases: set<string> := {"step_name", "stage"}

  /** The tag written into the mapping: "state", "context", "error", "step_name" or "unknown". */
  datatype Source = State | Context | Error | StepName | Unknown

  /** The DefinitionError raised for too many unrecognised parameters. */
  datatype DefinitionError = TooManyUnknowns(funcName: string, unknowns: seq<string>, expected: int)

  /** The tag one parameter receives, or None when no rule applies and it has a default (it is
      then left out of the mapping). A type match counts only when the pipe's type is not Any. */
  function Classify(p: Param, stateType: PyType, contextType: PyType): Option<Source> {
    if p.annotation == stateType && stateType != AnyType then Some(State)
    else if p.annotation == contextType && contextType != AnyType then Some(Context)
    else if p.name in StateAliases then Some(State)
    else if p.name in ContextAliases then Some(Context)
    else if p.name in ErrorAliases then Some(Error)
    else if p.name in StepNameAliases then Some(StepName)
    else if p.hasDefault then None
    else Some(Unknown)
  }

  /** The mapping built by visiting the parameters in order. */
  function Mapping(ps: seq<Param>, stateType: PyType, contextType: PyType): map<string, Source> {
    if ps == [] then map[]
    else
      var m := Mapping(ps[..|ps| - 1], stateType, contextType);
      var p := ps[|ps| - 1];
      match Classify(p, stateType, contextType)
      case None => m
      case Some(t) => m[p.name := t]
  }

  /** The names appended to `unknowns`, in parameter order. */
  function Unknowns(ps: seq<Param>, stateType: PyType, contextType: PyType): seq<string> {
    if ps == [] then []
    else
      var p := ps[|ps| - 1];
      Unknowns(ps[..|ps| - 1], stateType, contextType)
        + (if Classify(p, stateType, contextType) == Some(Unknown) then [p.name] else [])
  }

  /** One more parameter extends the mapping and the unknown list by that parameter's tag. */
  lemma AnalysisStep(ps: seq<Param>, i: nat, stateType: PyType, contextType: PyType)
    requires i < |ps|
    ensures var c := Classify(ps[i], stateType, contextType);
      && Mapping(ps[..i + 1], stateType, contextType)
         == (if c.Some? then Mapping(ps[..i], stateType, contextType)[ps[i].name := c.value] else Mapping(ps[..i], stateType, contextType))
      && Unknowns(ps[..i + 1], stateType, contextType)
         == Unknowns(ps[..i], stateType, contextType) + (if c == Some(Unknown) then [ps[i].name] else [])
  {
    assert ps[..i + 1][..i] == ps[..i];
  }

  /** Python guarantees that a signature's parameter names are distinct. */
  ghost predicate DistinctNames(ps: seq<Param>) {
    forall i, j :: 0 <= i < j < |ps| ==> ps[i].name != ps[j].name
  }

  /** The keys of a mapping tagged "unknown". */
  ghost function UnknownKeys(m: map<string, Source>): set<string> {
    set k | k in m && m[k] == Unknown
  }

  /** What _analyze_signature returns or raises: DefinitionError exactly when there are more
      unknown parameters than expected, the mapping otherwise. */
  function Analysis(func: UserFunc, stateType: PyType, contextType: PyType, expectedUnknowns: int)
    : (r: Result<map<string, Source>, DefinitionError>)
    ensures r.Err? <==> |Unknowns(func.params, stateType, contextType)| > expectedUnknowns
    ensures r.Ok? ==> r.value == Mapping(func.params, stateType, contextType)
    ensures r.Err? ==> r.error == TooManyUnknowns(func.name, Unknowns(func.params, stateType, contextType), expectedUnknowns)
  {
    var unknowns := Unknowns(func.params, stateType, contextType);
    if |unknowns| > expectedUnknowns
    then Err(TooManyUnknowns(func.name, unknowns, expectedUnknowns))
    else Ok(Mapping(func.params, stateType, contextType))
  }

  /** _analyze_signature: one pass over the parameters filling the mapping and the unknown list,
      then the DefinitionError check. */
  method AnalyzeSignature(func: UserFunc, stateType: PyType, contextType: PyType, expectedUnknowns: int)
    returns (r: Result<map<string, Source>, DefinitionError>)
    ensures r == Analysis(func, stateType, contextType, expectedUnknowns)
  {
    var ps := func.params;
    var mapping: map<string, Source> := map[];
    var unknowns: seq<string> := [];
    var i := 0;
    while i < |ps|
      invariant 0 <= i <= |ps|
      invariant mapping == Mapping(ps[..i], stateType, contextType)
      invariant unknowns == Unknowns(ps[..i], stateType, contextType)
    {
      var p := ps[i];
      AnalysisStep(ps, i, stateType, contextType);
      if p.annotation == stateType && stateType != AnyType {
        mapping := mapping[p.name := State];
      } else if p.annotation == contextType && contextType != AnyType {
        mapping := mapping[p.name := Context];
      } else if p.name in StateAliases {
        mapping := mapping[p.name := State];
      } else if p.name in ContextAliases {
        mapping := mapping[p.name := Context];
      } else if p.name in ErrorAliases {
        mapping := mapping[p.name := Error];
      } else if p.name in StepNameAliases {
        mapping := mapping[p.name := StepName];
      } else if p.hasDefault {
      } else {
        mapping := mapping[p.name := Unknown];
        unknowns := unknowns + [p.name];
      }
      i := i + 1;
    }
    assert ps[..|ps|] == ps;
    if |unknowns| > expectedUnknowns {
      r := Err(TooManyUnknowns(func.name, unknowns, expectedUnknowns));
    } else {
      r := Ok(mapping);
    }
  }

  /** A name is a key of the mapping exactly when some parameter of that name received a tag;
      every key is a parameter name. */
  lemma {:induction false} MappingKeys(ps: seq<Param>, stateType: PyType, contextType: PyType, k: string)
    ensures k in Mapping(ps, stateType, contextType)
            <==> exists i :: 0 <= i < |ps| && ps[i].name == k && Classify(ps[i], stateType, contextType).Some?
  {
    if ps != [] {
      var pre := ps[..|ps| - 1];
      MappingKeys(pre, stateType, contextType, k);
      if k in Mapping(pre, stateType, contextType) {
        var i :| 0 <= i < |pre| && pre[i].name == k && Classify(pre[i], stateType, contextType).Some?;
        assert ps[i] == pre[i];
      }
      if exists i :: 0 <= i < |ps| && ps[i].name == k && Classify(ps[i], stateType, contextType).Some? {
        var i :| 0 <= i < |ps| && ps[i].name == k && Classify(ps[i], stateType, contextType).Some?;
        if i < |pre| { assert pre[i] == ps[i]; }
      }
    }
  }

  /** With distinct names, each parameter that received a tag keeps it in the mapping, and a
      parameter skipped for its default is absent. */
  lemma {:induction false} MappingValue(ps: seq<Param>, stateType: PyType, contextType: PyType, i: nat)
    requires DistinctNames(ps) && i < |ps|
    ensures var c := Classify(ps[i], stateType, contextType);
      var m := Mapping(ps, stateType, contextType);
      (c.Some? ==> ps[i].name in m && m[ps[i].name] == c.value) && (c.None? ==> ps[i].name !in m)
  {
    var pre := ps[..|ps| - 1];
    if i < |ps| - 1 {
      MappingValue(pre, stateType, contextType, i);
    } else {
      MappingKeys(pre, stateType, contextType, ps[i].name);
    }
  }

  /** The number of "unknown" entries equals the length of the unknown list. */
  lemma {:induction false} UnknownCount(ps: seq<Param>, stateType: PyType, contextType: PyType)
    requires DistinctNames(ps)
    ensures |UnknownKeys(Mapping(ps, stateType, contextType))| == |Unknowns(ps, stateType, contextType)|
  {
    if ps != [] {
      var pre := ps[..|ps| - 1];
      var p := ps[|ps| - 1];
      UnknownCount(pre, stateType, contextType);
      MappingKeys(pre, stateType, contextType, p.name);
      var m := Mapping(pre, stateType, contextType);
      assert p.name !in m;
      match Classify(p, stateType, contextType)
      case None =>
      case Some(t) =>
        if t == Unknown {
          assert UnknownKeys(m[p.name := t]) == UnknownKeys(m) + {p.name};
        } else {
          assert UnknownKeys(m[p.name := t]) == UnknownKeys(m);
        }
    }
  }

  /** A type match wins over any name alias, but only against a pipe type that is not Any. */
  lemma TypeMatchWins(p: Param, stateType: PyType, contextType: PyType)
    ensures p.annotation == stateType && stateType != AnyType ==> Classify(p, stateType, contextType) == Some(State)
    ensures p.annotation == contextType && contextType != AnyType && !(p.annotation == stateType && stateType != AnyType)
            ==> Classify(p, stateType, contextType) == Some(Context)
    ensures stateType == AnyType && contextType == AnyType ==>
            Classify(p, stateType, contextType) == Classify(Param(p.name, EmptyAnnotation, p.hasDefault), stateType, contextType)
  {
  }

  /** The four alias sets are pairwise disjoint, so without a type match a name's tag is the one of
      the alias set that holds it, whatever the order the sets are tried in. */
  lemma AliasTagUnique(p: Param, stateType: PyType, contextType: PyType)
    requires !(p.annotation == stateType && stateType != AnyType)
    requires !(p.annotation == contextType && contextType != AnyType)
    ensures StateAliases !! ContextAliases && StateAliases !! ErrorAliases && StateAliases !! StepNameAliases
    ensures ContextAliases !! ErrorAliases && ContextAliases !! StepNameAliases && ErrorAliases !! StepNameAliases
    ensures Classify(p, stateType, contextType) == Some(State) <==> p.name in StateAliases
    ensures Classify(p, stateType, contextType) == Some(Context) <==> p.name in ContextAliases
    ensures Classify(p, stateType, contextType) == Some(Error) <==> p.name in ErrorAliases
    ensures Classify(p, stateType, contextType) == Some(StepName) <==> p.name in StepNameAliases
  {
  }
}
