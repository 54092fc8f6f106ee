/** Map-batch bookkeeping of the runtime scheduler: each owner step that fanned out a map holds a
    FIFO list of batches, each counting the worker completions it still waits for
    (tests/unit/runtime/test_scheduler.py). */
module Scheduler {
  import opened Types

  /** One fan-out of a map step: the worker step it targets, how many items it started with, and
      how many worker completions are still outstanding. */
  class MapBatch {
    const target: string
    const itemCount: nat
    var remaining: nat
    const ownerInvocationId: Option<string>
    const ownerScope: seq<string>

    constructor (target: string, itemCount: nat, remaining: nat, ownerInvocationId: Option<string>, ownerScope: seq<string>)
      ensures this.target == target && this.itemCount == itemCount && this.remaining == remaining
      ensures this.ownerInvocationId == ownerInvocationId && this.ownerScope == ownerScope
    {
      this.target := target;
      this.itemCount := itemCount;
      this.remaining := remaining;
      this.ownerInvocationId := ownerInvocationId;
      this.ownerScope := ownerScope;
    }
  }

  /** What the completion rule looks at in a batch. */
  datatype BatchView = BatchView(target: string, remaining: nat)

  /** The batches' targets and counters, in list order. */
  ghost function Views(bs: seq<MapBatch>): seq<BatchView>
    reads bs
  {
    seq(|bs|, i reads bs requires 0 <= i < |bs| => BatchView(bs[i].target, bs[i].remaining))
  }

  /** A worker completion of `name` counts towards a batch that targets it and still waits. */
  predicate Matches(v: BatchView, name: string) {
    v.target == name && v.remaining > 0
  }

  /** The oldest batch a completion of `name` counts towards. */
  function FirstMatch(vs: seq<BatchView>, name: string): (k: Option<nat>)
    ensures k.Some? ==> k.value < |vs| && Matches(vs[k.value], name) && forall j :: 0 <= j < k.value ==> !Matches(vs[j], name)
    ensures k.None? ==> forall j :: 0 <= j < |vs| ==> !Matches(vs[j], name)
  {
    if vs == [] then None
    else if Matches(vs[0], name) then Some(0)
    else
      var k := FirstMatch(vs[1..], name);
      assert forall j :: 1 <= j < |vs| ==> vs[j] == vs[1..][j - 1];
      if k.Some? then Some(k.value + 1) else None
  }

  /** The first matching batch is the one FirstMatch finds. */
  lemma {:induction false} FirstMatchAt(vs: seq<BatchView>, name: string, i: nat)
    requires i < |vs| && Matches(vs[i], name) && forall j :: 0 <= j < i ==> !Matches(vs[j], name)
    ensures FirstMatch(vs, name) == Some(i)
  {
    if i > 0 {
      assert !Matches(vs[0], name);
      FirstMatchAt(vs[1..], name, i - 1);
    }
  }

  /** The counters after a completion of `name`: the oldest matching batch has one less. */
  function Decremented(vs: seq<BatchView>, name: string): seq<BatchView> {
    match FirstMatch(vs, name)
    case None => vs
    case Some(k) => vs[k := vs[k].(remaining := vs[k].remaining - 1)]
  }

  /** The batches whose counter is zero (`drained`) or not, in list order. */
  ghost function Select(bs: seq<MapBatch>, drained: bool): seq<MapBatch>
    reads bs
  {
    if bs == [] then []
    else Select(bs[..|bs| - 1], drained) + (if (bs[|bs| - 1].remaining == 0) == drained then [bs[|bs| - 1]] else [])
  }

  ghost predicate Distinct(bs: seq<MapBatch>) {
    forall i, j :: 0 <= i < j < |bs| ==> bs[i] != bs[j]
  }

  /** The sum of the outstanding counters. */
  function Outstanding(vs: seq<BatchView>): nat {
    if vs == [] then 0 else vs[0].remaining + Outstanding(vs[1..])
  }

  class Scheduler {
    /** Per owner step, its batches oldest first. */
    var mapBatches: map<string, seq<MapBatch>>

    /** No owner is kept with an empty list, and a list holds each batch once. */
    ghost predicate Valid()
      reads this
    {
      forall o :: o in mapBatches ==> mapBatches[o] != [] && Distinct(mapBatches[o])
    }

    /** The batches an owner holds. */
    ghost function BatchesOf(owner: string): seq<MapBatch>
      reads this
    {
      if owner in mapBatches then mapBatches[owner] else []
    }

    constructor ()
      ensures Valid() && mapBatches == map[]
    {
      mapBatches := map[];
    }

    /** on_step_completed: a completion of `name` counts towards the owner's oldest batch that
        targets it and still waits; then every batch of the owner at zero is returned, oldest first,
        and the others stay in order, the owner's key going once none stay. */
    method OnStepCompleted(owner: string, name: string) returns (completed: seq<MapBatch>)
      requires Valid()
      modifies this, BatchesOf(owner)
      ensures Valid()
      ensures owner !in old(mapBatches) ==> completed == [] && mapBatches == old(mapBatches)
      ensures owner in old(mapBatches) ==>
        var bs := old(mapBatches[owner]);
        && Views(bs) == Decremented(old(Views(bs)), name)
        && completed == Select(bs, true)
        && mapBatches == (if Select(bs, false) == [] then old(mapBatches) - {owner} else old(mapBatches)[owner := Select(bs, false)])
    {
      if owner !in mapBatches {
        return [];
      }
      var bs := mapBatches[owner];
      CountCompletion(bs, name);
      var kept;
      completed, kept := Partition(bs);
      SelectDistinct(bs, false);
      if kept == [] {
        mapBatches := mapBatches - {owner};
      } else {
        mapBatches := mapBatches[owner := kept];
      }
    }
  }

  /** The counting loop of on_step_completed: the first batch that targets `name` and still waits
      loses one from its counter, and the search stops there. */
  method CountCompletion(bs: seq<MapBatch>, name: string)
    requires Distinct(bs)
    modifies bs
    ensures Views(bs) == Decremented(old(Views(bs)), name)
  {
    ghost var before := Views(bs);
    var i := 0;
    while i < |bs|
      invariant 0 <= i <= |bs|
      invariant Views(bs) == before
      invariant forall j :: 0 <= j < i ==> !Matches(before[j], name)
    {
      if bs[i].target == name && bs[i].remaining > 0 {
        FirstMatchAt(before, name, i);
        bs[i].remaining := bs[i].remaining - 1;
        forall j | 0 <= j < |bs| ensures Views(bs)[j] == Decremented(before, name)[j] {
          if j != i { assert bs[j] != bs[i]; }
        }
        return;
      }
      i := i + 1;
    }
  }

  /** The partition of on_step_completed: the batches at zero, and the others, both in list order. */
  method Partition(bs: seq<MapBatch>) returns (completed: seq<MapBatch>, kept: seq<MapBatch>)
    ensures completed == Select(bs, true) && kept == Select(bs, false)
  {
    completed, kept := [], [];
    for k := 0 to |bs|
      invariant completed == Select(bs[..k], true)
      invariant kept == Select(bs[..k], false)
    {
      assert bs[..k + 1][..k] == bs[..k];
      if bs[k].remaining == 0 {
        completed := completed + [bs[k]];
      } else {
        kept := kept + [bs[k]];
      }
    }
    assert bs[..|bs|] == bs;
  }

  /** A completion changes only the oldest matching batch, by exactly one, and no target. */
  lemma DecrementedChangesOne(vs: seq<BatchView>, name: string)
    ensures var ws := Decremented(vs, name); var k := FirstMatch(vs, name);
      && |ws| == |vs|
      && forall i :: 0 <= i < |vs| ==>
           ws[i].target == vs[i].target
           && ws[i].remaining == (if k == Some(i) then vs[i].remaining - 1 else vs[i].remaining)
  {
  }

  /** A completion lowers the outstanding total by one exactly when some batch waits for it, and
      leaves it unchanged otherwise. */
  lemma {:induction false} DecrementedOutstanding(vs: seq<BatchView>, name: string)
    ensures Outstanding(Decremented(vs, name)) == Outstanding(vs) - (if FirstMatch(vs, name).Some? then 1 else 0)
  {
    if vs != [] {
      var ws := Decremented(vs, name);
      assert vs == [vs[0]] + vs[1..];
      if Matches(vs[0], name) {
        assert ws[1..] == vs[1..];
      } else {
        DecrementedOutstanding(vs[1..], name);
        var k := FirstMatch(vs[1..], name);
        assert ws == [vs[0]] + Decremented(vs[1..], name) by {
          if k.Some? {
            assert FirstMatch(vs, name) == Some(k.value + 1);
          }
        }
      }
    }
  }

  /** Selecting from a concatenation selects from each part. */
  lemma {:induction false} SelectAppend(xs: seq<MapBatch>, ys: seq<MapBatch>, drained: bool)
    ensures Select(xs + ys, drained) == Select(xs, drained) + Select(ys, drained)
    decreases |ys|
  {
    if ys != [] {
      var ys' := ys[..|ys| - 1];
      assert (xs + ys)[..|xs + ys| - 1] == xs + ys';
      assert (xs + ys)[|xs + ys| - 1] == ys[|ys| - 1];
      SelectAppend(xs, ys', drained);
      var last := if (ys[|ys| - 1].remaining == 0) == drained then [ys[|ys| - 1]] else [];
      assert Select(xs + ys, drained) == Select(xs + ys', drained) + last;
      assert Select(ys, drained) == Select(ys', drained) + last;
    } else {
      assert xs + ys == xs;
    }
  }

  /** The drained and the kept batches split the list: each batch lands in exactly one of the two,
      according to its counter. */
  lemma {:induction false} SelectMembers(bs: seq<MapBatch>, drained: bool, b: MapBatch)
    ensures b in Select(bs, drained) <==> b in bs && (b.remaining == 0) == drained
  {
    if bs != [] {
      var pre := bs[..|bs| - 1];
      SelectMembers(pre, drained, b);
      assert bs == pre + [bs[|bs| - 1]];
    }
  }

  /** Together the two selections hold exactly the list's batches, each as often as in the list. */
  lemma {:induction false} SelectPartition(bs: seq<MapBatch>)
    ensures multiset(Select(bs, true)) + multiset(Select(bs, false)) == multiset(bs)
  {
    if bs != [] {
      var pre := bs[..|bs| - 1];
      SelectPartition(pre);
      assert bs == pre + [bs[|bs| - 1]];
    }
  }

  /** Selecting from a list that holds each batch once gives a list that holds each batch once. */
  lemma {:induction false} SelectDistinct(bs: seq<MapBatch>, drained: bool)
    requires Distinct(bs)
    ensures Distinct(Select(bs, drained))
  {
    if bs != [] {
      var pre := bs[..|bs| - 1];
      var last := bs[|bs| - 1];
      SelectDistinct(pre, drained);
      SelectMembers(pre, drained, last);
      assert last !in pre;
    }
  }

  /** Of two batches waiting for the same worker, only the oldest loses one from its counter; a
      completion of a step no batch targets changes nothing. */
  lemma OldestBatchCounts()
    ensures Decremented([BatchView("worker", 2), BatchView("worker", 3)], "worker")
            == [BatchView("worker", 1), BatchView("worker", 3)]
    ensures Decremented([BatchView("worker", 1), BatchView("worker", 2)], "worker")
            == [BatchView("worker", 0), BatchView("worker", 2)]
    ensures Decremented([BatchView("worker", 3)], "unrelated_step") == [BatchView("worker", 3)]
  {
    FirstMatchAt([BatchView("worker", 2), BatchView("worker", 3)], "worker", 0);
    FirstMatchAt([BatchView("worker", 1), BatchView("worker", 2)], "worker", 0);
  }

  /** A completion for an owner with no batches returns nothing. */
  method UnknownOwner()
  {
    var s := new Scheduler();
    var completed := s.OnStepCompleted("unknown_owner", "worker");
    assert completed == [];
  }

  /** An owner whose map had no items drains its batch when the owner itself completes. */
  method EmptyMapDrainsOnOwner()
  {
    var b := new MapBatch("worker", 0, 0, None, []);
    var s := new Scheduler();
    s.mapBatches := map["owner" := [b]];
    var completed := s.OnStepCompleted("owner", "owner");
    assert Select([b], true) == [b];
    assert Select([b], false) == [];
    assert completed == [b] && "owner" !in s.mapBatches;
  }

  /** A completion of a step no batch targets changes no counter. */
  method WrongTargetIgnored()
  {
    var b := new MapBatch("worker", 3, 3, None, []);
    var s := new Scheduler();
    s.mapBatches := map["owner" := [b]];
    var completed := s.OnStepCompleted("owner", "unrelated_step");
    assert FirstMatch([BatchView("worker", 3)], "unrelated_step") == None;
    assert Views([b]) == [BatchView("worker", 3)];
    assert Select([b], true) == [];
    assert completed == [] && b.remaining == 3;
  }
}
