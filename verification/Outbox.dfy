/** The outbox worker: each batch is one unit of work over the oldest pending events. */
module Outbox {
  import opened Outcomes

  datatype Status = Pending | Dispatched | Failed

  datatype Event = Event(createdAt: int, status: Status)

  type Table = map<string, Event>

  function Waiting(t: Table): set<string> {
    set id | id in t && t[id].status == Pending
  }

  function Least(a: nat, b: nat): nat {
    if a <= b then a else b
  }

  /**
    What get_pending_events can answer: pending events, as many as there are up to the limit, oldest first,
    none of them newer than one left out. Events of the same age may come in any order.
   */
  predicate OldestPending(t: Table, limit: nat, ids: seq<string>) {
    && |ids| == Least(limit, |Waiting(t)|)
    && (forall i :: 0 <= i < |ids| ==> ids[i] in Waiting(t))
    && (forall i, j :: 0 <= i < j < |ids| ==> ids[i] != ids[j] && t[ids[i]].createdAt <= t[ids[j]].createdAt)
    && (forall i, id :: 0 <= i < |ids| && id in Waiting(t) && id !in ids ==> t[ids[i]].createdAt <= t[id].createdAt)
  }

  /** How the marking of each event of a batch goes: dispatched, failed, or an error nobody catches. */
  datatype Mark = Sent | NotSent | Raises

  function Marked(t: Table, ids: seq<string>, mark: nat -> Mark): Table
    requires forall id :: id in ids ==> id in t
  {
    if ids == [] then t
    else
      var n := |ids| - 1;
      var before := Marked(t, ids[..n], mark);
      var status := if mark(n) == Sent then Dispatched else Failed;
      if ids[n] in before then before[ids[n] := before[ids[n]].(status := status)]
      else before
  }

  function SentCount(ids: seq<string>, mark: nat -> Mark): nat {
    if ids == [] then 0 else SentCount(ids[..|ids| - 1], mark) + if mark(|ids| - 1) == Sent then 1 else 0
  }

  predicate Smooth(ids: seq<string>, mark: nat -> Mark) {
    forall i :: 0 <= i < |ids| ==> mark(i) != Raises
  }

  class OutboxWorker {
    var durable: Table
    const batchSize: nat

    constructor (batchSize: nat, t: Table)
      ensures this.batchSize == batchSize && durable == t
    {
      this.batchSize, durable := batchSize, t;
    }

    /**
      One batch. `ids` is what the query answered; an error nobody catches, or a failed commit, rolls the
      unit of work back.
     */
    method ProcessBatch(ids: seq<string>, mark: nat -> Mark, commitFails: bool) returns (count: Option<nat>)
      requires OldestPending(durable, batchSize, ids)
      modifies this
      ensures count.None? <==> ids != [] && (commitFails || !Smooth(ids, mark))
      ensures count.None? ==> durable == old(durable)
      ensures count.Some? ==> durable == Marked(old(durable), ids, mark) && count.value == SentCount(ids, mark)
    {
      if ids == [] {
        return Some(0);
      }
      var working, processed, raised := MarkAll(durable, ids, mark);
      if raised || commitFails {
        return None;
      }
      durable := working;
      return Some(processed);
    }
  }

  method MarkAll(t: Table, ids: seq<string>, mark: nat -> Mark) returns (working: Table, processed: nat, raised: bool)
    requires forall id :: id in ids ==> id in t
    ensures raised <==> !Smooth(ids, mark)
    ensures !raised ==> working == Marked(t, ids, mark) && processed == SentCount(ids, mark)
  {
    working, processed := t, 0;
    var i := 0;
    while i < |ids|
      invariant 0 <= i <= |ids|
      invariant working == Marked(t, ids[..i], mark) && processed == SentCount(ids[..i], mark)
      invariant working.Keys == t.Keys
      invariant Smooth(ids[..i], mark)
    {
      assert ids[..i + 1][..i] == ids[..i];
      assert ids[i] in ids;
      match mark(i) {
        case Raises =>
          return working, processed, true;
        case Sent =>
          working := working[ids[i] := working[ids[i]].(status := Dispatched)];
          processed := processed + 1;
        case NotSent =>
          working := working[ids[i] := working[ids[i]].(status := Failed)];
      }
      i := i + 1;
    }
    assert ids[..|ids|] == ids;
    raised := false;
  }

  // ---------------------------------------------------------------------------------------------
  // Draining
  // ---------------------------------------------------------------------------------------------

  lemma {:induction false} MarkedAt(t: Table, ids: seq<string>, mark: nat -> Mark)
    requires forall id :: id in ids ==> id in t
    ensures Marked(t, ids, mark).Keys == t.Keys
    ensures forall id :: id in t ==>
              var next := Marked(t, ids, mark)[id];
              if id in ids then next.status in {Dispatched, Failed} && next.createdAt == t[id].createdAt
                else next == t[id]
  {
    if ids != [] {
      var n := |ids| - 1;
      MarkedAt(t, ids[..n], mark);
      assert ids == ids[..n] + [ids[n]];
    }
  }

  /** Each event of a batch gets the status that its own marking decides. */
  lemma {:induction false} MarkedEach(t: Table, ids: seq<string>, mark: nat -> Mark, i: nat)
    requires i < |ids| && forall id :: id in ids ==> id in t
    requires forall i, j :: 0 <= i < j < |ids| ==> ids[i] != ids[j]
    ensures Marked(t, ids, mark).Keys == t.Keys
    ensures ids[i] in t && Marked(t, ids, mark)[ids[i]].status == if mark(i) == Sent then Dispatched else Failed
  {
    var n := |ids| - 1;
    MarkedAt(t, ids, mark);
    MarkedAt(t, ids[..n], mark);
    if i < n {
      MarkedEach(t, ids[..n], mark, i);
      assert ids[..n][i] == ids[i];
    }
  }

  /** What is counted as processed are the events of the batch that are dispatched afterwards. */
  lemma {:induction false} ProcessedAreDispatched(t: Table, ids: seq<string>, mark: nat -> Mark)
    requires forall id :: id in ids ==> id in t
    requires forall i, j :: 0 <= i < j < |ids| ==> ids[i] != ids[j]
    ensures Marked(t, ids, mark).Keys == t.Keys
    ensures SentCount(ids, mark) == |SentOf(ids, Marked(t, ids, mark))|
  {
    MarkedAt(t, ids, mark);
    if ids == [] {
      assert SentOf(ids, t) == {};
    } else {
      var n := |ids| - 1;
      var before, after := Marked(t, ids[..n], mark), Marked(t, ids, mark);
      ProcessedAreDispatched(t, ids[..n], mark);
      MarkedEach(t, ids, mark, n);
      LastIsSent(ids, before, after);
    }
  }

  /** The events of a batch that are dispatched. */
  function SentOf(ids: seq<string>, t: Table): set<string> {
    set id | id in ids && id in t && t[id].status == Dispatched
  }

  lemma LastIsSent(ids: seq<string>, before: Table, after: Table)
    requires ids != [] && ids[|ids| - 1] !in ids[..|ids| - 1] && ids[|ids| - 1] in after
    requires before.Keys == after.Keys
    requires forall id :: id in before && id != ids[|ids| - 1] ==> after[id] == before[id]
    ensures |SentOf(ids, after)| ==
            |SentOf(ids[..|ids| - 1], before)| + if after[ids[|ids| - 1]].status == Dispatched then 1 else 0
  {
    var n := |ids| - 1;
    assert ids == ids[..n] + [ids[n]];
    assert SentOf(ids, after) ==
           SentOf(ids[..n], before) + if after[ids[n]].status == Dispatched then {ids[n]} else {};
  }

  lemma {:induction false} DistinctCount(ids: seq<string>, s: set<string>)
    requires forall i :: 0 <= i < |ids| ==> ids[i] in s
    requires forall i, j :: 0 <= i < j < |ids| ==> ids[i] != ids[j]
    ensures |s - (set id | id in ids)| == |s| - |ids|
  {
    if ids == [] {
      assert s - (set id | id in ids) == s;
    } else {
      var last := ids[|ids| - 1];
      var init := ids[..|ids| - 1];
      DistinctCount(init, s);
      assert last in s && last !in init;
      assert ids == init + [last];
      assert (s - (set id | id in init)) - {last} == s - (set id | id in ids);
    }
  }

  /**
    A batch that succeeds takes exactly the oldest pending events, up to its size, out of PENDING; what is
    still pending is none of them and not older, and every other event is as it was.
   */
  lemma BatchDrains(t: Table, limit: nat, ids: seq<string>, mark: nat -> Mark)
    requires OldestPending(t, limit, ids)
    ensures var next := Marked(t, ids, mark);
            && Waiting(next) == Waiting(t) - (set id | id in ids)
            && |Waiting(next)| == |Waiting(t)| - Least(limit, |Waiting(t)|)
            && (forall done, left :: done in ids && left in Waiting(next) ==> t[done].createdAt <= next[left].createdAt)
            && next.Keys == t.Keys
            && (forall id :: id in t && id !in ids ==> next[id] == t[id])
  {
    MarkedAt(t, ids, mark);
    DistinctCount(ids, Waiting(t));
  }

  /** Each event of a batch is dispatched or failed as its own marking went; those dispatched are counted. */
  lemma BatchMarks(t: Table, limit: nat, ids: seq<string>, mark: nat -> Mark)
    requires OldestPending(t, limit, ids)
    ensures var next := Marked(t, ids, mark);
            && next.Keys == t.Keys
            && (forall i :: 0 <= i < |ids| ==>
                  next[ids[i]] == t[ids[i]].(status := if mark(i) == Sent then Dispatched else Failed))
            && SentCount(ids, mark) == |set id | id in ids && next[id].status == Dispatched|
  {
    MarkedAt(t, ids, mark);
    forall i: nat | i < |ids|
      ensures Marked(t, ids, mark)[ids[i]] == t[ids[i]].(status := if mark(i) == Sent then Dispatched else Failed)
    {
      assert ids[i] in ids;
      MarkedEach(t, ids, mark, i);
    }
    ProcessedAreDispatched(t, ids, mark);
    var next := Marked(t, ids, mark);
    assert SentOf(ids, next) == set id | id in ids && next[id].status == Dispatched;
  }

  /** The query can always answer. */
  lemma {:induction false} OldestPendingExists(t: Table, limit: nat) returns (ids: seq<string>)
    ensures OldestPending(t, limit, ids)
  {
    if limit == 0 || Waiting(t) == {} {
      ids := [];
    } else {
      var before := OldestPendingExists(t, limit - 1);
      DistinctCount(before, Waiting(t));
      var rest := Waiting(t) - (set id | id in before);
      if rest == {} {
        ids := before;
      } else {
        var next := Oldest(t, rest);
        ids := before + [next];
      }
    }
  }

  lemma {:induction false} Oldest(t: Table, ids: set<string>) returns (oldest: string)
    requires ids != {} && forall id :: id in ids ==> id in t
    ensures oldest in ids && forall id :: id in ids ==> t[oldest].createdAt <= t[id].createdAt
    decreases ids
  {
    oldest :| oldest in ids;
    if ids != {oldest} {
      var rest := ids - {oldest};
      var other := Oldest(t, rest);
      if t[other].createdAt < t[oldest].createdAt {
        oldest := other;
      }
    }
  }

  /** A run of successful batches while no event is added. */
  datatype Batch = Batch(ids: seq<string>, mark: nat -> Mark)

  predicate Drains(t: Table, limit: nat, batches: seq<Batch>)
    decreases |batches|
  {
    batches == [] ||
      (OldestPending(t, limit, batches[0].ids)
       && Drains(Marked(t, batches[0].ids, batches[0].mark), limit, batches[1..]))
  }

  function After(t: Table, limit: nat, batches: seq<Batch>): Table
    requires Drains(t, limit, batches)
    decreases |batches|
  {
    if batches == [] then t else After(Marked(t, batches[0].ids, batches[0].mark), limit, batches[1..])
  }

  lemma OneMore(limit: nat, n: nat)
    ensures limit * (n + 1) == limit + limit * n
  {
  }

  /** The backlog shrinks by a full batch each time, so it is empty after as many batches as it fills. */
  lemma {:induction false} BacklogAfter(t: Table, limit: nat, batches: seq<Batch>)
    requires Drains(t, limit, batches)
    ensures |Waiting(After(t, limit, batches))| == |Waiting(t)| - Least(limit * |batches|, |Waiting(t)|)
    decreases |batches|
  {
    if batches == [] {
      assert limit * |batches| == 0;
    } else {
      var next := Marked(t, batches[0].ids, batches[0].mark);
      Taken(t, limit, batches[0]);
      BacklogAfter(next, limit, batches[1..]);
      OneMore(limit, |batches[1..]|);
    }
  }

  lemma Taken(t: Table, limit: nat, b: Batch)
    requires OldestPending(t, limit, b.ids)
    ensures |Waiting(Marked(t, b.ids, b.mark))| == |Waiting(t)| - Least(limit, |Waiting(t)|)
  {
    BatchDrains(t, limit, b.ids, b.mark);
  }
}
