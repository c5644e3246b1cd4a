/** The node's snapshot history, and the browser's copy of it. */
module SnapshotStore {
  import opened Common
  import opened Snapshots

  const SNAPSHOT_HISTORY_MAX: nat := 1000

  /** Every state the store passes through: one per event that leaves it with a snapshot. */
  function States(es: seq<Event>): (states: seq<Snapshot>) {
    if es == [] then []
    else
      var current := Fold(None, es);
      States(es[..|es| - 1])
      + (if IsSnapshotEvent(es[|es| - 1]) && current.Some? then [current.value] else [])
  }

  lemma StatesStep(es: seq<Event>, e: Event)
    ensures Fold(None, es + [e]) == Reduce(Fold(None, es), e)
    ensures States(es + [e])
            == if IsSnapshotEvent(e) && Reduce(Fold(None, es), e).Some? then States(es) + [Reduce(Fold(None, es), e).value]
               else States(es)
  {
    assert (es + [e])[..|es|] == es;
    assert States(es) + [] == States(es);
  }

  /** One entry per run of equal test counts: the last of the run. */
  function RunEnds(states: seq<Snapshot>): seq<Snapshot> {
    if |states| <= 1 then states
    else
      (if states[0].testCount == states[1].testCount then [] else [states[0]]) + RunEnds(states[1..])
  }

  function Head(states: seq<Snapshot>): seq<Snapshot>
    requires |states| > 1
  {
    if states[0].testCount == states[1].testCount then [] else [states[0]]
  }

  lemma RunEndsStep(states: seq<Snapshot>)
    requires |states| > 1
    ensures RunEnds(states) == Head(states) + RunEnds(states[1..])
  {
  }

  lemma {:induction false} RunEndsExtend(states: seq<Snapshot>, x: Snapshot)
    requires states != []
    ensures RunEnds(states) != [] && RunEnds(states)[|RunEnds(states)| - 1] == states[|states| - 1]
    ensures RunEnds(states + [x])
            == (if states[|states| - 1].testCount == x.testCount
                then RunEnds(states)[..|RunEnds(states)| - 1] else RunEnds(states)) + [x]
  {
    if |states| == 1 {
      assert states == [states[0]] && (states + [x])[1..] == [x];
    } else {
      RunEndsExtend(states[1..], x);
      assert (states + [x])[1..] == states[1..] + [x];
      RunEndsStep(states);
      RunEndsStep(states + [x]);
      hide RunEnds;
      PrependKeepsLast(Head(states), RunEnds(states[1..]), x);
    }
  }

  lemma PrependKeepsLast<T>(head: seq<T>, ends: seq<T>, x: T)
    requires ends != []
    ensures (head + ends)[|head + ends| - 1] == ends[|ends| - 1]
    ensures (head + ends)[..|head + ends| - 1] + [x] == head + (ends[..|ends| - 1] + [x])
    ensures head + ends + [x] == head + (ends + [x])
  {
  }

  lemma ReplaceLast<T>(ends: seq<T>, x: T, n: nat)
    requires ends != [] && n >= 1
    ensures var h := LastN(ends, n);
            && h != [] && h[|h| - 1] == ends[|ends| - 1]
            && LastN(ends[..|ends| - 1] + [x], n) == h[..|h| - 1] + [x]
  {
    var updated := ends[..|ends| - 1] + [x];
    if |ends| > n {
      var k := |ends| - n;
      assert updated[k..] == ends[k..|ends| - 1] + [x];
      assert ends[k..][..n - 1] == ends[k..|ends| - 1];
    }
  }

  /** The bounded list moves to the next bounded list by replacing its last entry or by appending. */
  lemma HistoryStep(states: seq<Snapshot>, x: Snapshot, max: nat)
    ensures var h := LastN(RunEnds(states), max);
            LastN(RunEnds(states + [x]), max)
            == if h != [] && h[|h| - 1].testCount == x.testCount then h[..|h| - 1] + [x] else LastN(h + [x], max)
  {
    var ends := RunEnds(states);
    if states == [] {
      assert states + [x] == [x];
    } else if max >= 1 {
      RunEndsExtend(states, x);
      ReplaceLast(ends, x, max);
      LastNAbsorbs(ends, [x], max);
    }
  }

  /** Neighbours in the history belong to different test times. */
  lemma {:induction false} NeighboursDiffer(states: seq<Snapshot>)
    ensures states != [] ==> RunEnds(states) != [] && RunEnds(states)[0].testCount == states[0].testCount
    ensures forall i :: 0 < i < |RunEnds(states)| ==> RunEnds(states)[i - 1].testCount != RunEnds(states)[i].testCount
  {
    if |states| > 1 {
      NeighboursDiffer(states[1..]);
    }
  }

  lemma {:induction false} BoundedNeighboursDiffer(states: seq<Snapshot>, n: nat)
    ensures var h := LastN(RunEnds(states), n);
            forall i :: 0 < i < |h| ==> h[i - 1].testCount != h[i].testCount
  {
    NeighboursDiffer(states);
    var all := RunEnds(states);
    var h := LastN(all, n);
    forall i | 0 < i < |h| ensures h[i - 1].testCount != h[i].testCount {
      assert h[i - 1] == all[|all| - |h| + i - 1] && h[i] == all[|all| - |h| + i];
    }
  }

  lemma {:induction false} RunEndsLast(states: seq<Snapshot>)
    requires states != []
    ensures RunEnds(states) != [] && RunEnds(states)[|RunEnds(states)| - 1] == states[|states| - 1]
  {
    if |states| > 1 { RunEndsLast(states[1..]); }
  }

  /** The state sequence ends in what the events fold to, and is empty only without it. */
  lemma {:induction false} StatesEndInFold(es: seq<Event>)
    ensures Fold(None, es).None? <==> States(es) == []
    ensures Fold(None, es).Some? ==> States(es)[|States(es)| - 1] == Fold(None, es).value
  {
    if es != [] {
      StatesEndInFold(es[..|es| - 1]);
      assert es == es[..|es| - 1] + [es[|es| - 1]];
      StatesStep(es[..|es| - 1], es[|es| - 1]);
    }
  }

  /** The history ends in the current snapshot: it misses no update of the test time that is filling in. */
  lemma HistoryEndsInCurrent(es: seq<Event>, max: nat)
    requires max >= 1 && Fold(None, es).Some?
    ensures var h := LastN(RunEnds(States(es)), max); h != [] && h[|h| - 1] == Fold(None, es).value
  {
    StatesEndInFold(es);
    RunEndsLast(States(es));
  }

  lemma RunEndsGrow(states: seq<Snapshot>, x: Snapshot, s: Snapshot)
    requires s in RunEnds(states) && (states != [] ==> states[|states| - 1].testCount != x.testCount || s != states[|states| - 1])
    ensures s in RunEnds(states + [x])
  {
    if states != [] {
      RunEndsExtend(states, x);
      var ends := RunEnds(states);
      var i :| 0 <= i < |ends| && ends[i] == s;
      if i < |ends| - 1 { assert ends[..|ends| - 1][i] == s; }
    }
  }

  /** While these later events go by, the snapshot of test time `count` is never filled in again. */
  ghost predicate NeverAgain(es: seq<Event>, k: nat, s: Snapshot) {
    forall j :: k < j <= |es| && Fold(None, es[..j]).Some? ==> Fold(None, es[..j]).value.testCount != s.testCount
  }

  /** No test time is missing: what the store held after `k` events, before it went on to other test times for good, is in
      the collapsed history, as it was last. */
  lemma {:induction false} NoTestTimeIsMissing(es: seq<Event>, k: nat, s: Snapshot)
    requires 0 < k <= |es| && Fold(None, es[..k]) == Some(s) && NeverAgain(es, k, s)
    ensures s in RunEnds(States(es))
    decreases |es|
  {
    var init, e := es[..|es| - 1], es[|es| - 1];
    assert es == init + [e];
    if k == |es| {
      assert es[..k] == es;
      StatesEndInFold(es);
      RunEndsLast(States(es));
    } else {
      assert forall j :: 0 <= j <= |init| ==> init[..j] == es[..j];
      NoTestTimeIsMissing(init, k, s);
      StatesStep(init, e);
      StatesEndInFold(init);
      var next := Reduce(Fold(None, init), e);
      if IsSnapshotEvent(e) && next.Some? {
        assert es[..|es|] == es;
        var states := States(init);
        if s == states[|states| - 1] {
          assert next.value.testCount != s.testCount;
        }
        RunEndsGrow(states, next.value, s);
      }
    }
  }

  class SnapshotStore {
    const maxlen: nat
    var current: Option<Snapshot>
    var snapshots: seq<Snapshot>
    /** Events observed since the last clear. */
    ghost var seen: seq<Event>

    ghost predicate Valid()
      reads this
    {
      && current == Fold(None, seen)
      && snapshots == LastN(RunEnds(States(seen)), maxlen)
    }

    constructor (maxlen: nat := SNAPSHOT_HISTORY_MAX)
      ensures Valid() && seen == [] && this.maxlen == maxlen
    {
      this.maxlen := maxlen;
      current := None;
      snapshots := [];
      seen := [];
    }

    method Observe(event: Event)
      requires Valid()
      modifies this
      ensures Valid() && seen == old(seen) + [event]
    {
      StatesStep(seen, event);
      hide States, Fold, RunEnds, LastN;
      ghost var before := seen;
      seen := seen + [event];
      match event {
        case SnapshotUpdate(snapshot) =>
          Append(snapshot, States(before));
        case SnapshotDelta(delta) =>
          if current.Some? {
            var next := ApplySnapshotDelta(current.value, delta);
            Append(next, States(before));
          }
        case _ =>
      }
    }

    /** One entry per test time: replace while the same snapshot is still filling in, append otherwise. */
    method Append(next: Snapshot, ghost states: seq<Snapshot>)
      requires snapshots == LastN(RunEnds(states), maxlen)
      modifies this`current, this`snapshots
      ensures current == Some(next) && snapshots == LastN(RunEnds(states + [next]), maxlen)
    {
      HistoryStep(states, next, maxlen);
      hide RunEnds, LastN;
      current := Some(next);
      if |snapshots| > 0 && snapshots[|snapshots| - 1].testCount == next.testCount {
        snapshots := snapshots[..|snapshots| - 1] + [next];
      } else {
        snapshots := LastN(snapshots + [next], maxlen);
      }
    }

    method Recent(limit: int) returns (result: seq<Snapshot>)
      requires Valid()
      ensures result == LastN(RunEnds(States(seen)), if 0 < limit < maxlen then limit else maxlen)
    {
      result := snapshots;
      if limit > 0 {
        result := LastN(result, limit);
      }
    }

    method Latest() returns (result: Option<Snapshot>)
      requires Valid()
      ensures result == Fold(None, seen)
    {
      result := current;
    }

    method Clear()
      requires Valid()
      modifies this
      ensures Valid() && seen == []
      ensures current == None && snapshots == []
    {
      snapshots := [];
      current := None;
      seen := [];
    }
  }

  // ---------------------------------------------------------------- browser

  /** The browser's list expression for one incoming whole snapshot. */
  function UpsertSnapshot(history: seq<Snapshot>, s: Snapshot, max: nat): seq<Snapshot> {
    if history != [] && history[|history| - 1].testCount == s.testCount
    then history[..|history| - 1] + [s]
    else LastN(history + [s], max)
  }

  function UpsertAll(history: seq<Snapshot>, states: seq<Snapshot>, max: nat): seq<Snapshot> {
    if states == [] then history
    else UpsertSnapshot(UpsertAll(history, states[..|states| - 1], max), states[|states| - 1], max)
  }

  /** A browser that backfilled the node's history and then watches every state ends with the node's history. */
  lemma {:induction false} BrowserHistoryIsNodeHistory(backfilled: seq<Snapshot>, live: seq<Snapshot>, max: nat)
    requires max >= 1
    ensures UpsertAll(LastN(RunEnds(backfilled), max), live, max) == LastN(RunEnds(backfilled + live), max)
  {
    hide RunEnds, LastN;
    if live == [] {
      assert backfilled + live == backfilled;
    } else {
      var init, x := live[..|live| - 1], live[|live| - 1];
      var before := backfilled + init;
      BrowserHistoryIsNodeHistory(backfilled, init, max);
      assert backfilled + live == before + [x];
      HistoryStep(before, x, max);
    }
  }

  lemma UpsertSame(h: seq<Snapshot>, max: nat)
    requires h != []
    ensures UpsertSnapshot(h, h[|h| - 1], max) == h
  {
    assert h[..|h| - 1] + [h[|h| - 1]] == h;
  }

  /** The snapshot replayed at connect time repeats the last backfilled state and leaves the history alone. */
  lemma ReplayedStateIsAbsorbed(states: seq<Snapshot>, max: nat)
    requires states != [] && max >= 1
    ensures UpsertSnapshot(LastN(RunEnds(states), max), states[|states| - 1], max) == LastN(RunEnds(states), max)
  {
    hide RunEnds, LastN;
    var ends := RunEnds(states);
    RunEndsExtend(states, states[|states| - 1]);
    assert ends[|ends| - 1] == states[|states| - 1];
    ReplaceLast(ends, ends[|ends| - 1], max);
    UpsertSame(LastN(ends, max), max);
  }
}
