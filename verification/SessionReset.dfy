/** What can surface after `open_serial` has emptied everything, and when nothing can. */
module SessionReset {
  import opened Common
  import opened Snapshots
  import opened WebSocketManager
  import opened NodeProtocol
  import opened Convergence
  import opened Draining
  import B = ConsoleBatcher
  import R = ConsoleViews

  /** The batcher with the batches its flushes are emitting, the console ring, and the node with its pipeline. */
  datatype Desk = Desk(batcher: B.State, ring: seq<string>, node: Node)

  const START := Desk(B.EMPTY, [], IDLE_NODE)

  datatype DeskStep =
    | Batching(step: B.BatchStep)   // under the batcher's lock
    | EmitBatch(k: nat, t: nat)     // thread t hands a batch to `on_event`: ring and store first
    | ClearRing
    | Inside(move: NodeStep)

  ghost predicate DeskEnabled(d: Desk, step: DeskStep) {
    match step
    case Batching(s) => B.Enabled(d.batcher, s) && !s.Emit?
    case EmitBatch(k, t) =>
      k in d.batcher.emitting && k < |d.batcher.batches| && t != READER && PhaseOf(d.node, t).Idle?
    case ClearRing => true
    case Inside(s) => Enabled(d.node, s) && (s.Observe? ==> !s.e.ConsoleBatch?)
  }

  function DeskNext(d: Desk, step: DeskStep): Desk
    requires DeskEnabled(d, step)
  {
    match step
    case Batching(s) => d.(batcher := B.Next(d.batcher, s))
    case EmitBatch(k, t) =>
      var lines := d.batcher.batches[k];
      d.(batcher := B.EmitNext(d.batcher, k), ring := LastN(d.ring + lines, R.CONSOLE_RING_MAX),
         node := Next(d.node, Observe(t, ConsoleBatch(lines))))
    case ClearRing => d.(ring := [])
    case Inside(s) => d.(node := Next(d.node, s))
  }

  ghost predicate DeskPossible(d: Desk, steps: seq<DeskStep>)
    decreases |steps|
  {
    steps == [] || (DeskEnabled(d, steps[0]) && DeskPossible(DeskNext(d, steps[0]), steps[1..]))
  }

  function DeskRun(d: Desk, steps: seq<DeskStep>): Desk
    requires DeskPossible(d, steps)
    decreases |steps|
  {
    if steps == [] then d else DeskRun(DeskNext(d, steps[0]), steps[1..])
  }

  /** Nothing new comes from the port or the parser. */
  predicate IsQuiet(step: DeskStep) {
    match step
    case Batching(s) => s.Expire? || s.TimerFlush? || s.ExplicitFlush?
    case EmitBatch(_, _) => true
    case ClearRing => false
    case Inside(s) => !s.Observe? && !s.Restart?
  }

  ghost predicate QuietSteps(steps: seq<DeskStep>) {
    forall i :: 0 <= i < |steps| ==> IsQuiet(steps[i])
  }

  // --------------------------------------------------------------------- what can surface

  /** How much this socket had been sent. */
  function Had(n: Node, id: nat): nat {
    if id in n.clients then |n.clients[id]| else 0
  }

  /** Between `d` and `e`, without anything new, the ring or the store came to hold something, or a connected browser, old or
      new, was sent something. */
  ghost predicate Surfaced(d: Desk, e: Desk) {
    || e.ring != [] || e.node.store != None
    || exists id :: id in e.node.clients && |e.node.clients[id]| > Had(d.node, id)
  }

  /** Somebody can still be sent something: what is behind the event in flight, what a thread holds, or the event in flight,
      which goes to the sockets its round still has to serve and, while there is no round, to whoever joins before it. */
  ghost predicate Receivable(n: Node) {
    || Rest(n) != []
    || (exists t :: HoldsEvent(PhaseOf(n, t)))
    || (n.inflight.Some? && (n.round.None? || exists id :: id in n.round.value && id in n.clients))
  }

  /** No batch is being emitted, and no event is on its way to anybody. */
  ghost predicate NothingOnTheWay(d: Desk) {
    d.batcher.emitting == {} && !Receivable(d.node)
  }

  /** What the reset order of `open_serial` establishes, with the old reader stopped. */
  ghost predicate JustReset(d: Desk) {
    && B.Ok(d.batcher) && d.batcher.pending == [] && d.ring == []
    && PipelineOk(d.node) && d.node.store == None && PhaseOf(d.node, READER).Idle?
  }

  // ------------------------------------------------------------ clean resets stay clean

  ghost predicate Clean(d: Desk) {
    NothingOnTheWay(d) && d.batcher.pending == [] && d.ring == [] && d.node.store == None && LockOk(d.node)
  }

  /** Nobody has been sent more than at `n`. */
  ghost predicate NoMore(n: Node, m: Node) {
    forall id :: id in m.clients ==> |m.clients[id]| <= Had(n, id)
  }

  lemma NothingBecomesReceivable(n: Node, step: NodeStep)
    requires !Receivable(n) && n.store == None && LockOk(n) && Enabled(n, step) && !step.Observe? && !step.Restart?
    ensures !Receivable(Next(n, step)) && LockOk(Next(n, step)) && Next(n, step).store == None && NoMore(n, Next(n, step))
  {
    var m := Next(n, step);
    assert n.pipe.queue == [] && n.pipe.ingress == [] && Pending(n) == [] by {
      assert n.pipe.queue + n.pipe.ingress + Pending(n) == [];
    }
    forall t ensures !HoldsEvent(PhaseOf(m, t)) {
      assert !HoldsEvent(PhaseOf(n, t));
    }
    assert Pending(m) == [] by { assert !HoldsEvent(PhaseOf(m, READER)); }
  }

  lemma StepKeepsClean(d: Desk, e: Desk, step: DeskStep)
    requires Clean(e) && NoMore(d.node, e.node) && DeskEnabled(e, step) && IsQuiet(step)
    ensures Clean(DeskNext(e, step)) && NoMore(d.node, DeskNext(e, step).node)
  {
    hide Receivable;
    if step.Inside? {
      NothingBecomesReceivable(e.node, step.move);
      var m := Next(e.node, step.move);
      forall id | id in m.clients ensures |m.clients[id]| <= Had(d.node, id) {
        assert |m.clients[id]| <= Had(e.node, id);
      }
    }
  }

  lemma {:induction false} RunKeepsClean(d: Desk, e: Desk, steps: seq<DeskStep>)
    requires Clean(e) && NoMore(d.node, e.node) && DeskPossible(e, steps) && QuietSteps(steps)
    ensures Clean(DeskRun(e, steps)) && NoMore(d.node, DeskRun(e, steps).node)
    decreases |steps|
  {
    hide Clean, NoMore, DeskEnabled, DeskNext, IsQuiet;
    if steps != [] {
      StepKeepsClean(d, e, steps[0]);
      assert QuietSteps(steps[1..]);
      RunKeepsClean(d, DeskNext(e, steps[0]), steps[1..]);
    }
  }

  // -------------------------------------------------------------- everything else surfaces

  lemma {:induction false} OnDeskAlong(d: Desk, steps: seq<NodeStep>) returns (desk: seq<DeskStep>)
    requires Possible(d.node, steps) && NothingNew(steps)
    ensures DeskPossible(d, desk) && QuietSteps(desk) && DeskRun(d, desk) == d.(node := Run(d.node, steps))
    decreases |steps|
  {
    if steps == [] {
      desk := [];
    } else {
      var step := Inside(steps[0]);
      var e := DeskNext(d, step);
      var rest := OnDeskAlong(e, steps[1..]);
      desk := [step] + rest;
      assert desk[1..] == rest;
    }
  }

  /** The node's own runs are runs of the desk. */
  lemma OnDesk(d: Desk, m: Node) returns (desk: seq<DeskStep>)
    requires Settles(d.node, m)
    ensures DeskPossible(d, desk) && QuietSteps(desk) && DeskRun(d, desk) == d.(node := m)
  {
    var steps: seq<NodeStep> :| Possible(d.node, steps) && Run(d.node, steps) == m && NothingNew(steps);
    desk := OnDeskAlong(d, steps);
  }

  lemma {:induction false} FreshNumber(used: set<nat>) returns (t: nat)
    ensures t > 0 && forall u :: u in used ==> u < t
  {
    if used == {} {
      t := 1;
    } else {
      var x :| x in used;
      var rest := FreshNumber(used - {x});
      t := if x < rest then rest else x + 1;
      forall u | u in used ensures u < t {
        if u != x { assert u in used - {x}; }
      }
    }
  }

  /** A batch between swap and emission ends in the ring of the new session. */
  lemma EmittingSurfaces(d: Desk, k: nat) returns (steps: seq<DeskStep>)
    requires JustReset(d) && k in d.batcher.emitting
    ensures DeskPossible(d, steps) && QuietSteps(steps) && Surfaced(d, DeskRun(d, steps))
  {
    hide PipelineOk;
    var t := FreshNumber(d.node.phases.Keys);
    var step := EmitBatch(k, t);
    steps := [step];
    assert t !in d.node.phases;
    var e := DeskNext(d, step);
    assert steps[1..] == [];
    assert DeskRun(d, steps) == e;
    assert e.ring == LastN(d.batcher.batches[k], R.CONSOLE_RING_MAX) by { assert [] + d.batcher.batches[k] == d.batcher.batches[k]; }
  }

  /** Whoever has the send lock can give it back; only the event in flight is used up by that, and only by a round. */
  lemma {:induction false} FreeLock(n: Node) returns (m: Node)
    requires PipelineOk(n)
    ensures Settles(n, m) && PipelineOk(m) && m.joiner.NoJoiner? && m.round.None?
    ensures m.store == n.store && Rest(m) == Rest(n) && m.phases == n.phases
    ensures n.round.None? ==> m.inflight == n.inflight
    decreases JoinRank(n.joiner), if n.round.Some? then 1 else 0, TodoRank(n)
  {
    PipelineParts(n);
    hide PipelineOk, Settles, Bounded, Wakeup;
    if n.joiner.NoJoiner? && n.round.None? {
      m := n;
      SettlesSelf(n);
    } else {
      var step := UnlockStep(n);
      var next := Next(n, step);
      assert Rest(next) == Rest(n) && next.phases == n.phases by { UnlockKeeps(n, step); }
      StepKeepsPipeline(n, step);
      m := FreeLock(next);
      SettlesBy(n, step, next, m);
    }
  }

  lemma UnlockStep(n: Node) returns (step: NodeStep)
    requires LockOk(n) && !(n.joiner.NoJoiner? && n.round.None?)
    ensures Enabled(n, step) && (step.JoinRead? || step == JoinEnd(true) || step == RoundEnd || (step.SendTo? && step.ok))
    ensures var m := Next(n, step);
            && (n.round.None? ==> m.round.None? && JoinRank(m.joiner) < JoinRank(n.joiner))
            && (n.round.Some? ==> m.joiner == n.joiner && (m.round.None? || TodoRank(m) < TodoRank(n)))
  {
    if n.joiner.Added? {
      step := JoinRead;
    } else if n.joiner.Replaying? {
      step := JoinEnd(true);
    } else if n.round.value == {} {
      step := RoundEnd;
    } else {
      var id :| id in n.round.value;
      step := SendTo(id, true);
      assert |n.round.value - {id}| < |n.round.value|;
    }
  }

  lemma UnlockKeeps(n: Node, step: NodeStep)
    requires Enabled(n, step) && (step.JoinRead? || step.JoinEnd? || step.RoundEnd? || step.SendTo?)
    ensures Rest(Next(n, step)) == Rest(n) && Next(n, step).phases == n.phases
  {
    assert Pending(Next(n, step)) == Pending(n);
  }

  /** A browser joins, under a number nobody had, as soon as the send lock is free. */
  lemma NewcomerJoins(n: Node) returns (j: Node, id: nat)
    requires PipelineOk(n) && n.store == None
    ensures Settles(n, j) && PipelineOk(j) && Live(j, id) && id !in n.clients && j.clients[id] == []
    ensures j.phases == n.phases && (n.round.None? ==> Owed(j, id) == Waiting(n.inflight) + Rest(n))
    ensures |Owed(j, id)| >= |Rest(n)|
  {
    hide PipelineOk, Settles;
    var m := FreeLock(n);
    id := FreshNumber(m.clients.Keys + n.clients.Keys);
    assert id !in m.clients.Keys + n.clients.Keys;
    CanJoin(m, id);
    j := Joined(m, id);
    SettlesTrans(n, m, j);
  }

  lemma NewcomerIsSent(d: Desk) returns (steps: seq<DeskStep>)
    requires JustReset(d) && (Rest(d.node) != [] || (d.node.inflight.Some? && d.node.round.None?))
    ensures DeskPossible(d, steps) && QuietSteps(steps) && Surfaced(d, DeskRun(d, steps))
  {
    hide PipelineOk, Settles, B.Ok;
    var j, id := NewcomerJoins(d.node);
    assert Owed(j, id) != [];
    var m := Drainable(j);
    NothingOwed(m, id);
    assert m.clients[id] == [] + Owed(j, id);
    SettlesTrans(d.node, j, m);
    steps := OnDesk(d, m);
    assert id in m.clients && |m.clients[id]| > Had(d.node, id);
  }

  /** Thread `t` gets its event through to a connected browser. */
  lemma HeldEventGetsOut(n: Node, t: nat, id: nat) returns (m: Node)
    requires PipelineOk(n) && Drained(n) && Pending(n) == [] && t != READER && HoldsEvent(PhaseOf(n, t)) && Live(n, id)
    ensures Settles(n, m) && id in m.clients && m.clients[id] == n.clients[id] + [PhaseOf(n, t).e]
  {
    hide PipelineOk, Settles, Wakeup, InOrder;
    var x := PhaseOf(n, t).e;
    assert n.pipe.ingress == [];
    var checked := if PhaseOf(n, t).Observed? then Next(n, Check(t)) else n;
    assert PipelineOk(checked) by { if PhaseOf(n, t).Observed? { StepKeepsPipeline(n, Check(t)); } }
    assert Enabled(checked, Submit(t)) && PhaseOf(checked, t).e == x && Backlog(checked) == [];
    var submitted := Next(checked, Submit(t));
    StepKeepsPipeline(checked, Submit(t));
    assert Pending(submitted) == [] && submitted.pipe.ingress == [x];
    assert Backlog(submitted) == [x] && Owed(submitted, id) == [x] && Live(submitted, id);
    m := Drainable(submitted);
    NothingOwed(m, id);
    SettlesBy(checked, Submit(t), submitted, m);
    if PhaseOf(n, t).Observed? { SettlesBy(n, Check(t), checked, m); }
  }

  lemma HeldIsSent(d: Desk, t: nat) returns (steps: seq<DeskStep>)
    requires JustReset(d) && HoldsEvent(PhaseOf(d.node, t))
    ensures DeskPossible(d, steps) && QuietSteps(steps) && Surfaced(d, DeskRun(d, steps))
  {
    hide PipelineOk, Settles, B.Ok;
    var n := d.node;
    var j, id := NewcomerJoins(n);
    assert PhaseOf(j, t) == PhaseOf(n, t) && Pending(j) == [];
    var k := Drainable(j);
    assert PhaseOf(k, t) == PhaseOf(n, t) && Pending(k) == [] && Live(k, id);
    var r := HeldEventGetsOut(k, t, id);
    SettlesTrans(n, j, k);
    SettlesTrans(n, k, r);
    steps := OnDesk(d, r);
    assert id in r.clients && |r.clients[id]| > Had(n, id);
  }

  lemma ServedIsSent(d: Desk, id: nat) returns (steps: seq<DeskStep>)
    requires JustReset(d) && d.node.inflight.Some? && d.node.round.Some? && id in d.node.round.value && id in d.node.clients
    ensures DeskPossible(d, steps) && QuietSteps(steps) && Surfaced(d, DeskRun(d, steps))
  {
    hide PipelineOk, B.Ok;
    var step := SendTo(id, true);
    steps := [Inside(step)];
    assert steps[1..] == [];
    var e := DeskNext(d, Inside(step));
    assert DeskRun(d, steps) == e;
    assert id in e.node.clients && |e.node.clients[id]| > Had(d.node, id);
  }

  lemma SomethingSurfaces(d: Desk) returns (steps: seq<DeskStep>)
    requires JustReset(d) && !NothingOnTheWay(d)
    ensures DeskPossible(d, steps) && QuietSteps(steps) && Surfaced(d, DeskRun(d, steps))
  {
    hide JustReset, Surfaced, DeskPossible, DeskRun, QuietSteps, Rest;
    if d.batcher.emitting != {} {
      var k :| k in d.batcher.emitting;
      steps := EmittingSurfaces(d, k);
    } else if Rest(d.node) != [] || (d.node.inflight.Some? && d.node.round.None?) {
      steps := NewcomerIsSent(d);
    } else if exists t :: HoldsEvent(PhaseOf(d.node, t)) {
      var t :| HoldsEvent(PhaseOf(d.node, t));
      steps := HeldIsSent(d, t);
    } else {
      var id :| id in d.node.round.value && id in d.node.clients;
      steps := ServedIsSent(d, id);
    }
  }

  /** Nothing of the old session can surface in the new one, whatever threads, loop and browsers do before the port delivers
      anything new, exactly when no batch is between swap and emission and no event is on its way to anybody. */
  lemma ResetIsCleanIff(d: Desk)
    requires JustReset(d)
    ensures (forall steps :: DeskPossible(d, steps) && QuietSteps(steps) ==> !Surfaced(d, DeskRun(d, steps)))
            <==> NothingOnTheWay(d)
  {
    hide JustReset, QuietSteps, Receivable;
    if NothingOnTheWay(d) {
      assert Clean(d) by { ResetIsEmpty(d); }
      forall steps | DeskPossible(d, steps) && QuietSteps(steps) ensures !Surfaced(d, DeskRun(d, steps)) {
        RunKeepsClean(d, d, steps);
      }
    } else {
      var steps := SomethingSurfaces(d);
    }
  }

  lemma ResetIsEmpty(d: Desk)
    requires JustReset(d)
    ensures d.batcher.pending == [] && d.ring == [] && d.node.store == None && LockOk(d.node)
  {
  }

  // ------------------------------------------------------------------- the failing runs

  /** The batcher after a line, the end of its window, and its timer's swap. */
  function Swapped(line: string): B.State {
    B.EMPTY.(next := 1, fed := [line], batches := [[line]], emitting := {0})
  }

  lemma SwapRun(line: string)
    ensures var a := B.Next(B.EMPTY, B.Feed(line));
            var b := B.Next(a, B.Expire(0));
            && B.Enabled(a, B.Expire(0)) && B.Enabled(b, B.TimerFlush(0))
            && B.Next(b, B.TimerFlush(0)) == Swapped(line)
            && B.Next(Swapped(line), B.ExplicitFlush) == Swapped(line)
  {
    var a := B.Next(B.EMPTY, B.Feed(line));
    var b := B.Next(a, B.Expire(0));
    var c := B.Next(b, B.TimerFlush(0));
    assert a.pending == [line] && a.fed == [line];
    assert a.counting == {0} && b.counting == {} && b.firing == {0};
    assert c.batches == [[line]] && c.emitting == {0} && c.firing == {} && c.counting == {};
  }

  /** This run is possible, and ends with this ring. */
  ghost predicate Ends(d: Desk, steps: seq<DeskStep>, ring: seq<string>) {
    DeskPossible(d, steps) && DeskRun(d, steps).ring == ring
  }

  lemma EndsBy(d: Desk, step: DeskStep, next: Desk, rest: seq<DeskStep>, ring: seq<string>)
    requires DeskEnabled(d, step) && DeskNext(d, step) == next && Ends(next, rest, ring)
    ensures Ends(d, [step] + rest, ring)
  {
    assert ([step] + rest)[1..] == rest;
  }

  lemma OldBatchIsEmitted(line: string, d: Desk)
    requires d == START.(batcher := Swapped(line))
    ensures Ends(d, [ClearRing, Inside(Restart), EmitBatch(0, 1)], [line])
  {
    hide Ends, B.Next, B.Enabled;
    var e := DeskNext(d, EmitBatch(0, 1));
    assert e.ring == [line] by { assert [] + [line] == [line]; }
    assert Ends(e, [], [line]) by { EndsHere(e); }
    EndsBy(d, EmitBatch(0, 1), e, [], [line]);
    EndsBy(d, Inside(Restart), d, [EmitBatch(0, 1)] + [], [line]);
    EndsBy(d, ClearRing, d, [Inside(Restart)] + ([EmitBatch(0, 1)] + []), [line]);
    assert [ClearRing] + ([Inside(Restart)] + ([EmitBatch(0, 1)] + [])) == [ClearRing, Inside(Restart), EmitBatch(0, 1)];
  }

  lemma EndsHere(e: Desk)
    ensures Ends(e, [], e.ring)
  {
  }

  /** A timer swaps the old session's line out and is held up; `open_serial` finds nothing to flush, clears and restarts;
      then the timer goes on, and the line is in the new session's ring. */
  lemma OldBatchSurfaces(line: string)
    ensures Ends(START, [Batching(B.Feed(line)), Batching(B.Expire(0)), Batching(B.TimerFlush(0)), Batching(B.ExplicitFlush),
                         ClearRing, Inside(Restart), EmitBatch(0, 1)], [line])
  {
    hide Ends, B.Next, B.Enabled;
    SwapRun(line);
    var a := START.(batcher := B.Next(B.EMPTY, B.Feed(line)));
    var b := a.(batcher := B.Next(a.batcher, B.Expire(0)));
    var c := START.(batcher := Swapped(line));
    FeedIsFree(line);
    FlushIsFree(c.batcher);
    OldBatchIsEmitted(line, c);
    var reset := [ClearRing, Inside(Restart), EmitBatch(0, 1)];
    EndsBy(c, Batching(B.ExplicitFlush), c, reset, [line]);
    EndsBy(b, Batching(B.TimerFlush(0)), c, [Batching(B.ExplicitFlush)] + reset, [line]);
    var rest := [Batching(B.TimerFlush(0)), Batching(B.ExplicitFlush), ClearRing, Inside(Restart), EmitBatch(0, 1)];
    assert [Batching(B.TimerFlush(0))] + ([Batching(B.ExplicitFlush)] + reset) == rest;
    EndsBy(a, Batching(B.Expire(0)), b, rest, [line]);
    EndsBy(START, Batching(B.Feed(line)), a, [Batching(B.Expire(0))] + rest, [line]);
    assert [Batching(B.Feed(line))] + ([Batching(B.Expire(0))] + rest)
        == [Batching(B.Feed(line)), Batching(B.Expire(0)), Batching(B.TimerFlush(0)), Batching(B.ExplicitFlush),
            ClearRing, Inside(Restart), EmitBatch(0, 1)];
  }

  lemma FeedIsFree(line: string)
    ensures B.Enabled(B.EMPTY, B.Feed(line))
  {
  }

  lemma FlushIsFree(s: B.State)
    ensures B.Enabled(s, B.ExplicitFlush)
  {
  }

  /** An old full update that is still queued reaches a browser that joins the new session. */
  lemma OldSnapshotReachesNewcomer(n: Node, id: nat) returns (m: Node)
    requires PipelineOk(n) && n.store == None && HasFull(Backlog(n))
    requires n.joiner.NoJoiner? && n.round.None? && id !in n.clients
    ensures Settles(n, m) && Drained(m) && m.store == None && m.pipe.dropped == n.pipe.dropped
    ensures Live(m, id) && Baseline(m.clients[id]).Some?
  {
    m := NewcomerEndsWith(n, id);
    FoldNoneIff(None, Backlog(n));
  }
}
