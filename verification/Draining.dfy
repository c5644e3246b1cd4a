/** Progress: from every reachable state the pipeline can be drained, and what each browser has been sent by then. */
module Draining {
  import opened Common
  import opened Snapshots
  import opened WebSocketManager
  import opened NodeProtocol
  import opened Convergence

  // ------------------------------------------------------------------- reachability

  ghost predicate Reaches(n: Node, m: Node) {
    exists steps: seq<NodeStep> :: Possible(n, steps) && Run(n, steps) == m
  }

  lemma ReachesSelf(n: Node)
    ensures Reaches(n, n)
  {
    var none: seq<NodeStep> := [];
    assert Possible(n, none) && Run(n, none) == n;
  }

  lemma ReachesBy(n: Node, step: NodeStep, next: Node, m: Node)
    requires Enabled(n, step) && Next(n, step) == next && Reaches(next, m)
    ensures Reaches(n, m)
  {
    hide Enabled, Next;
    var rest: seq<NodeStep> :| Possible(next, rest) && Run(next, rest) == m;
    var steps := [step] + rest;
    assert steps[1..] == rest;
    assert Possible(n, steps) && Run(n, steps) == m;
  }

  lemma ReachesTrans(n: Node, m: Node, r: Node)
    requires Reaches(n, m) && Reaches(m, r)
    ensures Reaches(n, r)
  {
    var steps: seq<NodeStep> :| Possible(n, steps) && Run(n, steps) == m;
    ReachesAlong(n, steps, r);
  }

  lemma {:induction false} ReachesAlong(n: Node, steps: seq<NodeStep>, r: Node)
    requires Possible(n, steps) && Reaches(Run(n, steps), r)
    ensures Reaches(n, r)
    decreases |steps|
  {
    hide Reaches, Enabled, Next;
    if steps != [] {
      ReachesAlong(Next(n, steps[0]), steps[1..], r);
      ReachesBy(n, steps[0], Next(n, steps[0]), r);
    }
  }

  /** Reaches without any event being observed and without a restart. */
  ghost predicate Settles(n: Node, m: Node) {
    exists steps: seq<NodeStep> :: Possible(n, steps) && Run(n, steps) == m && NothingNew(steps)
  }

  ghost predicate NothingNew(steps: seq<NodeStep>) {
    forall i :: 0 <= i < |steps| ==> !steps[i].Observe? && !steps[i].Restart?
  }

  lemma SettlesReaches(n: Node, m: Node)
    requires Settles(n, m)
    ensures Reaches(n, m)
  {
  }

  lemma SettlesSelf(n: Node)
    ensures Settles(n, n)
  {
    var none: seq<NodeStep> := [];
    assert Possible(n, none) && Run(n, none) == n && NothingNew(none);
  }

  lemma SettlesBy(n: Node, step: NodeStep, next: Node, m: Node)
    requires Enabled(n, step) && Next(n, step) == next && Settles(next, m) && !step.Observe? && !step.Restart?
    ensures Settles(n, m)
  {
    hide Enabled, Next;
    var rest: seq<NodeStep> :| Possible(next, rest) && Run(next, rest) == m && NothingNew(rest);
    var steps := [step] + rest;
    assert steps[1..] == rest;
    assert Possible(n, steps) && Run(n, steps) == m && NothingNew(steps);
  }

  lemma SettlesTrans(n: Node, m: Node, r: Node)
    requires Settles(n, m) && Settles(m, r)
    ensures Settles(n, r)
  {
    var steps: seq<NodeStep> :| Possible(n, steps) && Run(n, steps) == m && NothingNew(steps);
    SettlesAlong(n, steps, r);
  }

  lemma {:induction false} SettlesAlong(n: Node, steps: seq<NodeStep>, r: Node)
    requires Possible(n, steps) && Settles(Run(n, steps), r) && NothingNew(steps)
    ensures Settles(n, r)
    decreases |steps|
  {
    hide Settles, Enabled, Next;
    if steps != [] {
      SettlesAlong(Next(n, steps[0]), steps[1..], r);
      SettlesBy(n, steps[0], Next(n, steps[0]), r);
    }
  }

  // -------------------------------------------------------------------- gentle steps

  /** Everything that was or will be broadcast. */
  function Broadcasts(n: Node): seq<Event> {
    n.sent + Backlog(n)
  }

  predicate HoldsEvent(p: Phase) {
    p.Observed? || p.Checked?
  }

  /** Nothing is lost on the way from `n` to `m`: the store and the drop counter are the same, every browser has been
      sent, or is still owed, exactly what it was, and so has the public at large unless the reader has an event that
      nobody may listen to. Threads other than the reader keep the events they hold. */
  ghost predicate Gently(n: Node, m: Node) {
    && m.store == n.store && m.pipe.dropped == n.pipe.dropped
    && (forall id :: Live(n, id) ==> Live(m, id) && m.clients[id] + Owed(m, id) == n.clients[id] + Owed(n, id))
    && (Pending(n) == [] ==> Pending(m) == [] && Broadcasts(m) == Broadcasts(n))
    && (forall t :: t != READER && HoldsEvent(PhaseOf(n, t)) ==> PhaseOf(m, t) == PhaseOf(n, t))
  }

  lemma GentlyTrans(n: Node, m: Node, r: Node)
    requires Gently(n, m) && Gently(m, r)
    ensures Gently(n, r)
  {
    hide Live, Owed, Broadcasts, Pending, HoldsEvent, PhaseOf;
  }

  /** The steps a node takes by itself when every send succeeds and every buffer has room. */
  ghost predicate IsGentle(n: Node, step: NodeStep) {
    match step
    case JoinRead => true
    case JoinEnd(ok) => ok
    case RoundBegin => true
    case SendTo(_, ok) => ok
    case RoundEnd => true
    case Take => true
    case Schedule(_) => true
    case DrainIngress => n.pipe.queue == []
    case Check(t) => t == READER
    case Submit(t) => t == READER && n.pipe.ingress == []
    case _ => false
  }

  lemma SameOwedIsGentle(n: Node, m: Node)
    requires m.store == n.store && m.pipe.dropped == n.pipe.dropped
    requires forall id :: Live(n, id) ==> Live(m, id) && m.clients[id] == n.clients[id] && Owed(m, id) == Owed(n, id)
    requires Pending(n) == [] ==> Pending(m) == [] && Broadcasts(m) == Broadcasts(n)
    requires forall t :: t != READER && HoldsEvent(PhaseOf(n, t)) ==> PhaseOf(m, t) == PhaseOf(n, t)
    ensures Gently(n, m)
  {
  }

  lemma SendIsGentle(n: Node, id: nat)
    requires Enabled(n, SendTo(id, true))
    ensures Gently(n, Next(n, SendTo(id, true)))
  {
    var m := Next(n, SendTo(id, true));
    assert Rest(m) == Rest(n) && Backlog(m) == Backlog(n);
    forall j | Live(n, j) ensures Live(m, j) && m.clients[j] + Owed(m, j) == n.clients[j] + Owed(n, j) {
      if j == id {
        assert n.clients[j] + [n.inflight.value] + Rest(n) == n.clients[j] + ([n.inflight.value] + Rest(n));
      }
    }
  }

  lemma Shift<T>(a: seq<T>, x: T, b: seq<T>)
    ensures a + [x] + b == a + ([x] + b)
  {
  }

  lemma RoundEndIsGentle(n: Node)
    requires Enabled(n, RoundEnd)
    ensures Gently(n, Next(n, RoundEnd))
  {
    var m := Next(n, RoundEnd);
    assert Rest(m) == Rest(n) && Backlog(m) == Rest(n);
    Shift(n.sent, n.inflight.value, Rest(n));
    SameOwedIsGentle(n, m);
  }

  lemma RoundBeginIsGentle(n: Node)
    requires Enabled(n, RoundBegin)
    ensures Gently(n, Next(n, RoundBegin))
  {
    var m := Next(n, RoundBegin);
    assert Rest(m) == Rest(n) && Backlog(m) == Backlog(n);
    SameOwedIsGentle(n, m);
  }

  lemma TakeIsGentle(n: Node)
    requires LockOk(n) && Enabled(n, Take)
    ensures Gently(n, Next(n, Take))
  {
    var m := Next(n, Take);
    assert n.round.None?;
    assert Backlog(m) == Backlog(n) by {
      assert n.pipe.queue == [n.pipe.queue[0]] + n.pipe.queue[1..];
    }
    SameOwedIsGentle(n, m);
  }

  lemma DrainIsGentle(n: Node)
    requires Bounded(n.pipe) && Enabled(n, DrainIngress) && n.pipe.queue == []
    ensures Gently(n, Next(n, DrainIngress))
  {
    var m := Next(n, DrainIngress);
    assert n.pipe.queue + n.pipe.ingress == n.pipe.ingress == m.pipe.queue + m.pipe.ingress;
    assert Rest(m) == Rest(n) && Backlog(m) == Backlog(n);
    SameOwedIsGentle(n, m);
  }

  lemma ReaderIsGentle(n: Node, step: NodeStep)
    requires Enabled(n, step) && IsGentle(n, step) && (step.Check? || step.Submit? || step.Schedule?)
    ensures Gently(n, Next(n, step))
  {
    var m := Next(n, step);
    if step.Check? && n.clients == map[] {
      return;
    }
    assert Rest(m) == Rest(n) && Backlog(m) == Backlog(n);
    SameOwedIsGentle(n, m);
  }

  lemma JoinIsGentle(n: Node, step: NodeStep)
    requires LockOk(n) && Enabled(n, step) && IsGentle(n, step) && (step.JoinRead? || step.JoinEnd?)
    ensures Gently(n, Next(n, step))
  {
    var m := Next(n, step);
    assert Rest(m) == Rest(n) && Backlog(m) == Backlog(n);
    SameOwedIsGentle(n, m);
  }

  lemma GentleStep(n: Node, step: NodeStep)
    requires PipelineOk(n) && Enabled(n, step) && IsGentle(n, step)
    ensures PipelineOk(Next(n, step)) && Gently(n, Next(n, step)) && !step.Observe? && !step.Restart?
  {
    StepKeepsPipeline(n, step);
    hide PipelineOk, Gently, Wakeup, InOrder, OthersArePlain;
    assert LockOk(n) && Bounded(n.pipe) by { PipelineParts(n); }
    match step {
      case SendTo(id, _) => SendIsGentle(n, id);
      case RoundEnd => RoundEndIsGentle(n);
      case RoundBegin => RoundBeginIsGentle(n);
      case Take => TakeIsGentle(n);
      case DrainIngress => DrainIsGentle(n);
      case Check(_) => ReaderIsGentle(n, step);
      case Submit(_) => ReaderIsGentle(n, step);
      case Schedule(_) => ReaderIsGentle(n, step);
      case JoinRead => JoinIsGentle(n, step);
      case JoinEnd(_) => JoinIsGentle(n, step);
    }
  }

  lemma PipelineParts(n: Node)
    requires PipelineOk(n)
    ensures LockOk(n) && Bounded(n.pipe) && Wakeup(n)
  {
  }

  // ------------------------------------------------------------------------ draining

  function ReaderRank(p: Phase): nat {
    match p
    case Observed(_) => 2
    case Checked(_) => 1
    case _ => 0
  }

  function WakeRank(n: Node): nat {
    if !n.pipe.drainScheduled then 0 else if n.callbacks > 0 then 1 else 2
  }

  function JoinRank(j: Joiner): nat {
    match j
    case Added(_) => 2
    case Replaying(_) => 1
    case NoJoiner => 0
  }

  function TodoRank(n: Node): nat {
    if n.round.Some? then |n.round.value| else 0
  }

  /** Nothing is on its way any more, and nobody holds the send lock. */
  ghost predicate Drained(n: Node) {
    Backlog(n) == [] && n.joiner.NoJoiner? && n.round.None?
  }

  /** What the node does next by itself. */
  ghost predicate Advances(n: Node, step: NodeStep) {
    && Enabled(n, step) && IsGentle(n, step)
    && var m := Next(n, step);
       var a, b := ReaderRank(PhaseOf(n, READER)), ReaderRank(PhaseOf(m, READER));
       || b < a
       || (b == a && (WakeRank(m) < WakeRank(n) || (WakeRank(m) == WakeRank(n) && SendsLess(n, m))))
  }

  ghost predicate SendsLess(n: Node, m: Node) {
    || |m.pipe.queue| < |n.pipe.queue|
    || (|m.pipe.queue| == |n.pipe.queue| && LocksLess(n, m))
  }

  ghost predicate LocksLess(n: Node, m: Node) {
    || JoinRank(m.joiner) < JoinRank(n.joiner)
    || (JoinRank(m.joiner) == JoinRank(n.joiner) && RoundLess(n, m))
  }

  ghost predicate RoundLess(n: Node, m: Node) {
    || (n.inflight.Some? && m.inflight.None?)
    || (n.inflight.Some? == m.inflight.Some? && n.round.None? && m.round.Some?)
    || (n.inflight.Some? == m.inflight.Some? && n.round.Some? == m.round.Some? && TodoRank(m) < TodoRank(n))
  }

  lemma SendAdvances(n: Node) returns (step: NodeStep)
    requires n.inflight.Some? && n.round.Some? && n.joiner.NoJoiner?
    ensures Advances(n, step)
  {
    if n.round.value == {} {
      step := RoundEnd;
    } else {
      var id :| id in n.round.value;
      step := SendTo(id, true);
      assert |n.round.value - {id}| < |n.round.value|;
    }
  }

  lemma JoinAdvances(n: Node) returns (step: NodeStep)
    requires n.joiner != NoJoiner
    ensures Advances(n, step)
  {
    step := if n.joiner.Added? then JoinRead else JoinEnd(true);
  }

  lemma LockAdvances(n: Node) returns (step: NodeStep)
    requires LockOk(n) && (n.joiner != NoJoiner || n.inflight.Some? || n.pipe.queue != [])
    ensures Advances(n, step)
  {
    if n.joiner != NoJoiner {
      step := JoinAdvances(n);
    } else if n.inflight.None? {
      step := Take;
    } else if n.round.None? {
      step := RoundBegin;
    } else {
      step := SendAdvances(n);
    }
  }

  lemma LoopAdvances(n: Node) returns (step: NodeStep)
    requires Wakeup(n) && n.pipe.queue == [] && n.pipe.drainScheduled
    ensures Advances(n, step)
  {
    if n.callbacks > 0 {
      step := DrainIngress;
    } else {
      var t :| Poster(n, t);
      step := Schedule(t);
    }
  }

  lemma ReaderAdvances(n: Node) returns (step: NodeStep)
    requires !n.pipe.drainScheduled && n.pipe.ingress == [] && Pending(n) != []
    ensures Advances(n, step)
  {
    step := if PhaseOf(n, READER).Observed? then Check(READER) else Submit(READER);
  }

  lemma SomeStepAdvances(n: Node) returns (step: NodeStep)
    requires PipelineOk(n) && !Drained(n)
    ensures Advances(n, step)
  {
    PipelineParts(n);
    hide PipelineOk, Advances, Bounded;
    if n.joiner != NoJoiner || n.inflight.Some? || n.pipe.queue != [] {
      step := LockAdvances(n);
    } else if n.pipe.drainScheduled {
      step := LoopAdvances(n);
    } else {
      assert n.round.None? && n.pipe.ingress == [];
      assert Backlog(n) == Pending(n);
      step := ReaderAdvances(n);
    }
  }

  /** Every state the node can be in can be drained by its own steps, without a loss: every connected browser is then
      sent everything it was owed. */
  lemma {:induction false} Drainable(n: Node) returns (m: Node)
    requires PipelineOk(n)
    ensures Settles(n, m) && PipelineOk(m) && Gently(n, m) && Drained(m)
    decreases ReaderRank(PhaseOf(n, READER)), WakeRank(n), |n.pipe.queue|, JoinRank(n.joiner),
              if n.inflight.Some? then 1 else 0, if n.round.None? then 1 else 0, TodoRank(n)
  {
    hide PipelineOk, Drained, Gently, IsGentle, Enabled, Next;
    if Drained(n) {
      m := n;
      SettlesSelf(n);
      SameIsGentle(n);
    } else {
      var step := SomeStepAdvances(n);
      var next := Next(n, step);
      GentleStep(n, step);
      m := Drainable(next);
      SettlesBy(n, step, next, m);
      GentlyTrans(n, next, m);
    }
  }

  lemma SameIsGentle(n: Node)
    ensures Gently(n, n)
  {
  }

  // ------------------------------------------------------------- a browser that joins now

  /** The state in which socket `id` has just joined: it was sent the replay and is owed the whole backlog. */
  function Joined(n: Node, id: nat): Node {
    n.(clients := n.clients[id := Replay(n.store)])
  }

  lemma CanJoin(n: Node, id: nat)
    requires PipelineOk(n) && n.joiner.NoJoiner? && n.round.None? && id !in n.clients
    ensures Settles(n, Joined(n, id)) && PipelineOk(Joined(n, id))
    ensures Live(Joined(n, id), id) && Owed(Joined(n, id), id) == Backlog(n)
  {
    hide PipelineOk, Wakeup, InOrder, OthersArePlain, Settles;
    assert n.dead == {} by { PipelineParts(n); }
    var added := n.(joiner := Added(id), clients := n.clients[id := []]);
    var replaying := Joined(n, id).(joiner := Replaying(id));
    assert n.clients[id := []][id := Replay(n.store)] == n.clients[id := Replay(n.store)];
    assert Rest(Joined(n, id)) == Rest(n);
    SettlesSelf(Joined(n, id));
    SettlesBy(replaying, JoinEnd(true), Joined(n, id), Joined(n, id));
    SettlesBy(added, JoinRead, replaying, Joined(n, id));
    SettlesBy(n, JoinAdd(id), added, Joined(n, id));
    StepKeepsPipeline(n, JoinAdd(id));
    StepKeepsPipeline(added, JoinRead);
    StepKeepsPipeline(replaying, JoinEnd(true));
  }

  lemma ReplayIsStore(store: Option<Snapshot>)
    ensures Baseline(Replay(store)) == store
  {
    assert store.Some? ==> Replay(store)[..0] == [];
  }

  /** A browser that joins now can end, with nothing lost any more, holding what the backlog makes of the store. */
  lemma NewcomerEndsWith(n: Node, id: nat) returns (m: Node)
    requires PipelineOk(n) && n.joiner.NoJoiner? && n.round.None? && id !in n.clients
    ensures Settles(n, m) && PipelineOk(m) && Drained(m)
    ensures m.store == n.store && m.pipe.dropped == n.pipe.dropped
    ensures Live(m, id) && Baseline(m.clients[id]) == Fold(n.store, Backlog(n))
  {
    CanJoin(n, id);
    m := Drainable(Joined(n, id));
    SettlesTrans(n, Joined(n, id), m);
    assert m.clients[id] == Replay(n.store) + Backlog(n) by { NothingOwed(m, id); }
    FoldConcat(None, Replay(n.store), Backlog(n));
    ReplayIsStore(n.store);
  }

  lemma NothingOwed(m: Node, id: nat)
    requires Drained(m)
    ensures Owed(m, id) == []
    ensures forall s: seq<Event> :: s + Owed(m, id) == s
  {
  }

  /** What `Converging` says, in terms of what browsers can end up with: drained by its own steps, the node leaves every
      connected browser with the store, and a browser that joins now as well. Neither half can be dropped. */
  lemma ConvergingIsExact(n: Node, id: nat) returns (m: Node, k: Node)
    requires PipelineOk(n) && n.joiner.NoJoiner? && n.round.None? && id !in n.clients
    ensures Settles(n, m) && Drained(m) && m.store == n.store && m.pipe.dropped == n.pipe.dropped
    ensures Settles(n, k) && Drained(k) && k.store == n.store && k.pipe.dropped == n.pipe.dropped && Live(k, id)
    ensures Converging(n) <==>
              && Baseline(k.clients[id]) == k.store
              && (forall i :: Live(n, i) ==> Live(m, i) && Baseline(m.clients[i]) == m.store)
  {
    m := Drainable(n);
    k := NewcomerEndsWith(n, id);
    forall i | Live(n, i) ensures Live(m, i) && Baseline(m.clients[i]) == Fold(Baseline(n.clients[i]), Owed(n, i)) {
      NothingOwed(m, i);
      FoldConcat(None, n.clients[i], Owed(n, i));
    }
  }

  // ----------------------------------------------------------- the no-listener shortcut, exactly

  /** The reader stored `e`, found nobody listening, and skipped it. */
  function AfterSkip(n: Node, e: Event): Node {
    n.(store := Reduce(n.store, e), phases := n.phases[READER := Idle])
  }

  lemma SkipIsARun(n: Node, e: Event)
    requires PhaseOf(n, READER).Idle? && n.clients == map[]
    ensures Reaches(n, AfterSkip(n, e))
  {
    var observed := Next(n, Observe(READER, e));
    ReachesSelf(AfterSkip(n, e));
    assert observed.phases[READER := Idle] == n.phases[READER := Idle];
    ReachesBy(observed, Check(READER), AfterSkip(n, e), AfterSkip(n, e));
    ReachesBy(n, Observe(READER, e), observed, AfterSkip(n, e));
  }

  lemma SkipKeepsBacklog(n: Node, e: Event)
    requires PhaseOf(n, READER).Idle?
    ensures Backlog(AfterSkip(n, e)) == Backlog(n) && Rest(AfterSkip(n, e)) == Rest(n)
  {
    assert Pending(AfterSkip(n, e)) == Pending(n) == [];
  }

  /** Skipping one event is harmless exactly when what is still on its way leaves the new store alone. */
  lemma SkipConvergesIff(n: Node, e: Event)
    requires PhaseOf(n, READER).Idle? && n.clients == map[]
    ensures Converging(AfterSkip(n, e)) <==> Fold(Reduce(n.store, e), Backlog(n)) == Reduce(n.store, e)
  {
    var m := AfterSkip(n, e);
    assert Pending(m) == Pending(n) == [];
    assert Rest(m) == Rest(n) && Backlog(m) == Backlog(n);
  }

  /** Skipping whatever full update comes next is harmless exactly when only inert events are on their way. */
  lemma SkipConvergesForEveryFullIff(n: Node)
    requires PhaseOf(n, READER).Idle? && n.clients == map[]
    ensures (forall full :: Converging(AfterSkip(n, SnapshotUpdate(full))))
            <==> (forall i :: 0 <= i < |Backlog(n)| ==> Inert(Backlog(n)[i]))
  {
    hide Converging, Inert;
    HarmlessToFullsIffInert(Backlog(n));
    forall full ensures Converging(AfterSkip(n, SnapshotUpdate(full))) <==> Fold(Some(full), Backlog(n)) == Some(full) {
      SkipConvergesIff(n, SnapshotUpdate(full));
    }
  }

  /** With anything that is not inert on its way, some next full update is skipped and lost on the next browser to join:
      the pipeline drains, nothing is counted as dropped, and the browser holds something other than the store. */
  lemma SkipMisleadsNewcomer(n: Node, id: nat) returns (full: Snapshot, m: Node)
    requires PipelineOk(n) && PhaseOf(n, READER).Idle? && n.clients == map[] && n.joiner.NoJoiner? && n.round.None?
    requires exists i :: 0 <= i < |Backlog(n)| && !Inert(Backlog(n)[i])
    ensures Reaches(n, m) && Drained(m) && m.pipe.dropped == n.pipe.dropped
    ensures Live(m, id) && m.store == Some(full) && Baseline(m.clients[id]) != Some(full)
  {
    HarmlessToFullsIffInert(Backlog(n));
    hide Inert, Settles, Reaches, Baseline, Fold, Backlog;
    full :| Fold(Some(full), Backlog(n)) != Some(full);
    var e := SnapshotUpdate(full);
    var skipped := AfterSkip(n, e);
    SkipIsARun(n, e);
    assert PipelineOk(skipped) by {
      var observed := Next(n, Observe(READER, e));
      StepKeepsPipeline(n, Observe(READER, e));
      StepKeepsPipeline(observed, Check(READER));
      assert observed.phases[READER := Idle] == n.phases[READER := Idle];
    }
    assert Backlog(skipped) == Backlog(n) by { SkipKeepsBacklog(n, e); }
    m := NewcomerEndsWith(skipped, id);
    SettlesReaches(skipped, m);
    ReachesTrans(n, skipped, m);
  }

  // ------------------------------------------------------------------------ restarts

  /** A browser shows the old session's snapshot although the node was restarted, nothing is on its way and nothing was
      dropped. */
  lemma RestartLeavesOldSnapshot(s: Snapshot)
    ensures exists n ::
              && Reaches(IDLE_NODE, n) && Drained(n) && n.pipe.dropped == 0
              && n.store == None && Live(n, 1) && Baseline(n.clients[1]) == Some(s)
  {
    StartIsOk();
    var stored := AfterSkip(IDLE_NODE, SnapshotUpdate(s));
    SkipIsARun(IDLE_NODE, SnapshotUpdate(s));
    assert PipelineOk(stored) by { assert forall t :: PhaseOf(stored, t) == Idle; }
    CanJoin(stored, 1);
    var joined := Joined(stored, 1);
    var m := joined.(store := None);
    ReachesSelf(m);
    ReachesBy(joined, Restart, m, m);
    SettlesReaches(stored, joined);
    ReachesTrans(stored, joined, m);
    ReachesTrans(IDLE_NODE, stored, m);
    ReplayIsStore(Some(s));
  }
}
