/** Browsers converge to the store: what every step of the node keeps, and what a lost event costs. */
module Convergence {
  import opened Common
  import opened Snapshots
  import opened WebSocketManager
  import opened NodeProtocol

  // ---------------------------------------------------------------- what is on its way

  /** The reader's event, folded into the store but not accepted by the pipeline yet. */
  function Pending(n: Node): seq<Event> {
    match PhaseOf(n, READER)
    case Observed(e) => [e]
    case Checked(e) => [e]
    case _ => []
  }

  /** What is behind the event being broadcast, oldest first. */
  function Rest(n: Node): seq<Event> {
    n.pipe.queue + n.pipe.ingress + Pending(n)
  }

  /** Everything on its way. */
  function Backlog(n: Node): seq<Event> {
    Waiting(n.inflight) + Rest(n)
  }

  /** What this socket still has to receive: a broadcast reaches one socket after the other. */
  function Owed(n: Node, id: nat): seq<Event> {
    if n.round.Some? && id !in n.round.value then Rest(n) else Backlog(n)
  }

  /** A socket that has been sent its replay and has not failed; the browser's baseline is the fold of its messages. */
  predicate Live(n: Node, id: nat) {
    id in n.clients && n.joiner != Added(id) && id !in n.dead
  }

  function Baseline(inbox: seq<Event>): Option<Snapshot> {
    Fold(None, inbox)
  }

  ghost predicate NobodyLive(n: Node) {
    forall id :: !Live(n, id)
  }

  /** Once the backlog is delivered, every live browser holds the store's snapshot; and so will one that joins now. */
  ghost predicate Converging(n: Node) {
    && Fold(n.store, Backlog(n)) == n.store
    && (forall id :: Live(n, id) ==> Fold(Baseline(n.clients[id]), Owed(n, id)) == n.store)
  }

  // ---------------------------------------------------------------- which losses matter

  /** `gone` was cut out of the backlog between `before` and `after`. It does not matter if it held no snapshot event,
      if a full update still follows it, or if nothing older is on its way to anyone and nobody was listening. */
  ghost predicate Harmless(before: seq<Event>, gone: seq<Event>, after: seq<Event>, nobody: bool) {
    NoSnapshots(gone) || HasFull(after) || (NoSnapshots(before) && nobody)
  }

  /** No full update is on its way and no connected browser holds a snapshot. */
  ghost predicate NothingOldToShow(n: Node) {
    !HasFull(Backlog(n)) && forall id :: Live(n, id) ==> Baseline(n.clients[id]) == None
  }

  /** The steps that lose events, each with the guard under which the loss matters. */
  ghost predicate Lossless(n: Node, step: NodeStep) {
    var p := n.pipe;
    match step
    case Check(t) =>
      t == READER && n.clients == map[] ==>
        Harmless(Waiting(n.inflight) + p.queue + p.ingress, Pending(n), [], true)
    case Submit(t) =>
      |p.ingress| == QUEUE_MAX ==>
        Harmless(Waiting(n.inflight) + p.queue, p.ingress[..1], p.ingress[1..] + Pending(n), NobodyLive(n))
    case LoopClosed(t) =>
      Harmless(Waiting(n.inflight) + p.queue, p.ingress, Pending(n), NobodyLive(n))
    case DrainIngress =>
      var all := p.queue + p.ingress;
      Harmless(Waiting(n.inflight), all[..Overflow(|all|)], all[Overflow(|all|)..] + Pending(n), NobodyLive(n))
    case Restart =>
      NothingOldToShow(n)
    case _ => true
  }

  lemma FoldThree(s: Option<Snapshot>, a: seq<Event>, b: seq<Event>, c: seq<Event>)
    ensures Fold(s, a + b + c) == Fold(Fold(Fold(s, a), b), c)
    ensures Fold(s, a + c) == Fold(Fold(s, a), c)
  {
    FoldConcat(s, a + b, c);
    FoldConcat(s, a, b);
    FoldConcat(s, a, c);
  }

  /** A harmless cut is invisible to the store's own fixpoint and to every listener. */
  lemma CutIsHarmless(store: Option<Snapshot>, s: Option<Snapshot>, before: seq<Event>, gone: seq<Event>, after: seq<Event>, nobody: bool)
    requires Fold(store, before + gone + after) == store && Harmless(before, gone, after, nobody)
    requires Fold(s, before + gone + after) == store
    ensures Fold(store, before + after) == store
    ensures !nobody ==> Fold(s, before + after) == store
  {
    FoldThree(store, before, gone, after);
    FoldThree(s, before, gone, after);
    if NoSnapshots(gone) {
      NoSnapshotsNoChange(Fold(store, before), gone);
      NoSnapshotsNoChange(Fold(s, before), gone);
    } else if HasFull(after) {
      FullForgets(Fold(store, before), Fold(Fold(store, before), gone), after);
      FullForgets(Fold(s, before), Fold(Fold(s, before), gone), after);
    } else {
      NoSnapshotsNoChange(store, before);
      SuffixReplayAbsorbed(store, gone, after);
      FoldConcat(store, gone, after);
    }
  }

  /** The store is a fixpoint of the rest as well as of the whole backlog. */
  lemma RestFixpoint(n: Node)
    requires Fold(n.store, Backlog(n)) == n.store
    ensures Fold(n.store, Rest(n)) == n.store
  {
    SuffixReplayAbsorbed(n.store, Waiting(n.inflight), Rest(n));
  }

  /** The same sockets are owed the same event in flight, and `gone` is missing behind it. */
  ghost predicate SameRound(n: Node, m: Node) {
    m.store == n.store && m.clients == n.clients && m.joiner == n.joiner
    && m.inflight == n.inflight && m.round == n.round && m.dead == n.dead
  }

  lemma CutBacklog(w: seq<Event>, before: seq<Event>, gone: seq<Event>, after: seq<Event>)
    ensures w + (before + gone + after) == w + before + gone + after && w + (before + after) == w + before + after
  {
  }

  lemma HarmlessBehind(w: seq<Event>, before: seq<Event>, gone: seq<Event>, after: seq<Event>, nobody: bool)
    requires Harmless(w + before, gone, after, nobody)
    ensures Harmless(before, gone, after, nobody)
  {
    assert before == (w + before)[|w|..];
  }

  lemma NobodyToCut(n: Node, m: Node, nobody: bool)
    requires SameRound(n, m) && (nobody ==> NobodyLive(n))
    ensures nobody ==> forall id :: !Live(m, id)
  {
    assert forall id :: Live(m, id) ==> Live(n, id);
  }

  lemma CutKeepsConverging(n: Node, m: Node, before: seq<Event>, gone: seq<Event>, after: seq<Event>, nobody: bool)
    requires Converging(n) && SameRound(n, m) && Harmless(Waiting(n.inflight) + before, gone, after, nobody)
    requires Rest(n) == before + gone + after && Rest(m) == before + after
    requires nobody ==> NobodyLive(n)
    ensures Converging(m)
  {
    hide Harmless, Rest, Waiting, NobodyLive, Reduce;
    var whole := Waiting(n.inflight) + before;
    assert Backlog(n) == whole + gone + after && Backlog(m) == whole + after by {
      CutBacklog(Waiting(n.inflight), before, gone, after);
    }
    CutIsHarmless(n.store, n.store, whole, gone, after, nobody);
    assert Fold(n.store, Backlog(m)) == n.store;
    RestFixpoint(n);
    HarmlessBehind(Waiting(n.inflight), before, gone, after, nobody);
    assert nobody ==> forall id :: !Live(m, id) by { NobodyToCut(n, m, nobody); }
    forall id | Live(m, id) ensures Fold(Baseline(m.clients[id]), Owed(m, id)) == m.store {
      assert Live(n, id);
      var s := Baseline(n.clients[id]);
      if n.round.Some? && id !in n.round.value {
        assert Owed(n, id) == before + gone + after && Owed(m, id) == before + after;
        CutIsHarmless(n.store, s, before, gone, after, nobody);
      } else {
        assert Owed(n, id) == whole + gone + after && Owed(m, id) == whole + after;
        CutIsHarmless(n.store, s, whole, gone, after, nobody);
      }
    }
  }

  /** An observed event goes to the end of the backlog: whoever reached the store before now reaches the new store. */
  lemma LaterEventKeepsFixpoint(store: Option<Snapshot>, s: Option<Snapshot>, backlog: seq<Event>, e: Event)
    requires Fold(store, backlog) == store && Fold(s, backlog) == store
    ensures Fold(Reduce(store, e), backlog + [e]) == Reduce(store, e)
    ensures Fold(s, backlog + [e]) == Reduce(store, e)
  {
    FoldOne(store, e);
    assert Fold(s, backlog + [e]) == Reduce(store, e) by { FoldConcat(s, backlog, [e]); }
    assert Fold(store, backlog + [e]) == Reduce(store, e) by { FoldConcat(store, backlog, [e]); }
    FoldBand(store, [e], backlog);
    FoldConcat(store, [e], backlog + [e]);
    assert [e] + (backlog + [e]) == [e] + backlog + [e];
  }

  lemma FoldOne(s: Option<Snapshot>, e: Event)
    ensures Fold(s, [e]) == Reduce(s, e)
  {
    assert [e][..0] == [];
  }

  lemma OwedFixpoint(n: Node, id: nat)
    requires Fold(n.store, Backlog(n)) == n.store
    ensures Fold(n.store, Owed(n, id)) == n.store
  {
    hide Backlog, Rest, Reduce;
    RestFixpoint(n);
  }

  /** What the reader observes joins the end of everything on its way. */
  lemma ObservedBacklog(n: Node, e: Event)
    requires Enabled(n, Observe(READER, e))
    ensures var m := Next(n, Observe(READER, e));
            && Backlog(m) == Backlog(n) + [e] && m.clients == n.clients && m.store == Reduce(n.store, e)
            && forall id :: (Live(m, id) <==> Live(n, id)) && Owed(m, id) == Owed(n, id) + [e]
  {
    var m := Next(n, Observe(READER, e));
    assert Pending(n) == [] && Pending(m) == [e];
    assert Rest(m) == Rest(n) + [e];
    assert Backlog(m) == Backlog(n) + [e];
  }

  lemma ObserveKeepsConverging(n: Node, t: nat, e: Event)
    requires Converging(n) && Enabled(n, Observe(t, e))
    ensures Converging(Next(n, Observe(t, e)))
  {
    var m := Next(n, Observe(t, e));
    if t == READER {
      ObservedBacklog(n, e);
      hide Backlog, Owed, Live, Reduce, Enabled;
      LaterEventKeepsFixpoint(n.store, n.store, Backlog(n), e);
      forall id | Live(m, id) ensures Fold(Baseline(m.clients[id]), Owed(m, id)) == m.store {
        assert Live(n, id) && Owed(m, id) == Owed(n, id) + [e];
        OwedFixpoint(n, id);
        LaterEventKeepsFixpoint(n.store, Baseline(n.clients[id]), Owed(n, id), e);
      }
    } else {
      SameRestKeepsConverging(n, m);
    }
  }

  lemma SameRestKeepsConverging(n: Node, m: Node)
    requires Converging(n) && SameRound(n, m)
    requires m.pipe.queue + m.pipe.ingress == n.pipe.queue + n.pipe.ingress
    requires Pending(m) == Pending(n)
    ensures Converging(m)
  {
    assert Rest(m) == Rest(n) && Backlog(m) == Backlog(n);
    assert forall id :: Live(m, id) ==> Live(n, id) && Owed(m, id) == Owed(n, id);
  }

  /** The state after a submission to an ingress without a limit. */
  function SubmitUnbounded(n: Node, t: nat): Node
    requires Enabled(n, Submit(t))
  {
    var m := Next(n, Submit(t));
    m.(pipe := m.pipe.(ingress := n.pipe.ingress + [PhaseOf(n, t).e]))
  }

  lemma SubmitRest(n: Node, t: nat, s: Option<Snapshot>)
    requires OthersArePlain(n) && Enabled(n, Submit(t))
    ensures Fold(s, Rest(SubmitUnbounded(n, t))) == Fold(s, Rest(n))
  {
    var w := SubmitUnbounded(n, t);
    var e := PhaseOf(n, t).e;
    var front := n.pipe.queue + n.pipe.ingress;
    if t == READER {
      assert Pending(n) == [e] && Pending(w) == [];
      assert Rest(w) == Rest(n);
    } else {
      assert Pending(w) == Pending(n);
      assert Rest(w) == front + [e] + Pending(n);
      InsertPlain(s, front, e, Pending(n));
    }
  }

  lemma SubmitBacklog(n: Node, t: nat, s: Option<Snapshot>)
    requires OthersArePlain(n) && Enabled(n, Submit(t))
    ensures Fold(s, Backlog(SubmitUnbounded(n, t))) == Fold(s, Backlog(n))
  {
    var w := SubmitUnbounded(n, t);
    FoldConcat(s, Waiting(n.inflight), Rest(n));
    FoldConcat(s, Waiting(n.inflight), Rest(w));
    SubmitRest(n, t, Fold(s, Waiting(n.inflight)));
  }

  lemma SubmitUnboundedKeepsConverging(n: Node, t: nat)
    requires OthersArePlain(n) && Converging(n) && Enabled(n, Submit(t))
    ensures Converging(SubmitUnbounded(n, t))
  {
    var w := SubmitUnbounded(n, t);
    SubmitBacklog(n, t, n.store);
    forall id | Live(w, id) ensures Fold(Baseline(w.clients[id]), Owed(w, id)) == w.store {
      assert Live(n, id);
      SubmitRest(n, t, Baseline(n.clients[id]));
      SubmitBacklog(n, t, Baseline(n.clients[id]));
    }
  }

  /** A full update behind the shed event is still behind it once the new event is in. */
  lemma FullStaysBehind(n: Node, t: nat)
    requires Enabled(n, Submit(t)) && n.pipe.ingress != []
    requires HasFull(n.pipe.ingress[1..] + Pending(n))
    ensures var w := SubmitUnbounded(n, t); HasFull(w.pipe.ingress[1..] + Pending(w))
  {
    var w := SubmitUnbounded(n, t);
    var kept := n.pipe.ingress[1..] + Pending(n);
    var rest := w.pipe.ingress[1..] + Pending(w);
    var i :| 0 <= i < |kept| && kept[i].SnapshotUpdate?;
    var j := if i < |n.pipe.ingress| - 1 || t == READER then i else i + 1;
    assert t != READER ==> Pending(w) == Pending(n);
    assert rest[j] == kept[i];
  }

  lemma SubmitKeepsConverging(n: Node, t: nat)
    requires PipelineOk(n) && Converging(n) && Enabled(n, Submit(t)) && Lossless(n, Submit(t))
    ensures Converging(Next(n, Submit(t)))
  {
    hide Fold, Converging, InOrder, Wakeup;
    var m := Next(n, Submit(t));
    var w := SubmitUnbounded(n, t);
    SubmitUnboundedKeepsConverging(n, t);
    if |n.pipe.ingress| == QUEUE_MAX {
      var gone := n.pipe.ingress[..1];
      var rest := w.pipe.ingress[1..] + Pending(w);
      assert Pending(m) == Pending(w);
      assert m.pipe.ingress == w.pipe.ingress[1..];
      assert w.pipe.ingress == gone + w.pipe.ingress[1..];
      assert Rest(w) == n.pipe.queue + gone + rest;
      assert Rest(m) == n.pipe.queue + rest;
      if HasFull(n.pipe.ingress[1..] + Pending(n)) {
        FullStaysBehind(n, t);
      }
      assert NobodyLive(n) ==> NobodyLive(w) by {
        assert forall id :: Live(w, id) ==> Live(n, id);
      }
      CutKeepsConverging(w, m, n.pipe.queue, gone, rest, NobodyLive(n));
    } else {
      assert m == w;
    }
  }

  lemma InsertPlain(s: Option<Snapshot>, a: seq<Event>, e: Event, b: seq<Event>)
    requires !IsSnapshotEvent(e)
    ensures Fold(s, a + [e] + b) == Fold(s, a + b)
  {
    FoldThree(s, a, [e], b);
    NoSnapshotsNoChange(Fold(s, a), [e]);
  }

  lemma CheckKeepsConverging(n: Node, t: nat)
    requires Converging(n) && Enabled(n, Check(t)) && Lossless(n, Check(t))
    ensures Converging(Next(n, Check(t)))
  {
    var m := Next(n, Check(t));
    if t == READER && n.clients == map[] {
      var before := n.pipe.queue + n.pipe.ingress;
      assert Rest(n) == before + Pending(n) + [] && Rest(m) == before + [];
      assert Waiting(n.inflight) + before == Waiting(n.inflight) + n.pipe.queue + n.pipe.ingress;
      CutKeepsConverging(n, m, before, Pending(n), [], true);
    } else {
      assert t != READER ==> PhaseOf(m, READER) == PhaseOf(n, READER);
      SameRestKeepsConverging(n, m);
    }
  }

  lemma CutFront<T>(all: seq<T>, k: nat, b: seq<T>)
    requires k <= |all|
    ensures all + b == [] + all[..k] + (all[k..] + b) && [] + (all[k..] + b) == all[k..] + b
  {
    assert all == all[..k] + all[k..];
  }

  lemma DrainRest(n: Node)
    requires Enabled(n, DrainIngress)
    ensures var all, m := n.pipe.queue + n.pipe.ingress, Next(n, DrainIngress);
            var k := Overflow(|all|);
            && Rest(n) == [] + all[..k] + (all[k..] + Pending(n))
            && Rest(m) == [] + (all[k..] + Pending(n))
            && SameRound(n, m) && Waiting(n.inflight) + [] == Waiting(n.inflight)
  {
    var all, m := n.pipe.queue + n.pipe.ingress, Next(n, DrainIngress);
    CutFront(all, Overflow(|all|), Pending(n));
    assert Pending(m) == Pending(n) && m.pipe.ingress == [];
    assert m.pipe.queue + m.pipe.ingress == all[Overflow(|all|)..];
  }

  lemma DrainKeepsConverging(n: Node)
    requires Converging(n) && Enabled(n, DrainIngress) && Lossless(n, DrainIngress)
    ensures Converging(Next(n, DrainIngress))
  {
    var all := n.pipe.queue + n.pipe.ingress;
    var k := Overflow(|all|);
    DrainRest(n);
    CutKeepsConverging(n, Next(n, DrainIngress), [], all[..k], all[k..] + Pending(n), NobodyLive(n));
  }

  lemma LoopClosedKeepsConverging(n: Node, t: nat)
    requires Converging(n) && Enabled(n, LoopClosed(t)) && Lossless(n, LoopClosed(t))
    ensures Converging(Next(n, LoopClosed(t)))
  {
    var m := Next(n, LoopClosed(t));
    assert Pending(m) == Pending(n);
    assert Rest(m) == n.pipe.queue + Pending(n);
    CutKeepsConverging(n, m, n.pipe.queue, n.pipe.ingress, Pending(n), NobodyLive(n));
  }

  /** A socket that is sent the event moves its debt from the backlog to the rest; nobody else notices. */
  lemma SendKeepsConverging(n: Node, id: nat, ok: bool)
    requires Converging(n) && Enabled(n, SendTo(id, ok))
    ensures Converging(Next(n, SendTo(id, ok)))
  {
    var m := Next(n, SendTo(id, ok));
    assert Rest(m) == Rest(n) && Backlog(m) == Backlog(n);
    forall j | Live(m, j) ensures Fold(Baseline(m.clients[j]), Owed(m, j)) == m.store {
      assert Live(n, j);
      if j == id {
        FoldConcat(None, n.clients[j], Waiting(n.inflight));
        FoldConcat(Baseline(n.clients[j]), Waiting(n.inflight), Rest(n));
      } else {
        assert Owed(m, j) == Owed(n, j);
      }
    }
  }

  lemma RoundEndKeepsConverging(n: Node)
    requires Converging(n) && Enabled(n, RoundEnd)
    ensures Converging(Next(n, RoundEnd))
  {
    RestFixpoint(n);
    RoundEndDebts(n);
    hide Backlog, Rest, Owed, Live, Reduce;
    MakesConverging(Next(n, RoundEnd));
  }

  lemma RoundEndDebts(n: Node)
    requires Enabled(n, RoundEnd)
    ensures var m := Next(n, RoundEnd);
            && m.store == n.store && Backlog(m) == Rest(n)
            && forall id :: Live(m, id) ==> Live(n, id) && m.clients[id] == n.clients[id] && Owed(m, id) == Owed(n, id)
  {
    var m := Next(n, RoundEnd);
    assert Rest(m) == Rest(n) && Backlog(m) == Rest(n);
  }

  lemma MakesConverging(m: Node)
    requires Fold(m.store, Backlog(m)) == m.store
    requires forall id :: Live(m, id) ==> Fold(Baseline(m.clients[id]), Owed(m, id)) == m.store
    ensures Converging(m)
  {
  }

  lemma JoinReadKeepsConverging(n: Node)
    requires Converging(n) && Enabled(n, JoinRead)
    ensures Converging(Next(n, JoinRead))
  {
    var m := Next(n, JoinRead);
    assert Rest(m) == Rest(n) && Backlog(m) == Backlog(n);
    RestFixpoint(n);
    forall id | Live(m, id) ensures Fold(Baseline(m.clients[id]), Owed(m, id)) == m.store {
      if id == n.joiner.id {
        assert Replay(n.store)[..0] == [];
        assert Baseline(Replay(n.store)) == n.store;
      } else {
        assert Live(n, id) && Owed(m, id) == Owed(n, id);
      }
    }
  }

  /** A restart is harmless exactly when no full update is on its way and no connected browser holds a snapshot. */
  lemma RestartConvergesIff(n: Node)
    requires Enabled(n, Restart)
    ensures Converging(Next(n, Restart)) <==> NothingOldToShow(n)
  {
    var m := Next(n, Restart);
    assert Rest(m) == Rest(n) && Backlog(m) == Backlog(n);
    FoldNoneIff(None, Backlog(n));
    forall id | Live(n, id)
      ensures Live(m, id) && Owed(m, id) == Owed(n, id)
      ensures Fold(Baseline(n.clients[id]), Owed(n, id)) == None
              <==> Baseline(n.clients[id]) == None && !HasFull(Owed(n, id))
      ensures HasFull(Owed(n, id)) ==> HasFull(Backlog(n))
    {
      FoldNoneIff(Baseline(n.clients[id]), Owed(n, id));
      OwedFull(n, id);
    }
  }

  lemma OwedFull(n: Node, id: nat)
    ensures HasFull(Owed(n, id)) ==> HasFull(Backlog(n))
  {
    if HasFull(Owed(n, id)) {
      var owed, backlog := Owed(n, id), Backlog(n);
      var i :| 0 <= i < |owed| && owed[i].SnapshotUpdate?;
      assert backlog[|backlog| - |owed| + i] == owed[i];
    }
  }

  /** The steps that neither touch the store nor remove an event nor give a browser anything. */
  ghost predicate IsSilent(step: NodeStep) {
    !step.Observe? && !step.Check? && !step.Submit? && !step.LoopClosed? && !step.DrainIngress?
    && !step.SendTo? && !step.RoundEnd? && !step.JoinRead? && !step.Restart?
  }

  lemma SilentKeepsConverging(n: Node, step: NodeStep)
    requires LockOk(n) && Converging(n) && Enabled(n, step) && IsSilent(step)
    ensures Converging(Next(n, step))
  {
    SilentKeepsDebts(n, step);
    SameDebtsKeepConverging(n, Next(n, step));
  }

  /** The same store, and the same messages sent and owed to everybody who is still connected. */
  ghost predicate SameDebts(n: Node, m: Node) {
    && m.store == n.store && Backlog(m) == Backlog(n)
    && forall id :: Live(m, id) ==> Live(n, id) && m.clients[id] == n.clients[id] && Owed(m, id) == Owed(n, id)
  }

  lemma SameDebtsKeepConverging(n: Node, m: Node)
    requires Converging(n) && SameDebts(n, m)
    ensures Converging(m)
  {
    hide Backlog, Owed, Live, Reduce;
  }

  lemma SilentKeepsDebts(n: Node, step: NodeStep)
    requires LockOk(n) && Enabled(n, step) && IsSilent(step)
    ensures SameDebts(n, Next(n, step))
  {
    var m := Next(n, step);
    assert Pending(m) == Pending(n);
    assert Backlog(m) == Backlog(n) by {
      if step.Take? { assert n.pipe.queue == [n.pipe.queue[0]] + n.pipe.queue[1..]; }
    }
    assert step != Take ==> Rest(m) == Rest(n);
  }

  /** Every step keeps convergence unless it loses an event that still matters. */
  lemma StepKeepsConverging(n: Node, step: NodeStep)
    requires PipelineOk(n) && Converging(n) && Enabled(n, step) && Lossless(n, step)
    ensures Converging(Next(n, step))
  {
    match step {
      case Observe(t, e) => ObserveKeepsConverging(n, t, e);
      case Check(t) => CheckKeepsConverging(n, t);
      case Submit(t) => SubmitKeepsConverging(n, t);
      case LoopClosed(t) => LoopClosedKeepsConverging(n, t);
      case DrainIngress => DrainKeepsConverging(n);
      case SendTo(id, ok) => SendKeepsConverging(n, id, ok);
      case RoundEnd => RoundEndKeepsConverging(n);
      case JoinRead => JoinReadKeepsConverging(n);
      case Restart => RestartConvergesIff(n);
      case _ => SilentKeepsConverging(n, step);
    }
  }

  ghost predicate LosslessRun(n: Node, steps: seq<NodeStep>)
    requires Possible(n, steps)
    decreases |steps|
  {
    steps == [] || (Lossless(n, steps[0]) && LosslessRun(Next(n, steps[0]), steps[1..]))
  }

  lemma {:induction false} RunKeepsConverging(n: Node, steps: seq<NodeStep>)
    requires PipelineOk(n) && Converging(n) && Possible(n, steps) && LosslessRun(n, steps)
    ensures PipelineOk(Run(n, steps)) && Converging(Run(n, steps))
    decreases |steps|
  {
    if steps != [] {
      StepKeepsPipeline(n, steps[0]);
      StepKeepsConverging(n, steps[0]);
      RunKeepsConverging(Next(n, steps[0]), steps[1..]);
    }
  }

  lemma OwedIsPlain(n: Node, id: nat)
    requires NoSnapshots(Backlog(n))
    ensures NoSnapshots(Owed(n, id))
  {
    assert Rest(n) == Backlog(n)[|Waiting(n.inflight)|..];
  }

  /** Join convergence: in every interleaving without a loss that matters, a drained pipeline leaves every
      browser, whenever it joined, with the store's snapshot. */
  lemma JoinConvergence(steps: seq<NodeStep>, id: nat)
    requires Possible(IDLE_NODE, steps) && LosslessRun(IDLE_NODE, steps)
    requires var n := Run(IDLE_NODE, steps); Live(n, id) && NoSnapshots(Backlog(n))
    ensures var n := Run(IDLE_NODE, steps); Baseline(n.clients[id]) == n.store
  {
    StartIsOk();
    RunKeepsConverging(IDLE_NODE, steps);
    var n := Run(IDLE_NODE, steps);
    OwedIsPlain(n, id);
    NoSnapshotsNoChange(Baseline(n.clients[id]), Owed(n, id));
  }

  /** No restart that leaves an old snapshot to show, and no snapshot event skipped for want of listeners while an older
      one was queued or in flight. */
  ghost predicate Quiet(n: Node, step: NodeStep) {
    && (step.Restart? ==> NothingOldToShow(n))
    && (step == Check(READER) && n.clients == map[] ==> NoSnapshots(Waiting(n.inflight) + n.pipe.queue + n.pipe.ingress))
  }

  ghost predicate QuietRun(n: Node, steps: seq<NodeStep>)
    requires Possible(n, steps)
    decreases |steps|
  {
    steps == [] || (Quiet(n, steps[0]) && QuietRun(Next(n, steps[0]), steps[1..]))
  }

  lemma UncountedStepIsLossless(n: Node, step: NodeStep)
    requires PipelineOk(n) && Enabled(n, step) && Quiet(n, step)
    ensures Next(n, step).pipe.dropped >= n.pipe.dropped
    ensures Next(n, step).pipe.dropped == n.pipe.dropped ==> Lossless(n, step)
  {
    var none: seq<Event> := [];
    assert NoSnapshots(none);
    if step.DrainIngress? {
      assert (n.pipe.queue + n.pipe.ingress)[..0] == none;
    }
  }

  lemma {:induction false} UncountedRunIsLossless(n: Node, steps: seq<NodeStep>)
    requires PipelineOk(n) && Possible(n, steps) && QuietRun(n, steps)
    ensures Run(n, steps).pipe.dropped >= n.pipe.dropped
    ensures Run(n, steps).pipe.dropped == n.pipe.dropped ==> LosslessRun(n, steps)
    decreases |steps|
  {
    if steps != [] {
      StepKeepsPipeline(n, steps[0]);
      UncountedStepIsLossless(n, steps[0]);
      UncountedRunIsLossless(Next(n, steps[0]), steps[1..]);
    }
  }

  /** Join convergence by what an operator can read off: a drop counter at zero and no shortcut with older events on
      their way mean that every browser, whenever it joined, shows the store's snapshot once the pipeline is drained. */
  lemma ZeroDropsMeansConvergence(steps: seq<NodeStep>, id: nat)
    requires Possible(IDLE_NODE, steps) && QuietRun(IDLE_NODE, steps)
    requires var n := Run(IDLE_NODE, steps); n.pipe.dropped == 0 && Live(n, id) && NoSnapshots(Backlog(n))
    ensures var n := Run(IDLE_NODE, steps); Baseline(n.clients[id]) == n.store
  {
    StartIsOk();
    UncountedRunIsLossless(IDLE_NODE, steps);
    JoinConvergence(steps, id);
  }

  /** From any state at all, a full update just stored is what everyone's debt ends in. */
  lemma ObservedFullConverges(n: Node, full: Snapshot)
    requires Enabled(n, Observe(READER, SnapshotUpdate(full)))
    ensures Converging(Next(n, Observe(READER, SnapshotUpdate(full))))
  {
    var m := Next(n, Observe(READER, SnapshotUpdate(full)));
    var rest, backlog := Rest(m), Backlog(m);
    assert rest[|rest| - 1] == SnapshotUpdate(full) && backlog[|backlog| - 1] == SnapshotUpdate(full);
    assert forall s :: Fold(s, backlog) == Some(full) && Fold(s, rest) == Some(full);
  }

  /** Recovery: whatever was lost before, a full update that is observed and not lost later brings every browser back. */
  lemma RecoveryAfterLoss(n: Node, full: Snapshot, steps: seq<NodeStep>, id: nat)
    requires PipelineOk(n) && Enabled(n, Observe(READER, SnapshotUpdate(full)))
    requires var m := Next(n, Observe(READER, SnapshotUpdate(full))); Possible(m, steps) && LosslessRun(m, steps)
    requires var r := Run(Next(n, Observe(READER, SnapshotUpdate(full))), steps); Live(r, id) && NoSnapshots(Backlog(r))
    ensures var r := Run(Next(n, Observe(READER, SnapshotUpdate(full))), steps); Baseline(r.clients[id]) == r.store
  {
    var step := Observe(READER, SnapshotUpdate(full));
    StepKeepsPipeline(n, step);
    ObservedFullConverges(n, full);
    RunKeepsConverging(Next(n, step), steps);
    var r := Run(Next(n, step), steps);
    OwedIsPlain(r, id);
    NoSnapshotsNoChange(Baseline(r.clients[id]), Owed(r, id));
  }
}
