/** The console in every interleaving: when each browser ends with exactly the ring's lines. */
module ConsoleConvergence {
  import opened Common
  import opened Snapshots
  import opened WebSocketManager
  import opened NodeProtocol
  import opened Convergence
  import opened Draining
  import opened SessionReset
  import R = ConsoleViews

  const MAX: nat := R.CONSOLE_RING_MAX

  /** `seeds` are the ring's lines that each browser was replayed since the last clear, and `holder` the thread that has put a batch into the
      ring and not handed it to the pipeline yet. */
  datatype Screens = Screens(desk: Desk, seeds: map<nat, seq<string>>, holder: Option<nat>)

  datatype ScreenStep =
    | ReadRing(id: nat)       // the joining browser's replay gets the ring's lines
    | Move(step: DeskStep)

  ghost predicate ScreenEnabled(s: Screens, step: ScreenStep) {
    match step
    case ReadRing(id) => s.desk.node.joiner == Replaying(id)
    case Move(m) => DeskEnabled(s.desk, m)
  }

  function HolderAfter(s: Screens, step: DeskStep): Option<nat>
    requires DeskEnabled(s.desk, step)
  {
    if step.EmitBatch? then Some(step.t)
    else if s.holder.Some? && !HoldsEvent(PhaseOf(DeskNext(s.desk, step).node, s.holder.value)) then None
    else s.holder
  }

  /** What a browser's messages and what it is still owed hold, the reader's own event aside, which is no console batch. */
  function Debt(n: Node, id: nat): seq<Event>
    requires id in n.clients
  {
    n.clients[id] + (if n.round.Some? && id !in n.round.value then [] else Waiting(n.inflight)) + (n.pipe.queue + n.pipe.ingress)
  }

  function HeldLines(s: Screens): seq<string> {
    if s.holder.Some? && HoldsBatch(s.desk.node, s.holder.value)
    then PhaseOf(s.desk.node, s.holder.value).e.lines else []
  }

  /** This browser shows nothing, and no console line is on its way to it. */
  predicate IsBlank(s: Screens, id: nat)
    requires id in s.seeds && id in s.desk.node.clients
  {
    s.seeds[id] == [] && R.ConsoleLines(Debt(s.desk.node, id)) == [] && HeldLines(s) == []
  }

  /** A clear leaves the browsers that were replayed before it to their old lines, unless they have none. */
  function SeedsAfter(s: Screens, step: DeskStep): map<nat, seq<string>> {
    if step.Inside? && step.move.JoinAdd? then s.seeds - {step.move.id}
    else if step.ClearRing? then map id | id in s.seeds && id in s.desk.node.clients && IsBlank(s, id) :: s.seeds[id]
    else s.seeds
  }

  function ScreenNext(s: Screens, step: ScreenStep): Screens
    requires ScreenEnabled(s, step)
  {
    match step
    case ReadRing(id) => s.(seeds := s.seeds[id := s.desk.ring])
    case Move(m) => Screens(DeskNext(s.desk, m), SeedsAfter(s, m), HolderAfter(s, m))
  }

  /** The ring is what this browser will show once it has got everything. */
  ghost predicate WillShow(s: Screens, id: nat)
    requires id in s.seeds && id in s.desk.node.clients
  {
    s.desk.ring == LastN(s.seeds[id] + R.ConsoleLines(Debt(s.desk.node, id)) + HeldLines(s), MAX)
  }

  predicate HoldsBatch(n: Node, t: nat) {
    HoldsEvent(PhaseOf(n, t)) && PhaseOf(n, t).e.ConsoleBatch?
  }

  ghost predicate HolderOk(s: Screens) {
    forall t: nat :: HoldsBatch(s.desk.node, t) <==> s.holder == Some(t)
  }

  /** A joining browser has been sent no console batch yet. */
  ghost predicate JoinerOk(s: Screens) {
    var n := s.desk.node;
    && (n.joiner != NoJoiner ==> n.joiner.id in n.clients && R.ConsoleLines(n.clients[n.joiner.id]) == [])
    && (n.joiner.Added? ==> n.joiner.id !in s.seeds)
  }

  ghost predicate AllWillShow(s: Screens) {
    && (forall id :: id in s.seeds ==> |s.seeds[id]| <= MAX)
    && (forall id :: id in s.seeds && Live(s.desk.node, id) ==> WillShow(s, id))
  }

  ghost predicate ScreensOk(s: Screens) {
    LockOk(s.desk.node) && HolderOk(s) && JoinerOk(s) && |s.desk.ring| <= MAX && AllWillShow(s)
  }

  /** The guards: the ring is read while no batch is in flight, one thread at a time is between ring and pipeline, and no
      batch is shed. */
  ghost predicate Tidy(s: Screens, step: ScreenStep) {
    var n := s.desk.node;
    match step
    case ReadRing(_) => s.holder == None && R.ConsoleLines(Waiting(n.inflight) + (n.pipe.queue + n.pipe.ingress)) == []
    case Move(EmitBatch(_, _)) => s.holder == None
    case Move(Inside(Submit(t))) => |n.pipe.ingress| == QUEUE_MAX ==> !n.pipe.ingress[0].ConsoleBatch?
    case Move(Inside(DrainIngress)) =>
      R.ConsoleLines((n.pipe.queue + n.pipe.ingress)[..Overflow(|n.pipe.queue + n.pipe.ingress|)]) == []
    case Move(Inside(LoopClosed(_))) => R.ConsoleLines(n.pipe.ingress) == []
    case _ => true
  }

  // ----------------------------------------------------------------------------- debts

  lemma LinesThree(a: seq<Event>, b: seq<Event>, c: seq<Event>)
    ensures R.ConsoleLines(a + b + c) == R.ConsoleLines(a) + R.ConsoleLines(b) + R.ConsoleLines(c)
  {
    R.ConsoleLinesConcat(a + b, c);
    R.ConsoleLinesConcat(a, b);
  }

  lemma LinesOne(e: Event)
    ensures R.ConsoleLines([e]) == if e.ConsoleBatch? then e.lines else []
  {
    assert [e][..0] == [];
    assert R.ConsoleLines([]) == [];
  }

  predicate MovesNoEvent(step: NodeStep) {
    !step.Submit? && !step.DrainIngress? && !step.LoopClosed?
  }

  lemma DebtSame(n: Node, step: NodeStep, id: nat)
    requires LockOk(n) && Enabled(n, step) && MovesNoEvent(step) && Live(Next(n, step), id)
    requires !(step.JoinRead? && id == n.joiner.id)
    ensures Live(n, id) && Debt(Next(n, step), id) == Debt(n, id)
  {
    if step.SendTo? && id == step.id {
      var x, rest := n.inflight.value, n.pipe.queue + n.pipe.ingress;
      assert n.clients[id] + [x] + [] + rest == n.clients[id] + [x] + rest;
    } else if step.Take? {
      var q := n.pipe.queue;
      assert n.clients[id] + [q[0]] + (q[1..] + n.pipe.ingress) == n.clients[id] + [] + (q + n.pipe.ingress);
    }
  }

  function Front(n: Node, id: nat): seq<Event>
    requires id in n.clients
  {
    n.clients[id] + (if n.round.Some? && id !in n.round.value then [] else Waiting(n.inflight))
  }

  lemma DebtLines(n: Node, id: nat)
    requires id in n.clients
    ensures R.ConsoleLines(Debt(n, id))
            == R.ConsoleLines(Front(n, id)) + (R.ConsoleLines(n.pipe.queue) + R.ConsoleLines(n.pipe.ingress))
  {
    R.ConsoleLinesConcat(Front(n, id), n.pipe.queue + n.pipe.ingress);
    R.ConsoleLinesConcat(n.pipe.queue, n.pipe.ingress);
  }

  lemma LastNLines(s: seq<Event>, k: nat)
    requires k <= |s| && R.ConsoleLines(s[..k]) == []
    ensures R.ConsoleLines(s[k..]) == R.ConsoleLines(s)
  {
    R.ConsoleLinesConcat(s[..k], s[k..]);
    assert s == s[..k] + s[k..];
    assert [] + R.ConsoleLines(s[k..]) == R.ConsoleLines(s[k..]);
  }

  lemma AcceptLines(p: Pipe, e: Event)
    requires Bounded(p) && (|p.ingress| == QUEUE_MAX ==> !p.ingress[0].ConsoleBatch?)
    ensures R.ConsoleLines(Accept(p, e).ingress) == R.ConsoleLines(p.ingress) + R.ConsoleLines([e])
  {
    var all := p.ingress + [e];
    R.ConsoleLinesConcat(p.ingress, [e]);
    if |p.ingress| == QUEUE_MAX {
      assert all[..1] == [p.ingress[0]];
      LinesOne(p.ingress[0]);
      LastNLines(all, 1);
    }
  }

  lemma SubmitDebt(n: Node, t: nat, id: nat)
    requires Bounded(n.pipe) && Enabled(n, Submit(t)) && Live(n, id)
    requires |n.pipe.ingress| == QUEUE_MAX ==> !n.pipe.ingress[0].ConsoleBatch?
    ensures var m := Next(n, Submit(t));
            R.ConsoleLines(Debt(m, id)) == R.ConsoleLines(Debt(n, id)) + R.ConsoleLines([PhaseOf(n, t).e])
  {
    hide R.ConsoleLines;
    AcceptLines(n.pipe, PhaseOf(n, t).e);
    DebtLines(n, id);
    DebtLines(Next(n, Submit(t)), id);
    var f, q, i, e := R.ConsoleLines(Front(n, id)), R.ConsoleLines(n.pipe.queue), R.ConsoleLines(n.pipe.ingress),
                      R.ConsoleLines([PhaseOf(n, t).e]);
    assert f + (q + (i + e)) == f + (q + i) + e;
  }

  lemma ShedDebt(n: Node, step: NodeStep, id: nat)
    requires Enabled(n, step) && (step.DrainIngress? || step.LoopClosed?) && Live(n, id)
    requires var all := n.pipe.queue + n.pipe.ingress;
             R.ConsoleLines(if step.DrainIngress? then all[..Overflow(|all|)] else n.pipe.ingress) == []
    ensures R.ConsoleLines(Debt(Next(n, step), id)) == R.ConsoleLines(Debt(n, id))
  {
    hide R.ConsoleLines;
    var m := Next(n, step);
    var all := n.pipe.queue + n.pipe.ingress;
    DebtLines(n, id);
    DebtLines(m, id);
    R.ConsoleLinesConcat(n.pipe.queue, n.pipe.ingress);
    assert R.ConsoleLines([]) == [] by { NoLines(); }
    if step.DrainIngress? {
      LastNLines(all, Overflow(|all|));
      assert m.pipe.queue == all[Overflow(|all|)..];
    }
  }

  lemma NoLines()
    ensures R.ConsoleLines([]) == []
  {
  }

  // ----------------------------------------------------------------------------- steps

  lemma HeldAfterMove(s: Screens, step: NodeStep)
    requires HolderOk(s) && DeskEnabled(s.desk, Inside(step)) && !step.Submit? && (step.Check? ==> s.desk.node.clients != map[])
    ensures HeldLines(ScreenNext(s, Move(Inside(step)))) == HeldLines(s)
  {
    var m := Next(s.desk.node, step);
    if s.holder.Some? {
      var h := s.holder.value;
      assert HoldsBatch(s.desk.node, h);
      assert HoldsBatch(m, h) && PhaseOf(m, h).e == PhaseOf(s.desk.node, h).e;
    }
  }

  lemma MoveKeepsHolder(s: Screens, step: NodeStep)
    requires HolderOk(s) && DeskEnabled(s.desk, Inside(step))
    ensures HolderOk(ScreenNext(s, Move(Inside(step))))
  {
    var n, m, after := s.desk.node, Next(s.desk.node, step), HolderAfter(s, Inside(step));
    forall t: nat ensures HoldsBatch(m, t) <==> after == Some(t) {
      assert HoldsBatch(n, t) <==> s.holder == Some(t);
    }
  }

  lemma HeldAfterSubmit(s: Screens, t: nat)
    requires HolderOk(s) && DeskEnabled(s.desk, Inside(Submit(t)))
    ensures var e := PhaseOf(s.desk.node, t).e;
            var next := ScreenNext(s, Move(Inside(Submit(t))));
            R.ConsoleLines([e]) + HeldLines(next) == HeldLines(s)
  {
    var n := s.desk.node;
    var e := PhaseOf(n, t).e;
    var next := ScreenNext(s, Move(Inside(Submit(t))));
    LinesOne(e);
    assert HoldsBatch(n, t) <==> s.holder == Some(t);
    if s.holder != Some(t) && s.holder.Some? {
      assert HoldsBatch(n, s.holder.value);
      assert PhaseOf(next.desk.node, s.holder.value) == PhaseOf(n, s.holder.value);
    }
  }

  lemma SubmitKeepsShowing(s: Screens, t: nat, id: nat)
    requires ScreensOk(s) && Bounded(s.desk.node.pipe) && DeskEnabled(s.desk, Inside(Submit(t))) && Tidy(s, Move(Inside(Submit(t))))
    requires id in s.seeds && Live(s.desk.node, id)
    ensures WillShow(ScreenNext(s, Move(Inside(Submit(t)))), id)
  {
    HeldAfterSubmit(s, t);
    SubmitDebt(s.desk.node, t, id);
    assert WillShow(s, id);
    hide R.ConsoleLines, HeldLines, Debt, LastN, HolderOk, JoinerOk, AllWillShow, LockOk, Tidy, HolderAfter, Accept;
    var next := ScreenNext(s, Move(Inside(Submit(t))));
    FourParts(s.seeds[id], R.ConsoleLines(Debt(s.desk.node, id)), R.ConsoleLines([PhaseOf(s.desk.node, t).e]), HeldLines(next));
  }

  lemma FourParts<T>(a: seq<T>, b: seq<T>, c: seq<T>, d: seq<T>)
    ensures a + (b + c) + d == a + b + (c + d)
  {
  }

  lemma MoveKeepsShowing(s: Screens, step: NodeStep, id: nat)
    requires ScreensOk(s) && Bounded(s.desk.node.pipe) && DeskEnabled(s.desk, Inside(step)) && Tidy(s, Move(Inside(step)))
    requires var next := ScreenNext(s, Move(Inside(step))); id in next.seeds && Live(next.desk.node, id)
    ensures WillShow(ScreenNext(s, Move(Inside(step))), id)
  {
    hide R.ConsoleLines, HolderOk, Debt;
    var n := s.desk.node;
    if step.Submit? {
      SubmitKeepsShowing(s, step.t, id);
    } else {
      assert step.Check? ==> n.clients != map[];
      HeldAfterMove(s, step);
      if step.DrainIngress? || step.LoopClosed? {
        ShedDebt(n, step, id);
      } else {
        DebtSame(n, step, id);
      }
      assert WillShow(s, id);
    }
  }

  lemma MoveKeepsJoiner(s: Screens, step: NodeStep)
    requires JoinerOk(s) && LockOk(s.desk.node) && DeskEnabled(s.desk, Inside(step))
    ensures JoinerOk(ScreenNext(s, Move(Inside(step))))
  {
    hide R.ConsoleLines;
    NoLines();
    if step.JoinRead? {
      ReplayHasNoLines(s.desk.node.store);
    }
  }

  lemma ReplayHasNoLines(store: Option<Snapshot>)
    ensures R.ConsoleLines(Replay(store)) == []
  {
    NoLines();
    if store.Some? { LinesOne(SnapshotUpdate(store.value)); }
  }

  lemma MoveKeepsScreens(s: Screens, step: NodeStep)
    requires ScreensOk(s) && PipelineOk(s.desk.node) && DeskEnabled(s.desk, Inside(step)) && Tidy(s, Move(Inside(step)))
    ensures ScreensOk(ScreenNext(s, Move(Inside(step))))
  {
    StepKeepsPipeline(s.desk.node, step);
    PipelineParts(s.desk.node);
    PipelineParts(Next(s.desk.node, step));
    MoveKeepsHolder(s, step);
    MoveKeepsJoiner(s, step);
    hide PipelineOk, LockOk, HolderOk, JoinerOk, WillShow, Tidy;
    var next := ScreenNext(s, Move(Inside(step)));
    forall id | id in next.seeds && Live(next.desk.node, id) ensures WillShow(next, id) {
      MoveKeepsShowing(s, step, id);
    }
  }

  lemma EmitKeepsShowing(s: Screens, k: nat, t: nat, id: nat)
    requires ScreensOk(s) && DeskEnabled(s.desk, EmitBatch(k, t)) && s.holder == None
    requires id in s.seeds && Live(s.desk.node, id)
    ensures WillShow(ScreenNext(s, Move(EmitBatch(k, t))), id)
  {
    hide R.ConsoleLines;
    var lines := s.desk.batcher.batches[k];
    var next := ScreenNext(s, Move(EmitBatch(k, t)));
    DebtSame(s.desk.node, Observe(t, ConsoleBatch(lines)), id);
    assert WillShow(s, id);
    assert HeldLines(s) == [] && HeldLines(next) == lines;
    var shown := s.seeds[id] + R.ConsoleLines(Debt(s.desk.node, id));
    assert shown + [] == shown;
    LastNAbsorbs(shown, lines, MAX);
  }

  lemma EmitKeepsScreens(s: Screens, k: nat, t: nat)
    requires ScreensOk(s) && PipelineOk(s.desk.node) && DeskEnabled(s.desk, EmitBatch(k, t)) && s.holder == None
    ensures ScreensOk(ScreenNext(s, Move(EmitBatch(k, t))))
  {
    var n := s.desk.node;
    var o := Observe(t, ConsoleBatch(s.desk.batcher.batches[k]));
    var next := ScreenNext(s, Move(EmitBatch(k, t)));
    assert HolderOk(next) by {
      forall u: nat ensures HoldsBatch(next.desk.node, u) <==> next.holder == Some(u) {
        assert HoldsBatch(n, u) <==> s.holder == Some(u);
      }
    }
    hide PipelineOk, HolderOk, WillShow, R.ConsoleLines;
    forall id | id in next.seeds && Live(next.desk.node, id) ensures WillShow(next, id) {
      EmitKeepsShowing(s, k, t, id);
    }
  }

  lemma ReadKeepsScreens(s: Screens, id: nat)
    requires ScreensOk(s) && ScreenEnabled(s, ReadRing(id)) && Tidy(s, ReadRing(id))
    ensures ScreensOk(ScreenNext(s, ReadRing(id)))
  {
    hide R.ConsoleLines;
    var n := s.desk.node;
    var next := ScreenNext(s, ReadRing(id));
    var coming := n.pipe.queue + n.pipe.ingress;
    assert n.round.None?;
    R.ConsoleLinesConcat(n.clients[id], Waiting(n.inflight) + coming);
    assert Debt(n, id) == n.clients[id] + (Waiting(n.inflight) + coming);
    assert HeldLines(next) == [];
    assert s.desk.ring + [] + [] == s.desk.ring;
    assert WillShow(next, id);
    forall j | j in next.seeds && Live(next.desk.node, j) ensures WillShow(next, j) {
      if j != id { assert WillShow(s, j); }
    }
  }

  lemma BatchingKeepsScreens(s: Screens, step: DeskStep)
    requires ScreensOk(s) && DeskEnabled(s.desk, step) && step.Batching?
    ensures ScreensOk(ScreenNext(s, Move(step)))
  {
    hide R.ConsoleLines;
    var next := ScreenNext(s, Move(step));
    assert HolderAfter(s, step) == s.holder by {
      if s.holder.Some? { assert HoldsBatch(s.desk.node, s.holder.value); }
    }
    forall j | j in next.seeds && Live(next.desk.node, j) ensures WillShow(next, j) {
      assert WillShow(s, j);
    }
  }

  /** For a browser that stays connected a clear is harmless exactly if it shows nothing and is owed nothing. */
  lemma ClearHarmlessIff(s: Screens, id: nat)
    requires id in s.seeds && id in s.desk.node.clients
    ensures WillShow(s.(desk := DeskNext(s.desk, ClearRing)), id) <==> IsBlank(s, id)
  {
    hide R.ConsoleLines, HeldLines, Debt;
    var cleared := s.(desk := DeskNext(s.desk, ClearRing));
    assert HeldLines(cleared) == HeldLines(s) by { SameHeld(s, cleared); }
    var lines, held := R.ConsoleLines(Debt(s.desk.node, id)), HeldLines(s);
    assert |s.seeds[id] + lines + held| == |s.seeds[id]| + |lines| + |held|;
  }

  lemma SameHeld(s: Screens, t: Screens)
    requires t.desk.node == s.desk.node && t.holder == s.holder
    ensures HeldLines(t) == HeldLines(s)
  {
  }

  lemma ClearKeepsScreens(s: Screens)
    requires ScreensOk(s)
    ensures ScreensOk(ScreenNext(s, Move(ClearRing)))
  {
    hide R.ConsoleLines, HeldLines, Debt;
    var next := ScreenNext(s, Move(ClearRing));
    assert HolderAfter(s, ClearRing) == s.holder by {
      if s.holder.Some? { assert HoldsBatch(s.desk.node, s.holder.value); }
    }
    SameHeld(s, next);
    forall id | id in next.seeds && Live(next.desk.node, id) ensures WillShow(next, id) {
      assert IsBlank(s, id) && next.seeds[id] == [];
      assert LastN<string>([] + [] + [], MAX) == [];
    }
  }

  lemma StepKeepsScreens(s: Screens, step: ScreenStep)
    requires ScreensOk(s) && PipelineOk(s.desk.node) && ScreenEnabled(s, step) && Tidy(s, step)
    ensures ScreensOk(ScreenNext(s, step)) && PipelineOk(ScreenNext(s, step).desk.node)
  {
    hide ScreensOk, PipelineOk;
    match step {
      case ReadRing(id) => ReadKeepsScreens(s, id);
      case Move(m) =>
        match m {
          case Inside(move) =>
            MoveKeepsScreens(s, move);
            StepKeepsPipeline(s.desk.node, move);
          case EmitBatch(k, t) =>
            EmitKeepsScreens(s, k, t);
            StepKeepsPipeline(s.desk.node, Observe(t, ConsoleBatch(s.desk.batcher.batches[k])));
          case Batching(_) => BatchingKeepsScreens(s, m);
          case ClearRing => ClearKeepsScreens(s);
        }
    }
  }

  // ------------------------------------------------------------------------------ runs

  ghost predicate TidyRun(s: Screens, steps: seq<ScreenStep>)
    decreases |steps|
  {
    steps == []
    || (ScreenEnabled(s, steps[0]) && Tidy(s, steps[0]) && TidyRun(ScreenNext(s, steps[0]), steps[1..]))
  }

  function ScreenRun(s: Screens, steps: seq<ScreenStep>): Screens
    requires TidyRun(s, steps)
    decreases |steps|
  {
    if steps == [] then s else ScreenRun(ScreenNext(s, steps[0]), steps[1..])
  }

  lemma {:induction false} RunKeepsScreens(s: Screens, steps: seq<ScreenStep>)
    requires ScreensOk(s) && PipelineOk(s.desk.node) && TidyRun(s, steps)
    ensures ScreensOk(ScreenRun(s, steps)) && PipelineOk(ScreenRun(s, steps).desk.node)
    decreases |steps|
  {
    hide ScreensOk, PipelineOk, Tidy, ScreenNext, ScreenEnabled;
    if steps != [] {
      StepKeepsScreens(s, steps[0]);
      RunKeepsScreens(ScreenNext(s, steps[0]), steps[1..]);
    }
  }

  const BLANK := Screens(START, map[], None)

  lemma BlankIsOk()
    ensures ScreensOk(BLANK) && PipelineOk(BLANK.desk.node)
  {
    StartIsOk();
    assert forall t :: PhaseOf(IDLE_NODE, t) == Idle;
  }

  /** The console of a browser that was replayed `seed` and then sent these messages. */
  function Screen(seed: seq<string>, inbox: seq<Event>): seq<string> {
    R.Shown(R.Shown([], R.ReplayBatch(seed), MAX), inbox, MAX)
  }

  lemma ScreenIsLastN(seed: seq<string>, inbox: seq<Event>)
    requires |seed| <= MAX
    ensures Screen(seed, inbox) == LastN(seed + R.ConsoleLines(inbox), MAX)
  {
    assert LastN<string>([], MAX) == [] && LastN(seed, MAX) == seed;
    R.ShownIsLastN([], R.ReplayBatch(seed), MAX);
    assert R.ConsoleLines(R.ReplayBatch(seed)) == seed by {
      NoLines();
      if seed != [] { LinesOne(ConsoleBatch(seed)); }
    }
    assert [] + seed == seed;
    R.ShownIsLastN(seed, inbox, MAX);
  }

  /** Console convergence: in every interleaving that keeps to the guards, over any number of sessions, once no batch is on
      its way every browser that was replayed the ring since the last clear, or showed nothing at it, shows exactly the
      ring, whenever it joined. */
  lemma ScreensConverge(steps: seq<ScreenStep>, id: nat)
    requires TidyRun(BLANK, steps)
    requires var s := ScreenRun(BLANK, steps);
             && id in s.seeds && Live(s.desk.node, id)
             && s.holder == None && R.ConsoleLines(Waiting(s.desk.node.inflight) + (s.desk.node.pipe.queue + s.desk.node.pipe.ingress)) == []
    ensures var s := ScreenRun(BLANK, steps); Screen(s.seeds[id], s.desk.node.clients[id]) == s.desk.ring
  {
    hide R.ConsoleLines, PipelineOk, HolderOk, JoinerOk, ScreenRun, Screen;
    BlankIsOk();
    RunKeepsScreens(BLANK, steps);
    var s := ScreenRun(BLANK, steps);
    var n := s.desk.node;
    assert WillShow(s, id);
    DebtLines(n, id);
    R.ConsoleLinesConcat(Waiting(n.inflight), n.pipe.queue + n.pipe.ingress);
    R.ConsoleLinesConcat(n.pipe.queue, n.pipe.ingress);
    var ahead := if n.round.Some? && id !in n.round.value then [] else Waiting(n.inflight);
    R.ConsoleLinesConcat(n.clients[id], ahead);
    assert R.ConsoleLines([]) == [] by { NoLines(); }
    var lines := R.ConsoleLines(n.clients[id]);
    assert R.ConsoleLines(Debt(n, id)) == lines + [] + ([] + []);
    assert s.seeds[id] + (lines + [] + ([] + [])) + [] == s.seeds[id] + lines;
    ScreenIsLastN(s.seeds[id], n.clients[id]);
  }
}
