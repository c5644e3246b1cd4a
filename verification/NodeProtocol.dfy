/** The node as a step relation: producer threads observe and emit, the loop drains and broadcasts, browsers join.
    Each step is one lock-protected section or one stretch of loop code without an await; only a replay is one step
    although its sends are awaited, since the send lock keeps everything else from the joining socket meanwhile. */
module NodeProtocol {
  import opened Common
  import opened Snapshots
  import opened WebSocketManager

  /** The serial reader; only it produces snapshot events. Every other number is a timer or request thread. */
  const READER: nat := 0

  /** Where a producer thread stands inside `on_event` and `emit_from_thread`. */
  datatype Phase = Idle | Observed(e: Event) | Checked(e: Event) | MustSchedule

  /** The holder of the send lock, if it is a connecting socket. */
  datatype Joiner = NoJoiner | Added(id: nat) | Replaying(id: nat)

  datatype Node = Node(
    store: Option<Snapshot>,
    phases: map<nat, Phase>,
    pipe: Pipe,
    callbacks: nat,
    inflight: Option<Event>,
    round: Option<set<nat>>,   // the broadcaster holds the send lock; these sockets are still to be sent the event
    dead: set<nat>,            // sockets whose send raised in this round
    joiner: Joiner,
    clients: Sockets,
    accepted: seq<Event>,
    sent: seq<Event>)

  const IDLE_NODE := Node(None, map[], EMPTY_PIPE, 0, None, None, {}, NoJoiner, map[], [], [])

  datatype NodeStep =
    | Observe(t: nat, e: Event)       // the stores fold the event
    | Check(t: nat)                   // is anyone listening?
    | Submit(t: nat)                  // first critical section of the emit
    | Schedule(t: nat)                // the callback is posted
    | LoopClosed(t: nat)              // posting it raised
    | DrainIngress                    // the callback runs
    | Take                            // the broadcaster gets an event, and waits for the send lock
    | RoundBegin                      // it has the lock and lists the sockets
    | SendTo(id: nat, ok: bool)       // one of them is sent the event, or its send raises
    | RoundEnd                        // the broken ones are disconnected and the lock is released
    | JoinAdd(id: nat)                // a socket is added under the send lock
    | JoinRead                        // the replay is read from the store and sent
    | JoinEnd(ok: bool)               // the send lock is released
    | Leave(id: nat)
    | Restart                         // `open_serial` empties parser and store

  function PhaseOf(n: Node, t: nat): Phase {
    if t in n.phases then n.phases[t] else Idle
  }

  ghost predicate Enabled(n: Node, step: NodeStep) {
    match step
    case Observe(t, e) => PhaseOf(n, t).Idle? && (t != READER ==> !IsSnapshotEvent(e))
    case Check(t) => PhaseOf(n, t).Observed?
    case Submit(t) => PhaseOf(n, t).Checked?
    case Schedule(t) => PhaseOf(n, t).MustSchedule?
    case LoopClosed(t) => PhaseOf(n, t).MustSchedule?
    case DrainIngress => n.callbacks > 0
    case Take => n.inflight.None? && n.pipe.queue != []
    case RoundBegin => n.inflight.Some? && n.round.None? && n.joiner.NoJoiner?
    case SendTo(id, _) => n.inflight.Some? && n.round.Some? && id in n.round.value
    case RoundEnd => n.inflight.Some? && n.round == Some({})
    case JoinAdd(id) => n.joiner.NoJoiner? && n.round.None? && id !in n.clients
    case JoinRead => n.joiner.Added?
    case JoinEnd(_) => n.joiner.Replaying?
    case Leave(id) => n.joiner.NoJoiner? || n.joiner.id != id
    case Restart => PhaseOf(n, READER).Idle?
  }

  function Replay(store: Option<Snapshot>): seq<Event> {
    if store.Some? then [SnapshotUpdate(store.value)] else []
  }

  function Next(n: Node, step: NodeStep): Node
    requires Enabled(n, step)
  {
    match step
    case Observe(t, e) => n.(store := Reduce(n.store, e), phases := n.phases[t := Observed(e)])
    case Check(t) =>
      n.(phases := n.phases[t := if n.clients == map[] then Idle else Checked(PhaseOf(n, t).e)])
    case Submit(t) =>
      var e := PhaseOf(n, t).e;
      n.(phases := n.phases[t := if n.pipe.drainScheduled then Idle else MustSchedule],
         pipe := Accept(n.pipe, e), accepted := n.accepted + [e])
    case Schedule(t) => n.(phases := n.phases[t := Idle], callbacks := n.callbacks + 1)
    case LoopClosed(t) => n.(phases := n.phases[t := Idle], pipe := Abandon(n.pipe))
    case DrainIngress => n.(callbacks := n.callbacks - 1, pipe := Drain(n.pipe))
    case Take => n.(inflight := Some(n.pipe.queue[0]), pipe := n.pipe.(queue := n.pipe.queue[1..]))
    case RoundBegin => n.(round := Some(n.clients.Keys), dead := {})
    case SendTo(id, ok) =>
      n.(round := Some(n.round.value - {id}),
         dead := if ok then n.dead else n.dead + {id},
         clients := if ok && id in n.clients then n.clients[id := n.clients[id] + [n.inflight.value]] else n.clients)
    case RoundEnd =>
      n.(inflight := None, round := None, dead := {}, clients := n.clients - n.dead, sent := n.sent + [n.inflight.value])
    case JoinAdd(id) => n.(joiner := Added(id), clients := n.clients[id := []])
    case JoinRead => n.(joiner := Replaying(n.joiner.id), clients := n.clients[n.joiner.id := Replay(n.store)])
    case JoinEnd(ok) => n.(joiner := NoJoiner, clients := if ok then n.clients else n.clients - {n.joiner.id})
    case Leave(id) => n.(clients := n.clients - {id})
    case Restart => n.(store := None)
  }

  // ------------------------------------------------------- the pipeline invariant

  function Waiting(o: Option<Event>): seq<Event> {
    if o.Some? then [o.value] else []
  }

  ghost predicate Poster(n: Node, t: nat) {
    PhaseOf(n, t).MustSchedule?
  }

  /** Marked as scheduled exactly when one callback is posted or one thread is about to post it. */
  ghost predicate Wakeup(n: Node) {
    && (forall s, t :: Poster(n, s) && Poster(n, t) ==> s == t)
    && n.callbacks <= 1
    && (n.callbacks == 1 ==> forall t :: !Poster(n, t))
    && (n.pipe.drainScheduled <==> n.callbacks == 1 || exists t :: Poster(n, t))
    && (n.pipe.ingress != [] ==> n.pipe.drainScheduled)
  }

  ghost predicate InOrder(n: Node) {
    Subsequence(n.sent + Waiting(n.inflight) + n.pipe.queue + n.pipe.ingress, n.accepted)
  }

  /** Only the reader carries snapshot events. */
  ghost predicate OthersArePlain(n: Node) {
    forall t :: t != READER && (PhaseOf(n, t).Observed? || PhaseOf(n, t).Checked?) ==> !IsSnapshotEvent(PhaseOf(n, t).e)
  }

  /** The send lock: a joining socket and a broadcast exclude each other. */
  ghost predicate LockOk(n: Node) {
    && (n.joiner.NoJoiner? || n.round.None?)
    && (n.round.Some? ==> n.inflight.Some?)
    && (n.round.None? ==> n.dead == {})
  }

  ghost predicate PipelineOk(n: Node) {
    && Bounded(n.pipe)
    && LockOk(n)
    && Wakeup(n)
    && InOrder(n)
    && |n.accepted| == |n.sent| + |Waiting(n.inflight)| + |n.pipe.queue| + |n.pipe.ingress| + n.pipe.dropped
    && OthersArePlain(n)
  }

  lemma SubmitKeepsOrder(n: Node, t: nat)
    requires Bounded(n.pipe) && InOrder(n) && Enabled(n, Submit(t))
    ensures InOrder(Next(n, Submit(t)))
  {
    var e := PhaseOf(n, t).e;
    var front := n.sent + Waiting(n.inflight) + n.pipe.queue;
    var ingress := n.pipe.ingress;
    SubsequenceAppend(front + ingress, n.accepted, e);
    assert front + ingress + [e] == front + (ingress + [e]);
    if |ingress| == QUEUE_MAX {
      assert front + (ingress + [e]) == front + [ingress[0]] + (ingress + [e])[1..];
      SubsequenceErase(front, [ingress[0]], (ingress + [e])[1..], n.accepted + [e]);
    }
  }

  lemma DrainKeepsOrder(n: Node)
    requires Bounded(n.pipe) && InOrder(n) && Enabled(n, DrainIngress)
    ensures InOrder(Next(n, DrainIngress))
  {
    var front := n.sent + Waiting(n.inflight);
    var all := n.pipe.queue + n.pipe.ingress;
    var k := Overflow(|all|);
    assert front + n.pipe.queue + n.pipe.ingress == front + all[..k] + all[k..];
    SubsequenceErase(front, all[..k], all[k..], n.accepted);
    assert all[k..] == LastN(all, QUEUE_MAX);
    assert front + all[k..] + [] == front + all[k..];
  }

  lemma AbandonKeepsOrder(n: Node, t: nat)
    requires Bounded(n.pipe) && InOrder(n) && Enabled(n, LoopClosed(t))
    ensures InOrder(Next(n, LoopClosed(t)))
  {
    var front := n.sent + Waiting(n.inflight) + n.pipe.queue;
    assert front + n.pipe.ingress == front + n.pipe.ingress + [];
    SubsequenceErase(front, n.pipe.ingress, [], n.accepted);
  }

  lemma StepKeepsOrder(n: Node, step: NodeStep)
    requires Bounded(n.pipe) && InOrder(n) && Enabled(n, step)
    ensures InOrder(Next(n, step))
  {
    var m := Next(n, step);
    match step {
      case Submit(t) => SubmitKeepsOrder(n, t);
      case DrainIngress => DrainKeepsOrder(n);
      case LoopClosed(t) => AbandonKeepsOrder(n, t);
      case Take =>
        assert n.sent + [] + n.pipe.queue + n.pipe.ingress
            == n.sent + [n.pipe.queue[0]] + n.pipe.queue[1..] + n.pipe.ingress;
      case RoundEnd =>
        assert m.sent + [] + m.pipe.queue + m.pipe.ingress
            == n.sent + [n.inflight.value] + n.pipe.queue + n.pipe.ingress;
      case _ =>
    }
  }

  lemma StepKeepsOthersPlain(n: Node, step: NodeStep)
    requires OthersArePlain(n) && Enabled(n, step)
    ensures OthersArePlain(Next(n, step))
  {
    var m := Next(n, step);
    if step.Observe? || step.Check? || step.Submit? || step.Schedule? || step.LoopClosed? {
      assert forall t :: t != step.t ==> PhaseOf(m, t) == PhaseOf(n, t);
    } else {
      assert forall t :: PhaseOf(m, t) == PhaseOf(n, t);
    }
  }

  lemma StepKeepsWakeup(n: Node, step: NodeStep)
    requires Wakeup(n) && Enabled(n, step)
    ensures Wakeup(Next(n, step))
  {
    var m := Next(n, step);
    if step.Observe? || step.Check? || step.Submit? || step.Schedule? || step.LoopClosed? {
      assert forall t :: t != step.t ==> PhaseOf(m, t) == PhaseOf(n, t);
      if step.Submit? {
        assert Poster(m, step.t) <==> !n.pipe.drainScheduled;
        assert forall t :: t != step.t ==> (Poster(m, t) <==> Poster(n, t));
        assert !Poster(n, step.t);
      } else if step.Schedule? || step.LoopClosed? {
        assert Poster(n, step.t);
        forall t ensures !Poster(m, t) {
          assert t != step.t ==> (Poster(m, t) <==> Poster(n, t));
        }
      } else {
        assert forall t :: Poster(m, t) <==> Poster(n, t);
      }
    } else {
      assert forall t :: Poster(m, t) <==> Poster(n, t);
    }
  }

  /** Every step of every thread keeps the bounds, the order, the count and the wakeup. */
  lemma StepKeepsPipeline(n: Node, step: NodeStep)
    requires PipelineOk(n) && Enabled(n, step)
    ensures PipelineOk(Next(n, step))
  {
    StepKeepsWakeup(n, step);
    StepKeepsOrder(n, step);
    StepKeepsOthersPlain(n, step);
  }

  // --------------------------------------------------------------------- runs

  ghost predicate Possible(n: Node, steps: seq<NodeStep>)
    decreases |steps|
  {
    steps == [] || (Enabled(n, steps[0]) && Possible(Next(n, steps[0]), steps[1..]))
  }

  function Run(n: Node, steps: seq<NodeStep>): Node
    requires Possible(n, steps)
    decreases |steps|
  {
    if steps == [] then n else Run(Next(n, steps[0]), steps[1..])
  }

  /** In every reachable state: both buffers hold at most 64 events, what is broadcast is an in-order selection of
      what was accepted, every accepted event is accounted for, and a non-empty ingress has a drain on its way. */
  lemma {:induction false} PipelineAlwaysOk(n: Node, steps: seq<NodeStep>)
    requires PipelineOk(n) && Possible(n, steps)
    ensures PipelineOk(Run(n, steps))
    decreases |steps|
  {
    if steps != [] {
      StepKeepsPipeline(n, steps[0]);
      PipelineAlwaysOk(Next(n, steps[0]), steps[1..]);
    }
  }

  lemma StartIsOk()
    ensures PipelineOk(IDLE_NODE)
  {
    assert forall t :: PhaseOf(IDLE_NODE, t) == Idle;
  }

  // ------------------------------------------------------- one undisturbed round

  function Sends(order: seq<nat>, broken: set<nat>): seq<NodeStep> {
    if order == [] then [RoundEnd] else [SendTo(order[0], order[0] !in broken)] + Sends(order[1..], broken)
  }

  function Members(order: seq<nat>): set<nat> {
    set id | id in order
  }

  predicate Distinct(order: seq<nat>) {
    order == [] || (order[0] !in order[1..] && Distinct(order[1..]))
  }

  lemma MembersStep(order: seq<nat>)
    requires order != [] && Distinct(order)
    ensures Members(order) - {order[0]} == Members(order[1..]) && order[0] in Members(order)
    ensures forall id :: id in order <==> id == order[0] || id in order[1..]
  {
    assert order == [order[0]] + order[1..];
  }

  lemma {:induction false} SendsDeliver(n: Node, order: seq<nat>, broken: set<nat>)
    requires Distinct(order) && n.inflight.Some? && n.round == Some(Members(order))
    ensures Possible(n, Sends(order, broken))
    ensures Run(n, Sends(order, broken)).clients
            == map id | id in n.clients && id !in n.dead && !(id in order && id in broken)
                 :: if id in order then n.clients[id] + [n.inflight.value] else n.clients[id]
    decreases |order|
  {
    var steps := Sends(order, broken);
    if order == [] {
      assert Members(order) == {};
      assert Enabled(n, steps[0]) && steps[1..] == [];
      assert Run(n, steps) == Next(n, RoundEnd);
    } else {
      hide Subsequence, Bounded;
      var m := Next(n, steps[0]);
      assert steps[1..] == Sends(order[1..], broken);
      MembersStep(order);
      SendsDeliver(m, order[1..], broken);
      hide Sends, Distinct, Members;
      assert Possible(n, steps) && Run(n, steps) == Run(m, steps[1..]);
    }
  }

  /** A round that nothing disturbs sends the event to every socket, in whatever order the sockets are taken. */
  lemma RoundDelivers(n: Node, order: seq<nat>, broken: set<nat>)
    requires LockOk(n) && Enabled(n, RoundBegin) && Distinct(order) && n.clients.Keys == Members(order)
    ensures Possible(Next(n, RoundBegin), Sends(order, broken))
    ensures Run(Next(n, RoundBegin), Sends(order, broken)).clients == Deliver(n.clients, n.inflight.value, broken)
  {
    SendsDeliver(Next(n, RoundBegin), order, broken);
    assert forall id :: id in n.clients ==> id in order;
  }
}
