/** The bounded fan-out pipeline: its lock-protected sections as methods, and the functions that specify them. */
module WebSocketManager {
  import opened Common
  import opened Snapshots

  const QUEUE_MAX: nat := 64

  /** What the ingress lock and the loop's queue hold. */
  datatype Pipe = Pipe(ingress: seq<Event>, queue: seq<Event>, drainScheduled: bool, dropped: nat)

  const EMPTY_PIPE := Pipe([], [], false, 0)

  /** A full ingress sheds its oldest event. */
  function Accept(p: Pipe, e: Event): Pipe {
    p.(ingress := LastN(p.ingress + [e], QUEUE_MAX),
       dropped := p.dropped + Overflow(|p.ingress| + 1),
       drainScheduled := true)
  }

  function Overflow(size: nat): nat {
    if size <= QUEUE_MAX then 0 else size - QUEUE_MAX
  }

  /** The loop is gone: every submission is counted as dropped and nothing stays marked as scheduled. */
  function Abandon(p: Pipe): Pipe {
    p.(ingress := [], dropped := p.dropped + |p.ingress|, drainScheduled := false)
  }

  /** The queue keeps the newest of what it held and what the ingress held. */
  function Drain(p: Pipe): Pipe {
    Pipe([], LastN(p.queue + p.ingress, QUEUE_MAX), false, p.dropped + Overflow(|p.queue + p.ingress|))
  }

  /** What a series of events does to the pipe when nobody else touches it: nothing without listeners; with a closed loop
      and no drain under way everything ends up counted as dropped; otherwise the newest stay and the others are counted. */
  function Offered(p: Pipe, news: seq<Event>, listening: bool, loopClosed: bool): Pipe {
    if !listening || news == [] then p
    else if loopClosed && !p.drainScheduled then Pipe([], p.queue, false, p.dropped + |p.ingress| + |news|)
    else Pipe(LastN(p.ingress + news, QUEUE_MAX), p.queue, true, p.dropped + Overflow(|p.ingress| + |news|))
  }

  lemma OverflowThen(i: nat, a: nat, b: nat)
    ensures Overflow(i + a) + Overflow((if i + a <= QUEUE_MAX then i + a else QUEUE_MAX) + b) == Overflow(i + a + b)
  {
  }

  lemma OfferedThen(p: Pipe, a: seq<Event>, b: seq<Event>, listening: bool, loopClosed: bool)
    requires Bounded(p)
    ensures Offered(Offered(p, a, listening, loopClosed), b, listening, loopClosed) == Offered(p, a + b, listening, loopClosed)
    ensures Bounded(Offered(p, a, listening, loopClosed))
  {
    hide LastN;
    LastNAbsorbs(p.ingress + a, b, QUEUE_MAX);
    OverflowThen(|p.ingress|, |a|, |b|);
    assert p.ingress + a + b == p.ingress + (a + b);
    assert a == [] ==> a + b == b;
    assert b == [] ==> a + b == a;
  }

  predicate Bounded(p: Pipe) {
    |p.ingress| <= QUEUE_MAX && |p.queue| <= QUEUE_MAX
  }

  /** Sockets are known by a number; each maps to the messages it was sent, in order. */
  type Sockets = map<nat, seq<Event>>

  function Deliver(clients: Sockets, e: Event, broken: set<nat>): Sockets {
    map id | id in clients && id !in broken :: clients[id] + [e]
  }

  lemma OneMore<T>(a: seq<T>, b: seq<T>, i: nat)
    requires i < |b|
    ensures a + b[..i] + [b[i]] == a + b[..i + 1]
  {
  }

  class WebSocketManager {
    var clients: Sockets
    var ingress: seq<Event>
    var queue: seq<Event>
    var drainScheduled: bool
    var dropped: nat
    /** Callbacks posted to the loop and not run yet. */
    var callbacks: nat

    constructor ()
      ensures View() == EMPTY_PIPE && clients == map[] && callbacks == 0
    {
      clients, ingress, queue, drainScheduled, dropped, callbacks := map[], [], [], false, 0, 0;
    }

    function View(): Pipe
      reads this
    {
      Pipe(ingress, queue, drainScheduled, dropped)
    }

    /** The first critical section of `emit_from_thread`. */
    method AcceptLocked(event: Event) returns (shouldSchedule: bool)
      requires Bounded(View())
      modifies this`ingress, this`drainScheduled, this`dropped
      ensures View() == Accept(old(View()), event)
      ensures shouldSchedule == !old(drainScheduled)
    {
      shouldSchedule := false;
      if |ingress| >= QUEUE_MAX {
        ingress := ingress[1..];
        dropped := dropped + 1;
      }
      ingress := ingress + [event];
      if !drainScheduled {
        drainScheduled := true;
        shouldSchedule := true;
      }
    }

    /** The whole call, undisturbed; `loopClosed` is `call_soon_threadsafe` raising. */
    method EmitFromThread(event: Event, loopClosed: bool)
      requires Bounded(View())
      modifies this`ingress, this`drainScheduled, this`dropped, this`callbacks
      ensures Bounded(View())
      ensures clients == map[] ==> View() == old(View()) && callbacks == old(callbacks)
      ensures clients != map[] && !(loopClosed && !old(drainScheduled)) ==>
                && View() == Accept(old(View()), event)
                && callbacks == old(callbacks) + (if old(drainScheduled) then 0 else 1)
      ensures clients != map[] && loopClosed && !old(drainScheduled) ==>
                View() == Abandon(Accept(old(View()), event)) && callbacks == old(callbacks)
    {
      if clients == map[] {
        return;
      }
      var shouldSchedule := AcceptLocked(event);
      if !shouldSchedule {
        return;
      }
      if !loopClosed {
        callbacks := callbacks + 1;
      } else {
        dropped := dropped + |ingress|;
        ingress := [];
        drainScheduled := false;
      }
    }

    /** The loop callback: take everything, then push one by one onto the bounded queue. */
    method DrainIngress()
      requires Bounded(View()) && callbacks > 0
      modifies this`ingress, this`queue, this`drainScheduled, this`dropped, this`callbacks
      ensures View() == Drain(old(View())) && Bounded(View())
      ensures callbacks == old(callbacks) - 1
    {
      callbacks := callbacks - 1;
      var events := ingress;
      ingress := [];
      drainScheduled := false;
      hide LastN;
      for i := 0 to |events|
        invariant ingress == [] && !drainScheduled && callbacks == old(callbacks) - 1
        invariant queue == LastN(old(queue) + events[..i], QUEUE_MAX)
        invariant dropped == old(dropped) + Overflow(|old(queue)| + i)
      {
        LastNAbsorbs(old(queue) + events[..i], [events[i]], QUEUE_MAX);
        OneMore(old(queue), events, i);
        Push(events[i]);
      }
      assert events[..|events|] == events;
    }

    /** `put_nowait`, behind the drop that makes room for it. */
    method Push(event: Event)
      requires |queue| <= QUEUE_MAX
      modifies this`queue, this`dropped
      ensures queue == LastN(old(queue) + [event], QUEUE_MAX)
      ensures dropped == old(dropped) + Overflow(|old(queue)| + 1)
    {
      if |queue| == QUEUE_MAX {
        queue := queue[1..];
        dropped := dropped + 1;
      }
      queue := queue + [event];
    }

    /** Send to every socket; those whose send raises are disconnected afterwards. */
    method Broadcast(event: Event, broken: set<nat>)
      modifies this`clients
      ensures clients == Deliver(old(clients), event, broken)
    {
      var todo := clients.Keys;
      var dead: set<nat> := {};
      while todo != {}
        invariant todo <= old(clients).Keys && clients.Keys == old(clients).Keys
        invariant dead == (old(clients).Keys - todo) * broken
        invariant forall id :: id in clients ==>
                    clients[id] == if id in todo || id in broken then old(clients)[id] else old(clients)[id] + [event]
        decreases todo
      {
        var id :| id in todo;
        if id in broken {
          dead := dead + {id};
        } else {
          clients := clients[id := clients[id] + [event]];
        }
        todo := todo - {id};
      }
      clients := clients - dead;
    }

    /** Accept a socket: known to the manager before the replay is read, then sent the replay until a send fails. */
    method Connect(id: nat, replay: seq<Event>, sendsOk: nat)
      requires id !in clients
      modifies this`clients
      ensures sendsOk >= |replay| ==> clients == old(clients)[id := replay]
      ensures sendsOk < |replay| ==> clients == old(clients)
    {
      clients := clients[id := []];
      for i := 0 to |replay|
        invariant i <= sendsOk
        invariant clients == old(clients)[id := replay[..i]]
      {
        if i == sendsOk {
          clients := clients - {id};
          assert clients == old(clients);
          return;
        }
        clients := clients[id := clients[id] + [replay[i]]];
        assert replay[..i] + [replay[i]] == replay[..i + 1];
      }
      assert replay[..|replay|] == replay;
    }
  }
}
