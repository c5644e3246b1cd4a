/** The TCP tee: one bounded drop-oldest queue per client, one publisher, one writer thread per client. */
module TcpBridge {
  import opened Common

  const CLIENT_QUEUE_MAX: nat := 64

  type Chunk = seq<byte>

  /** The clients among `some` whose queue is full. */
  function FullAmong(clients: map<nat, seq<Chunk>>, some: set<nat>): set<nat> {
    set c | c in some && c in clients && |clients[c]| == CLIENT_QUEUE_MAX
  }

  lemma NobodyFull(clients: map<nat, seq<Chunk>>)
    ensures FullAmong(clients, {}) == {}
  {
  }

  lemma OneMoreFull(clients: map<nat, seq<Chunk>>, some: set<nat>, c: nat)
    requires c in clients && c !in some
    ensures FullAmong(clients, some + {c})
            == if |clients[c]| == CLIENT_QUEUE_MAX then FullAmong(clients, some) + {c} else FullAmong(clients, some)
    ensures c !in FullAmong(clients, some)
    ensures |FullAmong(clients, some + {c})| == |FullAmong(clients, some)| + (if |clients[c]| == CLIENT_QUEUE_MAX then 1 else 0)
  {
    var now := FullAmong(clients, some + {c});
    assert now == if |clients[c]| == CLIENT_QUEUE_MAX then FullAmong(clients, some) + {c} else FullAmong(clients, some);
  }

  /** The clients in `done` have been given the chunk, the others have what they had. */
  ghost predicate Served(was: map<nat, seq<Chunk>>, now: map<nat, seq<Chunk>>, done: set<nat>, data: Chunk) {
    && now.Keys == was.Keys
    && (forall c :: c in was ==> |was[c]| <= CLIENT_QUEUE_MAX)
    && forall c :: c in was ==> now[c] == if c in done then LastN(was[c] + [data], CLIENT_QUEUE_MAX) else was[c]
  }

  lemma NobodyServed(was: map<nat, seq<Chunk>>, data: Chunk)
    requires forall c :: c in was ==> |was[c]| <= CLIENT_QUEUE_MAX
    ensures Served(was, was, {}, data)
  {
  }

  lemma AllServed(was: map<nat, seq<Chunk>>, now: map<nat, seq<Chunk>>, data: Chunk)
    requires Served(was, now, was.Keys, data)
    ensures now.Keys == was.Keys
    ensures forall c :: c in now ==> now[c] == LastN(was[c] + [data], CLIENT_QUEUE_MAX) && |now[c]| <= CLIENT_QUEUE_MAX
  {
  }

  lemma NotServedYet(was: map<nat, seq<Chunk>>, now: map<nat, seq<Chunk>>, done: set<nat>, data: Chunk, c: nat)
    requires Served(was, now, done, data) && c in was && c !in done
    ensures c in now && now[c] == was[c] && |was[c]| <= CLIENT_QUEUE_MAX
  {
  }

  lemma ServeOne(was: map<nat, seq<Chunk>>, now: map<nat, seq<Chunk>>, done: set<nat>, data: Chunk, c: nat, queue: seq<Chunk>)
    requires Served(was, now, done, data) && c in was && queue == LastN(was[c] + [data], CLIENT_QUEUE_MAX)
    ensures Served(was, now[c := queue], done + {c}, data)
  {
    hide LastN;
  }

  lemma ServeNext(was: map<nat, seq<Chunk>>, now: map<nat, seq<Chunk>>, todo: set<nat>, data: Chunk, c: nat)
    requires todo <= was.Keys && Served(was, now, was.Keys - todo, data) && c in todo
    ensures c in now && now[c] == was[c] && |now[c]| <= CLIENT_QUEUE_MAX
    ensures var done := was.Keys - (todo - {c});
            && Served(was, now[c := LastN(now[c] + [data], CLIENT_QUEUE_MAX)], done, data)
            && |FullAmong(was, done)| == |FullAmong(was, was.Keys - todo)| + (if |now[c]| == CLIENT_QUEUE_MAX then 1 else 0)
  {
    hide FullAmong, LastN;
    assert was.Keys - (todo - {c}) == was.Keys - todo + {c};
    NotServedYet(was, now, was.Keys - todo, data, c);
    OneMoreFull(was, was.Keys - todo, c);
    ServeOne(was, now, was.Keys - todo, data, c, LastN(was[c] + [data], CLIENT_QUEUE_MAX));
  }

  class TcpSerialBridge {
    var clients: map<nat, seq<Chunk>>
    var droppedOutputChunks: nat

    constructor ()
      ensures clients == map[] && droppedOutputChunks == 0
    {
      clients, droppedOutputChunks := map[], 0;
    }

    ghost predicate Valid()
      reads this
    {
      forall c :: c in clients ==> |clients[c]| <= CLIENT_QUEUE_MAX
    }

    /** `publish`, while no writer interferes: every queue keeps its newest chunks, and every full queue is counted. */
    method Publish(data: Chunk)
      requires Valid()
      modifies this
      ensures Valid() && clients.Keys == old(clients).Keys
      ensures forall c :: c in clients ==> clients[c] == LastN(old(clients)[c] + [data], CLIENT_QUEUE_MAX)
      ensures droppedOutputChunks == old(droppedOutputChunks) + |FullAmong(old(clients), old(clients).Keys)|
    {
      ghost var was := clients;
      NobodyFull(was);
      NobodyServed(was, data);
      assert was.Keys - was.Keys == {};
      var todo := clients.Keys;
      while todo != {}
        invariant todo <= was.Keys && Served(was, clients, was.Keys - todo, data)
        invariant droppedOutputChunks == old(droppedOutputChunks) + |FullAmong(was, was.Keys - todo)|
        decreases todo
      {
        hide FullAmong, Served, LastN;
        var client :| client in todo;
        ServeNext(was, clients, todo, data, client);
        OfferTo(client, data);
        todo := todo - {client};
      }
      assert was.Keys - todo == was.Keys;
      AllServed(was, clients, data);
    }

    method OfferTo(client: nat, data: Chunk)
      requires client in clients && |clients[client]| <= CLIENT_QUEUE_MAX
      modifies this
      ensures clients == old(clients)[client := LastN(old(clients)[client] + [data], CLIENT_QUEUE_MAX)]
      ensures droppedOutputChunks == old(droppedOutputChunks) + (if |old(clients)[client]| == CLIENT_QUEUE_MAX then 1 else 0)
    {
      hide LastN;
      var queue, dropped := Enqueue(clients[client], data);
      clients := clients[client := queue];
      if dropped {
        droppedOutputChunks := droppedOutputChunks + 1;
      }
    }

    /** The first `put_nowait`, or the drop and the second one. */
    static method Enqueue(before: seq<Chunk>, data: Chunk) returns (queue: seq<Chunk>, dropped: bool)
      requires |before| <= CLIENT_QUEUE_MAX
      ensures queue == LastN(before + [data], CLIENT_QUEUE_MAX) && dropped == (|before| == CLIENT_QUEUE_MAX)
    {
      dropped := |before| >= CLIENT_QUEUE_MAX;
      queue := (if dropped then before[1..] else before) + [data];
    }
  }

  // ------------------------------------------- one client, with its writer running

  /** Where the publisher stands with this client. */
  datatype Publisher = Ready | FoundFull(data: Chunk) | MadeRoom(data: Chunk)

  /** How a chunk left the queue. */
  datatype Exit = Taken(data: Chunk) | Discarded(data: Chunk)

  /** `offered` are the chunks the publisher was called with since the client joined, `published` those put into the queue,
      `exits` those that left it. */
  datatype Client = Client(queue: seq<Chunk>, publisher: Publisher, offered: seq<Chunk>, published: seq<Chunk>,
                           exits: seq<Exit>, overflows: nat, lost: nat)

  const JOINED := Client([], Ready, [], [], [], 0, 0)

  /** The chunk the publisher has not put yet. */
  function InHand(p: Publisher): seq<Chunk> {
    if p.Ready? then [] else [p.data]
  }

  datatype BridgeStep =
    | Put(data: Chunk)   // put_nowait, which may raise Full
    | MakeRoom           // get_nowait, which may raise Empty if the writer was faster
    | PutAgain           // the second put_nowait, and the overflow counter
    | Take               // the writer gets a chunk

  ghost predicate Enabled(c: Client, step: BridgeStep) {
    match step
    case Put(_) => c.publisher.Ready?
    case MakeRoom => c.publisher.FoundFull?
    case PutAgain => c.publisher.MadeRoom?
    case Take => c.queue != []
  }

  function Append(c: Client, data: Chunk): Client {
    c.(queue := c.queue + [data], published := c.published + [data])
  }

  function Next(c: Client, step: BridgeStep): Client
    requires Enabled(c, step)
  {
    match step
    case Put(data) =>
      var d := c.(offered := c.offered + [data]);
      if |c.queue| < CLIENT_QUEUE_MAX then Append(d, data) else d.(publisher := FoundFull(data))
    case MakeRoom =>
      var d := c.(publisher := MadeRoom(c.publisher.data));
      if c.queue == [] then d else d.(queue := c.queue[1..], exits := c.exits + [Discarded(c.queue[0])])
    case PutAgain =>
      var d := c.(publisher := Ready, overflows := c.overflows + 1);
      if |c.queue| < CLIENT_QUEUE_MAX then Append(d, c.publisher.data) else d.(lost := c.lost + 1)
    case Take => c.(queue := c.queue[1..], exits := c.exits + [Taken(c.queue[0])])
  }

  function Left(exits: seq<Exit>): (r: seq<Chunk>)
    ensures |r| == |exits|
  {
    seq(|exits|, i requires 0 <= i < |exits| => exits[i].data)
  }

  function TakenChunks(exits: seq<Exit>): seq<Chunk> {
    if exits == [] then []
    else
      TakenChunks(exits[..|exits| - 1])
      + (if exits[|exits| - 1].Taken? then [exits[|exits| - 1].data] else [])
  }

  function DiscardCount(exits: seq<Exit>): nat {
    if exits == [] then 0
    else DiscardCount(exits[..|exits| - 1]) + (if exits[|exits| - 1].Discarded? then 1 else 0)
  }

  ghost predicate Ok(c: Client) {
    // first in, first out: what left the queue and what is in it are what was put in, in order, without repeats
    && Left(c.exits) + c.queue == c.published
    // and every chunk the publisher was called with was put in, but for the one it is just making room for
    && c.published + InHand(c.publisher) == c.offered
    && |c.queue| <= CLIENT_QUEUE_MAX
    // room made for a chunk is still there when the chunk is put: the second Full branch is never taken
    && (c.publisher.MadeRoom? ==> |c.queue| < CLIENT_QUEUE_MAX)
    && c.lost == 0
    && DiscardCount(c.exits) <= c.overflows + (if c.publisher.MadeRoom? then 1 else 0)
  }

  lemma ExitsStep(exits: seq<Exit>, e: Exit)
    ensures Left(exits + [e]) == Left(exits) + [e.data]
    ensures TakenChunks(exits + [e]) == TakenChunks(exits) + (if e.Taken? then [e.data] else [])
    ensures DiscardCount(exits + [e]) == DiscardCount(exits) + (if e.Discarded? then 1 else 0)
  {
    assert (exits + [e])[..|exits|] == exits;
  }

  lemma LeaveKeepsOk(c: Client, e: Exit)
    requires Ok(c) && c.queue != [] && e.data == c.queue[0]
    ensures var d := c.(queue := c.queue[1..], exits := c.exits + [e]);
            && Left(d.exits) + d.queue == d.published && d.published + InHand(d.publisher) == d.offered
            && DiscardCount(d.exits) == DiscardCount(c.exits) + (if e.Discarded? then 1 else 0)
  {
    ExitsStep(c.exits, e);
    assert Left(c.exits) + [c.queue[0]] + c.queue[1..] == Left(c.exits) + c.queue;
  }

  lemma StepKeepsOk(c: Client, step: BridgeStep)
    requires Ok(c) && Enabled(c, step)
    ensures Ok(Next(c, step))
  {
    hide Left, DiscardCount;
    match step {
      case MakeRoom => if c.queue != [] { LeaveKeepsOk(c, Discarded(c.queue[0])); }
      case Take => LeaveKeepsOk(c, Taken(c.queue[0]));
      case Put(data) => assert Left(c.exits) + (c.queue + [data]) == Left(c.exits) + c.queue + [data];
      case PutAgain =>
        var data := c.publisher.data;
        assert Left(c.exits) + (c.queue + [data]) == Left(c.exits) + c.queue + [data];
    }
  }

  ghost predicate Possible(c: Client, steps: seq<BridgeStep>)
    decreases |steps|
  {
    steps == [] || (Enabled(c, steps[0]) && Possible(Next(c, steps[0]), steps[1..]))
  }

  function Run(c: Client, steps: seq<BridgeStep>): Client
    requires Possible(c, steps)
    decreases |steps|
  {
    if steps == [] then c else Run(Next(c, steps[0]), steps[1..])
  }

  lemma {:induction false} AlwaysOk(c: Client, steps: seq<BridgeStep>)
    requires Ok(c) && Possible(c, steps)
    ensures Ok(Run(c, steps))
    decreases |steps|
  {
    if steps != [] {
      StepKeepsOk(c, steps[0]);
      AlwaysOk(Next(c, steps[0]), steps[1..]);
    }
  }

  lemma {:induction false} TakenInOrder(exits: seq<Exit>)
    ensures Subsequence(TakenChunks(exits), Left(exits))
  {
    if exits != [] {
      var before, e := exits[..|exits| - 1], exits[|exits| - 1];
      assert exits == before + [e];
      TakenInOrder(before);
      ExitsStep(before, e);
      SubsequenceAppend(TakenChunks(before), Left(before), e.data);
      hide Subsequence, TakenChunks, Left;
      assert TakenChunks(before) + [] == TakenChunks(before);
    }
  }

  lemma {:induction false} SubsequenceOfPrefix(sub: seq<Chunk>, whole: seq<Chunk>, more: seq<Chunk>)
    requires Subsequence(sub, whole)
    ensures Subsequence(sub, whole + more)
  {
    if more == [] {
      assert whole + more == whole;
    } else {
      var init, x := more[..|more| - 1], more[|more| - 1];
      SubsequenceOfPrefix(sub, whole, init);
      SubsequenceAppend(sub, whole + init, x);
      assert whole + init + [x] == whole + more;
    }
  }

  /** However publisher and writer interleave: the queue is the newest part of what was published, at most 64 chunks;
      the client is sent an in-order selection without repeats; no chunk is turned away at the second attempt; and the
      overflow counter is never behind the chunks discarded, except for the one being replaced. */
  lemma QueueIsContiguousTail(steps: seq<BridgeStep>)
    requires Possible(JOINED, steps)
    ensures var c := Run(JOINED, steps);
            && |c.queue| <= CLIENT_QUEUE_MAX
            && c.published + InHand(c.publisher) == c.offered
            && c.queue == LastN(c.published, |c.queue|)
            && Subsequence(TakenChunks(c.exits), c.published)
            && |c.published| == |TakenChunks(c.exits)| + DiscardCount(c.exits) + |c.queue|
            && c.lost == 0
            && DiscardCount(c.exits) <= c.overflows + (if c.publisher.MadeRoom? then 1 else 0)
  {
    assert Left([]) == [];
    AlwaysOk(JOINED, steps);
    var c := Run(JOINED, steps);
    TakenInOrder(c.exits);
    SubsequenceOfPrefix(TakenChunks(c.exits), Left(c.exits), c.queue);
    ExitCount(c.exits);
  }

  lemma {:induction false} ExitCount(exits: seq<Exit>)
    ensures |exits| == |TakenChunks(exits)| + DiscardCount(exits)
  {
    if exits != [] {
      ExitCount(exits[..|exits| - 1]);
    }
  }
}
