/** The wiring of the node: one console line to all its consumers, and the reset that starts a serial session. */
module NodeApp {
  import opened Common
  import opened Snapshots
  import S = SnapshotStore
  import W = WebSocketManager
  import N = NodeProtocol
  import P = SysMonParser
  import B = ConsoleBatcher
  import R = ConsoleViews
  import opened ParserStoreAgreement
  import opened CapabilityWait

  /** What a session emits at its end. */
  function Trailing(s: P.State, pending: seq<string>, trailing: Option<(string, P.Line)>): seq<Event> {
    if trailing.None? then BatchOf(pending)
    else P.ParseStep(s, trailing.value.1).1 + BatchOf(pending + [trailing.value.0])
  }

  lemma RunParserAppend(lines: seq<P.Line>, x: P.Line)
    ensures RunParser(lines + [x]).0 == P.ParseStep(RunParser(lines).0, x).0
    ensures RunParser(lines + [x]).1 == RunParser(lines).1 + P.ParseStep(RunParser(lines).0, x).1
  {
    assert (lines + [x])[..|lines|] == lines;
  }

  function PlainReplay(identity: Option<Identity>, capabilities: seq<string>, lines: seq<string>): seq<Event> {
    (if identity.Some? then [IdentityUpdate(identity.value)] else [])
    + (if capabilities != [] then [CapabilityUpdate(capabilities)] else [])
    + R.ReplayBatch(lines)
  }

  function ReplayOf(snapshot: Option<Snapshot>, identity: Option<Identity>, capabilities: seq<string>, lines: seq<string>)
      : seq<Event> {
    N.Replay(snapshot) + PlainReplay(identity, capabilities, lines)
  }

  function AtMostOne(e: Option<Event>): seq<Event> {
    if e.Some? then [e.value] else []
  }

  lemma OneCount(a: Option<Event>, e: Event)
    ensures multiset(AtMostOne(a))[e] == if a == Some(e) then 1 else 0
  {
  }

  lemma FourAtMost(a: Option<Event>, b: Option<Event>, c: Option<Event>, d: Option<Event>, e: Event)
    requires a.Some? && b.Some? ==> a != b
    requires a.Some? && c.Some? ==> a != c
    requires a.Some? && d.Some? ==> a != d
    requires b.Some? && c.Some? ==> b != c
    requires b.Some? && d.Some? ==> b != d
    requires c.Some? && d.Some? ==> c != d
    ensures var all := AtMostOne(a) + AtMostOne(b) + AtMostOne(c) + AtMostOne(d);
            && (e in all <==> Some(e) in {a, b, c, d})
            && multiset(all)[e] == if Some(e) in {a, b, c, d} then 1 else 0
  {
    var all := AtMostOne(a) + AtMostOne(b) + AtMostOne(c) + AtMostOne(d);
    OneCount(a, e);
    OneCount(b, e);
    OneCount(c, e);
    OneCount(d, e);
    hide AtMostOne;
    assert multiset(all)[e] == multiset(AtMostOne(a))[e] + multiset(AtMostOne(b))[e] + multiset(AtMostOne(c))[e] + multiset(AtMostOne(d))[e];
    assert e in all <==> e in multiset(all);
  }

  function MaybeUpdate(snapshot: Option<Snapshot>): Option<Event> {
    if snapshot.Some? then Some(SnapshotUpdate(snapshot.value)) else None
  }

  function MaybeIdentity(identity: Option<Identity>): Option<Event> {
    if identity.Some? then Some(IdentityUpdate(identity.value)) else None
  }

  function MaybeCapabilities(rows: seq<string>): Option<Event> {
    if rows != [] then Some(CapabilityUpdate(rows)) else None
  }

  function MaybeBatch(lines: seq<string>): Option<Event> {
    if lines != [] then Some(ConsoleBatch(lines)) else None
  }

  lemma ReplayIsFour(snapshot: Option<Snapshot>, identity: Option<Identity>, capabilities: seq<string>, lines: seq<string>)
    ensures ReplayOf(snapshot, identity, capabilities, lines)
            == AtMostOne(MaybeUpdate(snapshot)) + AtMostOne(MaybeIdentity(identity))
               + AtMostOne(MaybeCapabilities(capabilities)) + AtMostOne(MaybeBatch(lines))
  {
    var a, b, c, d := AtMostOne(MaybeUpdate(snapshot)), AtMostOne(MaybeIdentity(identity)),
                      AtMostOne(MaybeCapabilities(capabilities)), AtMostOne(MaybeBatch(lines));
    assert N.Replay(snapshot) == a;
    assert PlainReplay(identity, capabilities, lines) == b + c + d;
    FourParts(a, b, c, d);
  }

  lemma FourParts<T>(a: seq<T>, b: seq<T>, c: seq<T>, d: seq<T>)
    ensures a + (b + c + d) == a + b + c + d
  {
  }

  /** The replay holds snapshot, identity, capabilities and console lines exactly if there are any, each once, and nothing
      else. */
  lemma ReplayHolds(snapshot: Option<Snapshot>, identity: Option<Identity>, capabilities: seq<string>, lines: seq<string>, e: Event)
    ensures var replay := ReplayOf(snapshot, identity, capabilities, lines);
            && (e in replay <==>
                  match e
                  case SnapshotUpdate(s) => snapshot == Some(s)
                  case IdentityUpdate(i) => identity == Some(i)
                  case CapabilityUpdate(rows) => rows == capabilities != []
                  case ConsoleBatch(batch) => batch == lines != []
                  case _ => false)
            && (e in replay ==> multiset(replay)[e] == 1)
  {
    var a, b, c, d := MaybeUpdate(snapshot), MaybeIdentity(identity), MaybeCapabilities(capabilities), MaybeBatch(lines);
    ReplayIsFour(snapshot, identity, capabilities, lines);
    hide AtMostOne, ReplayOf, PlainReplay;
    FourAtMost(a, b, c, d, e);
  }

  lemma PlainReplayIsPlain(identity: Option<Identity>, capabilities: seq<string>, lines: seq<string>)
    ensures NoSnapshots(PlainReplay(identity, capabilities, lines))
  {
  }

  lemma ReplayBaseline(snapshot: Option<Snapshot>)
    ensures Fold(None, N.Replay(snapshot)) == snapshot
  {
    if snapshot.Some? { assert N.Replay(snapshot)[..0] == []; }
  }

  /** The replay carries the node's snapshot as it is, and every later live event lands on top of it. */
  lemma ReplayCarriesSnapshot(snapshot: Option<Snapshot>, identity: Option<Identity>, capabilities: seq<string>,
                              lines: seq<string>, live: seq<Event>)
    ensures Fold(None, ReplayOf(snapshot, identity, capabilities, lines) + live) == Fold(snapshot, live)
  {
    var plain := PlainReplay(identity, capabilities, lines);
    FoldConcat(None, ReplayOf(snapshot, identity, capabilities, lines), live);
    FoldConcat(None, N.Replay(snapshot), plain);
    ReplayBaseline(snapshot);
    PlainReplayIsPlain(identity, capabilities, lines);
    NoSnapshotsNoChange(snapshot, plain);
  }

  /** And the console: a browser that starts from the replay shows what one that had the node's lines would show. */
  lemma ReplayCarriesConsole(snapshot: Option<Snapshot>, identity: Option<Identity>, capabilities: seq<string>,
                             lines: seq<string>, live: seq<Event>, max: nat)
    requires |lines| <= max
    ensures R.Shown([], ReplayOf(snapshot, identity, capabilities, lines) + live, max) == R.Shown(lines, live, max)
  {
    ReplayLines(snapshot, identity, capabilities, lines);
    R.ConsoleLinesConcat(ReplayOf(snapshot, identity, capabilities, lines), live);
    hide ReplayOf, LastN, R.Shown, R.ConsoleLines;
    R.ShownFromFew([], ReplayOf(snapshot, identity, capabilities, lines) + live, max);
    R.ShownFromFew(lines, live, max);
    NothingBefore(lines + R.ConsoleLines(live));
  }

  lemma NothingBefore<T>(s: seq<T>)
    ensures [] + s == s
  {
  }

  lemma ReplayLines(snapshot: Option<Snapshot>, identity: Option<Identity>, capabilities: seq<string>, lines: seq<string>)
    ensures R.ConsoleLines(ReplayOf(snapshot, identity, capabilities, lines)) == lines
  {
    var a := N.Replay(snapshot);
    var b := if identity.Some? then [IdentityUpdate(identity.value)] else [];
    var c := if capabilities != [] then [CapabilityUpdate(capabilities)] else [];
    R.ConsoleLinesConcat(a, b + c + R.ReplayBatch(lines));
    R.ConsoleLinesConcat(b + c, R.ReplayBatch(lines));
    R.ConsoleLinesConcat(b, c);
    assert R.ConsoleLines(a) == [] && R.ConsoleLines(b) == [] && R.ConsoleLines(c) == [];
    assert R.ConsoleLines(R.ReplayBatch(lines)) == lines by {
      if lines != [] { assert R.ReplayBatch(lines)[..0] == []; }
    }
  }

  /** Where an event has been handed to, in order. */
  datatype Stop = ToRing(e: Event) | ToStore(e: Event) | ToSockets(e: Event)

  function Stops(news: seq<Event>): seq<Stop> {
    if news == [] then []
    else
      var e := news[|news| - 1];
      Stops(news[..|news| - 1]) + [ToRing(e), ToStore(e), ToSockets(e)]
  }

  lemma StopsOne(e: Event)
    ensures Stops([e]) == [ToRing(e), ToStore(e), ToSockets(e)]
  {
    assert [e][..0] == [] && Stops([]) == [];
  }

  lemma {:induction false} StopsThen(a: seq<Event>, b: seq<Event>)
    ensures Stops(a + b) == Stops(a) + Stops(b)
  {
    if b == [] {
      assert a + b == a;
    } else {
      assert (a + b)[..|a + b| - 1] == a + b[..|b| - 1];
      StopsThen(a, b[..|b| - 1]);
    }
  }

  /** Each of these events went to ring, store and sockets in this order, one event after the other; the sockets are the
      ones there were, and the pipe took the events. */
  ghost predicate Passes(before: seq<Stop>, clients: W.Sockets, pipe: W.Pipe,
                         after: seq<Stop>, sockets: W.Sockets, now: W.Pipe, news: seq<Event>, loopClosed: bool) {
    after == before + Stops(news) && sockets == clients && now == W.Offered(pipe, news, clients != map[], loopClosed)
  }

  lemma FoldSnoc(s: Option<Snapshot>, es: seq<Event>, e: Event)
    ensures Fold(s, es + [e]) == Reduce(Fold(s, es), e) && Fold(s, []) == s
  {
    assert (es + [e])[..|es|] == es;
  }

  lemma PassesNothing(stops: seq<Stop>, clients: W.Sockets, pipe: W.Pipe, loopClosed: bool)
    ensures Passes(stops, clients, pipe, stops, clients, pipe, [], loopClosed)
  {
    assert stops + Stops([]) == stops;
  }

  lemma PassesThen(s0: seq<Stop>, c0: W.Sockets, p0: W.Pipe, s1: seq<Stop>, c1: W.Sockets, p1: W.Pipe,
                   s2: seq<Stop>, c2: W.Sockets, p2: W.Pipe, a: seq<Event>, b: seq<Event>, loopClosed: bool)
    requires W.Bounded(p0)
    requires Passes(s0, c0, p0, s1, c1, p1, a, loopClosed) && Passes(s1, c1, p1, s2, c2, p2, b, loopClosed)
    ensures Passes(s0, c0, p0, s2, c2, p2, a + b, loopClosed)
  {
    hide W.Offered, Stops;
    StopsThen(a, b);
    W.OfferedThen(p0, a, b, c0 != map[], loopClosed);
    assert s0 + Stops(a) + Stops(b) == s0 + (Stops(a) + Stops(b));
  }

  /** The event of a flush, if it has any lines. */
  function BatchOf(lines: seq<string>): seq<Event> {
    if lines == [] then [] else [ConsoleBatch(lines)]
  }

  class NodeApp {
    const ring: R.ConsoleRing
    const store: S.SnapshotStore
    const batcher: B.ConsoleBatcher
    const parser: P.SysMonParser
    const manager: W.WebSocketManager
    /** The console lines of the current session, as the parser classified them. */
    ghost var session: seq<P.Line>
    ghost var trail: seq<Stop>

    /** Parser and store have both seen exactly the current session. */
    ghost predicate Valid()
      reads this, ring, store, batcher, parser, manager
    {
      && ring.Valid() && store.Valid() && W.Bounded(manager.View()) && B.Ok(batcher.View())
      && parser.View() == RunParser(session).0
      && store.current == Fold(None, RunParser(session).1)
    }

    ghost predicate Passed(before: seq<Stop>, clients: W.Sockets, pipe: W.Pipe, news: seq<Event>, loopClosed: bool)
      reads this`trail, manager
    {
      Passes(before, clients, pipe, trail, manager.clients, manager.View(), news, loopClosed)
    }

    constructor ()
      ensures Valid() && session == []
      ensures fresh(ring) && fresh(store) && fresh(batcher) && fresh(parser) && fresh(manager)
    {
      ring := new R.ConsoleRing();
      store := new S.SnapshotStore();
      batcher := new B.ConsoleBatcher();
      parser := new P.SysMonParser();
      manager := new W.WebSocketManager();
      session := [];
    }

    /** `on_event`: the stores first, so that whoever joins between the two finds the event in the replay. */
    method OnEvent(event: Event, loopClosed: bool)
      requires ring.Valid() && store.Valid() && W.Bounded(manager.View())
      modifies ring, store, manager, this`trail
      ensures Passed(old(trail), old(manager.clients), old(manager.View()), [event], loopClosed)
      ensures ring.Valid() && store.Valid() && W.Bounded(manager.View())
      ensures ring.seen == old(ring.seen) + [event]
      ensures store.current == Reduce(old(store.current), event)
    {
      StopsOne(event);
      ring.Observe(event);
      assert (old(store.seen) + [event])[..|old(store.seen)|] == old(store.seen);
      trail := trail + [ToRing(event)];
      store.Observe(event);
      trail := trail + [ToStore(event)];
      manager.EmitFromThread(event, loopClosed);
      trail := trail + [ToSockets(event)];
    }

    /** The batcher's flush on one thread, undisturbed from the swap to the end of `on_event`; batches that other threads
        are still emitting stay with them. */
    method FlushConsole(loopClosed: bool)
      requires Valid()
      modifies ring, store, manager, batcher, this`trail
      ensures Valid() && batcher.pending == [] && batcher.timer == None && batcher.emitting == old(batcher.emitting)
      ensures parser.View() == old(parser.View()) && session == old(session)
      ensures ring.seen == old(ring.seen) + BatchOf(old(batcher.pending))
      ensures Passed(old(trail), old(manager.clients), old(manager.View()), BatchOf(old(batcher.pending)), loopClosed)
    {
      PassesNothing(trail, manager.clients, manager.View(), loopClosed);
      hide Passes, B.Ok, B.FlushNext, B.EmitNext, S.States, S.RunEnds, R.ConsoleLines, Fold, RunParser;
      var batch := SwapBatch();
      if batch.Some? {
        OnEvent(ConsoleBatch(batch.value), loopClosed);
      }
    }

    /** The swap, with the emission that follows it already entered into the batcher's record. */
    method SwapBatch() returns (batch: Option<seq<string>>)
      requires B.Ok(batcher.View())
      modifies batcher
      ensures B.Ok(batcher.View()) && batcher.pending == [] && batcher.timer == None && batcher.emitting == old(batcher.emitting)
      ensures batch == if old(batcher.pending) == [] then None else Some(old(batcher.pending))
    {
      ghost var number := |batcher.batches|;
      B.FlushThenEmit(batcher.View());
      hide B.Ok;
      batch := batcher.Flush();
      if batch.Some? {
        batcher.Emitted(number);
      }
    }

    /** Since that moment these events and no others went through `OnEvent`. */
    ghost predicate Emitted(seen: seq<Event>, current: Option<Snapshot>, before: seq<Stop>, clients: W.Sockets, pipe: W.Pipe,
                            done: seq<Event>, loopClosed: bool)
      reads this`trail, ring, store, manager
    {
      && ring.Valid() && store.Valid() && W.Bounded(manager.View())
      && ring.seen == seen + done && store.current == Fold(current, done)
      && Passed(before, clients, pipe, done, loopClosed)
    }

    method EmitOne(event: Event, loopClosed: bool, ghost seen: seq<Event>, ghost current: Option<Snapshot>,
                   ghost before: seq<Stop>, ghost clients: W.Sockets, ghost pipe: W.Pipe, ghost done: seq<Event>)
      requires Emitted(seen, current, before, clients, pipe, done, loopClosed) && W.Bounded(pipe)
      modifies ring, store, manager, this`trail
      ensures Emitted(seen, current, before, clients, pipe, done + [event], loopClosed)
    {
      hide Passes, R.ConsoleLines, S.States, S.RunEnds, Fold, Reduce;
      FoldSnoc(current, done, event);
      ghost var stops, sockets, now := trail, manager.clients, manager.View();
      OnEvent(event, loopClosed);
      PassesThen(before, clients, pipe, stops, sockets, now, trail, manager.clients, manager.View(), done, [event], loopClosed);
      assert seen + done + [event] == seen + (done + [event]);
    }

    /** The parser's events for one line, each through `OnEvent` before the next. */
    method EmitAll(news: seq<Event>, loopClosed: bool)
      requires ring.Valid() && store.Valid() && W.Bounded(manager.View())
      modifies ring, store, manager, this`trail
      ensures ring.Valid() && store.Valid() && W.Bounded(manager.View())
      ensures ring.seen == old(ring.seen) + news
      ensures store.current == Fold(old(store.current), news)
      ensures Passed(old(trail), old(manager.clients), old(manager.View()), news, loopClosed)
    {
      PassesNothing(trail, manager.clients, manager.View(), loopClosed);
      ghost var seen, current, before, clients, pipe := ring.seen, store.current, trail, manager.clients, manager.View();
      assert Emitted(seen, current, before, clients, pipe, news[..0], loopClosed);
      for i := 0 to |news|
        invariant Emitted(seen, current, before, clients, pipe, news[..i], loopClosed)
      {
        hide Emitted;
        assert news[..i + 1] == news[..i] + [news[i]];
        EmitOne(news[i], loopClosed, seen, current, before, clients, pipe, news[..i]);
      }
      assert news[..|news|] == news;
    }

    /** `dispatch_line`: the console first, then the parser, whose events go through `OnEvent` one by one. */
    method DispatchLine(text: string, line: P.Line, loopClosed: bool)
      requires Valid()
      modifies this`session, this`trail, ring, store, manager, batcher, parser
      ensures Valid() && session == old(session) + [line]
      ensures batcher.View() == B.FeedNext(old(batcher.View()), text)
      ensures ring.seen == old(ring.seen) + P.ParseStep(old(parser.View()), line).1
      ensures Passed(old(trail), old(manager.clients), old(manager.View()), P.ParseStep(old(parser.View()), line).1, loopClosed)
    {
      B.StepKeepsOk(batcher.View(), B.Feed(text));
      FoldConcat(None, RunParser(session).1, P.ParseStep(parser.View(), line).1);
      RunParserAppend(session, line);
      batcher.Feed(text);
      var known := |parser.events|;
      parser.Feed(line);
      EmitAll(parser.events[known..], loopClosed);
      session := session + [line];
    }

    /** `open_serial` up to the new session: the old one's trailing line is drained, then everything is emptied that can
        be. What is already on its way to the sockets stays, and so do batches that timer threads are still emitting;
        when that matters is said in `SessionReset`. */
    method RetireSession(trailing: Option<(string, P.Line)>, loopClosed: bool)
      requires Valid()
      modifies this`session, this`trail, ring, store, manager, batcher, parser
      ensures Valid() && session == []
      ensures ring.lines == [] && store.current == None && store.snapshots == []
      ensures batcher.pending == [] && batcher.timer == None && batcher.emitting == old(batcher.emitting)
      ensures parser.View() == P.START
      // the trailing line's events and then the last batch still go to the sockets of the old session
      ensures Passed(old(trail), old(manager.clients), old(manager.View()),
                     Trailing(old(parser.View()), old(batcher.pending), trailing), loopClosed)
    {
      hide Passes, Trailing, RunParser, P.START, B.Ok, Fold, R.ConsoleLines, S.States, S.RunEnds;
      EndSession(trailing, loopClosed);
      ForgetSession();
    }

    /** The trailing line, and then the last batch. */
    method EndSession(trailing: Option<(string, P.Line)>, loopClosed: bool)
      requires Valid()
      modifies this`session, this`trail, ring, store, manager, batcher, parser
      ensures Valid() && batcher.pending == [] && batcher.timer == None && batcher.emitting == old(batcher.emitting)
      ensures Passed(old(trail), old(manager.clients), old(manager.View()),
                     Trailing(old(parser.View()), old(batcher.pending), trailing), loopClosed)
    {
      hide Passes, B.Ok, RunParser, P.ParseStep;
      if trailing.None? {
        FlushConsole(loopClosed);
      } else {
        DispatchLine(trailing.value.0, trailing.value.1, loopClosed);
        ghost var stops, clients, pipe := trail, manager.clients, manager.View();
        ghost var pending := batcher.pending;
        FlushConsole(loopClosed);
        PassesThen(old(trail), old(manager.clients), old(manager.View()), stops, clients, pipe,
                   trail, manager.clients, manager.View(),
                   P.ParseStep(old(parser.View()), trailing.value.1).1, BatchOf(pending), loopClosed);
      }
    }

    /** `_replay_events`: what a joining browser is sent before anything live. */
    method ReplayEvents() returns (events: seq<Event>)
      requires ring.Valid() && store.Valid()
      ensures events == ReplayOf(store.current, parser.identity, parser.ssidCapabilities, ring.lines)
    {
      hide S.States, S.RunEnds, R.ConsoleLines, Fold;
      var snapshot := store.Latest();
      var lines := ring.Recent(0);
      assert snapshot == store.current && lines == ring.lines;
      events := [];
      if snapshot.Some? {
        events := events + [SnapshotUpdate(snapshot.value)];
      }
      if parser.identity.Some? {
        events := events + [IdentityUpdate(parser.identity.value)];
      }
      if parser.ssidCapabilities != [] {
        events := events + [CapabilityUpdate(parser.ssidCapabilities)];
      }
      if lines != [] {
        events := events + [ConsoleBatch(lines)];
      }
    }

    method ForgetSession()
      requires Valid() && batcher.pending == []
      modifies this`session, ring, store, parser
      ensures Valid() && session == []
      ensures ring.lines == [] && store.current == None && store.snapshots == []
      ensures parser.View() == P.START
    {
      ring.Clear();
      parser.Reset();
      store.Clear();
      session := [];
    }
  }

  /** After a content line the node's store is the parser's open snapshot, unless a repeated header left memory keys over. */
  lemma StoreShowsOpenSnapshot(node: NodeApp, before: seq<P.Line>, x: P.Line)
    requires node.Valid() && Erase(node.session) == before + [x] && IsContent(before, x)
    ensures node.store.current.Some? && node.parser.currentSnapshot.Some?
    ensures node.store.current == node.parser.currentSnapshot <==> NothingLeftOver(before + [x])
    ensures NoRepeatedHeader(before + [x]) ==> node.store.current == node.parser.currentSnapshot
  {
    CapabilityEventsAreInert(None, RunParser(node.session).1);
    WaitIsTransparent(node.session);
    assert node.parser.View().core.open == node.parser.currentSnapshot;
    StoreAfterContent(before, x);
    StoreIsOpenSnapshotIff(before, x);
    if NoRepeatedHeader(before + [x]) {
      StoreIsOpenSnapshot(before, x);
    }
  }
}
