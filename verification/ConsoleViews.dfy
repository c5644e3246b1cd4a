/** The console as the node remembers it and as a browser shows it. */
module ConsoleViews {
  import opened Common
  import opened Snapshots

  const CONSOLE_RING_MAX: nat := 5000

  /** The lines of all console batches among the events. */
  function ConsoleLines(events: seq<Event>): seq<string> {
    if events == [] then []
    else
      ConsoleLines(events[..|events| - 1])
      + (if events[|events| - 1].ConsoleBatch? then events[|events| - 1].lines else [])
  }

  lemma {:induction false} ConsoleLinesConcat(a: seq<Event>, b: seq<Event>)
    ensures ConsoleLines(a + b) == ConsoleLines(a) + ConsoleLines(b)
  {
    if b == [] {
      assert a + b == a;
    } else {
      assert (a + b)[..|a + b| - 1] == a + b[..|b| - 1];
      ConsoleLinesConcat(a, b[..|b| - 1]);
    }
  }

  class ConsoleRing {
    const maxlen: nat
    var lines: seq<string>
    /** Events observed since the last clear. */
    ghost var seen: seq<Event>

    /** The ring is always the last lines of all batches since the last clear. */
    ghost predicate Valid()
      reads this
    {
      lines == LastN(ConsoleLines(seen), maxlen)
    }

    constructor (maxlen: nat := CONSOLE_RING_MAX)
      ensures Valid() && seen == [] && this.maxlen == maxlen
    {
      this.maxlen := maxlen;
      lines, seen := [], [];
    }

    method Observe(event: Event)
      requires Valid()
      modifies this
      ensures Valid() && seen == old(seen) + [event]
    {
      ghost var before := seen;
      seen := seen + [event];
      assert seen[..|before|] == before;
      if !event.ConsoleBatch? {
        assert ConsoleLines(before) + [] == ConsoleLines(before);
        return;
      }
      if event.lines != [] {
        LastNAbsorbs(ConsoleLines(before), event.lines, maxlen);
        lines := LastN(lines + event.lines, maxlen);
      } else {
        assert ConsoleLines(before) + [] == ConsoleLines(before);
      }
    }

    method Recent(limit: int) returns (result: seq<string>)
      requires Valid()
      ensures result == LastN(ConsoleLines(seen), if 0 < limit < maxlen then limit else maxlen)
    {
      result := lines;
      if limit > 0 {
        result := LastN(result, limit);
      }
    }

    method Clear()
      requires Valid()
      modifies this
      ensures Valid() && seen == [] && lines == []
    {
      lines, seen := [], [];
    }
  }

  // ------------------------------------------------------------------- browser

  function AppendConsoleLines(previous: seq<string>, incoming: seq<string>, max: nat): seq<string> {
    LastN(previous + incoming, max)
  }

  /** What a browser shows after these messages; batches without lines are ignored. */
  function Shown(previous: seq<string>, messages: seq<Event>, max: nat): seq<string> {
    if messages == [] then previous
    else
      var m := messages[|messages| - 1];
      var before := Shown(previous, messages[..|messages| - 1], max);
      if m.ConsoleBatch? && m.lines != [] then AppendConsoleLines(before, m.lines, max) else before
  }

  lemma Regroup<T>(a: seq<T>, b: seq<T>, c: seq<T>)
    ensures a + b + c == a + (b + c)
    ensures c == [] ==> b + c == b
  {
  }

  lemma {:induction false} ShownIsLastN(all: seq<string>, messages: seq<Event>, max: nat)
    ensures Shown(LastN(all, max), messages, max) == LastN(all + ConsoleLines(messages), max)
  {
    if messages == [] {
      assert all + [] == all;
    } else {
      var init, m := messages[..|messages| - 1], messages[|messages| - 1];
      ShownIsLastN(all, init, max);
      hide LastN;
      if m.ConsoleBatch? {
        LastNAbsorbs(all + ConsoleLines(init), m.lines, max);
        Regroup(all, ConsoleLines(init), m.lines);
      } else {
        Regroup(all, ConsoleLines(init), []);
      }
    }
  }

  lemma ShownFromFew(few: seq<string>, messages: seq<Event>, max: nat)
    requires |few| <= max
    ensures Shown(few, messages, max) == LastN(few + ConsoleLines(messages), max)
  {
    assert LastN(few, max) == few;
    ShownIsLastN(few, messages, max);
  }

  /** The messages a joining browser gets for the console: nothing while the ring is empty. */
  function ReplayBatch(ring: seq<string>): seq<Event> {
    if ring == [] then [] else [ConsoleBatch(ring)]
  }

  /** A browser that joins when `earlier` has been broadcast and is in the ring, and one that was there all the time,
      show the same lines after the same live events; so does the ring. */
  lemma ViewsAgree(earlier: seq<Event>, live: seq<Event>, max: nat)
    ensures var ring := LastN(ConsoleLines(earlier), max);
            Shown([], ReplayBatch(ring) + live, max) == Shown([], earlier + live, max) == LastN(ConsoleLines(earlier + live), max)
  {
    var ring := LastN(ConsoleLines(earlier), max);
    ConsoleLinesConcat(earlier, live);
    ConsoleLinesConcat(ReplayBatch(ring), live);
    assert LastN<string>([], max) == [];
    ShownIsLastN([], ReplayBatch(ring) + live, max);
    ShownIsLastN([], earlier + live, max);
    assert [] + ConsoleLines(earlier + live) == ConsoleLines(earlier + live);
    assert [] + ConsoleLines(ReplayBatch(ring) + live) == ConsoleLines(ReplayBatch(ring) + live);
    assert ConsoleLines(ReplayBatch(ring)) == ring by {
      if ring != [] {
        assert ReplayBatch(ring)[..0] == [];
        assert [] + ring == ring;
      }
    }
    LastNAbsorbs(ConsoleLines(earlier), ConsoleLines(live), max);
  }

  /** An event that is in the ring already and still on its way shows twice: the documented race, at its full cost. */
  lemma InFlightBatchShowsTwice(earlier: seq<Event>, inflight: seq<Event>, live: seq<Event>, max: nat)
    ensures var ring := LastN(ConsoleLines(earlier + inflight), max);
            Shown([], ReplayBatch(ring) + (inflight + live), max)
            == LastN(ConsoleLines(earlier) + ConsoleLines(inflight) + ConsoleLines(inflight) + ConsoleLines(live), max)
  {
    ViewsAgree(earlier + inflight, inflight + live, max);
    ConsoleLinesConcat(earlier + inflight, inflight + live);
    ConsoleLinesConcat(earlier, inflight);
    ConsoleLinesConcat(inflight, live);
    assert ConsoleLines(earlier) + ConsoleLines(inflight) + (ConsoleLines(inflight) + ConsoleLines(live))
        == ConsoleLines(earlier) + ConsoleLines(inflight) + ConsoleLines(inflight) + ConsoleLines(live);
  }

  /** The doubled batch goes unseen here. */
  predicate Unseen(earlier: seq<Event>, inflight: seq<Event>, live: seq<Event>, max: nat) {
    Shown([], ReplayBatch(LastN(ConsoleLines(earlier + inflight), max)) + (inflight + live), max)
    == LastN(ConsoleLines(earlier + inflight + live), max)
  }

  lemma UnseenIff(earlier: seq<Event>, inflight: seq<Event>, live: seq<Event>, max: nat)
    ensures var e, i, l := ConsoleLines(earlier), ConsoleLines(inflight), ConsoleLines(live);
            Unseen(earlier, inflight, live, max) <==> LastN(e + i + i + l, max) == LastN(e + i + l, max)
  {
    hide ConsoleLines, Shown, LastN;
    InFlightBatchShowsTwice(earlier, inflight, live, max);
    ConsoleLinesConcat(earlier + inflight, live);
    ConsoleLinesConcat(earlier, inflight);
  }

  /** The doubled batch goes unseen, whatever came before and after and however many lines are kept, exactly if it has none. */
  lemma DoubledBatchUnseenIff(inflight: seq<Event>)
    ensures (forall earlier, live, max: nat :: Unseen(earlier, inflight, live, max)) <==> ConsoleLines(inflight) == []
  {
    var i := ConsoleLines(inflight);
    if i == [] {
      forall earlier, live, max: nat ensures Unseen(earlier, inflight, live, max) {
        UnseenIff(earlier, inflight, live, max);
        Regroup(ConsoleLines(earlier), i, i);
      }
    } else {
      var none: seq<Event> := [];
      UnseenIff(none, inflight, none, 2 * |i|);
      hide Unseen;
      assert ConsoleLines(none) == [];
      assert |LastN([] + i + i + [], 2 * |i|)| == 2 * |i| && |LastN([] + i + [], 2 * |i|)| == |i|;
    }
  }
}
