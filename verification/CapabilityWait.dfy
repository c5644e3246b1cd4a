/** The SSID-capability wait: what it takes from the line stream, how long it lasts, and what it leaves alone. */
module CapabilityWait {
  import opened Common
  import opened Snapshots
  import opened SysMonParser
  import opened ParserStoreAgreement

  function RunParser(lines: seq<Line>): (State, seq<Event>) {
    if lines == [] then (START, [])
    else
      var (s, events) := RunParser(lines[..|lines| - 1]);
      var (t, more) := ParseStep(s, lines[|lines| - 1]);
      (t, events + more)
  }

  function WaitAfter(w: Wait, lines: seq<Line>): Wait {
    if lines == [] then w else WaitNext(WaitAfter(w, lines[..|lines| - 1]), lines[|lines| - 1])
  }

  /** The stream without markers and without the payloads that ended a wait. */
  function Erase(lines: seq<Line>): seq<Line> {
    if lines == [] then []
    else
      var before := lines[..|lines| - 1];
      var x := lines[|lines| - 1];
      if Consumes(WaitAfter(START.wait, before), x) then Erase(before) else Erase(before) + [x]
  }

  predicate IsCapabilityEvent(e: Event) {
    e.CapabilityUpdate?
  }

  function OtherEvents(events: seq<Event>): seq<Event> {
    if events == [] then []
    else
      OtherEvents(events[..|events| - 1])
      + (if IsCapabilityEvent(events[|events| - 1]) then [] else [events[|events| - 1]])
  }

  lemma {:induction false} OtherEventsConcat(a: seq<Event>, b: seq<Event>)
    ensures OtherEvents(a + b) == OtherEvents(a) + OtherEvents(b)
  {
    if b == [] {
      assert a + b == a;
    } else {
      assert (a + b)[..|a + b| - 1] == a + b[..|b| - 1];
      OtherEventsConcat(a, b[..|b| - 1]);
    }
  }

  lemma {:induction false} NothingToErase(events: seq<Event>)
    requires forall i :: 0 <= i < |events| ==> !IsCapabilityEvent(events[i])
    ensures OtherEvents(events) == events
  {
    if events != [] {
      NothingToErase(events[..|events| - 1]);
    }
  }

  lemma CoreEmitsNoCapability(c: Core, x: Line)
    ensures OtherEvents(FeedCore(c, x).1) == FeedCore(c, x).1
  {
    var events := FeedCore(c, x).1;
    assert forall i :: 0 <= i < |events| ==> !IsCapabilityEvent(events[i]);
    NothingToErase(events);
  }

  lemma StepOtherEvents(s: State, x: Line)
    ensures ParseStep(s, x).0.wait == WaitNext(s.wait, x)
    ensures Consumes(s.wait, x) ==> ParseStep(s, x).0.core == s.core && OtherEvents(ParseStep(s, x).1) == []
    ensures !Consumes(s.wait, x) ==>
              ParseStep(s, x).0.core == FeedCore(s.core, x).0 && OtherEvents(ParseStep(s, x).1) == FeedCore(s.core, x).1
  {
    CoreEmitsNoCapability(s.core, x);
    if Consumes(s.wait, x) && !x.CapabilityMarker? {
      var events := ParseStep(s, x).1;
      assert events == [CapabilityUpdate(x.rows.value)] && events[..0] == [];
    }
  }

  /** Transparency: apart from the capability events themselves, the parser emits what it would emit for the stream
      with the markers and the consumed payloads erased, and it ends in the same state. */
  lemma {:induction false} WaitIsTransparent(lines: seq<Line>)
    ensures RunParser(lines).0.core == Parser(Erase(lines))
    ensures RunParser(lines).0.wait == WaitAfter(START.wait, lines)
    ensures OtherEvents(RunParser(lines).1) == Events(Erase(lines))
  {
    if lines != [] {
      var before, x := lines[..|lines| - 1], lines[|lines| - 1];
      WaitIsTransparent(before);
      var s := RunParser(before).0;
      StepOtherEvents(s, x);
      OtherEventsConcat(RunParser(before).1, ParseStep(s, x).1);
      LastLine(Erase(before), x);
    }
  }

  /** What a stream leaves in the store does not depend on capability events. */
  lemma {:induction false} CapabilityEventsAreInert(store: Option<Snapshot>, events: seq<Event>)
    ensures Fold(store, events) == Fold(store, OtherEvents(events))
  {
    if events != [] {
      var init, e := events[..|events| - 1], events[|events| - 1];
      CapabilityEventsAreInert(store, init);
      if !IsCapabilityEvent(e) {
        assert (OtherEvents(init) + [e])[..|OtherEvents(init)|] == OtherEvents(init);
      } else {
        assert OtherEvents(init) + [] == OtherEvents(init);
      }
    }
  }

  ghost predicate WaitOk(w: Wait) {
    w.waiting ==> 1 <= w.lines <= SSID_CAPABILITY_WAIT_LINES
  }

  /** While waiting, the counter is in 1..100. */
  lemma {:induction false} CounterInRange(lines: seq<Line>)
    ensures WaitOk(WaitAfter(START.wait, lines))
  {
    if lines != [] {
      CounterInRange(lines[..|lines| - 1]);
    }
  }

  /** The wait ends after exactly as many unconsumed non-marker lines as the counter says. */
  lemma {:induction false} WaitEndsOnTime(w: Wait, lines: seq<Line>)
    requires w.waiting && 1 <= w.lines
    requires forall i :: 0 <= i < |lines| ==> !lines[i].CapabilityMarker? && !IsPayload(lines[i])
    ensures WaitAfter(w, lines).waiting <==> |lines| < w.lines
    ensures |lines| <= w.lines ==> WaitAfter(w, lines).lines == w.lines - |lines|
  {
    if lines != [] {
      WaitEndsOnTime(w, lines[..|lines| - 1]);
    }
  }

  // ------------------------------------------------------------- the first event of a session

  /** No delta comes before a full update, so a store and a browser that were emptied can follow from the first event. */
  lemma {:induction false} FirstSnapshotEventIsFull(lines: seq<Line>, i: nat)
    requires i < |Events(lines)| && Events(lines)[i].SnapshotDelta?
    ensures exists j :: 0 <= j < i && Events(lines)[j].SnapshotUpdate?
  {
    var before, x := lines[..|lines| - 1], lines[|lines| - 1];
    var events := Events(before);
    if i < |events| {
      FirstSnapshotEventIsFull(before, i);
      var j :| 0 <= j < i && events[j].SnapshotUpdate?;
      assert Events(lines)[j].SnapshotUpdate?;
    } else {
      SentMeansFull(before);
      assert Parser(before).last.Some?;
      var j :| 0 <= j < |events| && events[j].SnapshotUpdate?;
      assert Events(lines)[j].SnapshotUpdate?;
    }
  }

  lemma {:induction false} SentMeansFull(lines: seq<Line>)
    ensures Parser(lines).last.Some? ==> HasFull(Events(lines))
  {
    if lines != [] {
      var before, x := lines[..|lines| - 1], lines[|lines| - 1];
      SentMeansFull(before);
      var events, more := Events(before), FeedCore(Parser(before), x).1;
      assert Events(lines) == events + more;
      if HasFull(events) {
        var j :| 0 <= j < |events| && events[j].SnapshotUpdate?;
        assert (events + more)[j].SnapshotUpdate?;
      } else if Parser(lines).last.Some? {
        assert more[|more| - 1].SnapshotUpdate?;
        assert (events + more)[|events + more| - 1].SnapshotUpdate?;
      }
    }
  }
}
