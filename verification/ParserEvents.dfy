/** The parser's events, read off the console lines alone: identities, client lists, capabilities, fulls and deltas. */
module ParserEvents {
  import opened Common
  import opened Snapshots
  import opened SysMonParser
  import opened ParserStoreAgreement
  import opened CapabilityWait

  function LastOf<T>(s: seq<T>): Option<T> {
    if s == [] then None else Some(s[|s| - 1])
  }

  // ---------------------------------------------------------------------- radios

  predicate EndsRadio(line: Line) {
    line.Header? || line.ClientsMarker? || (line.Text? && line.opening.Brace?)
  }

  /** Line `m` announces a client list, and nothing since took the announcement back or used it up. */
  ghost predicate Announces(lines: seq<Line>, m: nat, radio: string) {
    && m < |lines| && lines[m] == ClientsMarker(radio)
    && forall j :: m < j < |lines| ==> !EndsRadio(lines[j])
  }

  lemma {:induction false} RadioIsAnnounced(lines: seq<Line>, radio: string)
    ensures RadioAt(lines) == Some(radio) <==> exists m: nat :: Announces(lines, m, radio)
  {
    if lines != [] {
      var before, x := lines[..|lines| - 1], lines[|lines| - 1];
      RadioIsAnnounced(before, radio);
      if EndsRadio(x) {
        if x == ClientsMarker(radio) { assert Announces(lines, |before|, radio); }
        if exists m: nat :: Announces(lines, m, radio) {
          var m: nat :| Announces(lines, m, radio);
          assert m >= |before|;
        }
      } else {
        if exists m: nat :: Announces(before, m, radio) {
          var m: nat :| Announces(before, m, radio);
          assert Announces(lines, m, radio);
        }
        if exists m: nat :: Announces(lines, m, radio) {
          var m: nat :| Announces(lines, m, radio);
          assert Announces(before, m, radio);
        }
      }
    }
  }

  // ------------------------------------------------------------------ client lists

  function ClientEvents(es: seq<Event>): seq<(string, ClientTable)> {
    if es == [] then []
    else
      var e := es[|es| - 1];
      ClientEvents(es[..|es| - 1]) + (if e.ClientsUpdate? then [(e.radio, e.table)] else [])
  }

  /** The readable lists, each with the radio that was announced for it. */
  function ClientLists(lines: seq<Line>): seq<(string, ClientTable)> {
    if lines == [] then []
    else
      var before, x := lines[..|lines| - 1], lines[|lines| - 1];
      ClientLists(before)
      + (if x.Text? && x.opening.Brace? && RadioAt(before).Some? && x.table.Some? then [(RadioAt(before).value, x.table.value)] else [])
  }

  lemma {:induction false} ClientEventsConcat(a: seq<Event>, b: seq<Event>)
    ensures ClientEvents(a + b) == ClientEvents(a) + ClientEvents(b)
  {
    if b == [] {
      assert a + b == a;
    } else {
      assert (a + b)[..|a + b| - 1] == a + b[..|b| - 1];
      ClientEventsConcat(a, b[..|b| - 1]);
    }
  }

  lemma {:induction false} NoClientEvents(es: seq<Event>)
    requires forall i :: 0 <= i < |es| ==> !es[i].ClientsUpdate?
    ensures ClientEvents(es) == []
  {
    if es != [] { NoClientEvents(es[..|es| - 1]); }
  }

  lemma EmissionIsPlainOfClients(c: Core)
    requires c.open.Some?
    ensures forall i :: 0 <= i < |Emit(c).1| ==> IsSnapshotEvent(Emit(c).1[i])
  {
  }

  lemma FeedClientEvents(c: Core, x: Line)
    ensures ClientEvents(FeedCore(c, x).1)
            == if x.Text? && x.opening.Brace? && c.radio.Some? && x.table.Some? then [(c.radio.value, x.table.value)] else []
  {
    var events := FeedCore(c, x).1;
    if x.Text? && x.opening.Brace? && c.radio.Some? && x.table.Some? {
      var first := ClientsUpdate(c.radio.value, x.table.value);
      var rest := events[1..];
      assert events == [first] + rest;
      ClientEventsConcat([first], rest);
      NoClientEvents(rest);
      assert [first][..0] == [] && ClientEvents([first]) == [(c.radio.value, x.table.value)];
    } else {
      NoClientEvents(events);
    }
  }

  /** The client lists announced are exactly the readable lists whose radio was announced, in order. */
  lemma {:induction false} ClientEventsAreTheLists(lines: seq<Line>)
    ensures ClientEvents(Events(lines)) == ClientLists(lines)
  {
    if lines != [] {
      var before, x := lines[..|lines| - 1], lines[|lines| - 1];
      ClientEventsAreTheLists(before);
      AgreementAlways(before);
      FeedClientEvents(Parser(before), x);
      ClientEventsConcat(Events(before), FeedCore(Parser(before), x).1);
    }
  }

  // --------------------------------------------------------------------- identities

  function IdentityEvents(es: seq<Event>): seq<Identity> {
    if es == [] then []
    else
      var e := es[|es| - 1];
      IdentityEvents(es[..|es| - 1]) + (if e.IdentityUpdate? then [e.identity] else [])
  }

  /** The identities that the lines tell: those of hinted lines that no announced radio claims. */
  function IdentitiesTold(lines: seq<Line>): seq<Identity> {
    if lines == [] then []
    else
      var before, x := lines[..|lines| - 1], lines[|lines| - 1];
      IdentitiesTold(before)
      + (if x.Text? && x.identityHint && x.identity.Some? && !(x.opening.Brace? && RadioAt(before).Some?) then [x.identity.value] else [])
  }

  function DropRepeats<T(==)>(s: seq<T>): seq<T> {
    if s == [] then []
    else
      DropRepeats(s[..|s| - 1]) + (if |s| > 1 && s[|s| - 1] == s[|s| - 2] then [] else [s[|s| - 1]])
  }

  lemma {:induction false} IdentityEventsConcat(a: seq<Event>, b: seq<Event>)
    ensures IdentityEvents(a + b) == IdentityEvents(a) + IdentityEvents(b)
  {
    if b == [] {
      assert a + b == a;
    } else {
      assert (a + b)[..|a + b| - 1] == a + b[..|b| - 1];
      IdentityEventsConcat(a, b[..|b| - 1]);
    }
  }

  lemma {:induction false} NoIdentityEvents(es: seq<Event>)
    requires forall i :: 0 <= i < |es| ==> !es[i].IdentityUpdate?
    ensures IdentityEvents(es) == []
  {
    if es != [] { NoIdentityEvents(es[..|es| - 1]); }
  }

  predicate Tells(c: Core, x: Line) {
    x.Text? && x.identityHint && x.identity.Some? && !(x.opening.Brace? && c.radio.Some?)
  }

  lemma FeedIdentityEvents(c: Core, x: Line)
    ensures IdentityEvents(FeedCore(c, x).1) == if Tells(c, x) && x.identity != c.identity then [x.identity.value] else []
    ensures FeedCore(c, x).0.identity == if Tells(c, x) then x.identity else c.identity
  {
    var events := FeedCore(c, x).1;
    if Tells(c, x) && x.identity != c.identity {
      assert events == [IdentityUpdate(x.identity.value)] && events[..0] == [];
    } else {
      NoIdentityEvents(events);
    }
  }

  lemma TellingOnce(told: seq<Identity>, x: Identity)
    ensures DropRepeats(told + [x]) == DropRepeats(told) + (if LastOf(told) == Some(x) then [] else [x])
    ensures LastOf(told + [x]) == Some(x)
  {
    assert (told + [x])[..|told|] == told;
  }

  /** The identities announced are exactly those told, repeats of the one before dropped; and the parser keeps the last. */
  lemma {:induction false} IdentityEventsAreTheNews(lines: seq<Line>)
    ensures IdentityEvents(Events(lines)) == DropRepeats(IdentitiesTold(lines))
    ensures Parser(lines).identity == LastOf(IdentitiesTold(lines))
  {
    if lines != [] {
      var before, x := lines[..|lines| - 1], lines[|lines| - 1];
      IdentityEventsAreTheNews(before);
      AgreementAlways(before);
      FeedIdentityEvents(Parser(before), x);
      IdentityEventsConcat(Events(before), FeedCore(Parser(before), x).1);
      if Tells(Parser(before), x) {
        TellingOnce(IdentitiesTold(before), x.identity.value);
      } else {
        assert IdentitiesTold(lines) == IdentitiesTold(before);
      }
    }
  }

  // -------------------------------------------------------------------- capabilities

  /** Line `m` asks for capabilities, nothing since has answered or asked again, and the wait is not over. */
  ghost predicate Asks(lines: seq<Line>, m: nat) {
    && m < |lines| && lines[m].CapabilityMarker? && |lines| - 1 - m < SSID_CAPABILITY_WAIT_LINES
    && forall j :: m < j < |lines| ==> !lines[j].CapabilityMarker? && !IsPayload(lines[j])
  }

  ghost predicate Awaited(lines: seq<Line>) {
    exists m: nat :: Asks(lines, m)
  }

  lemma {:induction false} WaitIsAwaited(lines: seq<Line>)
    ensures WaitAfter(START.wait, lines).waiting <==> Awaited(lines)
    ensures forall m: nat :: Asks(lines, m) ==> WaitAfter(START.wait, lines).lines == SSID_CAPABILITY_WAIT_LINES - (|lines| - 1 - m)
  {
    if lines != [] {
      var before, x := lines[..|lines| - 1], lines[|lines| - 1];
      WaitIsAwaited(before);
      CounterInRange(before);
      forall m: nat | Asks(lines, m)
        ensures WaitAfter(START.wait, lines).waiting
        ensures WaitAfter(START.wait, lines).lines == SSID_CAPABILITY_WAIT_LINES - (|lines| - 1 - m)
      {
        if m < |before| { assert Asks(before, m); }
      }
      if WaitAfter(START.wait, lines).waiting {
        if x.CapabilityMarker? {
          assert Asks(lines, |before|);
        } else {
          var m: nat :| Asks(before, m);
          assert Asks(lines, m);
        }
      }
    }
  }

  function CapabilityEvents(es: seq<Event>): seq<seq<string>> {
    if es == [] then []
    else
      var e := es[|es| - 1];
      CapabilityEvents(es[..|es| - 1]) + (if e.CapabilityUpdate? then [e.rows] else [])
  }

  /** The payloads that answer. */
  ghost function Answers(lines: seq<Line>): seq<seq<string>> {
    if lines == [] then []
    else
      var before, x := lines[..|lines| - 1], lines[|lines| - 1];
      Answers(before) + (if Awaited(before) && IsPayload(x) then [x.rows.value] else [])
  }

  lemma {:induction false} CapabilityEventsConcat(a: seq<Event>, b: seq<Event>)
    ensures CapabilityEvents(a + b) == CapabilityEvents(a) + CapabilityEvents(b)
  {
    if b == [] {
      assert a + b == a;
    } else {
      assert (a + b)[..|a + b| - 1] == a + b[..|b| - 1];
      CapabilityEventsConcat(a, b[..|b| - 1]);
    }
  }

  lemma {:induction false} NoCapabilityEvents(es: seq<Event>)
    requires forall i :: 0 <= i < |es| ==> !es[i].CapabilityUpdate?
    ensures CapabilityEvents(es) == []
  {
    if es != [] { NoCapabilityEvents(es[..|es| - 1]); }
  }

  lemma StepCapabilityEvents(s: State, x: Line)
    ensures var answer := s.wait.waiting && IsPayload(x);
            && CapabilityEvents(ParseStep(s, x).1) == (if answer then [x.rows.value] else [])
            && ParseStep(s, x).0.capabilities == (if answer then x.rows.value else s.capabilities)
  {
    var events := ParseStep(s, x).1;
    if s.wait.waiting && IsPayload(x) {
      assert events == [CapabilityUpdate(x.rows.value)] && events[..0] == [];
    } else {
      NoCapabilityEvents(events);
    }
  }

  /** The capabilities announced are exactly the payloads that answer a marker in time, and the parser keeps the last. */
  lemma {:induction false} CapabilityEventsAreTheAnswers(lines: seq<Line>)
    ensures CapabilityEvents(RunParser(lines).1) == Answers(lines)
    ensures RunParser(lines).0.capabilities == Or(LastOf(Answers(lines)), [])
  {
    if lines != [] {
      var before, x := lines[..|lines| - 1], lines[|lines| - 1];
      CapabilityEventsAreTheAnswers(before);
      WaitIsTransparent(before);
      WaitIsAwaited(before);
      StepCapabilityEvents(RunParser(before).0, x);
      CapabilityEventsConcat(RunParser(before).1, ParseStep(RunParser(before).0, x).1);
    }
  }

  // ------------------------------------------------------------------ with the wait

  lemma {:induction false} OthersAreUnaffected(es: seq<Event>)
    ensures IdentityEvents(OtherEvents(es)) == IdentityEvents(es) && ClientEvents(OtherEvents(es)) == ClientEvents(es)
  {
    if es != [] {
      var init, e := es[..|es| - 1], es[|es| - 1];
      OthersAreUnaffected(init);
      if IsCapabilityEvent(e) {
        assert OtherEvents(init) + [] == OtherEvents(init);
      } else {
        assert (OtherEvents(init) + [e])[..|OtherEvents(init)|] == OtherEvents(init);
      }
    }
  }

  /** What a whole session announces, with markers and consumed payloads among its lines. */
  lemma SessionAnnounces(lines: seq<Line>)
    ensures IdentityEvents(RunParser(lines).1) == DropRepeats(IdentitiesTold(Erase(lines)))
    ensures ClientEvents(RunParser(lines).1) == ClientLists(Erase(lines))
    ensures CapabilityEvents(RunParser(lines).1) == Answers(lines)
    ensures RunParser(lines).0.core.identity == LastOf(IdentitiesTold(Erase(lines)))
  {
    WaitIsTransparent(lines);
    OthersAreUnaffected(RunParser(lines).1);
    IdentityEventsAreTheNews(Erase(lines));
    ClientEventsAreTheLists(Erase(lines));
    CapabilityEventsAreTheAnswers(lines);
  }

  // ---------------------------------------------------------------- fulls and deltas

  /** A full update comes exactly when the header is new to the store; a delta never touches the header and never is empty. */
  ghost predicate Economical(store: Option<Snapshot>, e: Event) {
    match e
    case SnapshotUpdate(full) => store.None? || !SameHeader(store.value, full)
    case SnapshotDelta(d) => store.Some? && d != EMPTY_DELTA && d.testCount == None && d.deviceTs == None
    case _ => true
  }

  lemma EmitIsEconomical(c: Core, store: Option<Snapshot>)
    requires c.open.Some? && Mirrors(store, c.last)
    ensures |Emit(c).1| <= 1 && forall i :: 0 <= i < |Emit(c).1| ==> Economical(store, Emit(c).1[i])
  {
  }

  lemma FeedIsEconomical(c: Core, store: Option<Snapshot>, x: Line)
    requires Mirrors(store, c.last)
    ensures var es := FeedCore(c, x).1; forall i :: 0 <= i < |es| ==> Economical(Fold(store, es[..i]), es[i])
  {
    var es := FeedCore(c, x).1;
    forall i | 0 <= i < |es| ensures Economical(Fold(store, es[..i]), es[i]) {
      if i > 0 {
        assert es[..1] == [es[0]];
        NoSnapshotsNoChange(store, es[..1]);
      }
    }
  }

  /** One full update per test time, deltas for the rest of it, and no event that says nothing. */
  lemma {:induction false} EventsAreEconomical(lines: seq<Line>, i: nat)
    requires i < |Events(lines)|
    ensures Economical(Fold(None, Events(lines)[..i]), Events(lines)[i])
  {
    var before, x := lines[..|lines| - 1], lines[|lines| - 1];
    var es, more := Events(before), FeedCore(Parser(before), x).1;
    assert Events(lines) == es + more;
    if i < |es| {
      EventsAreEconomical(before, i);
      assert (es + more)[..i] == es[..i];
    } else {
      AgreementAlways(before);
      FeedIsEconomical(Parser(before), Store(before), x);
      assert (es + more)[..i] == es + more[..i - |es|];
      FoldConcat(None, es, more[..i - |es|]);
    }
  }
}
