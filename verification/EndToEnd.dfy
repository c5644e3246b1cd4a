/** From console lines to every browser, and the one shortcut that breaks the way. */
module EndToEnd {
  import opened Common
  import opened Snapshots
  import opened SysMonParser
  import opened ParserStoreAgreement
  import opened CapabilityWait
  import opened WebSocketManager
  import opened NodeProtocol
  import opened Convergence
  import opened Draining

  /** The events the reader observed since the last restart, `earlier` included. */
  function SessionEvents(earlier: seq<Event>, steps: seq<NodeStep>): seq<Event>
    decreases |steps|
  {
    if steps == [] then earlier
    else
      match steps[0]
      case Observe(t, e) => SessionEvents(if t == READER then earlier + [e] else earlier, steps[1..])
      case Restart => SessionEvents([], steps[1..])
      case _ => SessionEvents(earlier, steps[1..])
  }

  lemma {:induction false} StoreIsSession(n: Node, earlier: seq<Event>, steps: seq<NodeStep>)
    requires Possible(n, steps) && n.store == Fold(None, earlier)
    ensures Run(n, steps).store == Fold(None, SessionEvents(earlier, steps))
    decreases |steps|
  {
    if steps != [] {
      var m := Next(n, steps[0]);
      match steps[0] {
        case Observe(t, e) =>
          if t == READER {
            assert (earlier + [e])[..|earlier|] == earlier;
            StoreIsSession(m, earlier + [e], steps[1..]);
          } else {
            StoreIsSession(m, earlier, steps[1..]);
          }
        case Restart => StoreIsSession(m, [], steps[1..]);
        case _ => StoreIsSession(m, earlier, steps[1..]);
      }
    }
  }

  /** The reader ran the parser over `lines` since the last restart, whatever the other threads, browsers and earlier
      sessions did. Once a full update got through and nothing that matters was lost after it, a drained pipeline
      leaves every browser with the parser's open snapshot: exactly, if no memory key is left over. */
  lemma BrowserShowsOpenSnapshot(
      earlier: seq<NodeStep>, full: Snapshot, later: seq<NodeStep>,
      lines: seq<Line>, before: seq<Line>, x: Line, id: nat)
    requires Possible(IDLE_NODE, earlier)
    requires Enabled(Run(IDLE_NODE, earlier), Observe(READER, SnapshotUpdate(full)))
    requires var m := Next(Run(IDLE_NODE, earlier), Observe(READER, SnapshotUpdate(full)));
             Possible(m, later) && LosslessRun(m, later)
    requires SessionEvents(SessionEvents([], earlier) + [SnapshotUpdate(full)], later) == RunParser(lines).1
    requires Erase(lines) == before + [x] && IsContent(before, x)
    requires var r := Run(Next(Run(IDLE_NODE, earlier), Observe(READER, SnapshotUpdate(full))), later);
             Live(r, id) && NoSnapshots(Backlog(r))
    ensures var r := Run(Next(Run(IDLE_NODE, earlier), Observe(READER, SnapshotUpdate(full))), later);
            var shown := Baseline(r.clients[id]);
            var open := RunParser(lines).0.core.open;
            && shown.Some? && open.Some?
            && SameHeader(shown.value, open.value)
            && shown.value.cpu == open.value.cpu && shown.value.wifi == open.value.wifi
            && Agrees(open.value.memory, shown.value.memory)
            && (shown == open <==> NothingLeftOver(before + [x]))
  {
    StartIsOk();
    PipelineAlwaysOk(IDLE_NODE, earlier);
    var n := Run(IDLE_NODE, earlier);
    var o := Observe(READER, SnapshotUpdate(full));
    RecoveryAfterLoss(n, full, later, id);
    StoreIsSession(IDLE_NODE, [], earlier);
    var observed := SessionEvents([], earlier);
    assert (observed + [SnapshotUpdate(full)])[..|observed|] == observed;
    StoreIsSession(Next(n, o), observed + [SnapshotUpdate(full)], later);
    CapabilityEventsAreInert(None, RunParser(lines).1);
    WaitIsTransparent(lines);
    StoreAfterContent(before, x);
    StoreIsOpenSnapshotIff(before, x);
  }

  // ------------------------------------------------------------ the no-listener shortcut

  /** One event accepted for a browser that is gone by now; its drain is still to come. */
  function Abandoned(older: Snapshot): Node {
    Node(Some(older), map[READER := Idle], Pipe([SnapshotUpdate(older)], [], true, 0), 1, None, None, {}, NoJoiner,
         map[], [SnapshotUpdate(older)], [])
  }

  /** The next event was skipped, and the older one is queued. */
  function Skipped(older: Snapshot, newer: Snapshot): Node {
    Abandoned(older).(store := Some(newer), pipe := Pipe([], [SnapshotUpdate(older)], false, 0), callbacks := 0)
  }

  /** A second browser joined and was sent first the newer, then the older state. */
  function Regressed(older: Snapshot, newer: Snapshot): Node {
    Skipped(older, newer).(pipe := EMPTY_PIPE, sent := [SnapshotUpdate(older)],
                           clients := map[2 := [SnapshotUpdate(newer), SnapshotUpdate(older)]])
  }

  function Joined(): Node {
    IDLE_NODE.(clients := map[1 := []])
  }

  lemma ReachJoined(m: Node)
    requires Reaches(Joined(), m)
    ensures Reaches(IDLE_NODE, m)
  {
    hide Reaches;
    ReachesBy(Joined().(joiner := Replaying(1)), JoinEnd(true), Joined(), m);
    ReachesBy(Joined().(joiner := Added(1)), JoinRead, Joined().(joiner := Replaying(1)), m);
    ReachesBy(IDLE_NODE, JoinAdd(1), Joined().(joiner := Added(1)), m);
  }

  lemma ReachAbandoned(older: Snapshot, m: Node)
    requires Reaches(Abandoned(older), m)
    ensures Reaches(Joined(), m)
  {
    hide Reaches;
    var a := SnapshotUpdate(older);
    var observed := Joined().(store := Some(older), phases := map[READER := Observed(a)]);
    var checked := observed.(phases := map[READER := Checked(a)]);
    var submitted := observed.(phases := map[READER := MustSchedule], pipe := Pipe([a], [], true, 0), accepted := [a]);
    var scheduled := submitted.(phases := map[READER := Idle], callbacks := 1);
    ReachesBy(scheduled, Leave(1), Abandoned(older), m);
    ReachesBy(submitted, Schedule(READER), scheduled, m);
    ReachesBy(checked, Submit(READER), submitted, m);
    ReachesBy(observed, Check(READER), checked, m);
    ReachesBy(Joined(), Observe(READER, a), observed, m);
  }

  lemma ReachSkipped(older: Snapshot, newer: Snapshot, m: Node)
    requires Reaches(Skipped(older, newer), m)
    ensures Reaches(Abandoned(older), m)
  {
    hide Reaches;
    var b := SnapshotUpdate(newer);
    var n := Abandoned(older);
    var observed := n.(store := Some(newer), phases := map[READER := Observed(b)]);
    ReachesBy(n.(store := Some(newer)), NodeStep.DrainIngress, Skipped(older, newer), m);
    ReachesBy(observed, Check(READER), n.(store := Some(newer)), m);
    ReachesBy(n, Observe(READER, b), observed, m);
  }

  function Rejoined(older: Snapshot, newer: Snapshot): Node {
    Skipped(older, newer).(clients := map[2 := [SnapshotUpdate(newer)]])
  }

  lemma ReachRejoined(older: Snapshot, newer: Snapshot, m: Node)
    requires Reaches(Rejoined(older, newer), m)
    ensures Reaches(Skipped(older, newer), m)
  {
    hide Reaches;
    var n := Skipped(older, newer);
    var joined := Rejoined(older, newer);
    var added := n.(clients := map[2 := []], joiner := Added(2));
    ReachesBy(joined.(joiner := Replaying(2)), JoinEnd(true), joined, m);
    ReachesBy(added, JoinRead, joined.(joiner := Replaying(2)), m);
    ReachesBy(n, JoinAdd(2), added, m);
  }

  /** The older event has reached the front and is about to be broadcast. */
  function Taken(older: Snapshot, newer: Snapshot): Node {
    Rejoined(older, newer).(pipe := EMPTY_PIPE, inflight := Some(SnapshotUpdate(older)))
  }

  lemma ReachTaken(older: Snapshot, newer: Snapshot, m: Node)
    requires Reaches(Taken(older, newer), m)
    ensures Reaches(Rejoined(older, newer), m)
  {
    hide Reaches;
    ReachesBy(Rejoined(older, newer), Take, Taken(older, newer), m);
  }

  lemma ReachRegressed(older: Snapshot, newer: Snapshot)
    ensures Reaches(Taken(older, newer), Regressed(older, newer))
  {
    hide Reaches;
    var m := Regressed(older, newer);
    var taken := Taken(older, newer);
    var begun := taken.(round := Some({2}));
    var delivered := begun.(round := Some({}), clients := m.clients);
    ReachesSelf(m);
    assert [SnapshotUpdate(newer)] + [SnapshotUpdate(older)] == m.clients[2];
    assert {2} - {2} == {} && taken.clients.Keys == {2};
    ReachesBy(delivered, RoundEnd, m, m);
    ReachesBy(begun, SendTo(2, true), delivered, m);
    ReachesBy(taken, RoundBegin, begun, m);
  }

  lemma RegressedShowsOlder(older: Snapshot, newer: Snapshot)
    ensures var n := Regressed(older, newer);
            && Live(n, 2) && Backlog(n) == [] && n.pipe.dropped == 0
            && n.store == Some(newer) && Baseline(n.clients[2]) == Some(older)
  {
    assert Regressed(older, newer).clients[2][..1] == [SnapshotUpdate(newer)];
  }

  /** A browser joins after an event was skipped for want of listeners while an older one was still queued: it is sent
      the newer state first and the older one afterwards, and keeps it, although the drop counter is still zero. */
  lemma NoListenerShortcutRegresses(older: Snapshot, newer: Snapshot)
    ensures exists n ::
              && Reaches(IDLE_NODE, n)
              && Live(n, 2) && Backlog(n) == [] && n.pipe.dropped == 0
              && n.store == Some(newer) && Baseline(n.clients[2]) == Some(older)
  {
    var n := Regressed(older, newer);
    ReachRegressed(older, newer);
    ReachTaken(older, newer, n);
    ReachRejoined(older, newer, n);
    ReachSkipped(older, newer, n);
    ReachAbandoned(older, n);
    ReachJoined(n);
    RegressedShowsOlder(older, newer);
  }
}
