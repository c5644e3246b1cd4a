/** The console parser: classified lines in, snapshot / client / identity / capability events out. */
module SysMonParser {
  import opened Common
  import opened Snapshots

  const MEM_KEYS: set<string> :=
    {"MemTotal", "MemFree", "MemAvailable", "Buffers", "Cached", "Slab", "SReclaimable", "SUnreclaim"}
  const SSID_CAPABILITY_WAIT_LINES: nat := 100

  /** What a line starts with once its blanks are stripped. */
  datatype Opening = Brace | Bracket | Plain

  /** A console line after the regular expressions and the JSON decoder have looked at it.
      `rows`, `table` and `identity` are what the three JSON readers would make of the line. */
  datatype Line =
    | CapabilityMarker
    | Header(count: nat, ts: string)
    | ClientsMarker(radio: string)
    | Cpu(core: string, metrics: Metrics)
    | Mem(key: string, value: nat)
    | Text(opening: Opening, identityHint: bool,
           rows: Option<seq<string>>, table: Option<ClientTable>, identity: Option<Identity>)

  function Fresh(h: Line): Snapshot
    requires h.Header?
  {
    Snapshot(h.count, h.ts, map[], map[], map[])
  }

  // --------------------------------------------------------------- specification

  datatype Core = Core(open: Option<Snapshot>, last: Option<Snapshot>, radio: Option<string>, identity: Option<Identity>)

  const RESET := Core(None, None, None, None)

  /** One update of the open snapshot: a full at a boundary, else a delta, else nothing. */
  function Emission(last: Option<Snapshot>, current: Snapshot): seq<Event> {
    if last.None? || !SameHeader(last.value, current) then [SnapshotUpdate(current)]
    else if BuildDelta(last.value, current) != EMPTY_DELTA then [SnapshotDelta(BuildDelta(last.value, current))]
    else []
  }

  function Emit(c: Core): (Core, seq<Event>)
    requires c.open.Some?
  {
    var events := Emission(c.last, c.open.value);
    (if events == [] then c else c.(last := c.open), events)
  }

  /** Everything `feed` does below the SSID-capability wait. */
  function FeedCore(c: Core, line: Line): (Core, seq<Event>) {
    match line
    case CapabilityMarker => (c, [])
    case Header(_, _) =>
      var (d, events) := if c.open.Some? then Emit(c) else (c, []);
      (d.(open := Some(Fresh(line)), radio := None), events)
    case ClientsMarker(radio) => (c.(radio := Some(radio)), [])
    case Cpu(core, metrics) =>
      if c.open.None? then (c, [])
      else Emit(c.(open := Some(c.open.value.(cpu := c.open.value.cpu[core := metrics]))))
    case Mem(key, value) =>
      if c.open.None? || key !in MEM_KEYS then (c, [])
      else Emit(c.(open := Some(c.open.value.(memory := c.open.value.memory[key := value]))))
    case Text(opening, hint, _, table, identity) =>
      if c.radio.Some? && opening.Brace? then
        var d := c.(radio := None);
        if table.None? then (d, [])
        else if c.open.None? then (d, [ClientsUpdate(c.radio.value, table.value)])
        else
          var s := c.open.value.(wifi := c.open.value.wifi[c.radio.value := table.value]);
          var (f, events) := Emit(d.(open := Some(s)));
          (f, [ClientsUpdate(c.radio.value, table.value)] + events)
      else if hint && identity.Some? && identity != c.identity then
        (c.(identity := identity), [IdentityUpdate(identity.value)])
      else (c, [])
  }

  /** The capability wait: armed by the marker, ended by a payload or by the line count. */
  datatype Wait = Wait(waiting: bool, lines: int)

  predicate IsPayload(line: Line) {
    line.Text? && !line.opening.Plain? && line.rows.Some?
  }

  predicate Consumes(w: Wait, line: Line) {
    line.CapabilityMarker? || (w.waiting && IsPayload(line))
  }

  function WaitNext(w: Wait, line: Line): Wait {
    if line.CapabilityMarker? then Wait(true, SSID_CAPABILITY_WAIT_LINES)
    else if !w.waiting then w
    else if IsPayload(line) then Wait(false, 0)
    else Wait(w.lines > 1, w.lines - 1)
  }

  datatype State = State(core: Core, wait: Wait, capabilities: seq<string>)

  const START := State(RESET, Wait(false, 0), [])

  function ParseStep(s: State, line: Line): (State, seq<Event>) {
    var w := WaitNext(s.wait, line);
    if line.CapabilityMarker? then (s.(wait := w), [])
    else if Consumes(s.wait, line) then
      (s.(wait := w, capabilities := line.rows.value), [CapabilityUpdate(line.rows.value)])
    else
      var (c, events) := FeedCore(s.core, line);
      (s.(core := c, wait := w), events)
  }

  // ------------------------------------------------------------------- the class

  class SysMonParser {
    var currentSnapshot: Option<Snapshot>
    var lastEmittedSnapshot: Option<Snapshot>
    var pendingClientsRadio: Option<string>
    var identity: Option<Identity>
    var ssidCapabilities: seq<string>
    var pendingSsidCapability: bool
    var ssidCapabilityWaitLines: int
    var snapshotFullCount: nat
    var snapshotDeltaCount: nat
    /** The events handed to `on_event`, in order. */
    var events: seq<Event>

    constructor ()
      ensures View() == START && events == [] && snapshotFullCount == snapshotDeltaCount == 0
    {
      currentSnapshot, lastEmittedSnapshot, pendingClientsRadio, identity := None, None, None, None;
      ssidCapabilities, pendingSsidCapability, ssidCapabilityWaitLines := [], false, 0;
      snapshotFullCount, snapshotDeltaCount, events := 0, 0, [];
    }

    function CoreView(): Core
      reads this
    {
      Core(currentSnapshot, lastEmittedSnapshot, pendingClientsRadio, identity)
    }

    function View(): State
      reads this
    {
      State(CoreView(), Wait(pendingSsidCapability, ssidCapabilityWaitLines), ssidCapabilities)
    }

    method Reset()
      modifies this
      ensures View() == START && events == old(events) && snapshotFullCount == snapshotDeltaCount == 0
    {
      currentSnapshot, lastEmittedSnapshot, pendingClientsRadio, identity := None, None, None, None;
      ssidCapabilities, pendingSsidCapability, ssidCapabilityWaitLines := [], false, 0;
      snapshotFullCount, snapshotDeltaCount := 0, 0;
    }

    method EmitSnapshotUpdate()
      modifies this`events, this`lastEmittedSnapshot, this`snapshotFullCount, this`snapshotDeltaCount
      ensures old(currentSnapshot).None? ==> CoreView() == old(CoreView()) && events == old(events)
      ensures old(currentSnapshot).Some? ==>
                CoreView() == Emit(old(CoreView())).0 && events == old(events) + Emit(old(CoreView())).1
    {
      if currentSnapshot.None? {
        return;
      }
      var current := currentSnapshot.value;
      if lastEmittedSnapshot.None? || !SameHeader(lastEmittedSnapshot.value, current) {
        events := events + [SnapshotUpdate(current)];
        lastEmittedSnapshot := Some(current);
        snapshotFullCount := snapshotFullCount + 1;
        return;
      }
      var delta := BuildDelta(lastEmittedSnapshot.value, current);
      if delta != EMPTY_DELTA {
        events := events + [SnapshotDelta(delta)];
        lastEmittedSnapshot := Some(current);
        snapshotDeltaCount := snapshotDeltaCount + 1;
      }
    }

    /** Also `flush`. */
    method EmitCurrentSnapshot()
      modifies this`events, this`lastEmittedSnapshot, this`snapshotFullCount, this`snapshotDeltaCount, this`currentSnapshot
      ensures old(currentSnapshot).None? ==> CoreView() == old(CoreView()) && events == old(events)
      ensures old(currentSnapshot).Some? ==>
                && CoreView() == Emit(old(CoreView())).0.(open := None)
                && events == old(events) + Emit(old(CoreView())).1
    {
      if currentSnapshot.None? {
        return;
      }
      EmitSnapshotUpdate();
      currentSnapshot := None;
    }

    method ConsumeClientsJson(table: Option<ClientTable>)
      requires pendingClientsRadio.Some?
      modifies this`events, this`lastEmittedSnapshot, this`snapshotFullCount, this`snapshotDeltaCount,
               this`currentSnapshot, this`pendingClientsRadio
      ensures var line := Text(Brace, false, None, table, None);
              && CoreView() == FeedCore(old(CoreView()), line).0
              && events == old(events) + FeedCore(old(CoreView()), line).1
    {
      var radio := pendingClientsRadio.value;
      pendingClientsRadio := None;
      if table.None? {
        return;
      }
      events := events + [ClientsUpdate(radio, table.value)];
      if currentSnapshot.Some? {
        var s := currentSnapshot.value;
        currentSnapshot := Some(s.(wifi := s.wifi[radio := table.value]));
        EmitSnapshotUpdate();
      }
    }

    method Feed(line: Line)
      modifies this
      ensures View() == ParseStep(old(View()), line).0
      ensures events == old(events) + ParseStep(old(View()), line).1
    {
      hide FeedCore;
      if line.CapabilityMarker? {
        pendingSsidCapability := true;
        ssidCapabilityWaitLines := SSID_CAPABILITY_WAIT_LINES;
        return;
      }
      if pendingSsidCapability {
        if line.Text? && !line.opening.Plain? && line.rows.Some? {
          ssidCapabilities := line.rows.value;
          events := events + [CapabilityUpdate(ssidCapabilities)];
          pendingSsidCapability := false;
          ssidCapabilityWaitLines := 0;
          return;
        }
        ssidCapabilityWaitLines := ssidCapabilityWaitLines - 1;
        if ssidCapabilityWaitLines <= 0 {
          pendingSsidCapability := false;
        }
      }
      FeedBelowWait(line);
    }

    /** The rest of `feed`, which does not know about the wait. */
    method FeedBelowWait(line: Line)
      requires !line.CapabilityMarker?
      modifies this`events, this`lastEmittedSnapshot, this`snapshotFullCount, this`snapshotDeltaCount,
               this`currentSnapshot, this`pendingClientsRadio, this`identity
      ensures CoreView() == FeedCore(old(CoreView()), line).0
      ensures events == old(events) + FeedCore(old(CoreView()), line).1
    {
      hide Emit, Emission, BuildDelta, SameHeader;
      if line.Header? {
        EmitCurrentSnapshot();
        currentSnapshot := Some(Fresh(line));
        pendingClientsRadio := None;
        return;
      }
      if line.ClientsMarker? {
        pendingClientsRadio := Some(line.radio);
        return;
      }
      if pendingClientsRadio.Some? && line.Text? && line.opening.Brace? {
        ConsumeClientsJson(line.table);
        return;
      }
      if line.Text? && line.identityHint {
        if line.identity.Some? && line.identity != identity {
          identity := line.identity;
          events := events + [IdentityUpdate(line.identity.value)];
        }
        return;
      }
      if currentSnapshot.None? {
        return;
      }
      if line.Mem? {
        if line.key in MEM_KEYS {
          var s := currentSnapshot.value;
          currentSnapshot := Some(s.(memory := s.memory[line.key := line.value]));
          EmitSnapshotUpdate();
        }
        return;
      }
      if line.Cpu? {
        var s := currentSnapshot.value;
        currentSnapshot := Some(s.(cpu := s.cpu[line.core := line.metrics]));
        EmitSnapshotUpdate();
      }
    }
  }
}
