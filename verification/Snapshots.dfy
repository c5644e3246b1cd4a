/** The snapshot/delta contract shared by parser, store and browser, and the algebra behind it. */
module Snapshots {
  import opened Common

  /** One `CPUn:` line. The numbers are only ever copied and compared. */
  datatype Metrics = Metrics(usr: real, sys: real, nic: real, idle: real, io: real, irq: real, sirq: real)

  /** One radio's client list; the rows stay opaque JSON text. */
  datatype ClientTable = ClientTable(totalSize: int, clients: seq<string>)

  datatype Snapshot = Snapshot(testCount: nat, deviceTs: string,
                               cpu: map<string, Metrics>,
                               memory: map<string, nat>,
                               wifi: map<string, ClientTable>)

  /** One section of a delta: keys to pop, then entries to set. */
  datatype Patch<V> = Patch(removed: set<string>, updated: map<string, V>)

  /** An absent section and an empty one mean the same to every reader of a delta. */
  datatype Delta = Delta(testCount: Option<nat>, deviceTs: Option<string>,
                         cpu: Patch<Metrics>, memory: map<string, nat>, wifi: Patch<ClientTable>)

  const EMPTY_DELTA := Delta(None, None, Patch({}, map[]), map[], Patch({}, map[]))

  datatype Identity = Identity(fields: map<string, string>)

  datatype Event =
    | SnapshotUpdate(snapshot: Snapshot)
    | SnapshotDelta(delta: Delta)
    | ClientsUpdate(radio: string, table: ClientTable)
    | IdentityUpdate(identity: Identity)
    | CapabilityUpdate(rows: seq<string>)
    | ConsoleBatch(lines: seq<string>)

  // ---------------------------------------------------------------- applying

  function MergeSection<V>(base: map<string, V>, p: Patch<V>): map<string, V> {
    (base - p.removed) + p.updated
  }

  function Or<T>(o: Option<T>, fallback: T): T {
    if o.Some? then o.value else fallback
  }

  function Apply(base: Snapshot, d: Delta): Snapshot {
    Snapshot(Or(d.testCount, base.testCount), Or(d.deviceTs, base.deviceTs),
             MergeSection(base.cpu, d.cpu),
             base.memory + d.memory,
             MergeSection(base.wifi, d.wifi))
  }

  /** The loops of one section of `apply_snapshot_delta`: pop every removed key, then copy in the new entries. */
  method MergeSectionInPlace<V>(base: map<string, V>, p: Patch<V>) returns (target: map<string, V>)
    ensures target == MergeSection(base, p)
    ensures forall k :: k in p.updated ==> k in target && target[k] == p.updated[k]
    ensures forall k :: k in p.removed && k !in p.updated ==> k !in target
    ensures forall k :: k !in p.removed && k !in p.updated ==>
                          (k in target <==> k in base) && (k in base ==> target[k] == base[k])
  {
    target := base;
    var gone := p.removed;
    while gone != {}
      invariant gone <= p.removed
      invariant target == base - (p.removed - gone)
      decreases gone
    {
      var key :| key in gone;
      target := target - {key};
      gone := gone - {key};
    }
    var incoming := p.updated.Keys;
    while incoming != {}
      invariant incoming <= p.updated.Keys
      invariant target == (base - p.removed) + (p.updated - incoming)
      decreases incoming
    {
      var key :| key in incoming;
      target := target[key := p.updated[key]];
      incoming := incoming - {key};
    }
  }

  lemma MergeWithoutRemovals<V>(base: map<string, V>, updated: map<string, V>)
    ensures MergeSection(base, Patch({}, updated)) == base + updated
  {
    assert base - {} == base;
  }

  /** The backend's applier: section after section over a copy of the base. */
  method ApplySnapshotDelta(base: Snapshot, d: Delta) returns (merged: Snapshot)
    ensures merged == Apply(base, d)
  {
    merged := base;
    if d.testCount.Some? { merged := merged.(testCount := d.testCount.value); }
    if d.deviceTs.Some? { merged := merged.(deviceTs := d.deviceTs.value); }
    var cpu := MergeSectionInPlace(merged.cpu, d.cpu);
    var memory := MergeSectionInPlace(merged.memory, Patch({}, d.memory));
    MergeWithoutRemovals(merged.memory, d.memory);
    var wifi := MergeSectionInPlace(merged.wifi, d.wifi);
    merged := merged.(cpu := cpu, memory := memory, wifi := wifi);
  }

  /** The browser's applier: it builds each section first and one fresh object at the end. */
  method ApplyInBrowser(base: Snapshot, d: Delta) returns (next: Snapshot)
    ensures next == Apply(base, d)
  {
    var nextCpu := base.cpu;
    var gone := d.cpu.removed;
    while gone != {}
      invariant gone <= d.cpu.removed
      invariant nextCpu == base.cpu - (d.cpu.removed - gone)
      decreases gone
    {
      var coreId :| coreId in gone;
      nextCpu := nextCpu - {coreId};
      gone := gone - {coreId};
    }
    nextCpu := nextCpu + d.cpu.updated;
    var nextMemory := base.memory + d.memory;
    var nextWifi := base.wifi;
    gone := d.wifi.removed;
    while gone != {}
      invariant gone <= d.wifi.removed
      invariant nextWifi == base.wifi - (d.wifi.removed - gone)
      decreases gone
    {
      var radio :| radio in gone;
      nextWifi := nextWifi - {radio};
      gone := gone - {radio};
    }
    nextWifi := nextWifi + d.wifi.updated;
    next := Snapshot(Or(d.testCount, base.testCount), Or(d.deviceTs, base.deviceTs), nextCpu, nextMemory, nextWifi);
  }

  // ---------------------------------------------------------------- building

  function Changed<V(==)>(previous: map<string, V>, current: map<string, V>): map<string, V> {
    map k | k in current && !(k in previous && previous[k] == current[k]) :: current[k]
  }

  function DiffSection<V(==)>(previous: map<string, V>, current: map<string, V>): Patch<V> {
    Patch(previous.Keys - current.Keys, Changed(previous, current))
  }

  /** `_build_snapshot_delta`: memory gets no removed list. */
  function BuildDelta(previous: Snapshot, current: Snapshot): Delta {
    Delta(if previous.testCount != current.testCount then Some(current.testCount) else None,
          if previous.deviceTs != current.deviceTs then Some(current.deviceTs) else None,
          DiffSection(previous.cpu, current.cpu),
          Changed(previous.memory, current.memory),
          DiffSection(previous.wifi, current.wifi))
  }

  predicate SameHeader(a: Snapshot, b: Snapshot) {
    a.testCount == b.testCount && a.deviceTs == b.deviceTs
  }

  lemma MergeDiff<V>(previous: map<string, V>, current: map<string, V>)
    ensures MergeSection(previous, DiffSection(previous, current)) == current
  {
    var merged := MergeSection(previous, DiffSection(previous, current));
    assert merged.Keys == current.Keys;
  }

  /** Round trip, with the exact price of having no removed list for memory. */
  lemma DeltaRoundTrip(previous: Snapshot, current: Snapshot)
    ensures Apply(previous, BuildDelta(previous, current)) == current
            <==> previous.memory.Keys <= current.memory.Keys
  {
    var d := BuildDelta(previous, current);
    MergeDiff(previous.cpu, current.cpu);
    MergeDiff(previous.wifi, current.wifi);
    var memory := previous.memory + d.memory;
    assert memory.Keys == previous.memory.Keys + current.memory.Keys;
    if previous.memory.Keys <= current.memory.Keys {
      assert memory == current.memory;
    }
  }

  ghost predicate Agrees<V>(part: map<string, V>, whole: map<string, V>) {
    forall k :: k in part ==> k in whole && whole[k] == part[k]
  }

  lemma ChangedIsMinimal<V>(previous: map<string, V>, current: map<string, V>)
    ensures Changed(previous, current) == map[] <==> Agrees(current, previous)
    ensures Changed(previous, current) == map[] <==> previous + Changed(previous, current) == previous
  {
    var changed := Changed(previous, current);
    if !Agrees(current, previous) {
      var k :| k in current && !(k in previous && previous[k] == current[k]);
      assert k in changed && (previous + changed)[k] == current[k];
    }
  }

  lemma DiffIsMinimal<V>(previous: map<string, V>, current: map<string, V>)
    ensures DiffSection(previous, current) == Patch({}, map[]) <==> previous == current
    ensures MergeSection(previous, DiffSection(previous, current)) == previous <==> previous == current
  {
    MergeDiff(previous, current);
    ChangedIsMinimal(previous, current);
    if DiffSection(previous, current) == Patch({}, map[]) {
      assert previous.Keys <= current.Keys;
    }
  }

  /** A delta carries no key that did not change, and it is empty exactly when it would change nothing:
      then count, time stamp, cpu and wifi agree, and memory has no new key and no new value. */
  lemma DeltaIsMinimal(previous: Snapshot, current: Snapshot)
    ensures var d := BuildDelta(previous, current);
            && (forall k :: k in d.cpu.updated ==> !(k in previous.cpu && previous.cpu[k] == d.cpu.updated[k]))
            && (forall k :: k in d.memory ==> !(k in previous.memory && previous.memory[k] == d.memory[k]))
            && (forall k :: k in d.wifi.updated ==> !(k in previous.wifi && previous.wifi[k] == d.wifi.updated[k]))
            && d.cpu.removed !! d.cpu.updated.Keys && d.wifi.removed !! d.wifi.updated.Keys
    ensures BuildDelta(previous, current) == EMPTY_DELTA
            <==> SameHeader(previous, current) && previous.cpu == current.cpu && previous.wifi == current.wifi
                 && Agrees(current.memory, previous.memory)
    ensures BuildDelta(previous, current) == EMPTY_DELTA <==> Apply(previous, BuildDelta(previous, current)) == previous
  {
    DiffIsMinimal(previous.cpu, current.cpu);
    DiffIsMinimal(previous.wifi, current.wifi);
    ChangedIsMinimal(previous.memory, current.memory);
  }

  // ----------------------------------------------------------------- folding

  predicate IsSnapshotEvent(e: Event) {
    e.SnapshotUpdate? || e.SnapshotDelta?
  }

  /** One event on a consumer's baseline. A delta before any baseline is dropped, in the store and in the browser. */
  function Reduce(s: Option<Snapshot>, e: Event): Option<Snapshot> {
    match e
    case SnapshotUpdate(full) => Some(full)
    case SnapshotDelta(d) => if s.None? then None else Some(Apply(s.value, d))
    case _ => s
  }

  function Fold(s: Option<Snapshot>, es: seq<Event>): (r: Option<Snapshot>) {
    if es == [] then s else Reduce(Fold(s, es[..|es| - 1]), es[|es| - 1])
  }

  lemma {:induction false} FoldConcat(s: Option<Snapshot>, a: seq<Event>, b: seq<Event>)
    ensures Fold(s, a + b) == Fold(Fold(s, a), b)
  {
    if b == [] {
      assert a + b == a;
    } else {
      assert (a + b)[..|a + b| - 1] == a + b[..|b| - 1];
      FoldConcat(s, a, b[..|b| - 1]);
    }
  }

  /** What a stretch of events does to any baseline, as one operation. */
  datatype Effect = Keep | Change(d: Delta) | Replace(s: Snapshot)

  function ThenPatch<V>(p: Patch<V>, q: Patch<V>): Patch<V> {
    Patch(p.removed + q.removed, (p.updated - q.removed) + q.updated)
  }

  /** One delta standing for `d` followed by `e`. */
  function ThenDelta(d: Delta, e: Delta): Delta {
    Delta(if e.testCount.Some? then e.testCount else d.testCount,
          if e.deviceTs.Some? then e.deviceTs else d.deviceTs,
          ThenPatch(d.cpu, e.cpu), d.memory + e.memory, ThenPatch(d.wifi, e.wifi))
  }

  function Act(f: Effect, s: Option<Snapshot>): Option<Snapshot> {
    match f
    case Keep => s
    case Change(d) => if s.None? then None else Some(Apply(s.value, d))
    case Replace(full) => Some(full)
  }

  function Compose(f: Effect, g: Effect): Effect {
    match g
    case Keep => f
    case Replace(_) => g
    case Change(e) =>
      match f
      case Keep => g
      case Change(d) => Change(ThenDelta(d, e))
      case Replace(full) => Replace(Apply(full, e))
  }

  function EventEffect(e: Event): Effect {
    match e
    case SnapshotUpdate(full) => Replace(full)
    case SnapshotDelta(d) => Change(d)
    case _ => Keep
  }

  function EffectOf(es: seq<Event>): Effect {
    if es == [] then Keep else Compose(EffectOf(es[..|es| - 1]), EventEffect(es[|es| - 1]))
  }

  lemma MergeThen<V>(base: map<string, V>, p: Patch<V>, q: Patch<V>)
    ensures MergeSection(MergeSection(base, p), q) == MergeSection(base, ThenPatch(p, q))
  {
    var left := MergeSection(MergeSection(base, p), q);
    var right := MergeSection(base, ThenPatch(p, q));
    assert left.Keys == right.Keys;
  }

  lemma MemoryThen(base: map<string, nat>, p: map<string, nat>, q: map<string, nat>)
    ensures (base + p) + q == base + (p + q)
  {
  }

  lemma ApplyThen(base: Snapshot, d: Delta, e: Delta)
    ensures Apply(Apply(base, d), e) == Apply(base, ThenDelta(d, e))
  {
    assert Apply(Apply(base, d), e).cpu == Apply(base, ThenDelta(d, e)).cpu by { MergeThen(base.cpu, d.cpu, e.cpu); }
    assert Apply(Apply(base, d), e).wifi == Apply(base, ThenDelta(d, e)).wifi by { MergeThen(base.wifi, d.wifi, e.wifi); }
    MemoryThen(base.memory, d.memory, e.memory);
  }

  /** Any run of fulls and deltas collapses to one operation. */
  lemma {:induction false} FoldIsEffect(s: Option<Snapshot>, es: seq<Event>)
    ensures Fold(s, es) == Act(EffectOf(es), s)
  {
    if es != [] {
      var f := EffectOf(es[..|es| - 1]);
      var e := es[|es| - 1];
      FoldIsEffect(s, es[..|es| - 1]);
      if f.Change? && e.SnapshotDelta? && s.Some? {
        ApplyThen(s.value, f.d, e.delta);
      }
    }
  }

  lemma MergeBand<V>(base: map<string, V>, p: Patch<V>, q: Patch<V>)
    ensures MergeSection(MergeSection(MergeSection(base, p), q), p) == MergeSection(MergeSection(base, q), p)
  {
    var left := MergeSection(MergeSection(MergeSection(base, p), q), p);
    var right := MergeSection(MergeSection(base, q), p);
    assert left.Keys == right.Keys;
  }

  lemma ApplyBand(base: Snapshot, d: Delta, e: Delta)
    ensures Apply(Apply(Apply(base, d), e), d) == Apply(Apply(base, e), d)
  {
    MergeBand(base.cpu, d.cpu, e.cpu);
    MergeBand(base.wifi, d.wifi, e.wifi);
    MergeBand(base.memory, Patch({}, d.memory), Patch({}, e.memory));
    MergeWithoutRemovals(base.memory, d.memory);
    MergeWithoutRemovals(base.memory + d.memory, e.memory);
    MergeWithoutRemovals(base.memory + d.memory + e.memory, d.memory);
    MergeWithoutRemovals(base.memory, e.memory);
    MergeWithoutRemovals(base.memory + e.memory, d.memory);
  }

  /** Last writer wins, so an operation that comes again later need not have come before. */
  lemma FoldBand(s: Option<Snapshot>, a: seq<Event>, b: seq<Event>)
    ensures Fold(s, a + b + a) == Fold(s, b + a)
  {
    FoldConcat(s, a + b, a);
    FoldConcat(s, a, b);
    FoldConcat(s, b, a);
    FoldIsEffect(s, a);
    FoldIsEffect(Fold(s, a), b);
    FoldIsEffect(Fold(Fold(s, a), b), a);
    FoldIsEffect(s, b);
    FoldIsEffect(Fold(s, b), a);
    var f, g := EffectOf(a), EffectOf(b);
    if s.Some? && f.Change? && g.Change? {
      ApplyBand(s.value, f.d, g.d);
    } else if s.Some? && f.Change? && g.Keep? {
      ApplyBand(s.value, f.d, EMPTY_DELTA);
      ApplyEmpty(s.value);
      ApplyEmpty(Apply(s.value, f.d));
    }
  }

  lemma ApplyEmpty(base: Snapshot)
    ensures Apply(base, EMPTY_DELTA) == base
  {
    assert MergeSection(base.cpu, EMPTY_DELTA.cpu) == base.cpu;
    assert MergeSection(base.wifi, EMPTY_DELTA.wifi) == base.wifi;
    assert base.memory + EMPTY_DELTA.memory == base.memory;
  }

  /** Delivering any suffix of what was already folded in changes nothing: the documented duplicate race is harmless. */
  lemma SuffixReplayAbsorbed(s: Option<Snapshot>, prefix: seq<Event>, suffix: seq<Event>)
    ensures Fold(Fold(s, prefix + suffix), suffix) == Fold(s, prefix + suffix)
  {
    FoldConcat(s, prefix, suffix);
    var t := Fold(s, prefix);
    FoldConcat(t, suffix, suffix);
    FoldBand(t, suffix, []);
    assert suffix + [] + suffix == suffix + suffix && [] + suffix == suffix;
  }

  ghost predicate HasFull(es: seq<Event>) {
    exists i :: 0 <= i < |es| && es[i].SnapshotUpdate?
  }

  ghost predicate NoSnapshots(es: seq<Event>) {
    forall i :: 0 <= i < |es| ==> !IsSnapshotEvent(es[i])
  }

  /** After a full update the baseline no longer matters. */
  lemma {:induction false} FullForgets(s: Option<Snapshot>, t: Option<Snapshot>, es: seq<Event>)
    requires HasFull(es)
    ensures Fold(s, es) == Fold(t, es)
  {
    if !es[|es| - 1].SnapshotUpdate? {
      var i :| 0 <= i < |es| && es[i].SnapshotUpdate?;
      assert es[..|es| - 1][i].SnapshotUpdate?;
      FullForgets(s, t, es[..|es| - 1]);
    }
  }

  lemma {:induction false} NoSnapshotsNoChange(s: Option<Snapshot>, es: seq<Event>)
    requires NoSnapshots(es)
    ensures Fold(s, es) == s
  {
    if es != [] {
      NoSnapshotsNoChange(s, es[..|es| - 1]);
    }
  }

  // ------------------------------------------- when a stretch is harmless to everyone

  ghost predicate Inert(e: Event) {
    !IsSnapshotEvent(e) || e == SnapshotDelta(EMPTY_DELTA)
  }

  lemma {:induction false} EffectOfInert(es: seq<Event>)
    ensures (forall i :: 0 <= i < |es| ==> Inert(es[i])) <==> EffectOf(es) in {Keep, Change(EMPTY_DELTA)}
  {
    if es != [] {
      var n := |es| - 1;
      EffectOfInert(es[..n]);
      var f := EffectOf(es[..n]);
      var g := EventEffect(es[n]);
      assert Inert(es[n]) <==> g in {Keep, Change(EMPTY_DELTA)};
      if f.Change? && g.Change? {
        assert g.d == EMPTY_DELTA && f.d == EMPTY_DELTA ==> ThenDelta(f.d, g.d) == EMPTY_DELTA;
        if ThenDelta(f.d, g.d) == EMPTY_DELTA { ThenDeltaEmpty(f.d, g.d); }
      }
      assert (forall i :: 0 <= i < |es| ==> Inert(es[i])) <==> (forall i :: 0 <= i < n ==> Inert(es[..n][i])) && Inert(es[n]);
    }
  }

  lemma PatchEmpty<V>(p: Patch<V>, q: Patch<V>)
    requires ThenPatch(p, q) == Patch({}, map[])
    ensures p == Patch({}, map[]) && q == Patch({}, map[])
  {
    assert p.removed <= ThenPatch(p, q).removed && q.removed <= ThenPatch(p, q).removed;
    var both := ThenPatch(p, q).updated;
    assert both.Keys == (p.updated.Keys - q.removed) + q.updated.Keys;
    assert q.removed == {};
    assert p.updated == map[] && q.updated == map[];
  }

  lemma ThenDeltaEmpty(d: Delta, e: Delta)
    requires ThenDelta(d, e) == EMPTY_DELTA
    ensures d == EMPTY_DELTA && e == EMPTY_DELTA
  {
    PatchEmpty(d.cpu, e.cpu);
    PatchEmpty(d.wifi, e.wifi);
    assert (d.memory + e.memory).Keys == d.memory.Keys + e.memory.Keys;
    assert d.memory == map[] && e.memory == map[];
  }

  /** A snapshot on which `d` shows. */
  function Sensitive(d: Delta): Snapshot {
    Snapshot(if d.testCount.Some? then d.testCount.value + 1 else 0,
             if d.deviceTs.Some? then d.deviceTs.value + "?" else "",
             map k | k in d.cpu.removed - d.cpu.updated.Keys :: Metrics(0.0, 0.0, 0.0, 0.0, 0.0, 0.0, 0.0),
             map[],
             map k | k in d.wifi.removed - d.wifi.updated.Keys :: ClientTable(0, []))
  }

  lemma SensitiveShows(d: Delta)
    requires d != EMPTY_DELTA
    ensures Apply(Sensitive(d), d) != Sensitive(d)
  {
    var s := Sensitive(d);
    var t := Apply(s, d);
    if d.deviceTs.Some? {
      assert |t.deviceTs| != |s.deviceTs|;
    } else if d.memory != map[] {
      var k :| k in d.memory;
      assert k in t.memory && k !in s.memory;
    } else if d.cpu != EMPTY_DELTA.cpu {
      PatchShows(d.cpu, s.cpu);
    } else if d.wifi != EMPTY_DELTA.wifi {
      PatchShows(d.wifi, s.wifi);
    }
  }

  lemma PatchShows<V>(p: Patch<V>, base: map<string, V>)
    requires p != Patch({}, map[])
    requires base.Keys == p.removed - p.updated.Keys
    ensures MergeSection(base, p) != base
  {
    if p.updated != map[] {
      var k :| k in p.updated;
      assert k in MergeSection(base, p) && k !in base;
    } else {
      var k :| k in p.removed;
      assert k in base && k !in MergeSection(base, p);
    }
  }

  /** No consumer, whatever it holds, is disturbed by `es` exactly when `es` holds nothing but inert events. */
  lemma HarmlessToAllIffInert(es: seq<Event>)
    ensures (forall s :: Fold(s, es) == s) <==> (forall i :: 0 <= i < |es| ==> Inert(es[i]))
  {
    EffectOfInert(es);
    var f := EffectOf(es);
    if f in {Keep, Change(EMPTY_DELTA)} {
      forall s ensures Fold(s, es) == s {
        FoldIsEffect(s, es);
        if s.Some? { ApplyEmpty(s.value); }
      }
    } else if f.Replace? {
      FoldIsEffect(None, es);
      assert Fold(None, es) != None;
    } else {
      var s := Sensitive(f.d);
      FoldIsEffect(Some(s), es);
      SensitiveShows(f.d);
      assert Fold(Some(s), es) != Some(s);
    }
  }

  /** The same for consumers that hold a snapshot. */
  lemma HarmlessToFullsIffInert(es: seq<Event>)
    ensures (forall full :: Fold(Some(full), es) == Some(full)) <==> (forall i :: 0 <= i < |es| ==> Inert(es[i]))
  {
    EffectOfInert(es);
    var f := EffectOf(es);
    if f in {Keep, Change(EMPTY_DELTA)} {
      HarmlessToAllIffInert(es);
    } else {
      var s := if f.Replace? then f.s.(testCount := f.s.testCount + 1) else Sensitive(f.d);
      FoldIsEffect(Some(s), es);
      if f.Change? { SensitiveShows(f.d); }
      assert Fold(Some(s), es) != Some(s);
    }
  }

  /** A consumer without a snapshot stays without one exactly as long as no full update comes. */
  lemma {:induction false} FoldNoneIff(s: Option<Snapshot>, es: seq<Event>)
    ensures Fold(s, es) == None <==> s == None && !HasFull(es)
  {
    if es != [] {
      var n := |es| - 1;
      FoldNoneIff(s, es[..n]);
      FullStep(es);
    }
  }

  lemma FullStep(es: seq<Event>)
    requires es != []
    ensures HasFull(es) <==> HasFull(es[..|es| - 1]) || es[|es| - 1].SnapshotUpdate?
  {
    var n := |es| - 1;
    if HasFull(es) {
      var i :| 0 <= i < |es| && es[i].SnapshotUpdate?;
      if i < n { assert es[..n][i].SnapshotUpdate?; }
    }
    if HasFull(es[..n]) {
      var i :| 0 <= i < n && es[..n][i].SnapshotUpdate?;
      assert es[i].SnapshotUpdate?;
    }
  }
}
