/** What the store holds, said in terms of the console lines alone, and why it is what the parser has open. */
module ParserStoreAgreement {
  import opened Common
  import opened Snapshots
  import opened SysMonParser

  function RunCore(lines: seq<Line>): (Core, seq<Event>) {
    if lines == [] then (RESET, [])
    else
      var (c, events) := RunCore(lines[..|lines| - 1]);
      var (d, more) := FeedCore(c, lines[|lines| - 1]);
      (d, events + more)
  }

  function Parser(lines: seq<Line>): Core {
    RunCore(lines).0
  }

  function Events(lines: seq<Line>): seq<Event> {
    RunCore(lines).1
  }

  /** The store that was cleared when the parser was reset. */
  function Store(lines: seq<Line>): Option<Snapshot> {
    Fold(None, Events(lines))
  }

  // ------------------------------------------- the declarative reading of a console log

  /** The header in force. */
  function HeaderOf(lines: seq<Line>): Option<Line> {
    if lines == [] then None
    else if lines[|lines| - 1].Header? then Some(lines[|lines| - 1])
    else HeaderOf(lines[..|lines| - 1])
  }

  /** The last value reported for a core since the last header. */
  function CpuAt(lines: seq<Line>, core: string): Option<Metrics> {
    if lines == [] then None
    else
      match lines[|lines| - 1]
      case Header(_, _) => None
      case Cpu(k, metrics) => if k == core then Some(metrics) else CpuAt(lines[..|lines| - 1], core)
      case _ => CpuAt(lines[..|lines| - 1], core)
  }

  function MemAt(lines: seq<Line>, key: string): Option<nat> {
    if lines == [] then None
    else
      match lines[|lines| - 1]
      case Header(_, _) => None
      case Mem(k, value) => if k == key && k in MEM_KEYS then Some(value) else MemAt(lines[..|lines| - 1], key)
      case _ => MemAt(lines[..|lines| - 1], key)
  }

  /** As `MemAt`, but looking through a header that repeats the one before it. */
  function StoredMemAt(lines: seq<Line>, key: string): Option<nat> {
    if lines == [] then None
    else
      var before := lines[..|lines| - 1];
      match lines[|lines| - 1]
      case Header(_, _) => if HeaderOf(before) == Some(lines[|lines| - 1]) then StoredMemAt(before, key) else None
      case Mem(k, value) => if k == key && k in MEM_KEYS then Some(value) else StoredMemAt(before, key)
      case _ => StoredMemAt(before, key)
  }

  /** The radio whose client list is expected next. */
  function RadioAt(lines: seq<Line>): Option<string> {
    if lines == [] then None
    else
      match lines[|lines| - 1]
      case Header(_, _) => None
      case ClientsMarker(radio) => Some(radio)
      case Text(opening, _, _, _, _) => if opening.Brace? then None else RadioAt(lines[..|lines| - 1])
      case _ => RadioAt(lines[..|lines| - 1])
  }

  function TableAt(lines: seq<Line>, radio: string): Option<ClientTable> {
    if lines == [] then None
    else
      var before := lines[..|lines| - 1];
      match lines[|lines| - 1]
      case Header(_, _) => None
      case Text(opening, _, _, table, _) =>
        if opening.Brace? && RadioAt(before) == Some(radio) && table.Some? then table else TableAt(before, radio)
      case _ => TableAt(before, radio)
  }

  /** The line added something to the open snapshot. */
  predicate IsContent(before: seq<Line>, line: Line) {
    && HeaderOf(before).Some?
    && (line.Cpu?
        || (line.Mem? && line.key in MEM_KEYS)
        || (line.Text? && line.opening.Brace? && RadioAt(before).Some? && line.table.Some?))
  }

  ghost predicate NoRepeatedHeader(lines: seq<Line>) {
    forall i :: 0 <= i < |lines| && lines[i].Header? ==> HeaderOf(lines[..i]) != Some(lines[i])
  }

  function Lookup<V>(m: map<string, V>, k: string): Option<V> {
    if k in m then Some(m[k]) else None
  }

  // --------------------------------------------------------------- the open snapshot

  ghost predicate HeaderMatches(s: Snapshot, h: Option<Line>) {
    h.Some? && h.value.Header? && s.testCount == h.value.count && s.deviceTs == h.value.ts
  }

  ghost predicate CpuAndWifiMatch(s: Snapshot, lines: seq<Line>) {
    && HeaderMatches(s, HeaderOf(lines))
    && (forall k :: Lookup(s.cpu, k) == CpuAt(lines, k))
    && (forall k :: Lookup(s.wifi, k) == TableAt(lines, k))
  }

  /** The open snapshot is the last value per key since the last header. */
  ghost predicate OpenMatches(c: Core, lines: seq<Line>) {
    && c.radio == RadioAt(lines)
    && (c.open.None? <==> HeaderOf(lines).None?)
    && (c.open.Some? ==> CpuAndWifiMatch(c.open.value, lines) && forall k :: Lookup(c.open.value.memory, k) == MemAt(lines, k))
  }

  lemma LastLine(lines: seq<Line>, x: Line)
    ensures (lines + [x])[..|lines + [x]| - 1] == lines && (lines + [x])[|lines + [x]| - 1] == x
  {
  }

  lemma EmitKeepsOpen(c: Core)
    requires c.open.Some?
    ensures var d := Emit(c).0; d.open == c.open && d.radio == c.radio && d.identity == c.identity
  {
  }

  lemma FeedKeepsOpenMatching(c: Core, lines: seq<Line>, x: Line)
    requires OpenMatches(c, lines)
    ensures OpenMatches(FeedCore(c, x).0, lines + [x])
  {
    LastLine(lines, x);
    var d := FeedCore(c, x).0;
    assert forall k :: CpuAt(lines + [x], k)
                       == match x case Header(_, _) => None
                                  case Cpu(j, m) => if j == k then Some(m) else CpuAt(lines, k)
                                  case _ => CpuAt(lines, k);
    assert forall k :: MemAt(lines + [x], k)
                       == match x case Header(_, _) => None
                                  case Mem(j, v) => if j == k && j in MEM_KEYS then Some(v) else MemAt(lines, k)
                                  case _ => MemAt(lines, k);
    assert forall k :: TableAt(lines + [x], k)
                       == match x case Header(_, _) => None
                                  case Text(o, _, _, t, _) =>
                                    if o.Brace? && RadioAt(lines) == Some(k) && t.Some? then t else TableAt(lines, k)
                                  case _ => TableAt(lines, k);
  }

  // --------------------------------------------------------------------- the store

  /** The store's snapshot and the parser's memory of what it last sent. */
  ghost predicate Mirrors(store: Option<Snapshot>, last: Option<Snapshot>) {
    && (store.None? <==> last.None?)
    && (store.Some? ==>
          && SameHeader(store.value, last.value)
          && store.value.cpu == last.value.cpu
          && store.value.wifi == last.value.wifi
          && Agrees(last.value.memory, store.value.memory))
  }

  /** Keys the open snapshot has not heard of are stored as of the last change of header. */
  ghost predicate StaleMatches(c: Core, store: Option<Snapshot>, lines: seq<Line>) {
    c.open.Some? ==>
      if c.last.Some? && store.Some? && SameHeader(c.last.value, c.open.value)
      then forall k :: MemAt(lines, k).None? ==> Lookup(store.value.memory, k) == StoredMemAt(lines, k)
      else forall k :: MemAt(lines, k).None? ==> StoredMemAt(lines, k).None?
  }

  ghost predicate StoreMatches(store: Option<Snapshot>, lines: seq<Line>) {
    && store.Some?
    && CpuAndWifiMatch(store.value, lines)
    && forall k :: Lookup(store.value.memory, k) == StoredMemAt(lines, k)
  }

  lemma {:induction false} FreshestWins(lines: seq<Line>, k: string)
    ensures MemAt(lines, k).Some? ==> StoredMemAt(lines, k) == MemAt(lines, k)
  {
    if lines != [] {
      FreshestWins(lines[..|lines| - 1], k);
    }
  }

  lemma ChangedLookup(previous: map<string, nat>, current: map<string, nat>, stored: map<string, nat>)
    requires Agrees(previous, stored)
    ensures forall k :: Lookup(stored + Changed(previous, current), k)
                        == if k in current then Some(current[k]) else Lookup(stored, k)
    ensures Agrees(current, stored + Changed(previous, current))
  {
  }

  /** One emission brings the store to what the lines say. */
  lemma EmitSettles(c: Core, store: Option<Snapshot>, lines: seq<Line>)
    requires OpenMatches(c, lines) && c.open.Some? && Mirrors(store, c.last) && StaleMatches(c, store, lines)
    ensures var (d, events) := Emit(c);
            && Mirrors(Fold(store, events), d.last) && StoreMatches(Fold(store, events), lines)
            && d.last.Some? && SameHeader(d.last.value, c.open.value)
  {
    var s := c.open.value;
    var (d, events) := Emit(c);
    forall k ensures MemAt(lines, k).Some? ==> StoredMemAt(lines, k) == MemAt(lines, k) {
      FreshestWins(lines, k);
    }
    assert forall e :: Fold(store, [e]) == Reduce(store, e) by {
      forall e ensures Fold(store, [e]) == Reduce(store, e) { assert [e][..0] == []; }
    }
    if c.last.None? || !SameHeader(c.last.value, s) {
      assert Fold(store, events) == Some(s);
      forall k ensures Lookup(s.memory, k) == StoredMemAt(lines, k) {
        assert Lookup(s.memory, k) == MemAt(lines, k);
      }
    } else {
      var delta := BuildDelta(c.last.value, s);
      var after := Apply(store.value, delta);
      MergeDiff(store.value.cpu, s.cpu);
      MergeDiff(store.value.wifi, s.wifi);
      ChangedLookup(c.last.value.memory, s.memory, store.value.memory);
      DeltaIsMinimal(c.last.value, s);
      if events == [] {
        ApplyEmpty(store.value);
      }
      assert Fold(store, events) == Some(after);
      forall k ensures Lookup(after.memory, k) == StoredMemAt(lines, k) {
        assert Lookup(s.memory, k) == MemAt(lines, k);
      }
    }
  }

  ghost predicate Agreement(c: Core, store: Option<Snapshot>, lines: seq<Line>) {
    && OpenMatches(c, lines)
    && Mirrors(store, c.last)
    && StaleMatches(c, store, lines)
    && (c.open.None? ==> c.last.None?)
  }

  lemma FoldPlainFirst(store: Option<Snapshot>, e: Event, more: seq<Event>)
    requires !IsSnapshotEvent(e)
    ensures Fold(store, [e] + more) == Fold(store, more)
  {
    FoldConcat(store, [e], more);
    NoSnapshotsNoChange(store, [e]);
  }

  /** A line that changed the open snapshot from `was` to `c.open`, before anything is sent for it. */
  lemma ContentSettles(c: Core, was: Snapshot, store: Option<Snapshot>, before: seq<Line>, x: Line)
    requires !x.Header? && OpenMatches(c, before + [x]) && c.open.Some? && Mirrors(store, c.last)
    requires SameHeader(was, c.open.value) && StaleMatches(c.(open := Some(was)), store, before)
    ensures var (d, events) := Emit(c);
            Agreement(d, Fold(store, events), before + [x]) && StoreMatches(Fold(store, events), before + [x])
  {
    LastLine(before, x);
    var lines := before + [x];
    assert StaleMatches(c, store, lines) by {
      assert forall k :: MemAt(lines, k).None? ==> MemAt(before, k).None? && StoredMemAt(lines, k) == StoredMemAt(before, k);
    }
    EmitSettles(c, store, lines);
    EmitKeepsOpen(c);
  }

  lemma HeaderStarts(c: Core, store: Option<Snapshot>, before: seq<Line>, x: Line)
    requires x.Header? && Agreement(c, store, before)
    ensures var (d, events) := FeedCore(c, x); Agreement(d, Fold(store, events), before + [x])
  {
    LastLine(before, x);
    FeedKeepsOpenMatching(c, before, x);
    if c.open.Some? {
      EmitSettles(c, store, before);
    }
  }

  lemma OtherLine(c: Core, store: Option<Snapshot>, before: seq<Line>, x: Line)
    requires !x.Header? && Agreement(c, store, before)
    requires FeedCore(c, x).0.open == c.open && FeedCore(c, x).0.last == c.last && NoSnapshots(FeedCore(c, x).1)
    requires x.Mem? ==> c.open.None? || x.key !in MEM_KEYS
    ensures var (d, events) := FeedCore(c, x); Agreement(d, Fold(store, events), before + [x])
  {
    LastLine(before, x);
    var (d, events) := FeedCore(c, x);
    FeedKeepsOpenMatching(c, before, x);
    NoSnapshotsNoChange(store, events);
    assert c.open.Some? ==> forall k :: MemAt(before + [x], k) == MemAt(before, k) && StoredMemAt(before + [x], k) == StoredMemAt(before, k);
  }

  lemma AgreementStep(c: Core, store: Option<Snapshot>, before: seq<Line>, x: Line)
    requires Agreement(c, store, before)
    ensures var (d, events) := FeedCore(c, x);
            && Agreement(d, Fold(store, events), before + [x])
            && (IsContent(before, x) ==> StoreMatches(Fold(store, events), before + [x]))
  {
    FeedKeepsOpenMatching(c, before, x);
    var (d, events) := FeedCore(c, x);
    if x.Header? {
      HeaderStarts(c, store, before, x);
    } else if IsContent(before, x) {
      if x.Text? {
        var s := c.open.value.(wifi := c.open.value.wifi[c.radio.value := x.table.value]);
        var f := c.(radio := None, open := Some(s));
        EmitKeepsOpen(f);
        assert StaleMatches(f.(open := Some(c.open.value)), store, before);
        ContentSettles(f, c.open.value, store, before, x);
        FoldPlainFirst(store, ClientsUpdate(c.radio.value, x.table.value), Emit(f).1);
      } else {
        var f := c.(open := d.open);
        EmitKeepsOpen(f);
        assert (d, events) == Emit(f);
        assert StaleMatches(f.(open := Some(c.open.value)), store, before);
        ContentSettles(f, c.open.value, store, before, x);
      }
    } else {
      OtherLine(c, store, before, x);
    }
  }

  lemma {:induction false} AgreementAlways(lines: seq<Line>)
    ensures Agreement(Parser(lines), Store(lines), lines)
  {
    if lines != [] {
      var before, x := lines[..|lines| - 1], lines[|lines| - 1];
      assert lines == before + [x];
      AgreementAlways(before);
      AgreementStep(Parser(before), Store(before), before, x);
      FoldConcat(None, Events(before), FeedCore(Parser(before), x).1);
    }
  }

  // ------------------------------------------------------------------- main results

  /** After every content line the store is exactly what the lines say: cpu and wifi as of the last header, memory as of
      the last header that differs from the one before it. The parser's open snapshot differs from it at most in
      memory, where the store holds more. */
  lemma StoreAfterContent(before: seq<Line>, x: Line)
    requires IsContent(before, x)
    ensures var lines := before + [x];
            && StoreMatches(Store(lines), lines)
            && Parser(lines).open.Some?
            && SameHeader(Store(lines).value, Parser(lines).open.value)
            && Store(lines).value.cpu == Parser(lines).open.value.cpu
            && Store(lines).value.wifi == Parser(lines).open.value.wifi
            && Agrees(Parser(lines).open.value.memory, Store(lines).value.memory)
  {
    LastLine(before, x);
    var lines := before + [x];
    AgreementAlways(before);
    AgreementStep(Parser(before), Store(before), before, x);
    FoldConcat(None, Events(before), FeedCore(Parser(before), x).1);
    var s, o := Store(lines).value, Parser(lines).open.value;
    SameLookups(s.cpu, o.cpu) by { assert forall k :: Lookup(s.cpu, k) == CpuAt(lines, k) == Lookup(o.cpu, k); }
    SameLookups(s.wifi, o.wifi) by { assert forall k :: Lookup(s.wifi, k) == TableAt(lines, k) == Lookup(o.wifi, k); }
    forall k | k in o.memory ensures k in s.memory && s.memory[k] == o.memory[k] {
      FreshestWins(lines, k);
      assert Lookup(o.memory, k) == MemAt(lines, k) && Lookup(s.memory, k) == StoredMemAt(lines, k);
    }
  }

  lemma SameLookups<V>(a: map<string, V>, b: map<string, V>)
    requires forall k :: Lookup(a, k) == Lookup(b, k)
    ensures a == b
  {
    assert forall k :: k in a <==> k in b by {
      forall k ensures k in a <==> k in b { assert Lookup(a, k) == Lookup(b, k); }
    }
    assert forall k :: k in a ==> a[k] == b[k] by {
      forall k | k in a ensures a[k] == b[k] { assert Lookup(a, k) == Lookup(b, k); }
    }
  }

  /** Every stored memory key was reported again since the last header. */
  ghost predicate NothingLeftOver(lines: seq<Line>) {
    forall k :: StoredMemAt(lines, k).Some? ==> MemAt(lines, k).Some?
  }

  /** The store equals the open snapshot exactly when no memory key is left over from before a repeated header. */
  lemma StoreIsOpenSnapshotIff(before: seq<Line>, x: Line)
    requires IsContent(before, x)
    ensures var lines := before + [x];
            Store(lines) == Parser(lines).open <==> NothingLeftOver(lines)
  {
    var lines := before + [x];
    StoreAfterContent(before, x);
    AgreementAlways(lines);
    var s, o := Store(lines).value, Parser(lines).open.value;
    assert Store(lines) == Some(s) && Parser(lines).open == Some(o);
    if s == o {
      forall k | StoredMemAt(lines, k).Some? ensures MemAt(lines, k).Some? {
        assert Lookup(o.memory, k) == MemAt(lines, k) && Lookup(s.memory, k) == StoredMemAt(lines, k);
      }
      assert NothingLeftOver(lines);
    }
    if NothingLeftOver(lines) {
      forall k ensures Lookup(s.memory, k) == Lookup(o.memory, k) {
        FreshestWins(lines, k);
        assert Lookup(o.memory, k) == MemAt(lines, k) && Lookup(s.memory, k) == StoredMemAt(lines, k);
      }
      SameLookups(s.memory, o.memory);
      assert s == o;
    }
  }

  lemma {:induction false} NothingStale(lines: seq<Line>, k: string)
    requires NoRepeatedHeader(lines)
    ensures StoredMemAt(lines, k) == MemAt(lines, k)
  {
    if lines != [] {
      var before := lines[..|lines| - 1];
      assert forall i :: 0 <= i <= |before| ==> lines[..i] == before[..i];
      NothingStale(before, k);
    }
  }

  /** Without a header repeating the one before it, store and open snapshot agree after every content line. */
  lemma StoreIsOpenSnapshot(before: seq<Line>, x: Line)
    requires IsContent(before, x) && NoRepeatedHeader(before + [x])
    ensures Store(before + [x]) == Parser(before + [x]).open
  {
    forall k | StoredMemAt(before + [x], k).Some? ensures MemAt(before + [x], k).Some? {
      NothingStale(before + [x], k);
    }
    StoreIsOpenSnapshotIff(before, x);
  }

  /** A repeated header leaves a stale memory key in the store: the hypothesis cannot be dropped. */
  lemma RepeatedHeaderKeepsStaleMemory()
    ensures var h := Header(1, "2026-06-09 03:45:34");
            var before := [h, Mem("MemFree", 7), h];
            var x := Mem("MemTotal", 9);
            && IsContent(before, x) && Parser(before + [x]).open.Some? && Store(before + [x]).Some?
            && Parser(before + [x]).open.value.memory.Keys == {"MemTotal"}
            && Store(before + [x]).value.memory.Keys == {"MemFree", "MemTotal"}
  {
    var h := Header(1, "2026-06-09 03:45:34");
    var a, b, x := Mem("MemFree", 7), [h, Mem("MemFree", 7), h], Mem("MemTotal", 9);
    var one, two, lines := [h], [h, Mem("MemFree", 7)], [h, Mem("MemFree", 7), h] + [Mem("MemTotal", 9)];
    assert one[..0] == [] && two[..1] == one && b[..2] == two && lines[..3] == b;
    assert HeaderOf(one) == HeaderOf(two) == HeaderOf(b) == Some(h);
    forall k ensures StoredMemAt(lines, k) == if k == "MemTotal" then Some(9) else if k == "MemFree" then Some(7) else None {
      assert StoredMemAt(one, k) == None;
      assert StoredMemAt(two, k) == if k == "MemFree" then Some(7) else None;
      assert StoredMemAt(b, k) == StoredMemAt(two, k);
    }
    forall k ensures MemAt(lines, k) == if k == "MemTotal" then Some(9) else None {
      assert MemAt(b, k) == None;
    }
    StoreAfterContent(b, x);
    AgreementAlways(lines);
    var s, o := Store(lines).value, Parser(lines).open.value;
    forall k ensures k in s.memory <==> k in {"MemFree", "MemTotal"} {
      assert Lookup(s.memory, k) == StoredMemAt(lines, k);
    }
    forall k ensures k in o.memory <==> k in {"MemTotal"} {
      assert Lookup(o.memory, k) == MemAt(lines, k);
    }
  }
}
