/** When the log's operations succeed, in terms of what the device answered and which names were free. */
module LogOutcomes {
  import opened Common
  import opened LogDirectory
  import opened LogLayout
  import opened LogMachine
  import opened LogInvariant

  // ------------------------------------------------------------------------- names

  /** The number a string of decimal digits stands for. */
  function Value(s: string): int {
    if s == [] then 0 else 10 * Value(s[..|s| - 1]) + (s[|s| - 1] as int - '0' as int)
  }

  lemma {:induction false} DigitsValue(n: nat)
    ensures Value(Digits(n)) == n && Digits(n) != []
  {
    var d := Digits(n);
    if n < 10 {
      assert d[..0] == [];
    } else {
      DigitsValue(n / 10);
      assert d[..|d| - 1] == Digits(n / 10);
    }
  }

  lemma {:induction false} ZerosValue(k: nat, d: string)
    ensures Value(seq(k, _ => '0') + d) == Value(d)
  {
    var s := seq(k, _ => '0') + d;
    if d != [] {
      assert s[..|s| - 1] == seq(k, _ => '0') + d[..|d| - 1];
      ZerosValue(k, d[..|d| - 1]);
    } else if k > 0 {
      assert s[..|s| - 1] == seq(k - 1, _ => '0') + [];
      ZerosValue(k - 1, []);
    }
  }

  lemma PadValue(n: nat)
    ensures Value(Pad4(n)) == n
  {
    DigitsValue(n);
    if |Digits(n)| < 4 {
      ZerosValue(4 - |Digits(n)|, Digits(n));
    }
  }

  /** The parts of a session never get each other's names. */
  lemma PartNamesDiffer(token: string, i: nat, j: nat)
    requires 1 < i && 1 < j && SegmentName(token, i) == SegmentName(token, j)
    ensures i == j
  {
    PadValue(i);
    PadValue(j);
    var p := "dut-" + token + "-part";
    var a, b := SegmentName(token, i), SegmentName(token, j);
    assert a == p + Pad4(i) + ".log" && b == p + Pad4(j) + ".log";
    assert a[|p|..|a| - 4] == Pad4(i) && b[|p|..|b| - 4] == Pad4(j);
  }

  lemma TriedNameShows(stamp: string, i: nat)
    requires 1 <= i
    ensures var name := SegmentName(Token(stamp, i), 1);
            && 8 + |stamp| <= |name|
            && name[4 + |stamp|..|name| - 4] == if i == 1 then "" else "-" + Digits(i)
  {
    hide Digits;
    var p, x := "dut-" + stamp, if i == 1 then "" else "-" + Digits(i);
    assert SegmentName(Token(stamp, i), 1) == p + x + ".log";
  }

  /** Nor do the names a session tries for its first file. */
  lemma TriedNamesDiffer(stamp: string, i: nat, j: nat)
    requires 1 <= i && 1 <= j && SegmentName(Token(stamp, i), 1) == SegmentName(Token(stamp, j), 1)
    ensures i == j
  {
    hide Value, Digits;
    TriedNameShows(stamp, i);
    TriedNameShows(stamp, j);
    DigitsValue(i);
    DigitsValue(j);
    if i > 1 && j > 1 {
      assert ("-" + Digits(i))[1..] == Digits(i) && ("-" + Digits(j))[1..] == Digits(j);
    }
  }

  // ------------------------------------------------------------------------ writing

  /** Everything asked between these two numbers was granted. */
  ghost predicate Granted(answers: nat -> bool, before: nat, after: nat) {
    forall k :: before <= k < after ==> answers(k)
  }

  lemma GrantedTrans(answers: nat -> bool, a: nat, b: nat, c: nat)
    requires a <= b <= c
    ensures Granted(answers, a, c) <==> Granted(answers, a, b) && Granted(answers, b, c)
  {
  }

  /** How full the current segment is after these writes, if each was taken as answered: a full one is left for a new one. */
  function Fill(u: Setup, segmentBytes: int, before: nat, after: nat): int
    decreases after
  {
    if after <= before then segmentBytes
    else Room(u, Fill(u, segmentBytes, before, after - 1)) + u.device.takes(after - 1)
  }

  function Room(u: Setup, fill: int): int {
    if fill == u.segmentLimit then 0 else fill
  }

  /** The bytes of these answers together. */
  function Sum(u: Setup, before: nat, after: nat): int
    decreases after
  {
    if after <= before then 0 else Sum(u, before, after - 1) + u.device.takes(after - 1)
  }

  /** What write `k` was offered: the rest of the data, as far as it fits the segment. */
  function Offer(u: Setup, segmentBytes: int, size: int, before: nat, k: nat): int {
    Min(u.segmentLimit - Room(u, Fill(u, segmentBytes, before, k)), size - Sum(u, before, k))
  }

  /** Every write made progress, and took no more than it was offered. Short writes are progress. */
  ghost predicate Progress(u: Setup, segmentBytes: int, size: int, before: nat, after: nat) {
    forall k :: before <= k < after ==> 1 <= u.device.takes(k) <= Offer(u, segmentBytes, size, before, k)
  }

  lemma {:induction false} FillShift(u: Setup, segmentBytes: int, before: nat, after: nat)
    requires before < after
    ensures Fill(u, segmentBytes, before, after)
            == Fill(u, Room(u, segmentBytes) + u.device.takes(before), before + 1, after)
    ensures Sum(u, before, after) == u.device.takes(before) + Sum(u, before + 1, after)
    decreases after
  {
    if before + 1 < after {
      FillShift(u, segmentBytes, before, after - 1);
    }
  }

  lemma ProgressShift(u: Setup, segmentBytes: int, size: int, before: nat, after: nat)
    requires before < after
    ensures var t := u.device.takes(before);
            Progress(u, segmentBytes, size, before, after)
            <==> 1 <= t <= Min(u.segmentLimit - Room(u, segmentBytes), size)
                 && Progress(u, Room(u, segmentBytes) + t, size - t, before + 1, after)
  {
    var t := u.device.takes(before);
    assert Offer(u, segmentBytes, size, before, before) == Min(u.segmentLimit - Room(u, segmentBytes), size);
    forall k | before < k < after
      ensures Offer(u, segmentBytes, size, before, k) == Offer(u, Room(u, segmentBytes) + t, size - t, before + 1, k)
    {
      FillShift(u, segmentBytes, before, k);
    }
  }

  /** No part name was taken when its turn came: every part that was tried was also asked for. */
  predicate NamesFree(l: Log, m: Log) {
    m.index - l.index == m.asked.creates - l.asked.creates
  }

  /** What rotations ask for was granted, under names that were free. */
  ghost predicate Rotating(u: Setup, l: Log, m: Log) {
    && Granted(u.device.syncs, l.asked.syncs, m.asked.syncs)
    && Granted(u.device.creates, l.asked.creates, m.asked.creates)
    && NamesFree(l, m)
  }

  ghost predicate Later(l: Log, m: Log) {
    && l.asked.syncs <= m.asked.syncs && l.asked.creates <= m.asked.creates && l.asked.takes <= m.asked.takes
    && m.index - l.index >= m.asked.creates - l.asked.creates
  }

  lemma RotatingTrans(u: Setup, l: Log, m: Log, n: Log)
    requires Later(l, m) && Later(m, n)
    ensures Later(l, n) && (Rotating(u, l, n) <==> Rotating(u, l, m) && Rotating(u, m, n))
  {
    GrantedTrans(u.device.syncs, l.asked.syncs, m.asked.syncs, n.asked.syncs);
    GrantedTrans(u.device.creates, l.asked.creates, m.asked.creates, n.asked.creates);
  }

  lemma PruneAsksNothing(u: Setup, l: Log)
    ensures var m := Pruned(u, l);
            && m.asked.syncs == l.asked.syncs && m.asked.creates == l.asked.creates && m.asked.takes == l.asked.takes
            && m.asked.settles == l.asked.settles && m.index == l.index && m.segmentBytes == l.segmentBytes
            && m.isOpen == l.isOpen && m.token == l.token
  {
    hide Listing, Examined, SortedForPrune, Without;
  }

  lemma SwitchExact(u: Setup, l: Log)
    ensures var (m, ok) := Switched(u, l);
            && m.index == l.index + 1 && m.asked.syncs == l.asked.syncs && m.asked.takes == l.asked.takes
            && m.asked.settles == l.asked.settles
            && (ok <==> SegmentName(l.token, l.index + 1) !in l.dir && u.device.creates(l.asked.creates))
            && m.asked.creates == l.asked.creates + (if SegmentName(l.token, l.index + 1) in l.dir then 0 else 1)
            && (ok ==> m.segmentBytes == 0)
  {
    hide SegmentName;
  }

  /** A rotation succeeds exactly if both syncs and the creation it asked for are granted, and the next name is free. */
  lemma RotateSucceedsIff(u: Setup, l: Log)
    ensures var (m, ok) := Rotated(u, l);
            && (ok <==> Rotating(u, l, m)) && Later(l, m) && m.asked.takes == l.asked.takes
            && m.asked.settles == l.asked.settles && (ok ==> m.segmentBytes == 0)
            && (ok ==> m.asked.syncs == l.asked.syncs + 2 && m.asked.creates == l.asked.creates + 1 && m.index == l.index + 1)
  {
    hide Switched, Pruned, SegmentName;
    var (a, synced) := Synced(u, l);
    if synced {
      SwitchExact(u, a);
      var (b, switched) := Switched(u, a);
      if switched {
        PruneAsksNothing(u, Synced(u, b).0);
      }
    }
  }

  /** An offer is taken exactly if the answer is at least one byte and no more than was offered. */
  lemma TakeSucceedsIff(u: Setup, l: Log, remaining: seq<byte>)
    requires Ok(u, l) && l.isOpen && l.segmentBytes < u.segmentLimit
    ensures var (m, n) := Took(u, l, remaining);
            var t := u.device.takes(l.asked.takes);
            && n == (if 1 <= t <= Min(u.segmentLimit - l.segmentBytes, |remaining|) then t else 0)
            && m.segmentBytes == l.segmentBytes + n && m.index == l.index
            && m.asked.takes == l.asked.takes + 1 && m.asked.syncs == l.asked.syncs && m.asked.creates == l.asked.creates
            && m.asked.settles == l.asked.settles
  {
    OpenHasCurrent(u, l);
    assert l.history != [] by { CurrentIsLast(u, l) by { OpenIsWithin(u, l); } }
    hide Ok;
  }

  /** One round: either its rotation failed and no write was asked for, or exactly one was. */
  lemma RoundSucceedsIff(u: Setup, l: Log, remaining: seq<byte>)
    requires SetupOk(u) && Ok(u, l) && l.isOpen
    ensures var (m, n) := WroteSome(u, l, remaining);
            var t := u.device.takes(l.asked.takes);
            && Later(l, m) && m.asked.settles == l.asked.settles
            && (if Rotating(u, l, m) then
                  && m.asked.takes == l.asked.takes + 1
                  && n == (if 1 <= t <= Min(u.segmentLimit - Room(u, l.segmentBytes), |remaining|) then t else 0)
                  && m.segmentBytes == Room(u, l.segmentBytes) + n
                else n == 0 && m.asked.takes == l.asked.takes)
  {
    OpenHasCurrent(u, l);
    assert u.segmentLimit > 0;
    hide Ok, Rotated, Took, SetupOk;
    if l.segmentBytes < u.segmentLimit {
      TakeSucceedsIff(u, l, remaining);
    } else {
      RotateSucceedsIff(u, l);
      RotatedKeeps(u, l);
      var (r, ok) := Rotated(u, l);
      if ok {
        TakeSucceedsIff(u, r, remaining);
        RotatingTrans(u, l, r, Took(u, r, remaining).0);
      }
    }
  }

  /** All that a write of this many bytes asked for was granted. */
  ghost predicate AllGranted(u: Setup, l: Log, m: Log, size: int) {
    && Progress(u, l.segmentBytes, size, l.asked.takes, m.asked.takes)
    && Rotating(u, l, m) && u.device.settles(l.asked.settles)
  }

  lemma RoundTook(u: Setup, l: Log, remaining: seq<byte>)
    requires SetupOk(u) && Ok(u, l) && l.isOpen && WroteSome(u, l, remaining).1 > 0
    ensures var (a, n) := WroteSome(u, l, remaining);
            var t := u.device.takes(l.asked.takes);
            && Later(l, a) && Rotating(u, l, a) && a.asked.takes == l.asked.takes + 1 && a.asked.settles == l.asked.settles
            && n == t && 1 <= t <= Min(u.segmentLimit - Room(u, l.segmentBytes), |remaining|)
            && a.segmentBytes == Room(u, l.segmentBytes) + t
  {
    hide Ok, WroteSome, Later, Rotating, SetupOk, Room;
    RoundSucceedsIff(u, l, remaining);
  }

  lemma RoundContinues(u: Setup, l: Log, a: Log, m: Log, remaining: seq<byte>)
    requires SetupOk(u) && Ok(u, l) && l.isOpen && WroteSome(u, l, remaining).0 == a && WroteSome(u, l, remaining).1 > 0
    requires Later(a, m)
    ensures var n := WroteSome(u, l, remaining).1;
            Later(l, m) && (AllGranted(u, l, m, |remaining|) <==> AllGranted(u, a, m, |remaining| - n))
  {
    hide Ok, WroteSome, Rotating, Progress, SetupOk, Room;
    RoundTook(u, l, remaining);
    RotatingTrans(u, l, a, m);
    ProgressShift(u, l.segmentBytes, |remaining|, l.asked.takes, m.asked.takes);
  }

  lemma RoundFails(u: Setup, l: Log, remaining: seq<byte>)
    requires SetupOk(u) && Ok(u, l) && l.isOpen && WroteSome(u, l, remaining).1 == 0
    ensures var a := WroteSome(u, l, remaining).0; Later(l, a) && !AllGranted(u, l, a, |remaining|)
  {
    hide Ok, WroteSome, Progress, SetupOk;
    RoundSucceedsIff(u, l, remaining);
    var a := WroteSome(u, l, remaining).0;
    if Rotating(u, l, a) {
      ProgressShift(u, l.segmentBytes, |remaining|, l.asked.takes, a.asked.takes);
    }
  }

  lemma {:induction false} WriteAllSucceedsIff(u: Setup, l: Log, remaining: seq<byte>)
    requires SetupOk(u) && Ok(u, l) && l.isOpen
    ensures var (m, ok, n) := WroteAll(u, l, remaining);
            Later(l, m) && (ok <==> AllGranted(u, l, m, |remaining|))
    decreases |remaining|
  {
    hide Ok, WroteSome, AllGranted, Later, SetupOk, Stream, Segments;
    if remaining == [] {
      NothingAsked(u, l);
    } else {
      var (a, n) := WroteSome(u, l, remaining);
      WroteSomeKeeps(u, l, remaining);
      if n > 0 {
        WriteAllSucceedsIff(u, a, remaining[n..]);
        RoundContinues(u, l, a, WroteAll(u, a, remaining[n..]).0, remaining);
      } else {
        RoundFails(u, l, remaining);
      }
    }
  }

  lemma NothingAsked(u: Setup, l: Log)
    ensures var (m, ok, n) := WroteAll(u, l, []); Later(l, m) && (ok <==> AllGranted(u, l, m, 0))
  {
  }

  /** A log write raises nothing exactly if the log is open, every write it asked for was answered with at least one byte
      and no more than was offered, every sync and creation it asked for was granted, every part name it tried was free,
      and the periodic sync, when due, succeeded. */
  lemma WriteSucceedsIff(u: Setup, l: Log, data: seq<byte>)
    requires SetupOk(u) && Ok(u, l)
    ensures var (m, ok, n) := Wrote(u, l, data);
            && (ok <==> && l.isOpen && Progress(u, l.segmentBytes, |data|, l.asked.takes, m.asked.takes)
                        && Granted(u.device.syncs, l.asked.syncs, m.asked.syncs)
                        && Granted(u.device.creates, l.asked.creates, m.asked.creates)
                        && NamesFree(l, m) && u.device.settles(l.asked.settles))
            && (ok ==> n == |data|)
  {
    hide Ok, WroteAll, Progress, Granted, SetupOk;
    if l.isOpen {
      WriteAllSucceedsIff(u, l, data);
      WroteAllKeeps(u, l, data);
    }
  }

  // ------------------------------------------------------- a slow device loses nothing

  /** The session's later parts have names nobody has. */
  ghost predicate PartsFree(l: Log) {
    forall i: nat :: i > l.index && i > 1 ==> SegmentName(l.token, i) !in l.dir
  }

  /** However little it takes at a time, the device never stalls, and everything else is granted. */
  ghost predicate Willing(u: Setup) {
    && (forall k :: u.device.takes(k) == 1) && (forall k :: u.device.syncs(k)) && (forall k :: u.device.creates(k))
    && (forall k :: u.device.settles(k))
  }

  lemma PruneKeepsPartsFree(u: Setup, l: Log)
    requires PartsFree(l)
    ensures PartsFree(Pruned(u, l))
  {
    PruneAsksNothing(u, l);
    hide SegmentName, Listing, Examined, SortedForPrune;
    assert Pruned(u, l).dir.Keys <= l.dir.Keys;
  }

  lemma SwitchKeepsPartsFree(u: Setup, l: Log)
    requires PartsFree(l) && Willing(u) && l.index >= 1
    ensures var (m, ok) := Switched(u, l); ok && PartsFree(m) && m.index == l.index + 1
  {
    var path := SegmentName(l.token, l.index + 1);
    var m := Switched(u, l).0;
    forall i: nat | i > m.index && i > 1 ensures SegmentName(m.token, i) !in m.dir {
      if SegmentName(m.token, i) == path { PartNamesDiffer(l.token, i, l.index + 1); }
    }
  }

  lemma RotateKeepsPartsFree(u: Setup, l: Log)
    requires PartsFree(l) && Willing(u) && l.index >= 1
    ensures var (m, ok) := Rotated(u, l); ok && PartsFree(m) && m.index >= 1
  {
    hide PartsFree, Switched, Pruned, SegmentName;
    var a := Synced(u, l).0;
    SameNames(l, a);
    SwitchKeepsPartsFree(u, a);
    var b := Switched(u, a).0;
    var c := Synced(u, b).0;
    SameNames(b, c);
    PruneKeepsPartsFree(u, c);
    PruneAsksNothing(u, c);
  }

  lemma SameNames(l: Log, m: Log)
    requires m.dir.Keys == l.dir.Keys && m.token == l.token && m.index == l.index
    ensures PartsFree(l) ==> PartsFree(m)
  {
  }

  lemma TakeKeepsPartsFree(u: Setup, l: Log, remaining: seq<byte>)
    requires PartsFree(l)
    ensures PartsFree(Took(u, l, remaining).0) && Took(u, l, remaining).0.index == l.index
  {
    hide SegmentName, PartsFree;
    var m := Took(u, l, remaining).0;
    assert m.dir.Keys == l.dir.Keys && m.token == l.token && m.index == l.index;
    SameNames(l, m);
  }

  lemma WillingTake(u: Setup, l: Log, remaining: seq<byte>)
    requires Ok(u, l) && l.isOpen && l.segmentBytes < u.segmentLimit && Willing(u) && PartsFree(l) && remaining != []
    ensures Took(u, l, remaining).1 == 1 && PartsFree(Took(u, l, remaining).0)
  {
    hide Ok, Took, PartsFree;
    TakeKeepsPartsFree(u, l, remaining);
    TakeSucceedsIff(u, l, remaining);
  }

  lemma WillingRound(u: Setup, l: Log, remaining: seq<byte>)
    requires SetupOk(u) && Ok(u, l) && l.isOpen && Willing(u) && PartsFree(l) && remaining != []
    ensures var (m, n) := WroteSome(u, l, remaining); n == 1 && PartsFree(m) && Ok(u, m) && m.isOpen
  {
    OpenHasCurrent(u, l);
    assert l.index >= 1 && u.segmentLimit >= 1;
    hide Ok, Rotated, Took, PartsFree, Willing, SetupOk, Stream, Segments;
    WroteSomeKeeps(u, l, remaining);
    if l.segmentBytes < u.segmentLimit {
      WillingTake(u, l, remaining);
    } else {
      RotateKeepsPartsFree(u, l);
      RotatedKeeps(u, l);
      WillingTake(u, Rotated(u, l).0, remaining);
    }
  }

  lemma {:induction false} WillingTakesAll(u: Setup, l: Log, remaining: seq<byte>)
    requires SetupOk(u) && Ok(u, l) && l.isOpen && Willing(u) && PartsFree(l)
    ensures WroteAll(u, l, remaining).1
    decreases |remaining|
  {
    if remaining == [] {
      assert u.device.settles(l.asked.settles);
    } else {
      hide Ok, WroteSome, PartsFree, Willing, SetupOk;
      WillingRound(u, l, remaining);
      WillingTakesAll(u, WroteSome(u, l, remaining).0, remaining[1..]);
    }
  }

  /** A device that takes one byte at a time, and denies nothing, has all of the data in the log, through any number of
      rotations. */
  lemma SlowDeviceLogsAll(u: Setup, l: Log, data: seq<byte>)
    requires SetupOk(u) && Ok(u, l) && l.isOpen && Willing(u) && PartsFree(l)
    ensures var (m, ok, n) := Wrote(u, l, data); ok && n == |data| && Stream(m) == Stream(l) + data
  {
    WillingTakesAll(u, l, data);
    WroteAllKeeps(u, l, data);
    assert data[..|data|] == data;
  }

  // ---------------------------------------------------------------- starting and closing

  /** One of the names a session tries is free. */
  ghost predicate SomeNameFree(l: Log, stamp: string, suffix: nat) {
    exists s: nat :: suffix <= s < 100 && SegmentName(Token(stamp, s), 1) !in l.dir
  }

  lemma {:induction false} ClaimSucceedsIff(u: Setup, l: Log, stamp: string, suffix: nat)
    ensures var (m, ok) := Claimed(u, l, stamp, suffix);
            && (ok <==> SomeNameFree(l, stamp, suffix) && u.device.creates(l.asked.creates))
            && m.asked.syncs == l.asked.syncs
            && (ok ==> exists s: nat :: suffix <= s < 100 && m.token == Token(stamp, s)
                         && (forall r: nat :: suffix <= r < s ==> SegmentName(Token(stamp, r), 1) in l.dir))
    decreases 100 - suffix
  {
    hide SegmentName, Token;
    if suffix < 100 {
      if SegmentName(Token(stamp, suffix), 1) in l.dir {
        ClaimSucceedsIff(u, l, stamp, suffix + 1);
        if SomeNameFree(l, stamp, suffix) {
          var s: nat :| suffix <= s < 100 && SegmentName(Token(stamp, s), 1) !in l.dir;
          assert s != suffix;
        }
        var (m, ok) := Claimed(u, l, stamp, suffix);
        if ok {
          var s: nat :| suffix + 1 <= s < 100 && m.token == Token(stamp, s)
            && (forall r: nat :: suffix + 1 <= r < s ==> SegmentName(Token(stamp, r), 1) in l.dir);
          assert forall r: nat :: suffix <= r < s ==> SegmentName(Token(stamp, r), 1) in l.dir;
        }
      }
    }
  }

  /** A session starts exactly if one of the 99 names is free and the creation and the first sync are granted. */
  lemma StartSucceedsIff(u: Setup, l: Log, stamp: string)
    ensures Started(u, l, stamp).1
            <==> SomeNameFree(l, stamp, 1) && u.device.creates(l.asked.creates) && u.device.syncs(l.asked.syncs)
  {
    hide Claimed, Pruned, SegmentName, Token;
    var c := Cleared(l);
    ClaimSucceedsIff(u, c, stamp, 1);
    assert SomeNameFree(c, stamp, 1) <==> SomeNameFree(l, stamp, 1);
  }

  /** A close raises nothing exactly if the log is not open or its sync is granted; then, and only then, it prunes. */
  lemma CloseSucceedsIff(u: Setup, l: Log)
    ensures var (m, ok) := Closed(u, l);
            && (ok <==> !l.isOpen || u.device.syncs(l.asked.syncs))
            && (m.asked.cleans > l.asked.cleans <==> l.isOpen && ok)
  {
    hide Listing, SortedForPrune, Without;
  }
}
