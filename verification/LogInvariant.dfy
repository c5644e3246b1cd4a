/** What every operation of the log writer keeps: the files, the layout, the order of times and the disk bound. */
module LogInvariant {
  import opened Common
  import opened LogDirectory
  import opened LogLayout
  import opened LogMachine

  // ---------------------------------------------------------------------- pruning

  /** Every file operation of a prune that was asked for between these two moments succeeded. */
  ghost predicate CleansWell(u: Setup, before: nat, after: nat) {
    forall k :: before <= k < after ==> u.device.cleans(k)
  }

  lemma CleansStep(u: Setup, before: nat, after: nat)
    requires before < after && u.device.cleans(before)
    ensures CleansWell(u, before, after) <==> CleansWell(u, before + 1, after)
  {
    if CleansWell(u, before + 1, after) {
      forall k | before <= k < after ensures u.device.cleans(k) {
        if k == before {}
      }
    }
  }

  /** The loop stops at the first position where the total fits, unless a deletion fails before. */
  lemma {:induction false} ExaminedStops(u: Setup, d: Directory, paths: seq<string>, i: nat, current: string, asked: nat)
    requires i <= |paths|
    ensures var (k, after, ok) := Examined(u, d, paths, i, current, asked);
            && (ok ==> k == |paths| || Total(Without(d, paths, k, current)) <= u.totalLimit)
            && (forall j :: i <= j < k ==> Total(Without(d, paths, j, current)) > u.totalLimit)
    decreases |paths| - i
  {
    hide Total, Without;
    if i < |paths| && Total(Without(d, paths, i, current)) > u.totalLimit {
      if paths[i] == current {
        ExaminedStops(u, d, paths, i + 1, current, asked);
      } else if u.device.cleans(asked) {
        ExaminedStops(u, d, paths, i + 1, current, asked + 1);
      }
    }
  }

  lemma {:induction false} ExaminedFails(u: Setup, d: Directory, paths: seq<string>, i: nat, current: string, asked: nat)
    requires i <= |paths|
    ensures var (k, after, ok) := Examined(u, d, paths, i, current, asked);
            ok <==> CleansWell(u, asked, after)
    decreases |paths| - i
  {
    hide Total, Without;
    if i < |paths| && Total(Without(d, paths, i, current)) > u.totalLimit {
      if paths[i] == current {
        ExaminedFails(u, d, paths, i + 1, current, asked);
      } else if u.device.cleans(asked) {
        ExaminedFails(u, d, paths, i + 1, current, asked + 1);
        CleansStep(u, asked, Examined(u, d, paths, i, current, asked).1);
      }
    }
  }

  /** A prune deletes the shortest oldest-first prefix of the closed files that brings the total under the cap, and
      falls short of the cap only if one of its file operations failed. */
  lemma PruneDeletesPrefix(u: Setup, l: Log) returns (k: nat)
    requires HasCurrent(l)
    ensures k <= |Listing(l.dir)| && Pruned(u, l).dir == Without(l.dir, Listing(l.dir), k, l.path.value)
    ensures forall j :: 0 <= j < k ==> Total(Without(l.dir, Listing(l.dir), j, l.path.value)) > u.totalLimit
    ensures Pruned(u, l).pruned ==> k == |Listing(l.dir)| || Total(Pruned(u, l).dir) <= u.totalLimit
  {
    hide Total, Without, IsListing;
    WithoutNone(l.dir, Listing(l.dir), l.path.value);
    if u.device.cleans(l.asked.cleans) {
      k := Examined(u, l.dir, Listing(l.dir), 0, l.path.value, l.asked.cleans + 1).0;
      ExaminedStops(u, l.dir, Listing(l.dir), 0, l.path.value, l.asked.cleans + 1);
    } else {
      k := 0;
    }
  }

  lemma PruneFailsIff(u: Setup, l: Log)
    requires HasCurrent(l)
    ensures Pruned(u, l).pruned <==> CleansWell(u, l.asked.cleans, Pruned(u, l).asked.cleans)
    ensures Pruned(u, l).asked.cleans > l.asked.cleans
  {
    hide Total, Without, IsListing;
    if u.device.cleans(l.asked.cleans) {
      ExaminedFails(u, l.dir, Listing(l.dir), 0, l.path.value, l.asked.cleans + 1);
      CleansStep(u, l.asked.cleans, Pruned(u, l).asked.cleans);
    }
  }

  /** Even alone the current file fits the cap, so a prune that does not fail meets it. */
  lemma PruneMeetsCap(u: Setup, l: Log)
    requires SetupOk(u) && FilesOk(u, l) && HasCurrent(l)
    ensures Pruned(u, l).pruned ==> Total(Pruned(u, l).dir) <= u.totalLimit
  {
    var k := PruneDeletesPrefix(u, l);
    if k == |Listing(l.dir)| {
      OnlyCurrentLeft(l.dir, Listing(l.dir), l.path.value);
    }
  }

  /** A sorted prune leaves the youngest files. */
  lemma PruneKeepsTail(u: Setup, l: Log)
    requires FilesOk(u, l) && HasCurrent(l) && l.sorted && SortedForPrune(u, l)
    ensures Tail(Pruned(u, l).dir, l.history)
  {
    hide Total, Tail;
    var k := PruneDeletesPrefix(u, l);
    WithoutNone(l.dir, Listing(l.dir), l.path.value);
    if Total(l.dir) > u.totalLimit {
      DeletionKeepsTail(l.dir, l.history, Listing(l.dir), k, l.path.value);
    } else {
      assert k == 0;
    }
  }

  lemma PruneNotSorted(u: Setup, l: Log)
    requires HasCurrent(l)
    ensures Pruned(u, l).sorted ==> l.sorted && (SortedForPrune(u, l) || Pruned(u, l).dir == l.dir)
    ensures Pruned(u, l).history == l.history && Pruned(u, l).births == l.births && Pruned(u, l).path == l.path
  {
    hide SortedForPrune, Without, Listing, Examined;
  }

  lemma PruneKeepsFiles(u: Setup, l: Log)
    requires FilesOk(u, l) && HasCurrent(l)
    ensures FilesOk(u, Pruned(u, l)) && HasCurrent(Pruned(u, l))
    ensures Pruned(u, l).dir[l.path.value] == l.dir[l.path.value]
  {
    var k := PruneDeletesPrefix(u, l);
    DeletionKeepsMatch(l.dir, l.history, Listing(l.dir), k, l.path.value);
    PruneNotSorted(u, l);
    if l.sorted && SortedForPrune(u, l) { PruneKeepsTail(u, l); }
    hide Tail, SortedForPrune, Pruned, Without, FilesMatch;
  }

  /** What a prune leaves alone. */
  lemma PruneKeeps(u: Setup, l: Log)
    requires SetupOk(u) && FilesOk(u, l) && HasCurrent(l) && LayoutOk(u, l) && OpenOk(u, l)
    ensures Ok(u, Pruned(u, l)) && HasCurrent(Pruned(u, l))
    ensures Pruned(u, l).dir[l.path.value] == l.dir[l.path.value]
  {
    PruneKeepsFiles(u, l);
    PruneMeetsCap(u, l);
    hide FilesOk, Canonical, Listing, Without, Examined, SortedForPrune, Total;
  }

  // --------------------------------------------------------------------- creating

  lemma BornKeepsFiles(u: Setup, l: Log, path: string)
    requires FilesOk(u, l) && path !in l.dir
    ensures FilesOk(u, Born(u, l, path)) && Total(Born(u, l, path).dir) == Total(l.dir)
  {
    var file := LogFile([], u.device.clock(l.asked.clock), l.births);
    BirthKeepsDisk(l.dir, l.history, path, file);
    TotalUpdate(l.dir, path, file);
  }

  /** A name that exists is never touched. */
  lemma CreatedKeepsFiles(u: Setup, l: Log, path: string)
    requires FilesOk(u, l)
    ensures var (m, ok) := Created(u, l, path);
            && FilesOk(u, m) && Total(m.dir) == Total(l.dir) && Keeps(l.dir, m.dir)
            && (ok ==> m.path == Some(path) && path in m.dir && path !in l.dir && m.dir[path].bytes == [])
  {
    if Created(u, l, path).1 {
      BornKeepsFiles(u, l.(asked := l.asked.(creates := l.asked.creates + 1)), path);
    }
  }

  /** No file of `before` was touched. */
  ghost predicate Keeps(before: Directory, after: Directory) {
    forall n :: n in before ==> n in after && after[n] == before[n]
  }

  // --------------------------------------------------------------------- rotating

  lemma CurrentIsLast(u: Setup, l: Log)
    requires FilesOk(u, l) && OpenOk(u, l) && l.isOpen && l.sessionStart <= |l.history|
    ensures Segments(l) != [] && |Segments(l)[|Segments(l)| - 1]| == l.segmentBytes
    ensures l.history[|l.history| - 1] == Birth(l.path.value, l.dir[l.path.value].bytes)
  {
  }

  lemma OneMoreSegment(l: Log, b: Birth)
    requires l.sessionStart <= |l.history| && b.bytes == []
    ensures var m := l.(history := l.history + [b]);
            Segments(m) == Segments(l) + [[]] && Stream(m) == Stream(l)
  {
    var m := l.(history := l.history + [b]);
    assert m.history[l.sessionStart..] == l.history[l.sessionStart..] + [b];
    assert Segments(m) == Segments(l) + [[]];
    FlattenConcat(Segments(l), [[]]);
    FlattenOne<byte>([]);
  }

  lemma AppendKeepsCanonical(segments: seq<seq<byte>>, limit: nat)
    requires Canonical(segments, limit) && segments != [] && |segments[|segments| - 1]| == limit
    ensures Canonical(segments + [[]], limit)
  {
  }

  lemma SwitchedFiles(u: Setup, l: Log)
    requires FilesOk(u, l)
    ensures var (m, ok) := Switched(u, l);
            && FilesOk(u, m) && Total(m.dir) == Total(l.dir) && Keeps(l.dir, m.dir)
            && (ok ==> HasCurrent(m) && m.dir[m.path.value].bytes == []
                       && m.path == Some(SegmentName(l.token, l.index + 1)) && m.path.value !in l.dir)
  {
    hide SegmentName, Total;
    CreatedKeepsFiles(u, l.(isOpen := false, index := l.index + 1), SegmentName(l.token, l.index + 1));
  }

  lemma SwitchedLayout(u: Setup, l: Log)
    requires LayoutOk(u, l) && Segments(l) != [] && |Segments(l)[|Segments(l)| - 1]| == u.segmentLimit
    ensures var (m, ok) := Switched(u, l);
            LayoutOk(u, m) && Stream(m) == Stream(l) && (ok ==> Segments(m) == Segments(l) + [[]])
  {
    SwitchedStream(u, l);
    hide SegmentName, Canonical, Switched, Segments, Stream;
    AppendKeepsCanonical(Segments(l), u.segmentLimit);
  }

  lemma SwitchedStream(u: Setup, l: Log)
    requires l.sessionStart <= |l.history|
    ensures var (m, ok) := Switched(u, l);
            && Stream(m) == Stream(l) && m.bytesWritten == l.bytesWritten && m.sessionStart <= |m.history|
            && Segments(m) == if ok then Segments(l) + [[]] else Segments(l)
  {
    hide SegmentName, Segments, Stream;
    OneMoreSegment(l, Birth(SegmentName(l.token, l.index + 1), []));
    SameHistory(l, Switched(u, l).0);
    SameHistory(l.(history := l.history + [Birth(SegmentName(l.token, l.index + 1), [])]), Switched(u, l).0);
  }

  lemma SameHistory(l: Log, m: Log)
    ensures m.history == l.history && m.sessionStart == l.sessionStart ==> Segments(m) == Segments(l) && Stream(m) == Stream(l)
  {
  }

  /** After the full file is closed there is an empty next segment under a name no file had, or no open log. */
  lemma SwitchedKeeps(u: Setup, l: Log)
    requires Ok(u, l) && l.isOpen && l.segmentBytes == u.segmentLimit
    ensures var (m, ok) := Switched(u, l);
            && Ok(u, m) && m.sessionStart == l.sessionStart && Stream(m) == Stream(l) && Total(m.dir) == Total(l.dir)
            && m.unpruned == l.unpruned && m.pruned == l.pruned && m.asked.cleans == l.asked.cleans && ok == m.isOpen
            && (ok ==> m.segmentBytes == 0 && m.index == l.index + 1 && Segments(m) == Segments(l) + [[]])
  {
    hide SegmentName, Total, LayoutOk, FilesOk, Segments, Stream, Keeps;
    CurrentIsLast(u, l) by { OpenIsWithin(u, l); }
    SwitchedFiles(u, l);
    SwitchedLayout(u, l);
  }

  lemma OpenIsWithin(u: Setup, l: Log)
    requires Ok(u, l)
    ensures l.sessionStart <= |l.history|
  {
  }

  /** Asking the device a question changes nothing that matters. */
  lemma AskingKeeps(u: Setup, l: Log, asked: Asked)
    requires Ok(u, l)
    ensures var m := l.(asked := asked); Ok(u, m) && Segments(m) == Segments(l) && Stream(m) == Stream(l)
  {
  }

  lemma OpenHasCurrent(u: Setup, l: Log)
    requires Ok(u, l) && l.isOpen
    ensures HasCurrent(l) && l.segmentBytes <= u.segmentLimit
  {
  }

  lemma PruneKeepsStream(u: Setup, l: Log)
    ensures var m := Pruned(u, l);
            && m.sessionStart == l.sessionStart && m.history == l.history && Segments(m) == Segments(l) && Stream(m) == Stream(l)
            && m.isOpen == l.isOpen && m.segmentBytes == l.segmentBytes && m.unpruned <= l.unpruned
  {
  }

  lemma RotatedKeeps(u: Setup, l: Log)
    requires SetupOk(u) && Ok(u, l) && l.isOpen && l.segmentBytes == u.segmentLimit
    ensures var (m, ok) := Rotated(u, l);
            && Ok(u, m) && m.sessionStart == l.sessionStart && Stream(m) == Stream(l)
            && (ok ==> m.isOpen && m.segmentBytes == 0 && Segments(m) == Segments(l) + [[]])
  {
    hide LayoutOk, FilesOk, OpenOk, BoundOk, Pruned, Switched, SetupOk, Segments, Stream;
    var (a, synced) := Synced(u, l);
    AskingKeeps(u, l, a.asked);
    if synced {
      SwitchedKeeps(u, a);
      var (b, switched) := Switched(u, a);
      var (c, again) := Synced(u, b);
      AskingKeeps(u, b, c.asked);
      if switched && again {
        OpenHasCurrent(u, c);
        PruneKeeps(u, c);
        PruneKeepsStream(u, c);
      }
    }
  }

  // ---------------------------------------------------------------------- writing

  lemma GrowKeepsCanonical(segments: seq<seq<byte>>, bytes: seq<byte>, limit: nat)
    requires Canonical(segments, limit) && segments != [] && |segments[|segments| - 1]| + |bytes| <= limit
    ensures var n := |segments| - 1; Canonical(segments[n := segments[n] + bytes], limit)
  {
  }

  lemma GrownKeepsFiles(u: Setup, l: Log, bytes: seq<byte>)
    requires FilesOk(u, l) && OpenOk(u, l) && l.isOpen && l.segmentBytes + |bytes| <= u.segmentLimit
    ensures var m := Grown(u, l, bytes);
            FilesOk(u, m) && OpenOk(u, m) && Total(m.dir) == Total(l.dir) + |bytes|
  {
    hide Total;
    WriteKeepsDisk(l.dir, l.history, l.path.value, bytes, u.device.clock(l.asked.clock));
    TotalUpdate(l.dir, l.path.value, Grown(u, l, bytes).dir[l.path.value]);
  }

  lemma GrownKeepsLayout(u: Setup, l: Log, bytes: seq<byte>)
    requires FilesOk(u, l) && OpenOk(u, l) && l.isOpen && LayoutOk(u, l) && l.segmentBytes + |bytes| <= u.segmentLimit
    ensures var m := Grown(u, l, bytes);
            LayoutOk(u, m) && Stream(m) == Stream(l) + bytes && (bytes != [] ==> NoIdleSegment(Segments(m)))
  {
    hide Canonical;
    CurrentIsLast(u, l);
    LongerLastSegment(l.history, Grown(u, l, bytes).history, l.sessionStart, bytes);
    GrowKeepsCanonical(Segments(l), bytes, u.segmentLimit);
  }

  lemma GrownKeeps(u: Setup, l: Log, bytes: seq<byte>)
    requires Ok(u, l) && l.isOpen && l.segmentBytes + |bytes| <= u.segmentLimit
    ensures var m := Grown(u, l, bytes);
            && Ok(u, m) && m.isOpen && m.sessionStart == l.sessionStart && Stream(m) == Stream(l) + bytes
            && (bytes != [] ==> NoIdleSegment(Segments(m)))
            && m.unpruned == l.unpruned + |bytes| && m.segmentBytes == l.segmentBytes + |bytes|
  {
    hide LayoutOk, FilesOk, Total, Segments, Stream;
    OpenHasCurrent(u, l);
    GrownKeepsFiles(u, l, bytes);
    GrownKeepsLayout(u, l, bytes);
    assert l.history != [] by { CurrentIsLast(u, l); }
  }

  lemma TookKeeps(u: Setup, l: Log, remaining: seq<byte>)
    requires Ok(u, l) && l.isOpen
    ensures var (m, n) := Took(u, l, remaining);
            && Ok(u, m) && m.isOpen && m.sessionStart == l.sessionStart && Stream(m) == Stream(l) + remaining[..n]
            && (n > 0 ==> NoIdleSegment(Segments(m)))
  {
    hide LayoutOk, FilesOk, OpenOk, BoundOk, Segments, Stream, NoIdleSegment, Grown;
    var (m, n) := Took(u, l, remaining);
    var asked := l.asked.(takes := l.asked.takes + 1);
    AskingKeeps(u, l, asked);
    if n > 0 {
      GrownKeeps(u, l.(asked := asked), remaining[..n]);
    } else {
      assert Stream(l) + remaining[..0] == Stream(l);
    }
  }

  lemma WroteSomeKeeps(u: Setup, l: Log, remaining: seq<byte>)
    requires SetupOk(u) && Ok(u, l) && l.isOpen
    ensures var (m, n) := WroteSome(u, l, remaining);
            && Ok(u, m) && m.sessionStart == l.sessionStart
            && Stream(m) == Stream(l) + remaining[..n]
            && (n > 0 ==> m.isOpen && NoIdleSegment(Segments(m)))
  {
    hide LayoutOk, FilesOk, BoundOk, OpenOk, Segments, Stream, NoIdleSegment, Took, Rotated, SetupOk;
    OpenHasCurrent(u, l);
    if l.segmentBytes < u.segmentLimit {
      TookKeeps(u, l, remaining);
    } else {
      RotatedKeeps(u, l);
      var (r, ok) := Rotated(u, l);
      if ok { TookKeeps(u, r, remaining); } else { assert Stream(l) + remaining[..0] == Stream(l); }
    }
  }

  /** A chunk is logged as an exact prefix, all of it unless an error is raised. */
  lemma {:induction false} WroteAllKeeps(u: Setup, l: Log, remaining: seq<byte>)
    requires SetupOk(u) && Ok(u, l) && l.isOpen
    ensures var (m, ok, n) := WroteAll(u, l, remaining);
            && Ok(u, m) && m.sessionStart == l.sessionStart
            && Stream(m) == Stream(l) + remaining[..n]
            && (ok ==> n == |remaining| && m.isOpen)
            && (ok && remaining != [] ==> NoIdleSegment(Segments(m)))
    decreases |remaining|
  {
    hide LayoutOk, FilesOk, OpenOk, BoundOk, WroteSome, NoIdleSegment, SetupOk, Segments, Stream;
    if remaining == [] {
      AskingKeeps(u, l, WroteAll(u, l, remaining).0.asked);
      assert Stream(l) + remaining[..0] == Stream(l);
    } else {
      var (a, n) := WroteSome(u, l, remaining);
      WroteSomeKeeps(u, l, remaining);
      if n > 0 {
        if remaining[n..] == [] {
          AskingKeeps(u, a, WroteAll(u, a, []).0.asked);
        }
        WroteAllKeeps(u, a, remaining[n..]);
        var k := WroteAll(u, a, remaining[n..]).2;
        PrefixGrows(Stream(l), remaining, n, k);
      }
    }
  }

  lemma PrefixGrows<T>(s: seq<T>, data: seq<T>, k: nat, n: nat)
    requires k <= |data| && n <= |data| - k
    ensures s + data[..k] + data[k..][..n] == s + data[..k + n]
    ensures data[k..][n..] == data[k + n..]
  {
    assert data[..k] + data[k..][..n] == data[..k + n];
  }

  // --------------------------------------------------------------------- sessions

  lemma ClearedKeeps(u: Setup, l: Log)
    requires Ok(u, l) && !l.isOpen
    ensures Ok(u, Cleared(l)) && Segments(Cleared(l)) == []
  {
    assert l.history[|l.history|..] == [];
  }

  /** Nothing was created. */
  ghost predicate Unborn(l: Log, m: Log) {
    m.dir == l.dir && m.path == l.path && m.history == l.history
  }

  /** The session's first file was created, under a name that no file had. */
  ghost predicate FirstBorn(l: Log, m: Log) {
    && m.path == Some(SegmentName(m.token, 1)) && m.path.value !in l.dir
    && m.path.value in m.dir && m.dir[m.path.value].bytes == []
    && m.history == l.history + [Birth(m.path.value, [])]
  }

  ghost predicate SameSession(l: Log, m: Log) {
    && m.isOpen == l.isOpen && m.segmentBytes == l.segmentBytes && m.index == l.index && m.bytesWritten == l.bytesWritten
    && m.sessionStart == l.sessionStart && m.unpruned == l.unpruned && m.pruned == l.pruned
    && m.asked.cleans == l.asked.cleans
  }

  lemma ClaimedOneName(u: Setup, l: Log, token: string)
    requires FilesOk(u, l)
    ensures var (m, ok) := Created(u, l, SegmentName(token, 1));
            && FilesOk(u, m) && Total(m.dir) == Total(l.dir) && SameSession(l, m)
            && (ok ==> FirstBorn(l, m.(token := token))) && (!ok ==> Unborn(l, m))
  {
    hide Total, FilesOk, SegmentName;
    CreatedKeepsFiles(u, l, SegmentName(token, 1));
  }

  lemma {:induction false} ClaimedKeeps(u: Setup, l: Log, stamp: string, suffix: nat)
    requires FilesOk(u, l)
    ensures var (m, ok) := Claimed(u, l, stamp, suffix);
            && FilesOk(u, m) && Total(m.dir) == Total(l.dir) && SameSession(l, m)
            && (ok ==> FirstBorn(l, m)) && (!ok ==> Unborn(l, m))
    decreases 100 - suffix
  {
    hide Total, SegmentName, Token, Created;
    if suffix < 100 {
      if SegmentName(Token(stamp, suffix), 1) in l.dir {
        ClaimedKeeps(u, l, stamp, suffix + 1);
      } else {
        ClaimedOneName(u, l, Token(stamp, suffix));
      }
    }
  }

  lemma ClaimedStarts(u: Setup, l: Log, stamp: string)
    requires Ok(u, l) && !l.isOpen
    ensures var (m, ok) := Claimed(u, Cleared(l), stamp, 1);
            && Ok(u, m) && Stream(m) == [] && !m.isOpen && m.index == 1 && m.segmentBytes == 0
            && m.unpruned == l.unpruned && m.pruned == l.pruned && m.asked.cleans == l.asked.cleans
            && (ok ==> FirstBorn(l, m) && Segments(m) == [[]] && m.sessionStart + 1 == |m.history|)
  {
    hide Total, FilesOk, Claimed, Token;
    var c := Cleared(l);
    assert FilesOk(u, c) by { CleanFiles(u, l); }
    ClaimedKeeps(u, c, stamp, 1);
    var (m, ok) := Claimed(u, c, stamp, 1);
    if ok {
      FreshSegment(l.history, Birth(m.path.value, []));
    } else {
      assert l.history[|l.history|..] == [];
    }
  }

  lemma CleanFiles(u: Setup, l: Log)
    requires FilesOk(u, l)
    ensures FilesOk(u, Cleared(l))
  {
  }

  lemma StartOpens(u: Setup, l: Log, m: Log)
    requires Ok(u, m) && FirstBorn(l, m) && m.index == 1 && m.segmentBytes == 0 && m.sessionStart + 1 == |m.history|
    ensures Ok(u, m.(isOpen := true)) && HasCurrent(m)
    ensures Segments(m.(isOpen := true)) == Segments(m) && Stream(m.(isOpen := true)) == Stream(m)
  {
  }

  lemma ForgettingPathKeeps(u: Setup, m: Log)
    requires Ok(u, m) && !m.isOpen
    ensures Ok(u, m.(path := None)) && Stream(m.(path := None)) == Stream(m)
  {
  }

  /** A session starts with one empty new segment, or there is no open log. */
  lemma StartedKeeps(u: Setup, l: Log, stamp: string)
    requires SetupOk(u) && Ok(u, l) && !l.isOpen
    ensures var (m, ok) := Started(u, l, stamp);
            && Ok(u, m) && ok == m.isOpen && Stream(m) == []
            && (ok ==> Segments(m) == [[]] && m.path == Some(SegmentName(m.token, 1)) && m.path.value !in l.dir)
            && (!ok ==> m.pruned == l.pruned && m.unpruned == l.unpruned && m.asked.cleans == l.asked.cleans)
  {
    hide LayoutOk, FilesOk, OpenOk, BoundOk, Segments, Stream, Claimed, Pruned, SetupOk, SegmentName;
    ClaimedStarts(u, l, stamp);
    var (a, claimed) := Claimed(u, Cleared(l), stamp, 1);
    if claimed {
      var (b, synced) := Synced(u, a);
      AskingKeeps(u, a, b.asked);
      if synced {
        StartOpens(u, l, b);
        PruneKeeps(u, b.(isOpen := true));
        PruneKeepsStream(u, b.(isOpen := true));
        assert Pruned(u, b.(isOpen := true)).path == b.path && Pruned(u, b.(isOpen := true)).token == b.token by {
          PruneKeepsNames(u, b.(isOpen := true));
        }
      } else {
        ForgettingPathKeeps(u, b);
      }
    }
  }

  lemma PruneKeepsNames(u: Setup, l: Log)
    ensures Pruned(u, l).path == l.path && Pruned(u, l).token == l.token
  {
  }

  /** A close keeps every byte, and ends within the cap unless the sync or a deletion failed. */
  lemma ClosedKeeps(u: Setup, l: Log)
    requires SetupOk(u) && Ok(u, l)
    ensures var (m, ok) := Closed(u, l);
            && Ok(u, m) && !m.isOpen && Segments(m) == Segments(l) && m.unpruned <= l.unpruned
            && (l.isOpen && ok ==> (m.pruned <==> CleansWell(u, l.asked.cleans, m.asked.cleans)) && (m.pruned ==> Total(m.dir) <= u.totalLimit))
            && (!l.isOpen || !ok ==> m.dir == l.dir && m.pruned == l.pruned && m.asked.cleans == l.asked.cleans)
  {
    if l.isOpen {
      var (m, synced) := Synced(u, l.(isOpen := false));
      if synced {
        PruneKeeps(u, m);
        PruneFailsIff(u, m);
        PruneMeetsCap(u, m);
      }
    }
  }
}
