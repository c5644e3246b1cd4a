/** The log over any sequence of sessions, writes, rotations and prunes: the retained tail and the disk bound. */
module LogRuns {
  import opened Common
  import opened LogDirectory
  import opened LogLayout
  import opened LogMachine
  import opened LogInvariant

  // ------------------------------------------------------------------ the order of times

  /** The clock never falls; it may stand still over any number of changes. */
  ghost predicate NeverFalls(u: Setup) {
    forall i: nat, j: nat :: i <= j ==> u.device.clock(i) <= u.device.clock(j)
  }

  /** Segment times strictly increase: the last change before each birth, which is what the segment closed by it keeps as
      its time, came later than the last change before every earlier birth. */
  ghost predicate Spaced(u: Setup, ticks: seq<nat>) {
    && NeverFalls(u)
    && forall i, j :: 0 <= i < j < |ticks| ==>
         0 < ticks[i] && 0 < ticks[j] && u.device.clock(ticks[i] - 1) < u.device.clock(ticks[j] - 1)
  }

  lemma SpacedBefore(u: Setup, ticks: seq<nat>, longer: seq<nat>)
    requires Spaced(u, longer) && ticks <= longer
    ensures Spaced(u, ticks)
  {
    assert forall i :: 0 <= i < |ticks| ==> ticks[i] == longer[i];
  }

  predicate IsYoungest(l: Log, n: string)
    requires n in l.dir
  {
    l.dir[n].born == |l.history| - 1
  }

  /** The closed files' times follow their births. */
  ghost predicate ClosedTimesIncrease(l: Log) {
    forall m, n :: m in l.dir && n in l.dir && l.dir[m].born < l.dir[n].born && !IsYoungest(l, n) ==>
      l.dir[m].mtime < l.dir[n].mtime
  }

  /** Before the first birth of this run the directory is in order and not from the future; after it the youngest file was
      changed last, and the others before its birth. */
  ghost predicate Times(u: Setup, l: Log) {
    && 0 < l.asked.clock && (l.isOpen ==> l.ticks != [])
    && if l.ticks == [] then
         MtimesFollowBirth(l.dir) && forall n :: n in l.dir ==> l.dir[n].mtime <= u.device.clock(l.asked.clock - 1)
       else
         var born := l.ticks[|l.ticks| - 1];
         && 0 < born < l.asked.clock && ClosedTimesIncrease(l)
         && forall n :: n in l.dir ==>
              if IsYoungest(l, n) then l.dir[n].mtime == u.device.clock(l.asked.clock - 1)
              else l.dir[n].mtime <= u.device.clock(born - 1)
  }

  ghost predicate InOrder(u: Setup, l: Log) {
    l.sorted && Times(u, l)
  }

  lemma BornInOrder(u: Setup, l: Log, path: string)
    requires FilesOk(u, l) && InOrder(u, l) && path !in l.dir && Spaced(u, Born(u, l, path).ticks)
    ensures InOrder(u, Born(u, l, path))
  {
    var m := Born(u, l, path);
    assert m.ticks[|l.ticks|] == l.asked.clock;
    if l.ticks != [] {
      var i := |l.ticks| - 1;
      assert m.ticks[i] == l.ticks[i];
      assert u.device.clock(m.ticks[i] - 1) < u.device.clock(m.ticks[|l.ticks|] - 1);
    }
    forall n | n in m.dir && !IsYoungest(m, n) ensures n in l.dir && m.dir[n].mtime <= u.device.clock(l.asked.clock - 1) {
      assert n != path;
    }
    assert ClosedTimesIncrease(m) by {
      forall x, y | x in m.dir && y in m.dir && m.dir[x].born < m.dir[y].born && !IsYoungest(m, y)
        ensures m.dir[x].mtime < m.dir[y].mtime
      {
        assert x != path && y != path && x in l.dir && y in l.dir;
        assert !IsYoungest(l, x);
      }
    }
  }

  lemma CreatedInOrder(u: Setup, l: Log, path: string)
    requires FilesOk(u, l) && InOrder(u, l) && Spaced(u, Created(u, l, path).0.ticks)
    ensures InOrder(u, Created(u, l, path).0)
    ensures Created(u, l, path).1 ==> Created(u, l, path).0.ticks != []
  {
    hide Tail, FilesMatch, Times, Spaced;
    if Created(u, l, path).1 {
      var asked := l.(asked := l.asked.(creates := l.asked.creates + 1));
      AskingKeepsOrder(u, l, asked);
      BornInOrder(u, asked, path);
    } else {
      AskingKeepsOrder(u, l, Created(u, l, path).0);
    }
  }

  /** Only the youngest file changes, and its time is now. */
  lemma GrownDir(u: Setup, l: Log, bytes: seq<byte>)
    requires FilesOk(u, l) && HasCurrent(l) && l.history != []
    ensures var m := Grown(u, l, bytes);
            && m.dir.Keys == l.dir.Keys && |m.history| == |l.history| && m.asked.clock == l.asked.clock + 1
            && m.ticks == l.ticks && m.sorted == l.sorted && m.isOpen == l.isOpen
            && m.dir[l.path.value].mtime == u.device.clock(l.asked.clock)
            && IsYoungest(l, l.path.value) && IsYoungest(m, l.path.value)
            && forall n :: n in l.dir && n != l.path.value ==> m.dir[n] == l.dir[n] && !IsYoungest(l, n)
  {
    hide Tail;
  }

  lemma GrownInOrder(u: Setup, l: Log, bytes: seq<byte>)
    requires NeverFalls(u) && FilesOk(u, l) && InOrder(u, l) && HasCurrent(l) && l.history != [] && l.ticks != []
    ensures InOrder(u, Grown(u, l, bytes))
  {
    GrownDir(u, l, bytes);
    hide FilesOk, Grown;
  }

  lemma TimesSortForPrune(u: Setup, l: Log)
    requires FilesOk(u, l) && Times(u, l) && HasCurrent(l)
    ensures SortsByBirth(l.dir, l.dir.Keys - {l.path.value})
  {
    hide Tail;
    assert forall n :: n in l.dir && IsYoungest(l, n) ==> n == l.path.value;
  }

  lemma FewerInOrder(u: Setup, l: Log, m: Log)
    requires Times(u, l) && m.history == l.history && m.asked.clock == l.asked.clock && m.ticks == l.ticks && m.isOpen == l.isOpen
    requires forall n :: n in m.dir ==> n in l.dir && m.dir[n] == l.dir[n]
    ensures Times(u, m)
  {
    assert forall n :: n in m.dir ==> (IsYoungest(m, n) <==> IsYoungest(l, n));
  }

  lemma PrunedFewer(u: Setup, l: Log)
    ensures var m := Pruned(u, l);
            && m.history == l.history && m.asked.clock == l.asked.clock && m.ticks == l.ticks && m.isOpen == l.isOpen
            && (forall n :: n in m.dir ==> n in l.dir && m.dir[n] == l.dir[n])
            && (l.sorted && SortedForPrune(u, l) ==> m.sorted)
  {
    hide Listing, Examined, SortedForPrune, Total, IsListing;
  }

  lemma PrunedInOrder(u: Setup, l: Log)
    requires FilesOk(u, l) && InOrder(u, l) && HasCurrent(l)
    ensures InOrder(u, Pruned(u, l))
  {
    TimesSortForPrune(u, l);
    PrunedFewer(u, l);
    assert SortedForPrune(u, l);
    hide Tail, Times, Pruned, Total, SortedForPrune, SortsByBirth;
    FewerInOrder(u, l, Pruned(u, l));
  }

  lemma AskingKeepsOrder(u: Setup, l: Log, m: Log)
    requires m.dir == l.dir && m.history == l.history && m.asked.clock == l.asked.clock && m.ticks == l.ticks
    requires m.sorted == l.sorted && (m.isOpen ==> l.isOpen || l.ticks != [])
    ensures InOrder(u, l) ==> InOrder(u, m)
  {
    assert forall n :: n in l.dir ==> (IsYoungest(m, n) <==> IsYoungest(l, n));
  }

  lemma RotatedTicks(u: Setup, l: Log)
    ensures l.ticks <= Rotated(u, l).0.ticks
    ensures Switched(u, l).0.ticks == Created(u, l.(isOpen := false, index := l.index + 1), SegmentName(l.token, l.index + 1)).0.ticks
    ensures l.ticks <= Switched(u, l).0.ticks
    ensures Synced(u, l).1 ==> Rotated(u, l).0.ticks == Switched(u, Synced(u, l).0).0.ticks
  {
    hide SegmentName, Pruned;
    var c := Synced(u, Switched(u, Synced(u, l).0).0).0;
    PrunedFewer(u, c);
  }

  lemma RotatedInOrder(u: Setup, l: Log)
    requires SetupOk(u) && InOrder(u, l) && Ok(u, l) && l.isOpen && l.segmentBytes == u.segmentLimit
    requires Spaced(u, Rotated(u, l).0.ticks)
    ensures InOrder(u, Rotated(u, l).0)
  {
    hide Tail, InOrder, Spaced, LayoutOk, OpenOk, BoundOk, Total, Created, Pruned, SegmentName;
    RotatedTicks(u, l);
    var (a, synced) := Synced(u, l);
    AskingKeepsOrder(u, l, a);
    if synced {
      RotatedTicks(u, a);
      var path := SegmentName(a.token, a.index + 1);
      var closed := a.(isOpen := false, index := a.index + 1);
      AskingKeepsOrder(u, a, closed);
      CreatedInOrder(u, closed, path);
      CreatedKeepsFiles(u, closed, path);
      var (b, switched) := Switched(u, a);
      AskingKeepsOrder(u, Created(u, closed, path).0, b);
      if switched {
        var c := Synced(u, b).0;
        AskingKeepsOrder(u, b, c);
        PrunedInOrder(u, c);
      }
    }
  }

  lemma WroteSomeTicks(u: Setup, l: Log, remaining: seq<byte>)
    ensures l.ticks <= WroteSome(u, l, remaining).0.ticks
    ensures l.segmentBytes >= u.segmentLimit ==> WroteSome(u, l, remaining).0.ticks == Rotated(u, l).0.ticks
  {
    hide Rotated, Switched, Created, SegmentName, Took;
    RotatedTicks(u, l);
    TookTicks(u, l, remaining);
    TookTicks(u, Rotated(u, l).0, remaining);
  }

  /** The state after an offer, in terms of what was taken. */
  lemma TookIs(u: Setup, l: Log, remaining: seq<byte>)
    ensures var asked := l.(asked := l.asked.(takes := l.asked.takes + 1));
            var (m, n) := Took(u, l, remaining);
            m == if n > 0 then Grown(u, asked, remaining[..n]) else asked
  {
    hide Grown;
  }

  lemma TookTicks(u: Setup, l: Log, remaining: seq<byte>)
    ensures Took(u, l, remaining).0.ticks == l.ticks
  {
  }

  lemma {:induction false} WroteAllTicks(u: Setup, l: Log, remaining: seq<byte>)
    ensures l.ticks <= WroteAll(u, l, remaining).0.ticks
    decreases |remaining|
  {
    hide WroteSome;
    if remaining != [] {
      WroteSomeTicks(u, l, remaining);
      var (m, n) := WroteSome(u, l, remaining);
      if n > 0 { WroteAllTicks(u, m, remaining[n..]); }
    }
  }

  lemma WroteSomeInOrder(u: Setup, l: Log, remaining: seq<byte>)
    requires SetupOk(u) && InOrder(u, l) && Ok(u, l) && l.isOpen && Spaced(u, WroteSome(u, l, remaining).0.ticks)
    ensures InOrder(u, WroteSome(u, l, remaining).0)
  {
    WroteSomeTicks(u, l, remaining);
    assert NeverFalls(u);
    hide InOrder, Spaced, NeverFalls, LayoutOk, FilesOk, OpenOk, BoundOk, Rotated, Took;
    OpenHasCurrent(u, l);
    if l.segmentBytes < u.segmentLimit {
      TookInOrder(u, l, remaining);
    } else {
      RotatedInOrder(u, l);
      RotatedKeeps(u, l);
      if Rotated(u, l).1 { TookInOrder(u, Rotated(u, l).0, remaining); }
    }
  }

  lemma OpenIsBorn(u: Setup, l: Log)
    requires InOrder(u, l) && Ok(u, l) && l.isOpen
    ensures l.ticks != [] && l.history != [] && HasCurrent(l) && FilesOk(u, l)
  {
    hide LayoutOk, FilesOk, BoundOk;
  }

  lemma SameFiles(u: Setup, l: Log, m: Log)
    requires FilesOk(u, l) && HasCurrent(l) && m == l.(asked := m.asked)
    ensures FilesOk(u, m) && HasCurrent(m)
  {
    hide FilesMatch, Tail;
  }

  lemma TookInOrder(u: Setup, l: Log, remaining: seq<byte>)
    requires NeverFalls(u) && InOrder(u, l) && Ok(u, l) && l.isOpen
    ensures InOrder(u, Took(u, l, remaining).0)
  {
    OpenIsBorn(u, l);
    TookIs(u, l, remaining);
    hide InOrder, Ok, FilesOk, Grown, Took, NeverFalls, HasCurrent;
    var asked := l.(asked := l.asked.(takes := l.asked.takes + 1));
    AskingKeepsOrder(u, l, asked);
    SameFiles(u, l, asked);
    var n := Took(u, l, remaining).1;
    if n > 0 {
      GrownInOrder(u, asked, remaining[..n]);
    }
  }

  lemma {:induction false} WroteAllInOrder(u: Setup, l: Log, remaining: seq<byte>)
    requires SetupOk(u) && InOrder(u, l) && Ok(u, l) && l.isOpen && Spaced(u, WroteAll(u, l, remaining).0.ticks)
    ensures InOrder(u, WroteAll(u, l, remaining).0)
    decreases |remaining|
  {
    hide InOrder, Spaced, LayoutOk, FilesOk, OpenOk, BoundOk, WroteSome;
    if remaining == [] {
      AskingKeepsOrder(u, l, WroteAll(u, l, remaining).0);
    } else {
      var (m, n) := WroteSome(u, l, remaining);
      if n > 0 { WroteAllTicks(u, m, remaining[n..]); }
      SpacedBefore(u, m.ticks, WroteAll(u, l, remaining).0.ticks);
      WroteSomeInOrder(u, l, remaining);
      WroteSomeKeeps(u, l, remaining);
      if n > 0 { WroteAllInOrder(u, m, remaining[n..]); }
    }
  }

  lemma {:induction false} ClaimedInOrder(u: Setup, l: Log, stamp: string, suffix: nat)
    requires FilesOk(u, l) && InOrder(u, l) && Spaced(u, Claimed(u, l, stamp, suffix).0.ticks)
    ensures InOrder(u, Claimed(u, l, stamp, suffix).0) && l.ticks <= Claimed(u, l, stamp, suffix).0.ticks
    ensures Claimed(u, l, stamp, suffix).1 ==> Claimed(u, l, stamp, suffix).0.ticks != []
    decreases 100 - suffix
  {
    hide InOrder, Spaced, FilesOk, SegmentName, Token;
    if suffix < 100 {
      var path := SegmentName(Token(stamp, suffix), 1);
      if path in l.dir {
        ClaimedInOrder(u, l, stamp, suffix + 1);
      } else {
        CreatedInOrder(u, l, path);
        AskingKeepsOrder(u, Created(u, l, path).0, Claimed(u, l, stamp, suffix).0);
      }
    }
  }

  lemma StartedTicks(u: Setup, l: Log, stamp: string)
    ensures Started(u, l, stamp).0.ticks == Claimed(u, Cleared(l), stamp, 1).0.ticks
  {
    hide Claimed, SortedForPrune, Listing, Examined, Without;
  }

  lemma StartedInOrder(u: Setup, l: Log, stamp: string)
    requires SetupOk(u) && InOrder(u, l) && Ok(u, l) && !l.isOpen && Spaced(u, Started(u, l, stamp).0.ticks)
    ensures InOrder(u, Started(u, l, stamp).0)
  {
    StartedTicks(u, l, stamp);
    hide InOrder, Spaced, LayoutOk, FilesOk, OpenOk, BoundOk, Claimed, Pruned, SegmentName;
    AskingKeepsOrder(u, l, Cleared(l));
    assert FilesOk(u, Cleared(l)) by { CleanFiles(u, l); }
    ClaimedInOrder(u, Cleared(l), stamp, 1);
    ClaimedStarts(u, l, stamp);
    var (a, claimed) := Claimed(u, Cleared(l), stamp, 1);
    if claimed {
      var (b, synced) := Synced(u, a);
      AskingKeeps(u, a, b.asked);
      if synced {
        var open := b.(isOpen := true);
        AskingKeepsOrder(u, a, open);
        StartOpens(u, l, b);
        PrunedInOrder(u, open) by { OkHasFiles(u, open); }
      } else {
        AskingKeepsOrder(u, a, b.(path := None));
      }
    }
  }

  lemma OkHasFiles(u: Setup, l: Log)
    requires Ok(u, l)
    ensures FilesOk(u, l)
  {
  }

  lemma SessionClosedInOrder(u: Setup, l: Log)
    requires InOrder(u, l) && Ok(u, l)
    ensures InOrder(u, Closed(u, l).0) && Closed(u, l).0.ticks == l.ticks
  {
    hide InOrder, LayoutOk, FilesMatch, BoundOk, Tail, Listing, Examined, Without, SortedForPrune;
    if l.isOpen {
      var (m, synced) := Synced(u, l.(isOpen := false));
      AskingKeepsOrder(u, l, m);
      if synced { PrunedInOrder(u, m); }
    }
  }

  // --------------------------------------------------------------------- the disk bound

  /** Prunes that did not fail on the way keep the bound in force. */
  ghost predicate StaysPruned(u: Setup, l: Log, m: Log) {
    && l.asked.cleans <= m.asked.cleans
    && (l.pruned && CleansWell(u, l.asked.cleans, m.asked.cleans) ==> m.pruned)
  }

  lemma StaysPrunedTrans(u: Setup, l: Log, m: Log, n: Log)
    requires StaysPruned(u, l, m) && StaysPruned(u, m, n)
    ensures StaysPruned(u, l, n)
  {
  }

  /** No byte went to disk behind a full segment without a prune. */
  ghost predicate Prompt(u: Setup, l: Log) {
    l.unpruned <= (if l.isOpen then l.segmentBytes else u.segmentLimit)
  }

  lemma PrunedBound(u: Setup, l: Log)
    requires HasCurrent(l)
    ensures StaysPruned(u, l, Pruned(u, l)) && Pruned(u, l).unpruned == 0
  {
    hide CleansWell;
    PruneFailsIff(u, l);
  }

  lemma RotatedBound(u: Setup, l: Log)
    requires Ok(u, l) && l.isOpen && l.segmentBytes == u.segmentLimit
    ensures var (m, ok) := Rotated(u, l);
            StaysPruned(u, l, m) && (if ok then m.unpruned == 0 else m.unpruned == l.unpruned)
  {
    hide LayoutOk, FilesOk, OpenOk, BoundOk, Switched, Pruned, CleansWell;
    var (a, synced) := Synced(u, l);
    AskingKeeps(u, l, a.asked);
    if synced {
      SwitchedKeeps(u, a);
      var (b, switched) := Switched(u, a);
      var (c, again) := Synced(u, b);
      AskingKeeps(u, b, c.asked);
      if switched && again {
        OpenHasCurrent(u, c);
        PrunedBound(u, c);
      }
    }
  }

  lemma TookBound(u: Setup, l: Log, remaining: seq<byte>)
    requires Ok(u, l) && l.isOpen && Prompt(u, l)
    ensures var (m, n) := Took(u, l, remaining);
            StaysPruned(u, l, m) && Prompt(u, m) && m.isOpen && m.unpruned <= u.segmentLimit
  {
    hide LayoutOk, FilesOk, BoundOk, CleansWell;
    OpenHasCurrent(u, l);
    TookKeeps(u, l, remaining);
    OpenHasCurrent(u, Took(u, l, remaining).0);
  }

  lemma WroteSomeBound(u: Setup, l: Log, remaining: seq<byte>)
    requires SetupOk(u) && Ok(u, l) && l.isOpen && Prompt(u, l)
    ensures var (m, n) := WroteSome(u, l, remaining);
            StaysPruned(u, l, m) && m.unpruned <= u.segmentLimit && (n > 0 ==> m.isOpen && Prompt(u, m))
  {
    hide LayoutOk, FilesOk, OpenOk, BoundOk, CleansWell, Took, Rotated;
    OpenHasCurrent(u, l);
    if l.segmentBytes < u.segmentLimit {
      TookBound(u, l, remaining);
    } else {
      RotatedBound(u, l);
      RotatedKeeps(u, l);
      var (r, ok) := Rotated(u, l);
      if ok {
        TookBound(u, r, remaining);
        StaysPrunedTrans(u, l, r, Took(u, r, remaining).0);
      }
    }
  }

  /** While a chunk is written at most one segment is on disk that no prune has seen. */
  lemma {:induction false} WroteAllBound(u: Setup, l: Log, remaining: seq<byte>)
    requires SetupOk(u) && Ok(u, l) && l.isOpen && Prompt(u, l)
    ensures var (m, ok, n) := WroteAll(u, l, remaining);
            StaysPruned(u, l, m) && m.unpruned <= u.segmentLimit && (ok ==> m.isOpen && Prompt(u, m))
    decreases |remaining|
  {
    hide LayoutOk, FilesOk, OpenOk, BoundOk, CleansWell, WroteSome;
    OpenHasCurrent(u, l);
    if remaining != [] {
      WroteSomeBound(u, l, remaining);
      WroteSomeKeeps(u, l, remaining);
      var (m, n) := WroteSome(u, l, remaining);
      if n > 0 {
        WroteAllBound(u, m, remaining[n..]);
        StaysPrunedTrans(u, l, m, WroteAll(u, m, remaining[n..]).0);
      }
    }
  }

  lemma StartedBound(u: Setup, l: Log, stamp: string)
    requires SetupOk(u) && Ok(u, l) && !l.isOpen
    ensures var (m, ok) := Started(u, l, stamp);
            && StaysPruned(u, l, m) && (ok ==> m.unpruned == 0) && (!ok ==> m.unpruned == l.unpruned)
            && (ok ==> (m.pruned <==> CleansWell(u, l.asked.cleans, m.asked.cleans))
                       && (m.pruned ==> Total(m.dir) <= u.totalLimit))
  {
    hide LayoutOk, FilesOk, OpenOk, BoundOk, CleansWell, Claimed, Pruned, SetupOk, SegmentName, Segments, Stream;
    ClaimedStarts(u, l, stamp);
    var (a, claimed) := Claimed(u, Cleared(l), stamp, 1);
    if claimed {
      var (b, synced) := Synced(u, a);
      AskingKeeps(u, a, b.asked);
      if synced {
        var open := b.(isOpen := true);
        StartOpens(u, l, b);
        PrunedBound(u, open);
        PruneFailsIff(u, open);
        PruneMeetsCap(u, open);
      }
    }
  }

  lemma ClosedBound(u: Setup, l: Log)
    requires SetupOk(u) && Ok(u, l)
    ensures var (m, ok) := Closed(u, l);
            && StaysPruned(u, l, m) && m.unpruned <= l.unpruned
            && (l.isOpen && ok && m.pruned ==> Total(m.dir) <= u.totalLimit && m.unpruned == 0)
  {
    hide LayoutOk, BoundOk, CleansWell, Pruned, SetupOk, FilesMatch;
    if l.isOpen {
      var (m, synced) := Synced(u, l.(isOpen := false));
      if synced {
        PrunedBound(u, m);
        PruneMeetsCap(u, m);
      }
    }
  }

  // ---------------------------------------------------------------------------- sessions

  /** What the reader does with the log between `open` and `close`: it stops at the first chunk whose write raises. */
  datatype Session = Session(stamp: string, chunks: seq<seq<byte>>)

  ghost function WroteChunks(u: Setup, l: Log, chunks: seq<seq<byte>>): Log
    decreases |chunks|
  {
    if chunks == [] then l
    else
      var (m, ok, _) := Wrote(u, l, chunks[0]);
      if ok then WroteChunks(u, m, chunks[1..]) else m
  }

  ghost function AfterSession(u: Setup, l: Log, s: Session): Log {
    var (m, ok) := Started(u, l, s.stamp);
    if ok then Closed(u, WroteChunks(u, m, s.chunks)).0 else m
  }

  ghost function AfterRuns(u: Setup, l: Log, sessions: seq<Session>): Log {
    if sessions == [] then l else AfterSession(u, AfterRuns(u, l, sessions[..|sessions| - 1]), sessions[|sessions| - 1])
  }

  /** All that holds at every moment of a run. */
  ghost predicate Sound(u: Setup, l: Log) {
    Ok(u, l) && l.unpruned <= u.segmentLimit
  }

  lemma {:induction false} ChunksKeep(u: Setup, l: Log, chunks: seq<seq<byte>>)
    requires SetupOk(u) && Ok(u, l) && l.isOpen && Prompt(u, l)
    ensures var m := WroteChunks(u, l, chunks);
            && Sound(u, m) && m.sessionStart == l.sessionStart && StaysPruned(u, l, m) && l.ticks <= m.ticks
            && (Spaced(u, m.ticks) && InOrder(u, l) ==> InOrder(u, m))
            && Stream(l) <= Stream(m) <= Stream(l) + Flatten(chunks)
    decreases |chunks|
  {
    hide LayoutOk, FilesOk, OpenOk, BoundOk, CleansWell, InOrder, WroteAll, Spaced, Stream;
    OpenHasCurrent(u, l);
    if chunks == [] {
      assert Stream(l) + Flatten(chunks) == Stream(l);
    } else {
      var (m, ok, n) := WroteAll(u, l, chunks[0]);
      WroteAllKeeps(u, l, chunks[0]);
      WroteAllBound(u, l, chunks[0]);
      WroteAllTicks(u, l, chunks[0]);
      if Spaced(u, m.ticks) && InOrder(u, l) { WroteAllInOrder(u, l, chunks[0]); }
      FirstChunk(Stream(l), chunks, n);
      if ok {
        var last := WroteChunks(u, m, chunks[1..]);
        ChunksKeep(u, m, chunks[1..]);
        StaysPrunedTrans(u, l, m, last);
        if Spaced(u, last.ticks) { SpacedBefore(u, m.ticks, last.ticks); }
        assert chunks[0][..n] == chunks[0];
      }
    }
  }

  lemma FirstChunk(s: seq<byte>, chunks: seq<seq<byte>>, n: nat)
    requires chunks != [] && n <= |chunks[0]|
    ensures s + chunks[0][..n] <= s + Flatten(chunks)
    ensures s + chunks[0] + Flatten(chunks[1..]) == s + Flatten(chunks)
  {
    var first, rest := chunks[0], Flatten(chunks[1..]);
    assert Flatten(chunks) == first + rest by {
      FlattenConcat([first], chunks[1..]);
      FlattenOne(first);
      assert chunks == [first] + chunks[1..];
    }
    PrefixOfSum(s, first, rest, n);
  }

  lemma PrefixOfSum<T>(s: seq<T>, first: seq<T>, rest: seq<T>, n: nat)
    requires n <= |first|
    ensures s + first[..n] <= s + (first + rest) && s + first + rest == s + (first + rest)
  {
  }

  lemma StartKeeps(u: Setup, l: Log, stamp: string)
    requires SetupOk(u) && Sound(u, l) && !l.isOpen
    ensures var (m, ok) := Started(u, l, stamp);
            && Sound(u, m) && ok == m.isOpen && Stream(m) == [] && (ok ==> Prompt(u, m)) && StaysPruned(u, l, m)
            && l.ticks <= m.ticks && (Spaced(u, m.ticks) && InOrder(u, l) ==> InOrder(u, m))
  {
    hide LayoutOk, FilesOk, OpenOk, BoundOk, CleansWell, InOrder, Started, Spaced, Stream;
    StartedKeeps(u, l, stamp);
    StartedBound(u, l, stamp);
    StartedTicks(u, l, stamp);
    ClaimedTicks(u, Cleared(l), stamp, 1);
    if Spaced(u, Started(u, l, stamp).0.ticks) && InOrder(u, l) { StartedInOrder(u, l, stamp); }
  }

  lemma {:induction false} ClaimedTicks(u: Setup, l: Log, stamp: string, suffix: nat)
    ensures l.ticks <= Claimed(u, l, stamp, suffix).0.ticks
    decreases 100 - suffix
  {
    hide SegmentName, Token;
    if suffix < 100 && SegmentName(Token(stamp, suffix), 1) in l.dir {
      ClaimedTicks(u, l, stamp, suffix + 1);
    }
  }

  lemma SessionKeeps(u: Setup, l: Log, s: Session)
    requires SetupOk(u) && Sound(u, l) && !l.isOpen
    ensures var m := AfterSession(u, l, s);
            && Sound(u, m) && !m.isOpen && StaysPruned(u, l, m) && l.ticks <= m.ticks
            && (Spaced(u, m.ticks) && InOrder(u, l) ==> InOrder(u, m))
            && Stream(m) <= Flatten(s.chunks)
  {
    hide LayoutOk, FilesOk, OpenOk, BoundOk, CleansWell, InOrder, Started, Closed, Spaced;
    StartKeeps(u, l, s.stamp);
    var (a, ok) := Started(u, l, s.stamp);
    if ok {
      ChunksKeep(u, a, s.chunks);
      var b := WroteChunks(u, a, s.chunks);
      StaysPrunedTrans(u, l, a, b);
      ClosedKeeps(u, b);
      ClosedBound(u, b);
      ClosedTicks(u, b);
      StaysPrunedTrans(u, l, b, Closed(u, b).0);
      if Spaced(u, b.ticks) { SpacedBefore(u, a.ticks, b.ticks); }
      if InOrder(u, b) { SessionClosedInOrder(u, b); }
    }
  }

  lemma ClosedTicks(u: Setup, l: Log)
    ensures Closed(u, l).0.ticks == l.ticks
  {
    hide Listing, Examined, Without, SortedForPrune;
  }

  lemma {:induction false} RunsKeep(u: Setup, l: Log, sessions: seq<Session>)
    requires SetupOk(u) && Sound(u, l) && !l.isOpen
    ensures var m := AfterRuns(u, l, sessions);
            && Sound(u, m) && !m.isOpen && StaysPruned(u, l, m) && l.ticks <= m.ticks
            && (Spaced(u, m.ticks) && InOrder(u, l) ==> InOrder(u, m))
  {
    hide Sound, CleansWell, InOrder, AfterSession, Spaced;
    if sessions != [] {
      var before := AfterRuns(u, l, sessions[..|sessions| - 1]);
      var after := AfterRuns(u, l, sessions);
      RunsKeep(u, l, sessions[..|sessions| - 1]);
      SessionKeeps(u, before, sessions[|sessions| - 1]);
      StaysPrunedTrans(u, l, before, after);
      if Spaced(u, after.ticks) { SpacedBefore(u, before.ticks, after.ticks); }
    }
  }

  /** Any moment of any run: between two sessions, or in a session that has got so far. */
  ghost function AtMoment(u: Setup, l: Log, sessions: seq<Session>, current: Option<Session>): Log {
    var between := AfterRuns(u, l, sessions);
    if current.None? then between
    else
      var (m, ok) := Started(u, between, current.value.stamp);
      if ok then WroteChunks(u, m, current.value.chunks) else m
  }

  lemma MomentKeeps(u: Setup, l: Log, sessions: seq<Session>, current: Option<Session>)
    requires SetupOk(u) && Sound(u, l) && !l.isOpen
    ensures var m := AtMoment(u, l, sessions, current);
            && Sound(u, m) && StaysPruned(u, l, m) && l.ticks <= m.ticks
            && (Spaced(u, m.ticks) && InOrder(u, l) ==> InOrder(u, m))
  {
    hide Ok, CleansWell, InOrder, AfterRuns, Started, WroteChunks, Spaced;
    RunsKeep(u, l, sessions);
    var between := AfterRuns(u, l, sessions);
    var m := AtMoment(u, l, sessions, current);
    if current.Some? {
      StartKeeps(u, between, current.value.stamp);
      var (a, ok) := Started(u, between, current.value.stamp);
      StaysPrunedTrans(u, l, between, a);
      if ok {
        ChunksKeep(u, a, current.value.chunks);
        StaysPrunedTrans(u, l, a, m);
      }
      if Spaced(u, m.ticks) {
        SpacedBefore(u, a.ticks, m.ticks);
        SpacedBefore(u, between.ticks, m.ticks);
      }
    }
  }

  // ------------------------------------------------------------------------- main results

  /** Every byte ever logged, by any session. */
  function AllBytes(l: Log): seq<byte> {
    Flatten(Written(l.history))
  }

  /** The same session, with the same files before it. */
  ghost predicate SamePast(l: Log, m: Log) {
    && m.sessionStart == l.sessionStart <= |l.history| && l.sessionStart <= |m.history|
    && m.history[..l.sessionStart] == l.history[..l.sessionStart]
  }

  lemma TookPast(u: Setup, l: Log, remaining: seq<byte>)
    requires l.sessionStart < |l.history|
    ensures var m := Took(u, l, remaining).0;
            m.sessionStart == l.sessionStart && |m.history| == |l.history| && m.history[..l.sessionStart] == l.history[..l.sessionStart]
  {
  }

  lemma WroteSomePast(u: Setup, l: Log, remaining: seq<byte>)
    requires Ok(u, l) && l.isOpen
    ensures SamePast(l, WroteSome(u, l, remaining).0)
  {
    assert l.sessionStart < |l.history| by { OpenIsWithin(u, l); }
    RotatedHistory(u, l);
    hide Ok, Rotated, Took;
    if l.segmentBytes < u.segmentLimit { TookPast(u, l, remaining); } else { TookPast(u, Rotated(u, l).0, remaining); }
  }

  lemma RotatedHistory(u: Setup, l: Log)
    ensures var m := Rotated(u, l).0;
            m.sessionStart == l.sessionStart && l.history <= m.history
  {
    hide SegmentName, Pruned;
    PrunedHistory(u, Synced(u, Switched(u, Synced(u, l).0).0).0);
  }

  lemma PrunedHistory(u: Setup, l: Log)
    ensures Pruned(u, l).history == l.history && Pruned(u, l).sessionStart == l.sessionStart
  {
    hide Listing, Without, Examined, SortedForPrune;
  }

  lemma {:induction false} WroteAllPast(u: Setup, l: Log, remaining: seq<byte>)
    requires SetupOk(u) && Ok(u, l) && l.isOpen
    ensures SamePast(l, WroteAll(u, l, remaining).0)
    decreases |remaining|
  {
    hide LayoutOk, FilesOk, BoundOk, OpenOk, WroteSome, SetupOk;
    OpenIsWithin(u, l);
    if remaining != [] {
      WroteSomePast(u, l, remaining);
      WroteSomeKeeps(u, l, remaining);
      var (m, n) := WroteSome(u, l, remaining);
      if n > 0 { WroteAllPast(u, m, remaining[n..]); }
    }
  }

  lemma {:induction false} ChunksPast(u: Setup, l: Log, chunks: seq<seq<byte>>)
    requires SetupOk(u) && Ok(u, l) && l.isOpen
    ensures SamePast(l, WroteChunks(u, l, chunks))
    decreases |chunks|
  {
    hide LayoutOk, FilesOk, BoundOk, OpenOk, WroteAll, SetupOk;
    OpenIsWithin(u, l);
    if chunks != [] {
      WroteAllPast(u, l, chunks[0]);
      WroteAllKeeps(u, l, chunks[0]);
      var (m, ok, n) := WroteAll(u, l, chunks[0]);
      if ok { ChunksPast(u, m, chunks[1..]); }
    }
  }

  lemma StartedPast(u: Setup, l: Log, stamp: string)
    requires SetupOk(u) && Ok(u, l) && !l.isOpen
    ensures var (m, ok) := Started(u, l, stamp); m.sessionStart == |l.history| && l.history <= m.history
    ensures AllBytes(Started(u, l, stamp).0) == AllBytes(l)
  {
    hide LayoutOk, FilesOk, BoundOk, Claimed, Listing, Without, Examined, SegmentName;
    ClaimedHistory(u, l, stamp);
    var (a, claimed) := Claimed(u, Cleared(l), stamp, 1);
    assert Started(u, l, stamp).0.history == a.history;
    if claimed {
      EmptyBirth(l.history, a.history[|l.history|]);
      assert a.history == l.history + [a.history[|l.history|]];
    }
  }

  lemma ClaimedHistory(u: Setup, l: Log, stamp: string)
    requires Ok(u, l) && !l.isOpen
    ensures var (m, ok) := Claimed(u, Cleared(l), stamp, 1);
            && m.sessionStart == |l.history|
            && (if ok then |m.history| == |l.history| + 1 && m.history[|l.history|].bytes == [] && l.history <= m.history
                else m.history == l.history)
  {
    assert FilesOk(u, Cleared(l)) by { CleanFiles(u, l); }
    hide LayoutOk, FilesOk, BoundOk, Claimed, SegmentName;
    ClaimedKeeps(u, Cleared(l), stamp, 1);
  }

  lemma EmptyBirth(history: seq<Birth>, b: Birth)
    requires b.bytes == []
    ensures Flatten(Written(history + [b])) == Flatten(Written(history))
  {
    assert Written(history + [b]) == Written(history) + [[]];
    FlattenConcat(Written(history), [[]]);
    FlattenOne<byte>([]);
  }

  lemma BytesAreEarlierAndStream(l: Log)
    requires l.sessionStart <= |l.history|
    ensures AllBytes(l) == Flatten(Written(l.history[..l.sessionStart])) + Stream(l)
  {
    hide Flatten;
    FlattenConcat(Written(l.history[..l.sessionStart]), Segments(l));
    assert Written(l.history) == Written(l.history[..l.sessionStart]) + Segments(l);
  }

  /** A session adds its stream to everything logged before it, or nothing if it could not start. */
  lemma SessionAddsItsStream(u: Setup, l: Log, s: Session)
    requires SetupOk(u) && Sound(u, l) && !l.isOpen
    ensures AllBytes(AfterSession(u, l, s)) == AllBytes(l) + Stream(AfterSession(u, l, s))
  {
    hide LayoutOk, FilesOk, BoundOk, OpenOk, Started, Closed, WroteChunks, AllBytes, Stream, Segments, CleansWell, InOrder, SetupOk;
    var (a, ok) := Started(u, l, s.stamp);
    StartedPast(u, l, s.stamp);
    StartedKeeps(u, l, s.stamp);
    StartedBound(u, l, s.stamp);
    var m := AfterSession(u, l, s);
    if ok {
      var b := WroteChunks(u, a, s.chunks);
      ChunksPast(u, a, s.chunks);
      ChunksKeep(u, a, s.chunks);
      assert m.history == b.history && m.sessionStart == b.sessionStart by { ClosedHistory(u, b); }
    }
    assert m.sessionStart == |l.history| <= |m.history| && m.history[..m.sessionStart] == l.history;
    BytesAreEarlierAndStream(m);
    assert AllBytes(l) == Flatten(Written(l.history)) by { WholeBytes(l); }
  }

  lemma WholeBytes(l: Log)
    ensures AllBytes(l) == Flatten(Written(l.history))
  {
  }

  lemma ClosedHistory(u: Setup, l: Log)
    ensures Closed(u, l).0.history == l.history && Closed(u, l).0.sessionStart == l.sessionStart
  {
    hide Listing, Without, Examined;
  }

  /** A writer that finds an empty directory starts in order. */
  lemma EmptyDiskIsInOrder(u: Setup, l: Log)
    requires l.dir == map[] && l.history == [] && l.ticks == [] && !l.isOpen && l.asked.clock > 0
    ensures Tail(l.dir, l.history) && Times(u, l)
  {
    assert RetainedFrom(l.dir, l.history, 0);
  }

  /** The retained tail, in general: at any moment of any run the files left, joined as listed, are a suffix of every byte
      ever logged, if the sort key follows the births now and followed them for the closed files at every prune that had
      something to delete. By `DeletionKeepsTailIff` no prune needs less. */
  lemma RetainedTail(u: Setup, l: Log, sessions: seq<Session>, current: Option<Session>) returns (lost: seq<byte>)
    requires SetupOk(u) && Sound(u, l) && !l.isOpen
    ensures var m := AtMoment(u, l, sessions, current);
            m.sorted && SortsByBirth(m.dir, m.dir.Keys) ==> AllBytes(m) == lost + Flatten(Contents(m.dir, Listing(m.dir)))
  {
    hide LayoutOk, OpenOk, BoundOk, AtMoment, Flatten, SortsByBirth, Tail, FilesMatch, Spaced, InOrder;
    MomentKeeps(u, l, sessions, current);
    var m := AtMoment(u, l, sessions, current);
    lost := [];
    if m.sorted && SortsByBirth(m.dir, m.dir.Keys) {
      var k := RetainedTailIsSuffix(m.dir, m.history, Listing(m.dir));
      lost := Flatten(Written(m.history)[..k]);
    }
  }

  lemma NowInOrder(u: Setup, m: Log)
    requires InOrder(u, m) && Spaced(u, m.ticks + [m.asked.clock]) && FilesOk(u, m)
    ensures SortsByBirth(m.dir, m.dir.Keys)
  {
    hide Tail, LexLeq;
    if m.ticks != [] {
      var all, i := m.ticks + [m.asked.clock], |m.ticks| - 1;
      assert all[i] == m.ticks[i] && all[|m.ticks|] == m.asked.clock;
      assert u.device.clock(all[i] - 1) < u.device.clock(all[|m.ticks|] - 1);
    }
  }

  /** Strictly increasing segment times are enough, the current segment's included; the clock may stand still over any
      number of changes of one segment, and over a rotation. */
  lemma SegmentTimesSuffice(u: Setup, l: Log, sessions: seq<Session>, current: Option<Session>)
    requires SetupOk(u) && Sound(u, l) && !l.isOpen && InOrder(u, l)
    requires var m := AtMoment(u, l, sessions, current); Spaced(u, m.ticks + [m.asked.clock])
    ensures var m := AtMoment(u, l, sessions, current); m.sorted && SortsByBirth(m.dir, m.dir.Keys)
  {
    hide LayoutOk, OpenOk, BoundOk, AtMoment, SortsByBirth, Spaced, Times;
    MomentKeeps(u, l, sessions, current);
    var m := AtMoment(u, l, sessions, current);
    SpacedBefore(u, m.ticks, m.ticks + [m.asked.clock]);
    NowInOrder(u, m);
  }

  /** The disk bound: once a session was started, and as long as no file operation of a prune fails, the total is at most
      the cap right after the start, each rotation and the close, and at most the cap plus one segment at any moment of the
      session and after it, whatever the modification times, the failing syncs, writes and creations. */
  lemma DiskBound(u: Setup, l: Log, stamp: string, chunks: seq<seq<byte>>)
    requires SetupOk(u) && Sound(u, l) && !l.isOpen && Started(u, l, stamp).1
    ensures var a := Started(u, l, stamp).0;
            var m := WroteChunks(u, a, chunks);
            && (CleansWell(u, l.asked.cleans, a.asked.cleans) ==> Total(a.dir) <= u.totalLimit)
            && (CleansWell(u, l.asked.cleans, m.asked.cleans) ==> Total(m.dir) <= u.totalLimit + u.segmentLimit)
    ensures var m := WroteChunks(u, Started(u, l, stamp).0, chunks);
            var (r, rotated) := Rotated(u, m);
            && (rotated && m.isOpen && m.segmentBytes == u.segmentLimit && CleansWell(u, l.asked.cleans, r.asked.cleans) ==>
                  Total(r.dir) <= u.totalLimit)
    ensures var m := WroteChunks(u, Started(u, l, stamp).0, chunks);
            var (c, synced) := Closed(u, m);
            && (CleansWell(u, l.asked.cleans, c.asked.cleans) ==> Total(c.dir) <= u.totalLimit + u.segmentLimit)
            && (synced && m.isOpen && CleansWell(u, l.asked.cleans, c.asked.cleans) ==> Total(c.dir) <= u.totalLimit)
  {
    hide LayoutOk, OpenOk, FilesOk, Started, WroteChunks, Closed, Rotated, InOrder, Spaced;
    StartKeeps(u, l, stamp);
    StartedBound(u, l, stamp);
    var a := Started(u, l, stamp).0;
    ChunksKeep(u, a, chunks);
    var m := WroteChunks(u, a, chunks);
    ClosedKeeps(u, m);
    ClosedBound(u, m);
    if m.isOpen && m.segmentBytes == u.segmentLimit {
      RotatedKeeps(u, m);
      RotatedBound(u, m);
    }
  }

  /** Between sessions the bound lasts, whatever sessions could not be started. */
  lemma DiskBoundBetween(u: Setup, l: Log, sessions: seq<Session>)
    requires SetupOk(u) && Sound(u, l) && !l.isOpen && l.pruned
    ensures var m := AfterRuns(u, l, sessions);
            CleansWell(u, l.asked.cleans, m.asked.cleans) ==> m.pruned && Total(m.dir) <= u.totalLimit + u.segmentLimit
  {
    hide LayoutOk, OpenOk, FilesOk, AfterRuns, InOrder, Spaced;
    RunsKeep(u, l, sessions);
  }

  // ------------------------------------------------------------- the layout, across devices

  /** Every chunk was written without an error. */
  ghost predicate AllWritten(u: Setup, l: Log, chunks: seq<seq<byte>>)
    decreases |chunks|
  {
    chunks == [] || (Wrote(u, l, chunks[0]).1 && AllWritten(u, Wrote(u, l, chunks[0]).0, chunks[1..]))
  }

  lemma {:induction false} WrittenIsCanonical(u: Setup, l: Log, chunks: seq<seq<byte>>)
    requires SetupOk(u) && Ok(u, l) && l.isOpen && AllWritten(u, l, chunks) && NoIdleSegment(Segments(l))
    ensures var m := WroteChunks(u, l, chunks);
            && Ok(u, m) && m.isOpen && NoIdleSegment(Segments(m)) && Stream(m) == Stream(l) + Flatten(chunks)
    decreases |chunks|
  {
    hide Ok, WroteAll, NoIdleSegment, Segments, Stream;
    if chunks == [] {
      assert Stream(l) + Flatten(chunks) == Stream(l);
    } else {
      var (m, ok, n) := WroteAll(u, l, chunks[0]);
      WroteAllKeeps(u, l, chunks[0]);
      if chunks[0] == [] { EmptyChunk(u, l); }
      assert chunks[0][..n] == chunks[0];
      WrittenIsCanonical(u, m, chunks[1..]);
      FirstChunk(Stream(l), chunks, 0);
    }
  }

  lemma EmptyChunk(u: Setup, l: Log)
    requires Ok(u, l)
    ensures Segments(WroteAll(u, l, []).0) == Segments(l)
  {
    hide Ok, Segments, Stream;
    AskingKeeps(u, l, WroteAll(u, l, []).0.asked);
  }

  /** Two sessions that were given the same bytes, in whatever chunks and through whatever short writes of their devices,
      on whatever disks, have the same segments, if their limits are the same and nothing was raised. */
  lemma SameBytesSameSegments(u: Setup, k: Log, stamp: string, chunks: seq<seq<byte>>,
                              v: Setup, l: Log, other: string, pieces: seq<seq<byte>>)
    requires SetupOk(u) && Sound(u, k) && !k.isOpen && Started(u, k, stamp).1
    requires SetupOk(v) && Sound(v, l) && !l.isOpen && Started(v, l, other).1
    requires u.segmentLimit == v.segmentLimit && Flatten(chunks) == Flatten(pieces)
    requires AllWritten(u, Started(u, k, stamp).0, chunks) && AllWritten(v, Started(v, l, other).0, pieces)
    ensures Segments(WroteChunks(u, Started(u, k, stamp).0, chunks)) == Segments(WroteChunks(v, Started(v, l, other).0, pieces))
  {
    hide Started, WroteChunks, AllWritten, FilesOk, OpenOk, BoundOk, NoIdleSegment;
    SessionIsCanonical(u, k, stamp, chunks);
    SessionIsCanonical(v, l, other, pieces);
    LayoutIsDetermined(Segments(WroteChunks(u, Started(u, k, stamp).0, chunks)),
                       Segments(WroteChunks(v, Started(v, l, other).0, pieces)), u.segmentLimit);
  }

  lemma SessionIsCanonical(u: Setup, l: Log, stamp: string, chunks: seq<seq<byte>>)
    requires SetupOk(u) && Sound(u, l) && !l.isOpen && Started(u, l, stamp).1
    requires AllWritten(u, Started(u, l, stamp).0, chunks)
    ensures var m := WroteChunks(u, Started(u, l, stamp).0, chunks);
            && Canonical(Segments(m), u.segmentLimit) && NoIdleSegment(Segments(m)) && Segments(m) != []
            && Flatten(Segments(m)) == Flatten(chunks)
  {
    StartedKeeps(u, l, stamp);
    hide Started, WroteChunks, AllWritten, Segments;
    var a := Started(u, l, stamp).0;
    WrittenIsCanonical(u, a, chunks);
    var m := WroteChunks(u, a, chunks);
    assert [] + Flatten(chunks) == Flatten(chunks);
    assert Segments(m) != [] by { CurrentIsLast(u, m) by { OpenIsWithin(u, m); } }
  }
}
