/** The raw log writer of `SerialWorker`: sessions, segments, short writes, rotation and pruning, updated in place. */
module RawLog {
  import opened Common
  import opened LogDirectory
  import opened LogLayout
  import opened LogMachine
  import opened LogInvariant
  import opened LogRuns
  import opened LogOutcomes

  class RawLogWriter {
    const setup: Setup

    var dir: Directory
    var logPath: Option<string>
    var isOpen: bool
    var sessionToken: string
    var segmentBytes: nat
    var segmentIndex: nat
    var bytesWritten: nat
    /** How many files were created on this disk; stands for what creation times would say. */
    var births: nat
    var asked: Asked
    ghost var history: seq<Birth>
    ghost var sessionStart: nat
    ghost var unpruned: nat
    ghost var pruned: bool
    ghost var ticks: seq<nat>
    ghost var sorted: bool

    ghost function View(): Log
      reads this
    {
      Log(dir, logPath, isOpen, sessionToken, segmentBytes, segmentIndex, bytesWritten, births, asked,
          history, sessionStart, unpruned, pruned, ticks, sorted)
    }

    ghost predicate Valid()
      reads this
    {
      SetupOk(setup) && Ok(setup, View())
    }

    /** A worker that finds `found` on disk; the limits are forced into shape. The clock's first reading is the time of that. */
    constructor (device: Device, logSegmentBytes: int, logTotalBytes: int, found: Directory, births: nat, ghost earlier: seq<Birth>)
      requires FilesMatch(found, earlier) && births == |earlier|
      ensures Valid() && Sound(setup, View()) && !isOpen && dir == found && history == earlier
      ensures ticks == [] && (sorted <==> Tail(found, earlier))
      ensures setup.device == device && asked == Asked(1, 0, 0, 0, 0, 0)
      ensures setup.segmentLimit == (if logSegmentBytes < 1 then 1 else logSegmentBytes)
      ensures setup.totalLimit == (if logTotalBytes < setup.segmentLimit then setup.segmentLimit else logTotalBytes)
    {
      var limit := if logSegmentBytes < 1 then 1 else logSegmentBytes;
      setup := Setup(device, limit, if logTotalBytes < limit then limit else logTotalBytes);
      dir, logPath, isOpen, sessionToken := found, None, false, "";
      segmentBytes, segmentIndex, bytesWritten, this.births, asked := 0, 1, 0, births, Asked(1, 0, 0, 0, 0, 0);
      history, sessionStart, unpruned, pruned, ticks, sorted := earlier, |earlier|, 0, false, [], Tail(found, earlier);
      new;
      assert earlier[|earlier|..] == [];
    }

    // ------------------------------------------------------------------- pruning

    method TotalSize(paths: seq<string>) returns (total: nat)
      requires IsListing(dir, paths)
      ensures total == Total(dir)
    {
      SumSizesIsTotal(dir, paths);
      total := SumSizes(dir, paths);
    }

    /** The deletion loop. */
    method DeleteOldest(paths: seq<string>, current: string) returns (ok: bool)
      requires IsListing(dir, paths)
      modifies this`dir, this`asked
      ensures var (k, cleans, done) := Examined(setup, old(dir), paths, 0, current, old(asked).cleans);
              dir == Without(old(dir), paths, k, current) && asked == old(asked).(cleans := cleans) && ok == done
    {
      hide IsListing, Total, Without;
      ghost var was := dir;
      var i := 0;
      var total := TotalSize(paths);
      ok := true;
      WithoutNone(was, paths, current);
      while ok && i < |paths| && total > setup.totalLimit
        invariant i <= |paths| && dir == Without(was, paths, i, current) && total == Total(dir)
        invariant asked == old(asked).(cleans := asked.cleans)
        invariant Examined(setup, was, paths, 0, current, old(asked).cleans)
                  == if ok then Examined(setup, was, paths, i, current, asked.cleans) else (i, asked.cleans, false)
        decreases |paths| - i, ok
      {
        var path := paths[i];
        WithoutStep(was, paths, i, current);
        if path == current {
          i := i + 1;
        } else {
          ok := setup.device.cleans(asked.cleans);
          asked := asked.(cleans := asked.cleans + 1);
          if ok {
            TotalRemove(dir, path);
            total := total - |dir[path].bytes|;
            dir := dir - {path};
            i := i + 1;
          }
        }
      }
    }

    /** `_prune_logs_locked`: any failing file operation ends it. */
    method Prune()
      modifies this`dir, this`asked, this`unpruned, this`pruned, this`sorted
      ensures View() == Pruned(setup, old(View()))
    {
      hide IsListing, Total, Without, Examined, SortedForPrune;
      ghost var wasSorted := sorted && SortedForPrune(setup, View());
      unpruned, pruned := 0, false;
      var listed := setup.device.cleans(asked.cleans);
      asked := asked.(cleans := asked.cleans + 1);
      if !listed {
        return;
      }
      sorted := wasSorted;
      var paths := ListLogs(dir);
      ListingIsUnique(dir, paths, Listing(dir));
      var ok := DeleteOldest(paths, if logPath.Some? then logPath.value else "");
      pruned := ok;
    }

    // ------------------------------------------------------------------ creating

    method Sync() returns (ok: bool)
      modifies this`asked
      ensures (View(), ok) == Synced(setup, old(View()))
    {
      ok := setup.device.syncs(asked.syncs);
      asked := asked.(syncs := asked.syncs + 1);
    }

    /** `open(path, "xb")`. */
    method CreateExclusive(path: string) returns (created: bool)
      modifies this`dir, this`history, this`births, this`logPath, this`asked, this`ticks
      ensures (View(), created) == Created(setup, old(View()), path)
    {
      if path in dir {
        return false;
      }
      created := setup.device.creates(asked.creates);
      asked := asked.(creates := asked.creates + 1);
      if created {
        hide Born;
        Bear(path);
      }
    }

    method Bear(path: string)
      modifies this`dir, this`history, this`births, this`logPath, this`asked, this`ticks
      ensures View() == Born(setup, old(View()), path)
    {
      dir := dir[path := LogFile([], setup.device.clock(asked.clock), births)];
      ticks := ticks + [asked.clock];
      asked := asked.(clock := asked.clock + 1);
      history := history + [Birth(path, [])];
      births := births + 1;
      logPath := Some(path);
    }

    /** The loop over the suffixes: only an existing name makes it go on. */
    method ClaimName(timestamp: string) returns (created: bool)
      modifies this`dir, this`history, this`births, this`logPath, this`asked, this`sessionToken, this`ticks
      ensures (View(), created) == Claimed(setup, old(View()), timestamp, 1)
    {
      var suffix := 1;
      while suffix < 100
        invariant suffix <= 100 && View() == old(View())
        invariant Claimed(setup, View(), timestamp, suffix) == Claimed(setup, View(), timestamp, 1)
      {
        hide Token, SegmentName;
        var token := Token(timestamp, suffix);
        var taken := SegmentName(token, 1) in dir;
        if !taken {
          created := CreateExclusive(SegmentName(token, 1));
          if created {
            sessionToken := token;
          }
          return;
        }
        suffix := suffix + 1;
      }
      created := false;
    }

    /** `_start_log_session_locked`, with the resets `open` makes before it. A session never continues an older file. */
    method StartSession(timestamp: string) returns (ok: bool)
      requires Valid() && !isOpen
      modifies this
      ensures (View(), ok) == Started(setup, old(View()), timestamp)
      ensures ok <==> SomeNameFree(old(View()), timestamp, 1) && setup.device.creates(old(asked).creates)
                      && setup.device.syncs(old(asked).syncs)
      ensures Valid() && ok == isOpen && Stream(View()) == []
      ensures ok ==> Segments(View()) == [[]] && logPath.Some? && logPath.value !in old(dir)
      // the bound and the order hold after it, and the cap is met unless a file operation of the prune failed
      ensures ok && CleansWell(setup, old(asked).cleans, asked.cleans) ==> pruned && Total(dir) <= setup.totalLimit
      ensures StaysPruned(setup, old(View()), View()) && (if ok then unpruned == 0 else unpruned == old(unpruned))
      ensures old(ticks) <= ticks && (Spaced(setup, ticks) && InOrder(setup, old(View())) ==> InOrder(setup, View()))
    {
      StartedFacts(setup, View(), timestamp);
      StartSucceedsIff(setup, View(), timestamp);
      hide SomeNameFree, Ok, Started, Spaced, InOrder, StaysPruned, CleansWell, Stream, Segments, SetupOk, Total;
      ok := OpenLog(timestamp);
    }

    method ClearSession()
      modifies this`bytesWritten, this`segmentIndex, this`segmentBytes, this`sessionStart
      ensures View() == Cleared(old(View()))
    {
      bytesWritten, segmentIndex, segmentBytes, sessionStart := 0, 1, 0, |history|;
    }

    method OpenLog(timestamp: string) returns (ok: bool)
      modifies this
      ensures (View(), ok) == Started(setup, old(View()), timestamp)
    {
      hide Claimed, Pruned, Cleared;
      ClearSession();
      var created := ClaimName(timestamp);
      if !created {
        return false;
      }
      var synced := Sync();
      if !synced {
        logPath := None;
        return false;
      }
      isOpen := true;
      Prune();
      ok := true;
    }

    // ------------------------------------------------------------------ rotation

    /** Close the full file and open the session's next part, under a new name or not at all. */
    method SwitchFile() returns (ok: bool)
      modifies this`dir, this`history, this`births, this`logPath, this`asked, this`isOpen, this`segmentIndex, this`segmentBytes,
               this`ticks
      ensures (View(), ok) == Switched(setup, old(View()))
    {
      hide SegmentName;
      isOpen := false;
      segmentIndex := segmentIndex + 1;
      ok := CreateExclusive(SegmentName(sessionToken, segmentIndex));
      if ok {
        isOpen := true;
        segmentBytes := 0;
      }
    }

    /** `_rotate_log_locked`. */
    method Rotate() returns (ok: bool)
      modifies this
      ensures (View(), ok) == Rotated(setup, old(View()))
    {
      hide Switched, Pruned;
      ok := Sync();
      if ok {
        ok := SwitchFile();
        if ok {
          ok := Sync();
          if ok {
            Prune();
          }
        }
      }
    }

    // ------------------------------------------------------------------- writing

    /** The device takes `bytes` at the end of the current segment. */
    method Grow(bytes: seq<byte>)
      requires logPath.Some? && logPath.value in dir && history != []
      modifies this`dir, this`history, this`segmentBytes, this`bytesWritten, this`unpruned, this`asked
      ensures View() == Grown(setup, old(View()), bytes)
    {
      var file := dir[logPath.value];
      dir := dir[logPath.value := LogFile(file.bytes + bytes, setup.device.clock(asked.clock), file.born)];
      asked := asked.(clock := asked.clock + 1);
      segmentBytes := segmentBytes + |bytes|;
      bytesWritten := bytesWritten + |bytes|;
      unpruned := unpruned + |bytes|;
      ghost var n := |history| - 1;
      history := history[n := Birth(history[n].name, history[n].bytes + bytes)];
    }

    /** Offer the device as much as the segment holds; nothing is logged if it makes no progress. */
    method OfferPiece(remaining: seq<byte>) returns (written: nat)
      requires Valid() && isOpen && segmentBytes < setup.segmentLimit
      modifies this`dir, this`history, this`segmentBytes, this`bytesWritten, this`unpruned, this`asked
      ensures (View(), written) == Took(setup, old(View()), remaining)
    {
      OpenHasCurrent(setup, View());
      assert history != [] by { CurrentIsLast(setup, View()) by { OpenIsWithin(setup, View()); } }
      hide Ok, Grown, SetupOk;
      var capacity := setup.segmentLimit - segmentBytes;
      var piece := if capacity < |remaining| then remaining[..capacity] else remaining;
      var taken := setup.device.takes(asked.takes);
      asked := asked.(takes := asked.takes + 1);
      if taken <= 0 || taken > |piece| {
        return 0;
      }
      assert piece[..taken] == remaining[..taken];
      Grow(remaining[..taken]);
      written := taken;
    }

    /** One round of the write loop: rotate if the segment is full, then offer the device a piece. */
    method WriteSome(remaining: seq<byte>) returns (written: nat)
      requires Valid() && isOpen
      modifies this
      ensures (View(), written) == WroteSome(setup, old(View()), remaining)
    {
      OpenHasCurrent(setup, View());
      if segmentBytes >= setup.segmentLimit {
        RotatedKeeps(setup, View());
        hide Ok, Rotated, Took, Stream, Segments, SetupOk;
        var rotated := Rotate();
        if !rotated {
          return 0;
        }
        assert segmentBytes < setup.segmentLimit by { LimitIsPositive(setup); }
        written := OfferPiece(remaining);
      } else {
        written := OfferPiece(remaining);
      }
    }

    static lemma LimitIsPositive(u: Setup)
      requires SetupOk(u)
      ensures u.segmentLimit >= 1
    {
    }

    /** The write loop; the periodic sync may raise although every byte is logged. */
    method WriteAll(data: seq<byte>) returns (ok: bool, logged: nat)
      requires Valid() && isOpen
      modifies this
      ensures (View(), ok, logged) == WroteAll(setup, old(View()), data)
    {
      hide Ok, WroteSome, SetupOk, Stream;
      logged := 0;
      var remaining := data;
      while remaining != []
        invariant Valid() && isOpen && logged <= |data| && remaining == data[logged..]
        invariant var (m, fine, k) := WroteAll(setup, View(), remaining);
                  WroteAll(setup, old(View()), data) == (m, fine, logged + k)
        decreases |remaining|
      {
        WroteSomeKeeps(setup, View(), remaining);
        var written := WriteSome(remaining);
        if written == 0 {
          return false, logged;
        }
        logged := logged + written;
        remaining := remaining[written..];
      }
      ok := setup.device.settles(asked.settles);
      asked := asked.(settles := asked.settles + 1);
    }

    /** `_write_log_raw`. What is logged of `data` is an exact prefix, and all of it unless an error is raised. */
    method WriteLogRaw(data: seq<byte>) returns (ok: bool, logged: nat)
      requires Valid()
      modifies this
      ensures (View(), ok, logged) == Wrote(setup, old(View()), data)
      ensures ok <==> && old(isOpen) && Progress(setup, old(segmentBytes), |data|, old(asked).takes, asked.takes)
                      && Granted(setup.device.syncs, old(asked).syncs, asked.syncs)
                      && Granted(setup.device.creates, old(asked).creates, asked.creates)
                      && NamesFree(old(View()), View()) && setup.device.settles(old(asked).settles)
      ensures Valid() && sessionStart == old(sessionStart)
      ensures logged <= |data| && Stream(View()) == old(Stream(View())) + data[..logged]
      ensures ok ==> logged == |data| && isOpen
      ensures ok && data != [] ==> NoIdleSegment(Segments(View()))
      // the bound and the order survive it
      ensures old(isOpen && Prompt(setup, View())) ==>
                && StaysPruned(setup, old(View()), View()) && unpruned <= setup.segmentLimit
                && (ok ==> Prompt(setup, View()))
      ensures old(ticks) <= ticks && (Spaced(setup, ticks) && InOrder(setup, old(View())) ==> InOrder(setup, View()))
    {
      WroteFacts(setup, View(), data);
      WriteSucceedsIff(setup, View(), data);
      hide Progress, Granted, NamesFree, Ok, Stream, Segments, NoIdleSegment, StaysPruned, Spaced, InOrder, Prompt, SetupOk, WroteAll;
      if !isOpen {
        return false, 0;
      }
      ok, logged := WriteAll(data);
    }

    /** `_close_log_session`. A failed sync closes the log without a prune. */
    method CloseSession() returns (ok: bool)
      requires Valid()
      modifies this
      ensures (View(), ok) == Closed(setup, old(View()))
      ensures ok <==> !old(isOpen) || setup.device.syncs(old(asked).syncs)
      ensures Valid() && !isOpen && Segments(View()) == old(Segments(View()))
      ensures !old(isOpen) || !ok ==> dir == old(dir)
      ensures old(isOpen) && ok && CleansWell(setup, old(asked).cleans, asked.cleans) ==> pruned && Total(dir) <= setup.totalLimit
      ensures StaysPruned(setup, old(View()), View()) && unpruned <= old(unpruned)
      ensures old(ticks) <= ticks && (Spaced(setup, ticks) && InOrder(setup, old(View())) ==> InOrder(setup, View()))
    {
      ClosedFacts(setup, View());
      CloseSucceedsIff(setup, View());
      hide Ok, Segments, StaysPruned, Spaced, InOrder, CleansWell, Pruned, SetupOk, Total;
      ok := true;
      if isOpen {
        isOpen := false;
        ok := Sync();
        if ok {
          Prune();
        }
      }
    }
  }

  // ------------------------------------------------------------ the functions' properties, gathered for the methods

  lemma StartedFacts(u: Setup, l: Log, stamp: string)
    requires SetupOk(u) && Ok(u, l) && !l.isOpen
    ensures var (m, ok) := Started(u, l, stamp);
            && Ok(u, m) && ok == m.isOpen && Stream(m) == []
            && (ok ==> Segments(m) == [[]] && m.path.Some? && m.path.value !in l.dir)
            && (ok && CleansWell(u, l.asked.cleans, m.asked.cleans) ==> m.pruned && Total(m.dir) <= u.totalLimit)
            && StaysPruned(u, l, m) && (if ok then m.unpruned == 0 else m.unpruned == l.unpruned)
            && l.ticks <= m.ticks && (Spaced(u, m.ticks) && InOrder(u, l) ==> InOrder(u, m))
  {
    hide Ok, Stream, Segments, CleansWell, StaysPruned, Spaced, InOrder, Started, SegmentName, SetupOk;
    StartedKeeps(u, l, stamp);
    StartedBound(u, l, stamp);
    StartedTicks(u, l, stamp);
    ClaimedTicks(u, Cleared(l), stamp, 1);
    if Spaced(u, Started(u, l, stamp).0.ticks) && InOrder(u, l) { StartedInOrder(u, l, stamp); }
  }

  lemma WroteFacts(u: Setup, l: Log, data: seq<byte>)
    requires SetupOk(u) && Ok(u, l)
    ensures var (m, ok, n) := Wrote(u, l, data);
            && Ok(u, m) && m.sessionStart == l.sessionStart && Stream(m) == Stream(l) + data[..n]
            && (ok ==> n == |data| && m.isOpen) && (ok && data != [] ==> NoIdleSegment(Segments(m)))
            && (l.isOpen && Prompt(u, l) ==>
                  && StaysPruned(u, l, m) && m.unpruned <= u.segmentLimit && (ok ==> Prompt(u, m)))
            && l.ticks <= m.ticks && (Spaced(u, m.ticks) && InOrder(u, l) ==> InOrder(u, m))
  {
    hide Ok, Stream, Segments, NoIdleSegment, StaysPruned, Spaced, InOrder, Prompt, WroteAll, SetupOk;
    if l.isOpen {
      WroteAllKeeps(u, l, data);
      if Prompt(u, l) { WroteAllBound(u, l, data); }
      WroteAllTicks(u, l, data);
      if Spaced(u, WroteAll(u, l, data).0.ticks) && InOrder(u, l) { WroteAllInOrder(u, l, data); }
    } else {
      assert Stream(l) + data[..0] == Stream(l);
    }
  }

  lemma ClosedFacts(u: Setup, l: Log)
    requires SetupOk(u) && Ok(u, l)
    ensures var (m, ok) := Closed(u, l);
            && Ok(u, m) && !m.isOpen && Segments(m) == Segments(l) && (!l.isOpen || !ok ==> m.dir == l.dir)
            && (l.isOpen && ok && CleansWell(u, l.asked.cleans, m.asked.cleans) ==> m.pruned && Total(m.dir) <= u.totalLimit)
            && StaysPruned(u, l, m) && m.unpruned <= l.unpruned
            && l.ticks <= m.ticks && (Spaced(u, m.ticks) && InOrder(u, l) ==> InOrder(u, m))
  {
    hide Ok, Segments, CleansWell, StaysPruned, Spaced, InOrder, Closed, SetupOk;
    ClosedKeeps(u, l);
    ClosedBound(u, l);
    ClosedTicks(u, l);
    if InOrder(u, l) { SessionClosedInOrder(u, l); }
  }

  /** Segment `i` of the current session is its slice of the session's stream, and every one but the last is full; a file
      of the session still on disk holds exactly that slice; and the counter is the length of the stream. */
  lemma SessionLayout(w: RawLogWriter, i: nat)
    requires w.Valid() && i < |Segments(w.View())|
    ensures var limit, stream := w.setup.segmentLimit, Stream(w.View());
            && 0 <= i * limit <= |stream|
            && Segments(w.View())[i] == stream[i * limit..Min((i + 1) * limit, |stream|)]
            && (i + 1 < |Segments(w.View())| ==> |Segments(w.View())[i]| == limit)
            && w.bytesWritten == |stream|
    ensures forall n :: n in w.dir && w.dir[n].born == w.sessionStart + i ==> w.dir[n].bytes == Segments(w.View())[i]
  {
    SegmentIsSlice(Segments(w.View()), w.setup.segmentLimit, i);
  }
}
