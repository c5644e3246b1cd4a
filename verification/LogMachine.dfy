/** The log writer as functions of its state and of what its device answers. The consumers of the bytes occur nowhere. */
module LogMachine {
  import opened Common
  import opened LogDirectory
  import opened LogLayout

  /** The answers of the outside world, each by the number of times that kind of question was asked before. */
  datatype Device = Device(
    clock: nat -> int,      // the modification time a change of a file leaves
    takes: nat -> int,      // what a write returns; nothing positive means no progress
    creates: nat -> bool,   // whether a file that does not exist can be created
    syncs: nat -> bool,     // whether a sync succeeds
    cleans: nat -> bool,    // whether a file operation of a prune succeeds: the listing, then each deletion
    settles: nat -> bool)   // whether the periodic sync at the end of a call is not due or succeeds

  datatype Asked = Asked(clock: nat, takes: nat, creates: nat, syncs: nat, cleans: nat, settles: nat)

  datatype Setup = Setup(device: Device, segmentLimit: nat, totalLimit: nat)

  /** `history` holds every file ever created, by birth, and `sessionStart` the first birth of the current session.
      `unpruned` counts the bytes logged since the last prune, and `pruned` says that none of its operations failed.
      `ticks` are the clock readings at which the files of this run were born, and `sorted` says that at every prune with
      something to delete the sort key put the closed files in the order of their birth. */
  datatype Log = Log(
    dir: Directory, path: Option<string>, isOpen: bool, token: string,
    segmentBytes: nat, index: nat, bytesWritten: nat, births: nat, asked: Asked,
    history: seq<Birth>, sessionStart: nat, unpruned: nat, pruned: bool, ticks: seq<nat>, sorted: bool)

  // ------------------------------------------------------------------- operations

  function Synced(u: Setup, l: Log): (Log, bool) {
    (l.(asked := l.asked.(syncs := l.asked.syncs + 1)), u.device.syncs(l.asked.syncs))
  }

  /** `open(path, "xb")`: a new empty file, or nothing at all; never an existing file. */
  function Created(u: Setup, l: Log, path: string): (Log, bool) {
    if path in l.dir then (l, false)
    else if !u.device.creates(l.asked.creates) then (l.(asked := l.asked.(creates := l.asked.creates + 1)), false)
    else (Born(u, l.(asked := l.asked.(creates := l.asked.creates + 1)), path), true)
  }

  function Born(u: Setup, l: Log, path: string): Log {
    l.(dir := l.dir[path := LogFile([], u.device.clock(l.asked.clock), l.births)],
       path := Some(path), births := l.births + 1, history := l.history + [Birth(path, [])],
       asked := l.asked.(clock := l.asked.clock + 1), ticks := l.ticks + [l.asked.clock])
  }

  /** Delete along the listing while the total is over the limit; the current file is spared, a failure ends it.
      How far that gets from position `i` on, how many deletions were asked for in all, and whether none failed. */
  ghost function Examined(u: Setup, d: Directory, paths: seq<string>, i: nat, current: string, asked: nat)
      : (r: (nat, nat, bool))
    requires i <= |paths|
    ensures i <= r.0 <= |paths| && asked <= r.1
    decreases |paths| - i
  {
    if i == |paths| || Total(Without(d, paths, i, current)) <= u.totalLimit then (i, asked, true)
    else if paths[i] == current then Examined(u, d, paths, i + 1, current, asked)
    else if !u.device.cleans(asked) then (i, asked + 1, false)
    else Examined(u, d, paths, i + 1, current, asked + 1)
  }

  function Current(l: Log): string {
    if l.path.Some? then l.path.value else ""
  }

  /** There is nothing to delete, or the sort key puts the closed files in the order of their birth. */
  ghost predicate SortedForPrune(u: Setup, l: Log) {
    Total(l.dir) <= u.totalLimit || SortsByBirth(l.dir, l.dir.Keys - {Current(l)})
  }

  ghost function Pruned(u: Setup, l: Log): Log {
    if !u.device.cleans(l.asked.cleans) then
      l.(asked := l.asked.(cleans := l.asked.cleans + 1), pruned := false, unpruned := 0)
    else
      var paths := Listing(l.dir);
      var (k, asked, ok) := Examined(u, l.dir, paths, 0, Current(l), l.asked.cleans + 1);
      l.(dir := Without(l.dir, paths, k, Current(l)), asked := l.asked.(cleans := asked), pruned := ok, unpruned := 0,
         sorted := l.sorted && SortedForPrune(u, l))
  }

  function Switched(u: Setup, l: Log): (Log, bool) {
    var (m, created) := Created(u, l.(isOpen := false, index := l.index + 1), SegmentName(l.token, l.index + 1));
    (if created then m.(isOpen := true, segmentBytes := 0) else m, created)
  }

  /** `_rotate_log_locked`. */
  ghost function Rotated(u: Setup, l: Log): (Log, bool) {
    var (a, synced) := Synced(u, l);
    if !synced then (a, false)
    else
      var (b, switched) := Switched(u, a);
      if !switched then (b, false)
      else
        var (c, again) := Synced(u, b);
        if !again then (c, false) else (Pruned(u, c), true)
  }

  /** The device takes `bytes` at the end of the current segment. */
  function Grown(u: Setup, l: Log, bytes: seq<byte>): Log {
    if l.path.None? || l.path.value !in l.dir || l.history == [] then l
    else
      var file := l.dir[l.path.value];
      var n := |l.history| - 1;
      l.(dir := l.dir[l.path.value := LogFile(file.bytes + bytes, u.device.clock(l.asked.clock), file.born)],
         history := l.history[n := Birth(l.history[n].name, l.history[n].bytes + bytes)],
         segmentBytes := l.segmentBytes + |bytes|, bytesWritten := l.bytesWritten + |bytes|,
         unpruned := l.unpruned + |bytes|, asked := l.asked.(clock := l.asked.clock + 1))
  }

  /** The device is offered as much as the segment holds, takes some of it, or makes no progress. */
  function Took(u: Setup, l: Log, remaining: seq<byte>): (r: (Log, nat))
    ensures r.1 <= |remaining|
  {
    var capacity := if l.segmentBytes < u.segmentLimit then u.segmentLimit - l.segmentBytes else 0;
    var taken := u.device.takes(l.asked.takes);
    var m := l.(asked := l.asked.(takes := l.asked.takes + 1));
    if taken <= 0 || taken > capacity || taken > |remaining| then (m, 0) else (Grown(u, m, remaining[..taken]), taken)
  }

  /** One round of the write loop. */
  ghost function WroteSome(u: Setup, l: Log, remaining: seq<byte>): (r: (Log, nat))
    ensures r.1 <= |remaining|
  {
    if l.segmentBytes < u.segmentLimit then Took(u, l, remaining)
    else
      var (m, ok) := Rotated(u, l);
      if ok then Took(u, m, remaining) else (m, 0)
  }

  /** The write loop: the state after it, whether it raised nothing, and how many bytes it logged. */
  ghost function WroteAll(u: Setup, l: Log, remaining: seq<byte>): (r: (Log, bool, nat))
    ensures r.2 <= |remaining|
    decreases |remaining|
  {
    if remaining == [] then
      (l.(asked := l.asked.(settles := l.asked.settles + 1)), u.device.settles(l.asked.settles), 0)
    else
      var (m, n) := WroteSome(u, l, remaining);
      if n == 0 then (m, false, 0)
      else
        var (r, ok, k) := WroteAll(u, m, remaining[n..]);
        (r, ok, n + k)
  }

  /** `_write_log_raw`. */
  ghost function Wrote(u: Setup, l: Log, data: seq<byte>): (r: (Log, bool, nat))
    ensures r.2 <= |data|
  {
    if l.isOpen then WroteAll(u, l, data) else (l, false, 0)
  }

  function Token(stamp: string, suffix: nat): string {
    if suffix <= 1 then stamp else stamp + "-" + Digits(suffix)
  }

  /** The first free name out of the time stamp and its suffixes up to -99. */
  function Claimed(u: Setup, l: Log, stamp: string, suffix: nat): (Log, bool)
    decreases 100 - suffix
  {
    if suffix >= 100 then (l, false)
    else if SegmentName(Token(stamp, suffix), 1) in l.dir then Claimed(u, l, stamp, suffix + 1)
    else
      var (m, ok) := Created(u, l, SegmentName(Token(stamp, suffix), 1));
      if ok then (m.(token := Token(stamp, suffix)), true) else (m, false)
  }

  /** What `open` and the session start reset. */
  function Cleared(l: Log): Log {
    l.(bytesWritten := 0, index := 1, segmentBytes := 0, sessionStart := |l.history|)
  }

  /** `_start_log_session_locked`. */
  ghost function Started(u: Setup, l: Log, stamp: string): (Log, bool) {
    var (a, claimed) := Claimed(u, Cleared(l), stamp, 1);
    if !claimed then (a, false)
    else
      var (b, synced) := Synced(u, a);
      if !synced then (b.(path := None), false) else (Pruned(u, b.(isOpen := true)), true)
  }

  /** `_close_log_session`: the second component says that nothing was raised. */
  ghost function Closed(u: Setup, l: Log): (Log, bool) {
    if !l.isOpen then (l, true)
    else
      var (m, synced) := Synced(u, l.(isOpen := false));
      (if synced then Pruned(u, m) else m, synced)
  }

  // -------------------------------------------------------------------- invariant

  /** The current session's segments, pruned ones included, and every byte it logged. */
  function Segments(l: Log): seq<seq<byte>> {
    if l.sessionStart <= |l.history| then Written(l.history[l.sessionStart..]) else []
  }

  function Stream(l: Log): seq<byte> {
    Flatten(Segments(l))
  }

  /** The constructor's forcing of the limits. */
  predicate SetupOk(u: Setup) {
    1 <= u.segmentLimit <= u.totalLimit
  }

  /** `bytesWritten` counts the bytes the session logged, and they lie in canonical segments. */
  ghost predicate LayoutOk(u: Setup, l: Log) {
    && l.sessionStart <= |l.history|
    && Canonical(Segments(l), u.segmentLimit)
    && l.bytesWritten == |Stream(l)|
  }

  /** The files are what was written to them; the current one is the youngest; and as long as every prune found them
      sorted they are the youngest ones ever created. */
  ghost predicate FilesOk(u: Setup, l: Log) {
    && FilesMatch(l.dir, l.history) && l.births == |l.history|
    && (l.sorted ==> Tail(l.dir, l.history))
    && (l.path.Some? && l.path.value in l.dir ==>
          l.dir[l.path.value].born == |l.history| - 1 && |l.dir[l.path.value].bytes| <= u.segmentLimit)
  }

  ghost predicate OpenOk(u: Setup, l: Log) {
    l.isOpen ==>
      && l.path.Some? && l.path.value in l.dir
      && l.segmentBytes == |l.dir[l.path.value].bytes|
      && l.sessionStart + l.index == |l.history|
      && l.index >= 1
  }

  ghost predicate BoundOk(u: Setup, l: Log) {
    l.pruned ==> Total(l.dir) <= u.totalLimit + l.unpruned
  }

  ghost predicate Ok(u: Setup, l: Log) {
    LayoutOk(u, l) && FilesOk(u, l) && OpenOk(u, l) && BoundOk(u, l)
  }

  /** There is a file to log to. */
  ghost predicate HasCurrent(l: Log) {
    l.path.Some? && l.path.value in l.dir
  }
}
