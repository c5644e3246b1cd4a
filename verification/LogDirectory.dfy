/** The log directory: names, modification times, sizes, and the order in which files are deleted. */
module LogDirectory {
  import opened Common

  /** `born` numbers the files in the order they were created. */
  datatype LogFile = LogFile(bytes: seq<byte>, mtime: int, born: nat)

  type Directory = map<string, LogFile>

  // ------------------------------------------------------------------- names

  function Digits(n: nat): string {
    if n < 10 then [('0' as int + n) as char] else Digits(n / 10) + [('0' as int + n % 10) as char]
  }

  function Pad4(n: nat): string {
    var d := Digits(n);
    if |d| >= 4 then d else seq(4 - |d|, _ => '0') + d
  }

  function SegmentName(token: string, index: nat): string {
    if index <= 1 then "dut-" + token + ".log" else "dut-" + token + "-part" + Pad4(index) + ".log"
  }

  predicate LexLeq(a: string, b: string) {
    a == [] || (b != [] && (a[0] < b[0] || (a[0] == b[0] && LexLeq(a[1..], b[1..]))))
  }

  lemma {:induction false} LexTotal(a: string, b: string)
    ensures LexLeq(a, b) || LexLeq(b, a)
  {
    if a != [] && b != [] && a[0] == b[0] {
      LexTotal(a[1..], b[1..]);
    }
  }

  lemma {:induction false} LexTransitive(a: string, b: string, c: string)
    requires LexLeq(a, b) && LexLeq(b, c)
    ensures LexLeq(a, c)
  {
    if a != [] && a[0] == b[0] && b[0] == c[0] {
      LexTransitive(a[1..], b[1..], c[1..]);
    }
  }

  lemma {:induction false} LexAntisymmetric(a: string, b: string)
    requires LexLeq(a, b) && LexLeq(b, a)
    ensures a == b
  {
    if a != [] {
      LexAntisymmetric(a[1..], b[1..]);
      assert a == [a[0]] + a[1..] && b == [b[0]] + b[1..];
    }
  }

  lemma {:induction false} LexCommonPrefix(p: string, a: string, b: string)
    ensures LexLeq(p + a, p + b) <==> LexLeq(a, b)
  {
    if p == [] {
      assert p + a == a && p + b == b;
    } else {
      LexCommonPrefix(p[1..], a, b);
      assert (p + a)[1..] == p[1..] + a && (p + b)[1..] == p[1..] + b;
    }
  }

  /** By name alone a later part comes before the first segment of its session. */
  lemma PartSortsBeforeFirstSegment(token: string, index: nat)
    requires index >= 2
    ensures LexLeq(SegmentName(token, index), SegmentName(token, 1))
    ensures !LexLeq(SegmentName(token, 1), SegmentName(token, index))
  {
    var p := "dut-" + token;
    var part := "-part" + Pad4(index) + ".log";
    assert SegmentName(token, index) == p + part;
    LexCommonPrefix(p, part, ".log");
    LexCommonPrefix(p, ".log", part);
    assert part[0] == '-' && ".log"[0] == '.';
  }

  // ----------------------------------------------------------------- listings

  /** The sort key of `_prune_logs_locked`: modification time, then name. */
  predicate NotAfter(d: Directory, a: string, b: string)
    requires a in d && b in d
  {
    d[a].mtime < d[b].mtime || (d[a].mtime == d[b].mtime && LexLeq(a, b))
  }

  ghost predicate IsListing(d: Directory, paths: seq<string>) {
    && (forall i :: 0 <= i < |paths| ==> paths[i] in d)
    && (forall n :: n in d ==> n in paths)
    && (forall i, j :: 0 <= i < j < |paths| ==> paths[i] != paths[j] && NotAfter(d, paths[i], paths[j]))
  }

  lemma {:induction false} OldestExists(d: Directory, names: set<string>)
    requires names != {} && names <= d.Keys
    ensures exists p :: p in names && forall q :: q in names ==> NotAfter(d, p, q)
  {
    var x :| x in names;
    LexTotal(x, x);
    if names == {x} {
      assert NotAfter(d, x, x);
    } else {
      var rest := names - {x};
      OldestExists(d, rest);
      var p :| p in rest && forall q :: q in rest ==> NotAfter(d, p, q);
      LexTotal(p, x);
      if NotAfter(d, p, x) {
        assert forall q :: q in names ==> NotAfter(d, p, q);
      } else {
        forall q | q in names ensures NotAfter(d, x, q) {
          if q != x {
            assert q in rest && NotAfter(d, p, q);
            if d[x].mtime == d[q].mtime {
              LexTransitive(x, p, q);
            }
          }
        }
      }
    }
  }

  /** Glob and sort. */
  method ListLogs(d: Directory) returns (paths: seq<string>)
    ensures IsListing(d, paths)
  {
    paths := [];
    var rest := d.Keys;
    while rest != {}
      invariant rest <= d.Keys
      invariant forall i :: 0 <= i < |paths| ==> paths[i] in d.Keys - rest
      invariant forall n :: n in d.Keys - rest ==> n in paths
      invariant forall i, j :: 0 <= i < j < |paths| ==> paths[i] != paths[j] && NotAfter(d, paths[i], paths[j])
      invariant forall i, n :: 0 <= i < |paths| && n in rest ==> NotAfter(d, paths[i], n)
      decreases rest
    {
      OldestExists(d, rest);
      var p :| p in rest && forall q :: q in rest ==> NotAfter(d, p, q);
      paths := paths + [p];
      rest := rest - {p};
    }
  }

  lemma {:induction false} FirstsAgree(d: Directory, p: seq<string>, q: seq<string>)
    requires IsListing(d, p) && IsListing(d, q) && p != [] && q != []
    ensures p[0] == q[0]
  {
    var i :| 0 <= i < |q| && q[i] == p[0];
    var j :| 0 <= j < |p| && p[j] == q[0];
    if i > 0 && j > 0 {
      assert NotAfter(d, q[0], q[i]) && NotAfter(d, p[0], p[j]);
      LexAntisymmetric(p[0], q[0]);
    }
  }

  lemma RestIsListing(d: Directory, p: seq<string>)
    requires IsListing(d, p) && p != []
    ensures IsListing(d - {p[0]}, p[1..])
  {
    var rest := d - {p[0]};
    forall n | n in rest ensures n in p[1..] {
      var i :| 0 <= i < |p| && p[i] == n;
      assert p[1..][i - 1] == n;
    }
  }

  lemma ListingsEmptyTogether(d: Directory, p: seq<string>, q: seq<string>)
    requires IsListing(d, p) && IsListing(d, q)
    ensures p == [] <==> q == []
  {
    assert p != [] ==> p[0] in q;
    assert q != [] ==> q[0] in p;
  }

  lemma SameHeadAndTail<T>(p: seq<T>, q: seq<T>)
    requires p != [] && q != [] && p[0] == q[0] && p[1..] == q[1..]
    ensures p == q
  {
    assert p == [p[0]] + p[1..] && q == [q[0]] + q[1..];
  }

  /** The sort key is total on names, so there is only one listing. */
  lemma {:induction false} ListingIsUnique(d: Directory, p: seq<string>, q: seq<string>)
    requires IsListing(d, p) && IsListing(d, q)
    ensures p == q
    decreases |p|
  {
    hide IsListing, NotAfter;
    ListingsEmptyTogether(d, p, q);
    if p != [] {
      FirstsAgree(d, p, q);
      RestIsListing(d, p);
      RestIsListing(d, q);
      ListingIsUnique(d - {p[0]}, p[1..], q[1..]);
      SameHeadAndTail(p, q);
    }
  }

  lemma {:induction false} ListingExists(d: Directory)
    ensures exists p :: IsListing(d, p)
    decreases |d|
  {
    if d == map[] {
      var none: seq<string> := [];
      assert IsListing(d, none);
    } else {
      OldestExists(d, d.Keys);
      var x :| x in d && forall q :: q in d ==> NotAfter(d, x, q);
      var rest := d - {x};
      ListingExists(rest);
      var p :| IsListing(rest, p);
      ListingBehind(d, x, p);
    }
  }

  lemma ListingBehind(d: Directory, x: string, p: seq<string>)
    requires x in d && (forall q :: q in d ==> NotAfter(d, x, q)) && IsListing(d - {x}, p)
    ensures IsListing(d, [x] + p)
  {
    var all := [x] + p;
    forall n | n in d ensures n in all {
      if n != x { assert n in p; }
    }
    forall i, j | 0 <= i < j < |all| ensures all[i] != all[j] && NotAfter(d, all[i], all[j]) {
      if i > 0 { assert NotAfter(d - {x}, p[i - 1], p[j - 1]); }
    }
  }

  /** The listing. */
  ghost function Listing(d: Directory): (paths: seq<string>)
    ensures IsListing(d, paths)
  {
    ListingExists(d);
    var paths :| IsListing(d, paths);
    paths
  }

  // -------------------------------------------------------------------- sizes

  ghost function Total(d: Directory): nat {
    if d == map[] then 0
    else
      var n :| n in d;
      |d[n].bytes| + Total(d - {n})
  }

  lemma {:induction false} TotalRemove(d: Directory, n: string)
    requires n in d
    ensures Total(d) == |d[n].bytes| + Total(d - {n})
    decreases |d|
  {
    var m :| m in d && Total(d) == |d[m].bytes| + Total(d - {m});
    if m != n {
      TotalRemove(d - {m}, n);
      TotalRemove(d - {n}, m);
      assert d - {m} - {n} == d - {n} - {m};
    }
  }

  lemma TotalUpdate(d: Directory, n: string, f: LogFile)
    ensures Total(d[n := f]) == |f.bytes| + Total(d) - (if n in d then |d[n].bytes| else 0)
  {
    TotalRemove(d[n := f], n);
    assert d[n := f] - {n} == d - {n};
    if n in d {
      TotalRemove(d, n);
    } else {
      assert d - {n} == d;
    }
  }

  function SumSizes(d: Directory, paths: seq<string>): nat
    requires forall i :: 0 <= i < |paths| ==> paths[i] in d
  {
    if paths == [] then 0 else |d[paths[0]].bytes| + SumSizes(d, paths[1..])
  }

  lemma {:induction false} SumSizesFrame(d: Directory, n: string, paths: seq<string>)
    requires forall i :: 0 <= i < |paths| ==> paths[i] in d && paths[i] != n
    ensures SumSizes(d, paths) == SumSizes(d - {n}, paths)
  {
    if paths != [] {
      SumSizesFrame(d, n, paths[1..]);
    }
  }

  lemma {:induction false} SumSizesIsTotal(d: Directory, paths: seq<string>)
    requires forall i :: 0 <= i < |paths| ==> paths[i] in d
    requires forall n :: n in d ==> n in paths
    requires forall i, j :: 0 <= i < j < |paths| ==> paths[i] != paths[j]
    ensures SumSizes(d, paths) == Total(d)
    decreases |paths|
  {
    if paths == [] {
      assert d == map[] by { assert forall n :: n in d ==> n in paths; }
    } else {
      var n := paths[0];
      TotalRemove(d, n);
      assert forall m :: m in d - {n} ==> m in paths[1..];
      SumSizesFrame(d, n, paths[1..]);
      SumSizesIsTotal(d - {n}, paths[1..]);
    }
  }

  // ----------------------------------------------------------- birth and retention

  /** Every file ever created, by birth: its name and what was written to it. */
  datatype Birth = Birth(name: string, bytes: seq<byte>)

  function Written(history: seq<Birth>): (r: seq<seq<byte>>)
    ensures |r| == |history| && forall b :: 0 <= b < |r| ==> r[b] == history[b].bytes
  {
    seq(|history|, b requires 0 <= b < |history| => history[b].bytes)
  }

  /** The files on disk are what was written to them since their birth. */
  ghost predicate FilesMatch(d: Directory, history: seq<Birth>) {
    forall n :: n in d ==> d[n].born < |history| && history[d[n].born] == Birth(n, d[n].bytes)
  }

  ghost predicate MtimesFollowBirth(d: Directory) {
    forall m, n :: m in d && n in d && d[m].born < d[n].born ==> d[m].mtime < d[n].mtime
  }

  /** The sort key puts these files in the order of their birth. */
  ghost predicate SortsByBirth(d: Directory, names: set<string>) {
    forall m, n :: m in d && n in d && m in names && n in names && d[m].born < d[n].born ==> NotAfter(d, m, n)
  }

  /** Strictly increasing modification times are more than enough. */
  lemma StrictTimesSortByBirth(d: Directory, names: set<string>)
    requires MtimesFollowBirth(d)
    ensures SortsByBirth(d, names)
  {
  }

  /** Exactly the files born from `k` on are left. */
  ghost predicate RetainedFrom(d: Directory, history: seq<Birth>, k: nat) {
    && k <= |history|
    && (forall n :: n in d ==> k <= d[n].born)
    && (forall b :: k <= b < |history| ==> history[b].name in d && d[history[b].name].born == b)
  }

  ghost predicate Tail(d: Directory, history: seq<Birth>) {
    exists k :: RetainedFrom(d, history, k)
  }

  /** A new youngest file keeps the tail. */
  lemma BirthKeepsDisk(d: Directory, history: seq<Birth>, path: string, file: LogFile)
    requires FilesMatch(d, history) && path !in d && file.born == |history| && file.bytes == []
    ensures FilesMatch(d[path := file], history + [Birth(path, [])])
    ensures Tail(d, history) ==> Tail(d[path := file], history + [Birth(path, [])])
  {
    if Tail(d, history) {
      var k: nat :| RetainedFrom(d, history, k);
      assert RetainedFrom(d[path := file], history + [Birth(path, [])], k);
    }
  }

  /** Writing to the youngest file keeps the tail. */
  lemma WriteKeepsDisk(d: Directory, history: seq<Birth>, path: string, piece: seq<byte>, now: int)
    requires FilesMatch(d, history) && path in d && d[path].born == |history| - 1
    ensures var n := |history| - 1;
            var file := LogFile(d[path].bytes + piece, now, n);
            var longer := history[n := Birth(path, history[n].bytes + piece)];
            && FilesMatch(d[path := file], longer)
            && (Tail(d, history) ==> Tail(d[path := file], longer))
  {
    var n := |history| - 1;
    var file := LogFile(d[path].bytes + piece, now, n);
    var longer := history[n := Birth(path, history[n].bytes + piece)];
    if Tail(d, history) {
      var k: nat :| RetainedFrom(d, history, k);
      assert RetainedFrom(d[path := file], longer, k);
    }
  }

  lemma BirthsIncrease(d: Directory, history: seq<Birth>, paths: seq<string>, i: nat, j: nat)
    requires FilesMatch(d, history) && SortsByBirth(d, d.Keys) && IsListing(d, paths) && i < j < |paths|
    ensures d[paths[i]].born < d[paths[j]].born
  {
    assert NotAfter(d, paths[i], paths[j]);
    if d[paths[j]].born < d[paths[i]].born {
      LexAntisymmetric(paths[i], paths[j]);
    }
  }

  /** Then the listing is the birth order without a gap. */
  lemma {:induction false} ListingIsBirthOrder(d: Directory, history: seq<Birth>, paths: seq<string>, k: nat, i: nat)
    requires FilesMatch(d, history) && SortsByBirth(d, d.Keys) && IsListing(d, paths)
    requires RetainedFrom(d, history, k) && i < |paths|
    ensures d[paths[i]].born == k + i
  {
    if i > 0 {
      ListingIsBirthOrder(d, history, paths, k, i - 1);
      BirthsIncrease(d, history, paths, i - 1, i);
    }
    assert k <= d[paths[i]].born < |history|;
    var n := history[k + i].name;
    assert n in d && d[n].born == k + i;
    var j :| 0 <= j < |paths| && paths[j] == n;
    if j < i {
      ListingIsBirthOrder(d, history, paths, k, j);
    } else if j > i {
      BirthsIncrease(d, history, paths, i, j);
    }
  }

  lemma ListingLength(d: Directory, history: seq<Birth>, paths: seq<string>, k: nat)
    requires FilesMatch(d, history) && SortsByBirth(d, d.Keys) && IsListing(d, paths)
    requires RetainedFrom(d, history, k)
    ensures |paths| == |history| - k
    ensures forall i :: 0 <= i < |paths| ==> d[paths[i]].born == k + i
  {
    forall i | 0 <= i < |paths| ensures d[paths[i]].born == k + i {
      ListingIsBirthOrder(d, history, paths, k, i);
    }
    if |paths| > 0 {
      assert d[paths[|paths| - 1]].born < |history|;
    }
    if k < |history| {
      var n := history[|history| - 1].name;
      assert n in d && d[n].born == |history| - 1;
      var j :| 0 <= j < |paths| && paths[j] == n;
    }
  }

  function Contents(d: Directory, paths: seq<string>): (r: seq<seq<byte>>)
    requires forall i :: 0 <= i < |paths| ==> paths[i] in d
  {
    seq(|paths|, i requires 0 <= i < |paths| => d[paths[i]].bytes)
  }

  lemma ContentsAreWritten(d: Directory, history: seq<Birth>, paths: seq<string>, k: nat)
    requires FilesMatch(d, history) && SortsByBirth(d, d.Keys) && IsListing(d, paths) && RetainedFrom(d, history, k)
    ensures Contents(d, paths) == Written(history)[k..]
  {
    ListingLength(d, history, paths, k);
    var tail := Written(history)[k..];
    forall i | 0 <= i < |paths| ensures Contents(d, paths)[i] == tail[i] {
      assert d[paths[i]].bytes == history[k + i].bytes;
    }
  }

  lemma FlattenSplit<T>(parts: seq<seq<T>>, k: nat)
    requires k <= |parts|
    ensures Flatten(parts) == Flatten(parts[..k]) + Flatten(parts[k..])
  {
    FlattenConcat(parts[..k], parts[k..]);
    assert parts[..k] + parts[k..] == parts;
  }

  /** The retained tail: the files left, joined in listing order, are a suffix of every byte ever logged. */
  lemma RetainedTailIsSuffix(d: Directory, history: seq<Birth>, paths: seq<string>) returns (k: nat)
    requires FilesMatch(d, history) && SortsByBirth(d, d.Keys) && IsListing(d, paths) && Tail(d, history)
    ensures k <= |history|
    ensures Contents(d, paths) == Written(history)[k..]
    ensures Flatten(Written(history)) == Flatten(Written(history)[..k]) + Flatten(Contents(d, paths))
  {
    k :| RetainedFrom(d, history, k);
    ContentsAreWritten(d, history, paths, k);
    FlattenSplit(Written(history), k);
  }

  // ------------------------------------------------------------------ deletion

  /** The directory without the first `k` files of a listing, the current one spared. */
  function Without(d: Directory, paths: seq<string>, k: nat, current: string): Directory
    requires k <= |paths|
  {
    map n | n in d && (n == current || n !in paths[..k]) :: d[n]
  }

  /** Nothing was deleted once the total fitted: before each deletion it was still too large. */
  ghost predicate NoDeletionTooMany(d: Directory, paths: seq<string>, k: nat, current: string, limit: nat)
    requires k <= |paths|
  {
    forall i :: 0 <= i < k && paths[i] != current ==> Total(Without(d, paths, i, current)) > limit
  }

  lemma WithoutNone(d: Directory, paths: seq<string>, current: string)
    ensures Without(d, paths, 0, current) == d
  {
  }

  lemma WithoutStep(d: Directory, paths: seq<string>, k: nat, current: string)
    requires IsListing(d, paths) && k < |paths|
    ensures paths[k] in Without(d, paths, k, current)
    ensures Without(d, paths, k + 1, current)
            == if paths[k] == current then Without(d, paths, k, current) else Without(d, paths, k, current) - {paths[k]}
  {
    assert paths[..k + 1] == paths[..k] + [paths[k]];
  }

  /** Once the whole listing was examined only the current file is left. */
  lemma OnlyCurrentLeft(d: Directory, paths: seq<string>, current: string)
    requires IsListing(d, paths) && current in d
    ensures Total(Without(d, paths, |paths|, current)) == |d[current].bytes|
  {
    var left := Without(d, paths, |paths|, current);
    assert paths[..|paths|] == paths;
    TotalRemove(left, current);
    assert left - {current} == map[];
  }

  /** The first closed file not examined yet is the oldest one left. */
  lemma NextIsOldest(d: Directory, history: seq<Birth>, paths: seq<string>, j: nat, current: string, k: nat)
    requires FilesMatch(d, history) && SortsByBirth(d, d.Keys - {current}) && IsListing(d, paths)
    requires j < |paths| && paths[j] != current && current in d && d[current].born == |history| - 1
    requires RetainedFrom(Without(d, paths, j, current), history, k)
    ensures d[paths[j]].born == k
  {
    hide Total, LexLeq;
    WithoutStep(d, paths, j, current);
    var p := paths[j];
    var q := history[k].name;
    if q != p {
      assert q in d && q != current && q !in paths[..j];
      assert d[q].born == k < d[p].born;
      hide FilesMatch, Without, RetainedFrom;
      var i :| 0 <= i < |paths| && paths[i] == q;
      assert i >= j;
      assert NotAfter(d, p, q) && NotAfter(d, q, p);
      LexAntisymmetric(p, q);
    }
  }

  /** What is left can lose its first closed file of the listing and stay a tail. */
  lemma OldestGoesFirst(d: Directory, history: seq<Birth>, paths: seq<string>, j: nat, current: string)
    requires FilesMatch(d, history) && SortsByBirth(d, d.Keys - {current}) && IsListing(d, paths)
    requires j < |paths| && current in d && d[current].born == |history| - 1
    requires Tail(Without(d, paths, j, current), history)
    ensures Tail(Without(d, paths, j + 1, current), history)
  {
    hide Total, LexLeq, SortsByBirth;
    WithoutStep(d, paths, j, current);
    if paths[j] != current {
      var left := Without(d, paths, j, current);
      var k: nat :| RetainedFrom(left, history, k);
      NextIsOldest(d, history, paths, j, current, k);
      assert RetainedFrom(left - {paths[j]}, history, k + 1);
    }
  }

  /** Where the sort key puts a younger closed file before an older one, some deletion leaves a gap. */
  lemma YoungerGoesFirst(d: Directory, history: seq<Birth>, paths: seq<string>, current: string, m: string, n: string)
    returns (j: nat)
    requires FilesMatch(d, history) && IsListing(d, paths)
    requires m in d && n in d && m != current && n != current && d[m].born < d[n].born && !NotAfter(d, m, n)
    ensures j <= |paths| && !Tail(Without(d, paths, j, current), history)
  {
    var i :| 0 <= i < |paths| && paths[i] == n;
    j := i + 1;
    var left := Without(d, paths, j, current);
    assert forall a :: 0 <= a < i ==> NotAfter(d, paths[a], paths[i]);
    assert forall a :: 0 <= a < j ==> paths[a] != m;
    assert m in left && history[d[n].born].name == n;
    assert n !in left by { assert paths[..j][i] == n; }
  }

  lemma {:induction false} DeletionKeepsTail(d: Directory, history: seq<Birth>, paths: seq<string>, j: nat, current: string)
    requires FilesMatch(d, history) && SortsByBirth(d, d.Keys - {current}) && IsListing(d, paths) && Tail(d, history)
    requires j <= |paths| && current in d && d[current].born == |history| - 1
    ensures Tail(Without(d, paths, j, current), history)
  {
    hide Without, IsListing, FilesMatch, SortsByBirth, Total;
    if j == 0 {
      WithoutNone(d, paths, current);
    } else {
      DeletionKeepsTail(d, history, paths, j - 1, current);
      OldestGoesFirst(d, history, paths, j - 1, current);
    }
  }

  /** Deleting along the listing keeps a tail wherever it stops, exactly when the sort key puts the closed files in the
      order of their birth. */
  lemma DeletionKeepsTailIff(d: Directory, history: seq<Birth>, paths: seq<string>, current: string)
    requires FilesMatch(d, history) && IsListing(d, paths) && Tail(d, history)
    requires current in d && d[current].born == |history| - 1
    ensures (forall j :: 0 <= j <= |paths| ==> Tail(Without(d, paths, j, current), history))
            <==> SortsByBirth(d, d.Keys - {current})
  {
    if SortsByBirth(d, d.Keys - {current}) {
      forall j | 0 <= j <= |paths| ensures Tail(Without(d, paths, j, current), history) {
        DeletionKeepsTail(d, history, paths, j, current);
      }
    } else {
      var m, n :| m in d && n in d && m != current && n != current && d[m].born < d[n].born && !NotAfter(d, m, n);
      var j := YoungerGoesFirst(d, history, paths, current, m, n);
    }
  }

  lemma DeletionKeepsMatch(d: Directory, history: seq<Birth>, paths: seq<string>, j: nat, current: string)
    requires FilesMatch(d, history) && j <= |paths| && current in d
    ensures var left := Without(d, paths, j, current);
            FilesMatch(left, history) && current in left && left[current] == d[current]
  {
  }

  lemma SegmentNamesDiffer(token: string)
    ensures SegmentName(token, 1) != SegmentName(token, 2) && SegmentName(token, 2) != SegmentName(token, 3)
    ensures SegmentName(token, 1) != SegmentName(token, 3)
  {
    PartSortsBeforeFirstSegment(token, 2);
    PartSortsBeforeFirstSegment(token, 3);
    LexTotal(SegmentName(token, 1), SegmentName(token, 1));
    var p := "dut-" + token;
    assert SegmentName(token, 2)[|p| + 8] == '2' && SegmentName(token, 3)[|p| + 8] == '3' by {
      assert Pad4(2) == "0002" && Pad4(3) == "0003";
      assert SegmentName(token, 2) == p + "-part0002.log";
      assert SegmentName(token, 3) == p + "-part0003.log";
    }
  }

  lemma EqualTimesDeleteTheYounger(first: string, second: string, third: string)
    requires first != second && second != third && first != third && LexLeq(second, first)
    ensures var d := map[first := LogFile([1], 5, 0), second := LogFile([2], 5, 1), third := LogFile([], 6, 2)];
            var history := [Birth(first, [1]), Birth(second, [2]), Birth(third, [])];
            && FilesMatch(d, history) && Tail(d, history)
            && IsListing(d, [second, first, third])
            && !Tail(Without(d, [second, first, third], 1, third), history)
  {
    hide LexLeq, Total;
    var d := map[first := LogFile([1], 5, 0), second := LogFile([2], 5, 1), third := LogFile([], 6, 2)];
    var history := [Birth(first, [1]), Birth(second, [2]), Birth(third, [])];
    assert RetainedFrom(d, history, 0);
    var paths := [second, first, third];
    var left := Without(d, paths, 1, third);
    assert left == d - {second} by { assert paths[..1] == [second]; }
    assert first in left && left[first].born == 0 && history[1].name !in left;
  }

  /** Two files of one session with equal times: the younger one goes first, and what is left is no suffix. */
  lemma EqualTimesBreakTheTail(token: string)
    ensures var first, second, third := SegmentName(token, 1), SegmentName(token, 2), SegmentName(token, 3);
            var d := map[first := LogFile([1], 5, 0), second := LogFile([2], 5, 1), third := LogFile([], 6, 2)];
            var history := [Birth(first, [1]), Birth(second, [2]), Birth(third, [])];
            && FilesMatch(d, history) && Tail(d, history)
            && IsListing(d, [second, first, third])
            && !Tail(Without(d, [second, first, third], 1, third), history)
  {
    SegmentNamesDiffer(token);
    PartSortsBeforeFirstSegment(token, 2);
    EqualTimesDeleteTheYounger(SegmentName(token, 1), SegmentName(token, 2), SegmentName(token, 3));
  }
}
