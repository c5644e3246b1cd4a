/** How a session's bytes lie in its segments, and why the layout depends on the bytes alone. */
module LogLayout {
  import opened Common
  import opened LogDirectory

  // ------------------------------------------------------------------- layout

  /** Every segment but the last is exactly full, and none is longer than the limit. */
  ghost predicate Canonical(segments: seq<seq<byte>>, limit: nat) {
    && (forall i :: 0 <= i < |segments| ==> |segments[i]| <= limit)
    && (forall i :: 0 <= i < |segments| - 1 ==> |segments[i]| == limit)
  }

  /** A segment was opened only because there was a byte to put into it. */
  ghost predicate NoIdleSegment(segments: seq<seq<byte>>) {
    |segments| > 1 ==> segments[|segments| - 1] != []
  }

  function Min(a: int, b: int): int {
    if a <= b then a else b
  }

  lemma {:induction false} CanonicalLength(segments: seq<seq<byte>>, limit: nat)
    requires Canonical(segments, limit) && segments != []
    ensures |Flatten(segments)| == (|segments| - 1) * limit + |segments[|segments| - 1]|
  {
    var init := segments[..|segments| - 1];
    if init != [] {
      assert Canonical(init, limit);
      CanonicalLength(init, limit);
      assert |init[|init| - 1]| == limit;
      assert (|init| - 1) * limit + limit == |init| * limit;
    }
  }

  /** Segment `i` holds exactly bytes `i * limit` to `(i + 1) * limit` of the session's stream. */
  lemma {:induction false} SegmentIsSlice(segments: seq<seq<byte>>, limit: nat, i: nat)
    requires Canonical(segments, limit) && i < |segments|
    ensures 0 <= i * limit <= |Flatten(segments)|
    ensures segments[i] == Flatten(segments)[i * limit..Min((i + 1) * limit, |Flatten(segments)|)]
    decreases |segments|
  {
    var n := |segments| - 1;
    var init := segments[..n];
    var stream := Flatten(segments);
    CanonicalLength(segments, limit);
    assert (i + 1) * limit == i * limit + limit;
    if i == n {
      if init != [] {
        assert Canonical(init, limit);
        CanonicalLength(init, limit);
        assert (|init| - 1) * limit + limit == |init| * limit;
      }
      assert |Flatten(init)| == n * limit;
      assert stream == Flatten(init) + segments[n];
    } else {
      assert Canonical(init, limit);
      SegmentIsSlice(init, limit, i);
      CanonicalLength(init, limit);
      assert |init[|init| - 1]| == limit;
      assert (|init| - 1) * limit + limit == |init| * limit;
      assert (i + 1) * limit <= n * limit by { MulMonotone(i + 1, n, limit); }
      assert stream[..n * limit] == Flatten(init);
    }
  }

  lemma MulMonotone(a: nat, b: nat, c: nat)
    requires a <= b
    ensures a * c <= b * c
  {
  }

  lemma FlattenOne<T>(part: seq<T>)
    ensures Flatten([part]) == part
  {
    var one := [part];
    assert one[..0] == [];
  }

  lemma HasLaterBytes(segments: seq<seq<byte>>)
    requires |segments| > 1 && NoIdleSegment(segments)
    ensures Flatten(segments) == segments[0] + Flatten(segments[1..])
    ensures Flatten(segments[1..]) != []
  {
    assert segments == [segments[0]] + segments[1..];
    FlattenConcat([segments[0]], segments[1..]);
    FlattenOne(segments[0]);
    assert Flatten(segments[1..])
        == Flatten(segments[1..][..|segments| - 2]) + segments[|segments| - 1];
  }

  /** The layout depends on the bytes alone: not on how reads cut them up, nor on short writes. */
  lemma {:induction false} LayoutIsDetermined(a: seq<seq<byte>>, b: seq<seq<byte>>, limit: nat)
    requires Canonical(a, limit) && Canonical(b, limit) && NoIdleSegment(a) && NoIdleSegment(b)
    requires a != [] && b != [] && Flatten(a) == Flatten(b)
    ensures a == b
    decreases |a|
  {
    if |a| == 1 {
      FlattenOne(a[0]);
      assert a == [a[0]];
    }
    if |b| == 1 {
      FlattenOne(b[0]);
      assert b == [b[0]];
    }
    if |a| > 1 { HasLaterBytes(a); }
    if |b| > 1 { HasLaterBytes(b); }
    if |a| > 1 && |b| > 1 {
      assert a[0] == Flatten(a)[..limit] == b[0];
      assert Flatten(a[1..]) == Flatten(a)[limit..] == Flatten(b[1..]);
      LayoutIsDetermined(a[1..], b[1..], limit);
      assert a == [a[0]] + a[1..] && b == [b[0]] + b[1..];
    }
  }

  /** Appending to the last segment appends to the stream. */
  lemma ExtendLast(segments: seq<seq<byte>>, piece: seq<byte>)
    requires segments != []
    ensures var n := |segments| - 1;
            Flatten(segments[n := segments[n] + piece]) == Flatten(segments) + piece
  {
    var n := |segments| - 1;
    var longer := segments[n := segments[n] + piece];
    assert longer[..n] == segments[..n];
  }

  lemma FreshSegment(before: seq<Birth>, b: Birth)
    requires b.bytes == []
    ensures Written((before + [b])[|before|..]) == [[]] && Flatten(Written((before + [b])[|before|..])) == []
  {
    assert Written((before + [b])[|before|..]) == [[]];
    FlattenOne<byte>([]);
  }

  lemma LongerLastSegment(history: seq<Birth>, longer: seq<Birth>, start: nat, piece: seq<byte>)
    requires start < |history| == |longer|
    requires longer == history[|history| - 1 := longer[|history| - 1]]
    requires longer[|history| - 1].bytes == history[|history| - 1].bytes + piece
    ensures var was, now := Written(history[start..]), Written(longer[start..]);
            && now == was[|was| - 1 := was[|was| - 1] + piece]
            && Flatten(now) == Flatten(was) + piece
  {
    var was := Written(history[start..]);
    assert Written(longer[start..]) == was[|was| - 1 := was[|was| - 1] + piece];
    ExtendLast(was, piece);
  }

  lemma EmptyStream()
    ensures Written([]) == [] && Flatten(Written([])) == []
  {
  }
}
