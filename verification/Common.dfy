/** Small shared vocabulary: optional values and the "last N" view that every bounded buffer keeps. */
module Common {
  datatype Option<+T> = None | Some(value: T)

  type byte = x: int | 0 <= x < 256

  /** What `s[-n:]` leaves, and what a full `deque(maxlen=n)` holds after `s` was appended to it. */
  function LastN<T>(s: seq<T>, n: nat): (r: seq<T>)
    ensures |r| == if |s| <= n then |s| else n
    ensures forall i :: 0 <= i < |r| ==> r[i] == s[|s| - |r| + i]
  {
    if |s| <= n then s else s[|s| - n..]
  }

  /** Trimming early loses nothing that trimming late would keep. */
  lemma LastNAbsorbs<T>(a: seq<T>, b: seq<T>, n: nat)
    ensures LastN(LastN(a, n) + b, n) == LastN(a + b, n)
  {
    if |a| > n {
      assert LastN(a, n) + b == (a + b)[|a| - n..];
    }
  }

  function Flatten<T>(parts: seq<seq<T>>): (r: seq<T>) {
    if parts == [] then [] else Flatten(parts[..|parts| - 1]) + parts[|parts| - 1]
  }

  lemma {:induction false} FlattenConcat<T>(a: seq<seq<T>>, b: seq<seq<T>>)
    ensures Flatten(a + b) == Flatten(a) + Flatten(b)
  {
    if b == [] {
      assert a + b == a;
    } else {
      var n := |b| - 1;
      assert (a + b)[..|a + b| - 1] == a + b[..n];
      FlattenConcat(a, b[..n]);
    }
  }

  /** `sub` is `whole` with some elements erased and the order kept. */
  ghost predicate Subsequence<T>(sub: seq<T>, whole: seq<T>) {
    || sub == []
    || (whole != []
        && var n := |whole| - 1;
           || Subsequence(sub, whole[..n])
           || (sub[|sub| - 1] == whole[n] && Subsequence(sub[..|sub| - 1], whole[..n])))
  }

  lemma {:induction false} SubsequenceAppend<T>(sub: seq<T>, whole: seq<T>, x: T)
    requires Subsequence(sub, whole)
    ensures Subsequence(sub + [x], whole + [x]) && Subsequence(sub, whole + [x])
  {
    assert (whole + [x])[..|whole|] == whole;
    assert (sub + [x])[..|sub|] == sub;
  }

  /** Erasing a stretch of a subsequence leaves a subsequence. */
  lemma {:induction false} SubsequenceErase<T>(a: seq<T>, gone: seq<T>, b: seq<T>, whole: seq<T>)
    requires Subsequence(a + gone + b, whole)
    ensures Subsequence(a + b, whole)
    decreases |whole|
  {
    var sub := a + gone + b;
    if a + b != [] && sub != [] {
      var n := |whole| - 1;
      if Subsequence(sub, whole[..n]) {
        SubsequenceErase(a, gone, b, whole[..n]);
      } else if b != [] {
        assert sub[..|sub| - 1] == a + gone + b[..|b| - 1];
        SubsequenceErase(a, gone, b[..|b| - 1], whole[..n]);
        assert (a + b)[..|a + b| - 1] == a + b[..|b| - 1];
      } else if gone != [] {
        assert sub[..|sub| - 1] == a + gone[..|gone| - 1] + b;
        SubsequenceErase(a, gone[..|gone| - 1], b, whole[..n]);
      } else {
        assert sub == a + b;
      }
    }
  }
}
