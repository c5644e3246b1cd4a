/** Console lines out of a chunked byte stream, with a cap on what is kept of an unterminated line. */
module LineAssembly {
  import opened Common

  const NEWLINE: byte := 10
  const CARRIAGE_RETURN: byte := 13
  const MAX_CONSOLE_LINE_BYTES: nat := 65536

  /** The bytes that are decoded for the console, and whether the truncation notice follows them. */
  datatype ConsoleLine = ConsoleLine(raw: seq<byte>, truncated: bool)

  /** `split` on newline and `pop`: the terminated parts, and the rest behind the last newline. */
  datatype Parts = Parts(done: seq<seq<byte>>, rest: seq<byte>)

  function Grow(p: Parts, x: byte): Parts {
    if x == NEWLINE then Parts(p.done + [p.rest], []) else Parts(p.done, p.rest + [x])
  }

  function Split(s: seq<byte>): Parts {
    if s == [] then Parts([], []) else Grow(Split(s[..|s| - 1]), s[|s| - 1])
  }

  function StripCR(s: seq<byte>): (r: seq<byte>)
    ensures r <= s
  {
    if s != [] && s[|s| - 1] == CARRIAGE_RETURN then StripCR(s[..|s| - 1]) else s
  }

  /** Exactly the trailing carriage returns are gone. */
  ghost predicate Stripped(s: seq<byte>, r: seq<byte>) {
    && r <= s
    && (r != [] ==> r[|r| - 1] != CARRIAGE_RETURN)
    && forall i :: |r| <= i < |s| ==> s[i] == CARRIAGE_RETURN
  }

  lemma {:induction false} StripIsStripped(s: seq<byte>)
    ensures Stripped(s, StripCR(s))
  {
    if s != [] && s[|s| - 1] == CARRIAGE_RETURN {
      StripIsStripped(s[..|s| - 1]);
    }
  }

  lemma StrippedIsUnique(s: seq<byte>, a: seq<byte>, b: seq<byte>)
    requires Stripped(s, a) && Stripped(s, b)
    ensures a == b
  {
  }

  function ConsoleText(raw: seq<byte>, truncated: bool): ConsoleLine {
    if |raw| > MAX_CONSOLE_LINE_BYTES then ConsoleLine(raw[..MAX_CONSOLE_LINE_BYTES], true) else ConsoleLine(raw, truncated)
  }

  /** One line per terminated part. */
  function Lines(parts: seq<seq<byte>>): (lines: seq<ConsoleLine>)
    ensures |lines| == |parts|
  {
    seq(|parts|, i requires 0 <= i < |parts| => ConsoleText(StripCR(parts[i]), false))
  }

  /** The capped pieces cut off an unterminated part, and what is kept of it. */
  function Fragments(part: seq<byte>): (r: (seq<ConsoleLine>, seq<byte>))
    ensures |r.1| <= MAX_CONSOLE_LINE_BYTES
  {
    if |part| <= MAX_CONSOLE_LINE_BYTES then ([], part)
    else
      var (more, kept) := Fragments(part[MAX_CONSOLE_LINE_BYTES..]);
      ([ConsoleText(part[..MAX_CONSOLE_LINE_BYTES], true)] + more, kept)
  }

  /** What one chunk adds: `_dispatch_lines`. */
  function Dispatch(pending: seq<byte>, data: seq<byte>): (seq<ConsoleLine>, seq<byte>) {
    var p := Split(pending + data);
    var (fragments, kept) := Fragments(p.rest);
    (Lines(p.done) + fragments, kept)
  }

  /** All chunks of a session. */
  function Assemble(chunks: seq<seq<byte>>): (seq<ConsoleLine>, seq<byte>) {
    if chunks == [] then ([], [])
    else
      var (lines, pending) := Assemble(chunks[..|chunks| - 1]);
      var (more, kept) := Dispatch(pending, chunks[|chunks| - 1]);
      (lines + more, kept)
  }

  /** `_flush_pending_line`. */
  function Flush(pending: seq<byte>): seq<ConsoleLine> {
    if pending == [] then [] else [ConsoleLine(StripCR(pending), false)]
  }

  function Session(chunks: seq<seq<byte>>): seq<ConsoleLine> {
    Assemble(chunks).0 + Flush(Assemble(chunks).1)
  }

  // ------------------------------------------------------------ sequence algebra

  lemma EmptyLeft<T>(s: seq<T>)
    ensures [] + s == s && s + [] == s
  {
  }

  lemma Associate<T>(a: seq<T>, b: seq<T>, c: seq<T>)
    ensures a + b + c == a + (b + c)
  {
  }

  lemma Snoc<T>(s: seq<T>, x: T)
    ensures (s + [x])[..|s + [x]| - 1] == s && (s + [x])[|s + [x]| - 1] == x
  {
  }

  lemma Unsnoc<T>(s: seq<T>)
    requires s != []
    ensures s == s[..|s| - 1] + [s[|s| - 1]]
  {
  }

  // ----------------------------------------------------------------- splitting

  /** Terminated parts, each with its newline. */
  function Terminate(done: seq<seq<byte>>): seq<byte> {
    if done == [] then [] else Terminate(done[..|done| - 1]) + done[|done| - 1] + [NEWLINE]
  }

  ghost predicate Plain(s: seq<byte>) {
    NEWLINE !in s
  }

  lemma SplitSnoc(s: seq<byte>, x: byte)
    ensures Split(s + [x]) == Grow(Split(s), x)
  {
    Snoc(s, x);
  }

  /** Nothing is lost by splitting, and no part holds a newline. */
  lemma {:induction false} JoinSplit(s: seq<byte>)
    ensures Terminate(Split(s).done) + Split(s).rest == s
    ensures Plain(Split(s).rest) && forall i :: 0 <= i < |Split(s).done| ==> Plain(Split(s).done[i])
  {
    if s != [] {
      var before, x := s[..|s| - 1], s[|s| - 1];
      Unsnoc(s);
      JoinSplit(before);
      var p := Split(before);
      if x == NEWLINE {
        Snoc(p.done, p.rest);
        EmptyLeft(Terminate(p.done + [p.rest]));
      } else {
        Associate(Terminate(p.done), p.rest, [x]);
      }
    }
  }

  lemma {:induction false} SplitPlain(s: seq<byte>)
    requires Plain(s)
    ensures Split(s) == Parts([], s)
  {
    if s != [] {
      SplitPlain(s[..|s| - 1]);
      Unsnoc(s);
    }
  }

  /** Splitting a longer stream only continues the rest. */
  lemma {:induction false} SplitConcat(a: seq<byte>, b: seq<byte>)
    ensures Split(a + b) == Parts(Split(a).done + Split(Split(a).rest + b).done, Split(Split(a).rest + b).rest)
  {
    var p := Split(a);
    if b == [] {
      JoinSplit(a);
      SplitPlain(p.rest);
      EmptyLeft(a);
      EmptyLeft(p.rest);
      EmptyLeft(p.done);
    } else {
      var c, x := b[..|b| - 1], b[|b| - 1];
      Unsnoc(b);
      SplitConcat(a, c);
      Associate(a, c, [x]);
      Associate(p.rest, c, [x]);
      SplitSnoc(a + c, x);
      SplitSnoc(p.rest + c, x);
      var q := Split(p.rest + c);
      Associate(p.done, q.done, [q.rest]);
    }
  }

  lemma LinesConcat(a: seq<seq<byte>>, b: seq<seq<byte>>)
    ensures Lines(a + b) == Lines(a) + Lines(b)
  {
  }

  lemma {:induction false} FragmentsContinue(a: seq<byte>, b: seq<byte>)
    ensures var (first, kept) := Fragments(a);
            var (more, rest) := Fragments(kept + b);
            Fragments(a + b) == (first + more, rest)
    decreases |a|
  {
    if |a| > MAX_CONSOLE_LINE_BYTES {
      FragmentsContinue(a[MAX_CONSOLE_LINE_BYTES..], b);
      assert (a + b)[MAX_CONSOLE_LINE_BYTES..] == a[MAX_CONSOLE_LINE_BYTES..] + b;
      assert (a + b)[..MAX_CONSOLE_LINE_BYTES] == a[..MAX_CONSOLE_LINE_BYTES];
      var head := [ConsoleText(a[..MAX_CONSOLE_LINE_BYTES], true)];
      var (f, kept) := Fragments(a[MAX_CONSOLE_LINE_BYTES..]);
      Associate(head, f, Fragments(kept + b).0);
    } else {
      EmptyLeft(Fragments(a + b).0);
    }
  }

  lemma {:induction false} FragmentsKeepSuffix(part: seq<byte>)
    ensures var (fragments, kept) := Fragments(part);
            && |kept| <= |part| && kept == part[|part| - |kept|..]
            && (|part| > MAX_CONSOLE_LINE_BYTES ==> fragments != [])
  {
    if |part| > MAX_CONSOLE_LINE_BYTES {
      FragmentsKeepSuffix(part[MAX_CONSOLE_LINE_BYTES..]);
    }
  }

  // ------------------------------------------------- when chunking does not matter

  ghost predicate AllFit(parts: seq<seq<byte>>) {
    forall i :: 0 <= i < |parts| ==> |parts[i]| <= MAX_CONSOLE_LINE_BYTES
  }

  /** Every terminated part fits the cap; the unterminated rest may be longer. */
  ghost predicate TerminatedPartsFit(stream: seq<byte>) {
    AllFit(Split(stream).done)
  }

  /** The lines of a stream that arrives in one piece. */
  function Whole(stream: seq<byte>): (seq<ConsoleLine>, seq<byte>) {
    Dispatch([], stream)
  }

  lemma FitIsInherited(a: seq<seq<byte>>, b: seq<seq<byte>>)
    requires AllFit(a + b)
    ensures AllFit(a) && AllFit(b)
  {
    forall i | 0 <= i < |a| ensures |a[i]| <= MAX_CONSOLE_LINE_BYTES { assert a[i] == (a + b)[i]; }
    forall i | 0 <= i < |b| ensures |b[i]| <= MAX_CONSOLE_LINE_BYTES { assert b[i] == (a + b)[|a| + i]; }
  }

  lemma {:induction false} FirstPartGrows(last: seq<byte>, data: seq<byte>)
    requires Plain(last)
    ensures var p := Split(last + data); |if p.done == [] then p.rest else p.done[0]| >= |last|
  {
    if data == [] {
      EmptyLeft(last);
      SplitPlain(last);
    } else {
      var c, x := data[..|data| - 1], data[|data| - 1];
      Unsnoc(data);
      FirstPartGrows(last, c);
      Associate(last, c, [x]);
      SplitSnoc(last + c, x);
    }
  }

  lemma PlainSuffix(s: seq<byte>, k: nat)
    requires Plain(s) && k <= |s|
    ensures Plain(s[k..])
  {
  }

  lemma PlainConcat(a: seq<byte>, b: seq<byte>)
    ensures Plain(a + b) <==> Plain(a) && Plain(b)
  {
  }

  /** A rest that is too long already cannot be terminated any more in a stream whose terminated parts fit. */
  lemma LongRestStays(last: seq<byte>, data: seq<byte>)
    requires Plain(last) && |last| > MAX_CONSOLE_LINE_BYTES && AllFit(Split(last + data).done)
    ensures Plain(data)
  {
    FirstPartGrows(last, data);
    JoinSplit(last + data);
    var p := Split(last + data);
    assert p.done == [];
    EmptyLeft(p.rest);
    PlainConcat(last, data);
  }

  /** What follows the terminated parts of a stream continues with more data. */
  lemma RestExtends(last: seq<byte>, data: seq<byte>)
    requires Plain(last) && AllFit(Split(last + data).done)
    ensures var q := Split(last + data);
            var (fragments, kept) := Fragments(last);
            var (more, rest) := Dispatch(kept, data);
            Lines(q.done) + Fragments(q.rest).0 == fragments + more && Fragments(q.rest).1 == rest
  {
    var (fragments, kept) := Fragments(last);
    if |last| > MAX_CONSOLE_LINE_BYTES {
      LongRestStays(last, data);
      PlainConcat(last, data);
      SplitPlain(last + data);
      FragmentsKeepSuffix(last);
      PlainSuffix(last, |last| - |kept|);
      PlainConcat(kept, data);
      SplitPlain(kept + data);
      FragmentsContinue(last, data);
      EmptyLeft(Fragments(kept + data).0);
      EmptyLeft(Fragments(last + data).0);
    } else {
      EmptyLeft(Dispatch(last, data).0);
    }
  }

  lemma WholeExtends(stream: seq<byte>, data: seq<byte>)
    requires TerminatedPartsFit(stream + data)
    ensures TerminatedPartsFit(stream)
    ensures var (lines, pending) := Whole(stream);
            var (more, kept) := Dispatch(pending, data);
            Whole(stream + data) == (lines + more, kept)
  {
    EmptyLeft(stream);
    EmptyLeft(stream + data);
    SplitConcat(stream, data);
    JoinSplit(stream);
    var p := Split(stream);
    var q := Split(p.rest + data);
    FitIsInherited(p.done, q.done);
    RestExtends(p.rest, data);
    LinesConcat(p.done, q.done);
    var (fragments, kept) := Fragments(p.rest);
    Associate(Lines(p.done), Lines(q.done), Fragments(q.rest).0);
    Associate(Lines(p.done), fragments, Dispatch(kept, data).0);
  }

  lemma {:induction false} AssembleIsWhole(chunks: seq<seq<byte>>)
    requires TerminatedPartsFit(Flatten(chunks))
    ensures Assemble(chunks) == Whole(Flatten(chunks))
  {
    if chunks == [] {
      var none: seq<byte> := [];
      EmptyLeft(none);
      assert Lines([]) == [];
    } else {
      WholeExtends(Flatten(chunks[..|chunks| - 1]), chunks[|chunks| - 1]);
      AssembleIsWhole(chunks[..|chunks| - 1]);
    }
  }

  /** Where terminated part `j` of a stream ends. */
  lemma {:induction false} CutAt(s: seq<byte>, j: nat) returns (a: seq<byte>, rest: seq<byte>)
    requires j < |Split(s).done|
    ensures s == a + ([NEWLINE] + rest)
    ensures Split(a).rest == Split(s).done[j]
    ensures |Split(s).done| == |Split(a).done| + 1 + |Split(rest).done| && Split(s).rest == Split(rest).rest
  {
    var before, x := s[..|s| - 1], s[|s| - 1];
    Unsnoc(s);
    if j < |Split(before).done| {
      var r;
      a, r := CutAt(before, j);
      rest := r + [x];
      SplitSnoc(r, x);
      Associate([NEWLINE], r, [x]);
      Associate(a, [NEWLINE] + r, [x]);
    } else {
      a, rest := before, [];
      EmptyLeft([NEWLINE]);
    }
  }

  lemma OneChunk(stream: seq<byte>)
    ensures Flatten([stream]) == stream && Assemble([stream]) == Whole(stream)
  {
    var none: seq<seq<byte>> := [];
    EmptyLeft([stream]);
    Snoc(none, stream);
    EmptyLeft(stream);
    EmptyLeft(Whole(stream).0);
  }

  lemma TwoChunks(a: seq<byte>, b: seq<byte>)
    ensures Flatten([a, b]) == a + b
    ensures var (lines, pending) := Whole(a);
            Assemble([a, b]) == (lines + Dispatch(pending, b).0, Dispatch(pending, b).1)
  {
    OneChunk(a);
    assert [a, b][..1] == [a];
  }

  lemma ResumeAtNewline(kept: seq<byte>, rest: seq<byte>)
    requires Plain(kept)
    ensures Split(kept + ([NEWLINE] + rest)) == Parts([kept] + Split(rest).done, Split(rest).rest)
  {
    SplitPlain(kept);
    SplitSnoc(kept, NEWLINE);
    EmptyLeft([kept]);
    SplitConcat(kept + [NEWLINE], rest);
    Associate(kept, [NEWLINE], rest);
    EmptyLeft(rest);
  }

  /** Cutting a stream just before the newline of a part that is too long makes the console show more lines. */
  lemma CutLongPart(stream: seq<byte>, j: nat) returns (chunks: seq<seq<byte>>)
    requires j < |Split(stream).done| && |Split(stream).done[j]| > MAX_CONSOLE_LINE_BYTES
    ensures Flatten(chunks) == stream && |Session(chunks)| > |Session([stream])|
  {
    var a, rest := CutAt(stream, j);
    chunks := [a, [NEWLINE] + rest];
    TwoChunks(a, [NEWLINE] + rest);
    OneChunk(stream);
    EmptyLeft(a);
    EmptyLeft(stream);
    var part := Split(a).rest;
    FragmentsKeepSuffix(part);
    JoinSplit(a);
    PlainSuffix(part, |part| - |Fragments(part).1|);
    ResumeAtNewline(Fragments(part).1, rest);
  }

  /** The console shows the same lines however reads cut up the stream exactly when every terminated part fits. */
  lemma ChunkingDoesNotMatterIff(stream: seq<byte>)
    ensures (forall chunks: seq<seq<byte>> :: Flatten(chunks) == stream ==> Session(chunks) == Session([stream]))
            <==> TerminatedPartsFit(stream)
  {
    OneChunk(stream);
    if TerminatedPartsFit(stream) {
      forall chunks: seq<seq<byte>> | Flatten(chunks) == stream ensures Session(chunks) == Session([stream]) {
        AssembleIsWhole(chunks);
      }
    } else {
      var j :| 0 <= j < |Split(stream).done| && |Split(stream).done[j]| > MAX_CONSOLE_LINE_BYTES;
      var chunks := CutLongPart(stream, j);
      assert Session(chunks) != Session([stream]);
    }
  }

  /** When no newline-free run exceeds the cap, a session shows the stream's parts with trailing CRs stripped;
      an empty rest is not a line. */
  lemma LinesAreTheParts(chunks: seq<seq<byte>>)
    requires TerminatedPartsFit(Flatten(chunks)) && |Split(Flatten(chunks)).rest| <= MAX_CONSOLE_LINE_BYTES
    ensures var p := Split(Flatten(chunks));
            var shown := if p.rest == [] then p.done else p.done + [p.rest];
            && |Session(chunks)| == |shown|
            && forall i :: 0 <= i < |shown| ==> Stripped(shown[i], Session(chunks)[i].raw) && !Session(chunks)[i].truncated
  {
    AssembleIsWhole(chunks);
    var p := Split(Flatten(chunks));
    EmptyLeft(Flatten(chunks));
    EmptyLeft(Lines(p.done));
    assert Session(chunks) == Lines(p.done) + Flush(p.rest);
    forall i | 0 <= i < |p.done| ensures Stripped(p.done[i], Session(chunks)[i].raw) && !Session(chunks)[i].truncated {
      assert Lines(p.done)[i] == ConsoleText(StripCR(p.done[i]), false);
      StripIsStripped(p.done[i]);
    }
    StripIsStripped(p.rest);
  }

  // ------------------------------------------------------------- what can be lost

  function Raws(lines: seq<ConsoleLine>): (r: seq<seq<byte>>)
    ensures |r| == |lines| && forall i :: 0 <= i < |r| ==> r[i] == lines[i].raw
  {
    seq(|lines|, i requires 0 <= i < |lines| => lines[i].raw)
  }

  /** A line shows its whole part, trailing CRs aside, or the cap's worth of it, marked, if that does not fit. */
  ghost predicate Shows(line: ConsoleLine, part: seq<byte>) {
    && line.raw <= part && |line.raw| <= MAX_CONSOLE_LINE_BYTES
    && (line.truncated <==> !Stripped(part, line.raw))
    && (line.truncated ==>
          && |line.raw| == MAX_CONSOLE_LINE_BYTES
          && exists i :: MAX_CONSOLE_LINE_BYTES <= i < |part| && part[i] != CARRIAGE_RETURN)
  }

  ghost predicate IsFragment(line: ConsoleLine) {
    |line.raw| == MAX_CONSOLE_LINE_BYTES && line.truncated
  }

  lemma {:induction false} FragmentsAccount(part: seq<byte>)
    ensures var (fragments, kept) := Fragments(part);
            && Flatten(Raws(fragments)) + kept == part
            && forall i :: 0 <= i < |fragments| ==> IsFragment(fragments[i])
  {
    if |part| > MAX_CONSOLE_LINE_BYTES {
      var head, tail := part[..MAX_CONSOLE_LINE_BYTES], part[MAX_CONSOLE_LINE_BYTES..];
      var (more, kept) := Fragments(tail);
      FragmentsAccount(tail);
      OneChunk(head);
      FlattenConcat([head], Raws(more));
      assert Raws(Fragments(part).0) == [head] + Raws(more);
      Associate(head, Flatten(Raws(more)), kept);
      assert part == head + tail;
    }
  }

  lemma LinesShow(parts: seq<seq<byte>>)
    ensures forall i :: 0 <= i < |parts| ==> Shows(Lines(parts)[i], parts[i])
  {
    forall i | 0 <= i < |parts| ensures Shows(Lines(parts)[i], parts[i]) {
      LineShows(parts[i]);
    }
  }

  lemma LineShows(part: seq<byte>)
    ensures Shows(ConsoleText(StripCR(part), false), part)
  {
    var r := StripCR(part);
    StripIsStripped(part);
    if |r| > MAX_CONSOLE_LINE_BYTES {
      assert part[|r| - 1] == r[|r| - 1];
      var cut := r[..MAX_CONSOLE_LINE_BYTES];
      if Stripped(part, cut) { StrippedIsUnique(part, cut, r); }
    }
  }

  /** After a dispatch at most one cap's worth is pending. Everything that came in is in a terminated part, in a
      fragment or pending, so bytes are lost to the console only at the end of terminated parts over the cap. */
  lemma DispatchAccounts(pending: seq<byte>, data: seq<byte>)
    ensures var (lines, kept) := Dispatch(pending, data);
            var p := Split(pending + data);
            var n := |p.done|;
            && |kept| <= MAX_CONSOLE_LINE_BYTES && n <= |lines|
            && Terminate(p.done) + p.rest == pending + data
            && Flatten(Raws(lines[n..])) + kept == p.rest
            && (forall i :: 0 <= i < n ==> Shows(lines[i], p.done[i]))
            && (forall i :: n <= i < |lines| ==> IsFragment(lines[i]))
  {
    var p := Split(pending + data);
    JoinSplit(pending + data);
    FragmentsAccount(p.rest);
    LinesShow(p.done);
    hide Split, Terminate, Flatten, Fragments, IsFragment, Shows;
    TwoKinds(Lines(p.done), Fragments(p.rest).0, p.done);
  }

  lemma TwoKinds(first: seq<ConsoleLine>, second: seq<ConsoleLine>, parts: seq<seq<byte>>)
    requires |first| == |parts| && forall i :: 0 <= i < |parts| ==> Shows(first[i], parts[i])
    requires forall i :: 0 <= i < |second| ==> IsFragment(second[i])
    ensures var lines := first + second;
            && lines[|parts|..] == second
            && (forall i :: 0 <= i < |parts| ==> Shows(lines[i], parts[i]))
            && (forall i :: |parts| <= i < |lines| ==> IsFragment(lines[i]))
  {
    hide Shows, IsFragment;
  }

  // ------------------------------------------------------------- a whole session's bytes

  /** What one console line stands for: a terminated part, whose newline it swallowed, or a piece cut off an unterminated one. */
  datatype Piece = Part(bytes: seq<byte>) | Fragment(bytes: seq<byte>)

  function PieceBytes(p: Piece): seq<byte> {
    if p.Part? then p.bytes + [NEWLINE] else p.bytes
  }

  function Spelled(pieces: seq<Piece>): seq<byte> {
    if pieces == [] then [] else Spelled(pieces[..|pieces| - 1]) + PieceBytes(pieces[|pieces| - 1])
  }

  function PartPieces(parts: seq<seq<byte>>): (r: seq<Piece>)
    ensures |r| == |parts|
  {
    seq(|parts|, i requires 0 <= i < |parts| => Part(parts[i]))
  }

  function FragmentPieces(part: seq<byte>): seq<Piece> {
    if |part| <= MAX_CONSOLE_LINE_BYTES then []
    else [Fragment(part[..MAX_CONSOLE_LINE_BYTES])] + FragmentPieces(part[MAX_CONSOLE_LINE_BYTES..])
  }

  function Pieces(pending: seq<byte>, data: seq<byte>): seq<Piece> {
    var p := Split(pending + data);
    PartPieces(p.done) + FragmentPieces(p.rest)
  }

  /** The pieces behind the lines of all chunks. */
  function Ledger(chunks: seq<seq<byte>>): seq<Piece> {
    if chunks == [] then []
    else Ledger(chunks[..|chunks| - 1]) + Pieces(Assemble(chunks[..|chunks| - 1]).1, chunks[|chunks| - 1])
  }

  /** A fragment is shown whole and marked; a part is shown whole exactly when it fits the cap. */
  ghost predicate Accounts(line: ConsoleLine, p: Piece) {
    match p
    case Part(bytes) => Shows(line, bytes)
    case Fragment(bytes) => line == ConsoleLine(bytes, true) && |bytes| == MAX_CONSOLE_LINE_BYTES
  }

  ghost predicate AllAccount(lines: seq<ConsoleLine>, pieces: seq<Piece>) {
    |lines| == |pieces| && forall i :: 0 <= i < |lines| ==> Accounts(lines[i], pieces[i])
  }

  lemma {:induction false} SpelledConcat(a: seq<Piece>, b: seq<Piece>)
    ensures Spelled(a + b) == Spelled(a) + Spelled(b)
  {
    if b == [] {
      EmptyLeft(a);
    } else {
      Unsnoc(b);
      var c, x := b[..|b| - 1], b[|b| - 1];
      SpelledConcat(a, c);
      Associate(a, c, [x]);
      Snoc(a + c, x);
      Associate(Spelled(a), Spelled(c), PieceBytes(x));
    }
  }

  lemma {:induction false} SpelledParts(parts: seq<seq<byte>>)
    ensures Spelled(PartPieces(parts)) == Terminate(parts)
  {
    if parts != [] {
      var init := parts[..|parts| - 1];
      SpelledParts(init);
      assert PartPieces(parts)[..|parts| - 1] == PartPieces(init);
      Associate(Terminate(init), parts[|parts| - 1], [NEWLINE]);
    }
  }

  lemma SpelledOne(p: Piece)
    ensures Spelled([p]) == PieceBytes(p)
  {
    assert [p][..0] == [];
  }

  lemma {:induction false} SpelledFragments(part: seq<byte>)
    ensures Spelled(FragmentPieces(part)) + Fragments(part).1 == part
    ensures AllAccount(Fragments(part).0, FragmentPieces(part))
  {
    if |part| > MAX_CONSOLE_LINE_BYTES {
      var head, tail := part[..MAX_CONSOLE_LINE_BYTES], part[MAX_CONSOLE_LINE_BYTES..];
      SpelledFragments(tail);
      SpelledOne(Fragment(head));
      SpelledConcat([Fragment(head)], FragmentPieces(tail));
      AccountConcat([ConsoleText(head, true)], [Fragment(head)], Fragments(tail).0, FragmentPieces(tail));
      hide Spelled, AllAccount;
      Associate(head, Spelled(FragmentPieces(tail)), Fragments(tail).1);
      assert part == head + tail;
    }
  }

  lemma AccountConcat(l1: seq<ConsoleLine>, p1: seq<Piece>, l2: seq<ConsoleLine>, p2: seq<Piece>)
    requires AllAccount(l1, p1) && AllAccount(l2, p2)
    ensures AllAccount(l1 + l2, p1 + p2)
  {
    hide Accounts;
  }

  lemma DispatchSpells(pending: seq<byte>, data: seq<byte>)
    ensures Spelled(Pieces(pending, data)) + Dispatch(pending, data).1 == pending + data
    ensures AllAccount(Dispatch(pending, data).0, Pieces(pending, data))
  {
    var p := Split(pending + data);
    JoinSplit(pending + data);
    SpelledParts(p.done);
    SpelledFragments(p.rest);
    SpelledConcat(PartPieces(p.done), FragmentPieces(p.rest));
    Associate(Terminate(p.done), Spelled(FragmentPieces(p.rest)), Fragments(p.rest).1);
    LinesShow(p.done);
    assert AllAccount(Lines(p.done), PartPieces(p.done));
    AccountConcat(Lines(p.done), PartPieces(p.done), Fragments(p.rest).0, FragmentPieces(p.rest));
  }

  /** Over a whole session, however it is cut into reads: the pieces behind its lines and what is pending spell exactly the
      bytes that came in, and each line accounts for its piece; so bytes are missing from the console only at the end of
      terminated parts over the cap. */
  lemma {:induction false} SessionAccounts(chunks: seq<seq<byte>>)
    ensures Spelled(Ledger(chunks)) + Assemble(chunks).1 == Flatten(chunks)
    ensures AllAccount(Assemble(chunks).0, Ledger(chunks))
  {
    hide AllAccount, Dispatch, Pieces;
    if chunks == [] {
      assert AllAccount([], []) by { NoLinesAccount(); }
    } else {
      var init, data := chunks[..|chunks| - 1], chunks[|chunks| - 1];
      SessionAccounts(init);
      var (lines, pending) := Assemble(init);
      DispatchSpells(pending, data);
      AccountConcat(lines, Ledger(init), Dispatch(pending, data).0, Pieces(pending, data));
      SpelledConcat(Ledger(init), Pieces(pending, data));
      Associate(Spelled(Ledger(init)), Spelled(Pieces(pending, data)), Dispatch(pending, data).1);
      Associate(Spelled(Ledger(init)), pending, data);
    }
  }

  lemma NoLinesAccount()
    ensures AllAccount([], [])
  {
  }
}
