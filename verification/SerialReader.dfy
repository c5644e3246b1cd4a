/** The read loop of `SerialWorker`: raw log first, then the bridge, then the console, none of which can harm it. */
module SerialReader {
  import opened Common
  import opened LineAssembly
  import opened LogMachine
  import opened RawLog

  /** What one turn of the loop reads: bytes, a time-out, or a failing device. */
  datatype Read = Data(bytes: seq<byte>) | TimedOut | Failed

  // --------------------------------------------------------- what the log gets, whoever listens below

  /** Where a run of the loop ends: the log, the turns completed, whether the log raised, and what it took of that chunk. */
  datatype LogRun = LogRun(log: Log, turns: nat, raised: bool, partial: seq<byte>)

  /** The read loop as the log sees it: a function of what is read and of what the log's device answers. */
  ghost function ReadRun(u: Setup, l: Log, input: seq<Read>, i: nat): LogRun
    requires i <= |input|
    decreases |input| - i
  {
    if i == |input| || input[i].Failed? then LogRun(l, i, false, [])
    else if input[i].TimedOut? || input[i].bytes == [] then ReadRun(u, l, input, i + 1)
    else
      var (m, ok, n) := Wrote(u, l, input[i].bytes);
      if ok then ReadRun(u, m, input, i + 1) else LogRun(m, i, true, input[i].bytes[..n])
  }

  /** Where the loop ends: at the end of what there is to read, at a failing read, or at a log write that raised. Time-outs
      and empty reads do not end it. */
  lemma {:induction false} ReadRunEnds(u: Setup, l: Log, input: seq<Read>, i: nat)
    requires i <= |input|
    ensures var r := ReadRun(u, l, input, i);
            && i <= r.turns <= |input|
            && (forall k :: i <= k < r.turns ==> !input[k].Failed?)
            && (!r.raised ==> (r.turns == |input| || input[r.turns].Failed?) && r.partial == [])
            && (r.raised ==> r.turns < |input| && input[r.turns].Data? && input[r.turns].bytes != []
                             && exists before :: Wrote(u, before, input[r.turns].bytes) == (r.log, false, |r.partial|))
    decreases |input| - i
  {
    hide Wrote;
    if i < |input| && !input[i].Failed? {
      if input[i].TimedOut? || input[i].bytes == [] {
        ReadRunEnds(u, l, input, i + 1);
      } else {
        var (m, ok, n) := Wrote(u, l, input[i].bytes);
        if ok { ReadRunEnds(u, m, input, i + 1); }
      }
    }
  }

  /** The position of the first failing read, or the end. */
  function FirstFailure(input: seq<Read>): (n: nat)
    ensures n <= |input|
    ensures n < |input| ==> input[n].Failed?
    ensures forall k :: 0 <= k < n ==> !input[k].Failed?
  {
    if input == [] then 0
    else if input[0].Failed? then 0
    else 1 + FirstFailure(input[1..])
  }

  // --------------------------------------------------------- what the console gets, whatever is captured

  /** How many of these lines are handed over when `given` were before: all, or those up to the first that raises. */
  function HandedOver(lines: seq<ConsoleLine>, given: seq<ConsoleLine>, raises: seq<ConsoleLine> -> bool): (n: nat)
    ensures n <= |lines|
    decreases |lines|
  {
    if lines == [] then 0
    else if raises(given + [lines[0]]) then 1
    else 1 + HandedOver(lines[1..], given + [lines[0]], raises)
  }

  /** The lines handed over for these chunks, and what is pending after them. */
  function Console(chunks: seq<seq<byte>>, raises: seq<ConsoleLine> -> bool): (seq<ConsoleLine>, seq<byte>) {
    if chunks == [] then ([], [])
    else
      var (given, pending) := Console(chunks[..|chunks| - 1], raises);
      var (lines, kept) := Dispatch(pending, chunks[|chunks| - 1]);
      (given + lines[..HandedOver(lines, given, raises)], kept)
  }

  /** No line but the last one handed over raised, and lines are kept back only because that one did. */
  lemma {:induction false} HandedOverEnds(lines: seq<ConsoleLine>, given: seq<ConsoleLine>, raises: seq<ConsoleLine> -> bool)
    ensures var n := HandedOver(lines, given, raises);
            && (forall i :: 0 < i < n ==> !raises(given + lines[..i]))
            && (n < |lines| ==> n > 0 && raises(given + lines[..n]))
    decreases |lines|
  {
    if lines != [] && !raises(given + [lines[0]]) {
      var g := given + [lines[0]];
      HandedOverEnds(lines[1..], g, raises);
      var n := HandedOver(lines, given, raises);
      forall i | 0 < i <= n ensures given + lines[..i] == g + lines[1..][..i - 1] {
        assert lines[..i] == [lines[0]] + lines[1..][..i - 1];
      }
      assert given + lines[..1] == g;
      forall i | 0 < i < n ensures !raises(given + lines[..i]) {
        if i > 1 { assert !raises(g + lines[1..][..i - 1]); }
      }
    } else if lines != [] {
      assert lines[..1] == [lines[0]];
    }
  }

  ghost predicate NeverRaises(raises: seq<ConsoleLine> -> bool) {
    forall given :: !raises(given)
  }

  lemma {:induction false} AllHandedOver(lines: seq<ConsoleLine>, given: seq<ConsoleLine>, raises: seq<ConsoleLine> -> bool)
    requires NeverRaises(raises)
    ensures HandedOver(lines, given, raises) == |lines|
    decreases |lines|
  {
    if lines != [] {
      AllHandedOver(lines[1..], given + [lines[0]], raises);
    }
  }

  /** With a consumer that does not raise, the console gets exactly the assembled lines; what is pending never depends
      on the consumer. */
  lemma {:induction false} ConsoleIsAssembly(chunks: seq<seq<byte>>, raises: seq<ConsoleLine> -> bool)
    ensures Console(chunks, raises).1 == Assemble(chunks).1
    ensures NeverRaises(raises) ==> Console(chunks, raises).0 == Assemble(chunks).0
  {
    if chunks != [] {
      var init := chunks[..|chunks| - 1];
      ConsoleIsAssembly(init, raises);
      var (given, pending) := Console(init, raises);
      var lines := Dispatch(pending, chunks[|chunks| - 1]).0;
      if NeverRaises(raises) {
        AllHandedOver(lines, given, raises);
        assert lines[..|lines|] == lines;
      }
    }
  }

  /** The lines an active capture copies, when `from` lines came before them. */
  function Captured(lines: seq<ConsoleLine>, from: nat, capturing: nat -> bool): seq<ConsoleLine> {
    if lines == [] then []
    else
      var n := |lines| - 1;
      Captured(lines[..n], from, capturing) + (if capturing(from + n) then [lines[n]] else [])
  }

  /** While a capture is active throughout, everything is copied; without one, nothing. */
  lemma {:induction false} CapturedExtremes(lines: seq<ConsoleLine>, from: nat, capturing: nat -> bool)
    ensures (forall k :: from <= k < from + |lines| ==> capturing(k)) ==> Captured(lines, from, capturing) == lines
    ensures (forall k :: from <= k < from + |lines| ==> !capturing(k)) ==> Captured(lines, from, capturing) == []
  {
    if lines != [] {
      CapturedExtremes(lines[..|lines| - 1], from, capturing);
      Unsnoc(lines);
    }
  }

  lemma CapturedStep(lines: seq<ConsoleLine>, i: nat, from: nat, capturing: nat -> bool)
    requires i < |lines|
    ensures lines[..i + 1] == lines[..i] + [lines[i]]
    ensures Captured(lines[..i + 1], from, capturing)
            == Captured(lines[..i], from, capturing) + (if capturing(from + i) then [lines[i]] else [])
  {
    assert lines[..i + 1][..i] == lines[..i];
  }

  lemma {:induction false} CapturedConcat(a: seq<ConsoleLine>, b: seq<ConsoleLine>, capturing: nat -> bool)
    ensures Captured(a + b, 0, capturing) == Captured(a, 0, capturing) + Captured(b, |a|, capturing)
  {
    if b == [] {
      EmptyLeft(a);
    } else {
      var c, x := b[..|b| - 1], b[|b| - 1];
      CapturedConcat(a, c, capturing);
      Unsnoc(b);
      Associate(a, c, [x]);
      Snoc(a + c, x);
    }
  }

  /** What the loop does with the bytes, in the order it does it. */
  datatype Action = Logged(bytes: seq<byte>) | Handed(bytes: seq<byte>) | Dispatched(bytes: seq<byte>)

  /** How the parties below the log behave. `lineRaises` decides from all the lines handed over so far. */
  datatype Consumers = Consumers(rawRaises: seq<byte> -> bool, lineRaises: seq<ConsoleLine> -> bool, capturing: nat -> bool)

  function LoggedBytes(trace: seq<Action>): seq<byte> {
    if trace == [] then []
    else
      LoggedBytes(trace[..|trace| - 1])
      + (if trace[|trace| - 1].Logged? then trace[|trace| - 1].bytes else [])
  }

  function HandedBytes(trace: seq<Action>): seq<byte> {
    if trace == [] then []
    else
      HandedBytes(trace[..|trace| - 1])
      + (if trace[|trace| - 1].Handed? then trace[|trace| - 1].bytes else [])
  }

  function DispatchedBytes(trace: seq<Action>): seq<byte> {
    if trace == [] then []
    else
      DispatchedBytes(trace[..|trace| - 1])
      + (if trace[|trace| - 1].Dispatched? then trace[|trace| - 1].bytes else [])
  }

  /** At every moment the bridge and the console have only been given bytes that are logged already. */
  ghost predicate LogFirst(trace: seq<Action>) {
    forall i :: 0 <= i <= |trace| ==>
      HandedBytes(trace[..i]) <= LoggedBytes(trace[..i]) && DispatchedBytes(trace[..i]) <= LoggedBytes(trace[..i])
  }

  lemma LogFirstStep(trace: seq<Action>, a: Action)
    requires LogFirst(trace)
    requires HandedBytes(trace + [a]) <= LoggedBytes(trace + [a]) && DispatchedBytes(trace + [a]) <= LoggedBytes(trace + [a])
    ensures LogFirst(trace + [a])
  {
    var longer := trace + [a];
    forall i | 0 <= i <= |longer|
      ensures HandedBytes(longer[..i]) <= LoggedBytes(longer[..i]) && DispatchedBytes(longer[..i]) <= LoggedBytes(longer[..i])
    {
      if i <= |trace| {
        assert longer[..i] == trace[..i];
      } else {
        assert longer[..i] == longer;
      }
    }
  }

  /** The chunks of the first `n` turns. */
  function Chunks(input: seq<Read>, n: nat): seq<seq<byte>>
    requires n <= |input|
  {
    if n == 0 then []
    else Chunks(input, n - 1) + (if input[n - 1].Data? && input[n - 1].bytes != [] then [input[n - 1].bytes] else [])
  }

  lemma ChunksStep(input: seq<Read>, n: nat)
    requires n < |input|
    ensures Chunks(input, n + 1)
            == if input[n].Data? && input[n].bytes != [] then Chunks(input, n) + [input[n].bytes] else Chunks(input, n)
    ensures input[n].Data? && input[n].bytes != [] ==>
              && Flatten(Chunks(input, n + 1)) == Flatten(Chunks(input, n)) + input[n].bytes
              && Assemble(Chunks(input, n + 1))
                 == (Assemble(Chunks(input, n)).0 + Dispatch(Assemble(Chunks(input, n)).1, input[n].bytes).0,
                     Dispatch(Assemble(Chunks(input, n)).1, input[n].bytes).1)
  {
    EmptyLeft(Chunks(input, n));
    if input[n].Data? && input[n].bytes != [] {
      Snoc(Chunks(input, n), input[n].bytes);
    }
  }

  lemma RecordBytes(trace: seq<Action>, a: Action)
    ensures LoggedBytes(trace + [a]) == LoggedBytes(trace) + (if a.Logged? then a.bytes else [])
    ensures HandedBytes(trace + [a]) == HandedBytes(trace) + (if a.Handed? then a.bytes else [])
    ensures DispatchedBytes(trace + [a]) == DispatchedBytes(trace) + (if a.Dispatched? then a.bytes else [])
  {
    Snoc(trace, a);
  }

  class SerialReader {
    const log: RawLogWriter
    var pending: seq<byte>
    var captureLines: seq<ConsoleLine>
    /** Calls of `on_line`, the raising ones included. */
    var delivered: seq<ConsoleLine>
    ghost var trace: seq<Action>

    constructor (log: RawLogWriter)
      ensures this.log == log && pending == [] && delivered == [] && trace == [] && captureLines == []
    {
      this.log := log;
      pending, captureLines, delivered, trace := [], [], [], [];
    }

    /** The bookkeeping of what the loop did, for bytes that are logged or have been logged. */
    ghost method Record(a: Action)
      requires LogFirst(trace)
      requires a.Handed? ==> HandedBytes(trace) + a.bytes <= LoggedBytes(trace)
      requires a.Dispatched? ==> DispatchedBytes(trace) + a.bytes <= LoggedBytes(trace)
      modifies this`trace
      ensures LogFirst(trace)
      ensures LoggedBytes(trace) == LoggedBytes(old(trace)) + (if a.Logged? then a.bytes else [])
      ensures HandedBytes(trace) == HandedBytes(old(trace)) + (if a.Handed? then a.bytes else [])
      ensures DispatchedBytes(trace) == DispatchedBytes(old(trace)) + (if a.Dispatched? then a.bytes else [])
    {
      assert trace[..|trace|] == trace;
      RecordBytes(trace, a);
      LogFirstStep(trace, a);
      trace := trace + [a];
    }

    /** One line: an active capture copies it, the console gets it. */
    method DeliverOne(line: ConsoleLine, consumers: Consumers) returns (raised: bool)
      modifies this`captureLines, this`delivered
      ensures delivered == old(delivered) + [line]
      ensures captureLines == old(captureLines) + (if consumers.capturing(|old(delivered)|) then [line] else [])
      ensures raised == consumers.lineRaises(delivered)
    {
      if consumers.capturing(|delivered|) {
        captureLines := captureLines + [line];
      }
      delivered := delivered + [line];
      raised := consumers.lineRaises(delivered);
    }

    /** Hand lines to the console one by one, up to the first that raises. A capture copies lines and takes none away. */
    method DeliverLines(lines: seq<ConsoleLine>, consumers: Consumers) returns (raised: bool, count: nat)
      modifies this`captureLines, this`delivered
      ensures count == HandedOver(lines, old(delivered), consumers.lineRaises)
      ensures delivered == old(delivered) + lines[..count]
      ensures captureLines == old(captureLines) + Captured(lines[..count], |old(delivered)|, consumers.capturing)
      ensures raised <==> count > 0 && consumers.lineRaises(delivered)
    {
      raised, count := false, 0;
      while count < |lines| && !raised
        invariant count <= |lines| && delivered == old(delivered) + lines[..count]
        invariant captureLines == old(captureLines) + Captured(lines[..count], |old(delivered)|, consumers.capturing)
        invariant raised <==> count > 0 && consumers.lineRaises(delivered)
        invariant HandedOver(lines, old(delivered), consumers.lineRaises)
                  == if raised then count else count + HandedOver(lines[count..], delivered, consumers.lineRaises)
        decreases |lines| - count, !raised
      {
        CapturedStep(lines, count, |old(delivered)|, consumers.capturing);
        raised := DeliverOne(lines[count], consumers);
        count := count + 1;
      }
    }

    /** `_dispatch_lines`. `pending` is settled before any consumer runs. */
    method DispatchLines(data: seq<byte>, consumers: Consumers) returns (raised: bool)
      modifies this`pending, this`captureLines, this`delivered
      ensures pending == Dispatch(old(pending), data).1
      ensures var lines := Dispatch(old(pending), data).0;
              var count := HandedOver(lines, old(delivered), consumers.lineRaises);
              && delivered == old(delivered) + lines[..count]
              && captureLines == old(captureLines) + Captured(lines[..count], |old(delivered)|, consumers.capturing)
    {
      var parts := Split(pending + data);
      var lines, rest := CutFragments(Lines(parts.done), parts.rest);
      pending := rest;
      var count;
      raised, count := DeliverLines(lines, consumers);
    }

    /** The loop that cuts capped fragments off an unterminated rest. */
    static method CutFragments(terminated: seq<ConsoleLine>, part: seq<byte>) returns (lines: seq<ConsoleLine>, rest: seq<byte>)
      ensures lines == terminated + Fragments(part).0 && rest == Fragments(part).1
    {
      lines, rest := terminated, part;
      while |rest| > MAX_CONSOLE_LINE_BYTES
        invariant lines + Fragments(rest).0 == terminated + Fragments(part).0
        invariant Fragments(rest).1 == Fragments(part).1
        decreases |rest|
      {
        var fragment := rest[..MAX_CONSOLE_LINE_BYTES];
        Associate(lines, [ConsoleText(fragment, true)], Fragments(rest[MAX_CONSOLE_LINE_BYTES..]).0);
        rest := rest[MAX_CONSOLE_LINE_BYTES..];
        lines := lines + [ConsoleText(fragment, true)];
      }
      EmptyLeft(lines);
    }

    /** `_flush_pending_line`. */
    method FlushPendingLine()
      modifies this`pending, this`delivered
      ensures pending == []
      ensures if old(pending) == [] then delivered == old(delivered)
              else |delivered| == |old(delivered)| + 1 && old(delivered) <= delivered
                   && Stripped(old(pending), delivered[|old(delivered)|].raw) && !delivered[|old(delivered)|].truncated
    {
      var rest := pending;
      pending := [];
      if rest == [] {
        return;
      }
      StripIsStripped(rest);
      delivered := delivered + [ConsoleLine(StripCR(rest), false)];
    }

    /** The log holds `before` and then `logged`; of that the consumers have been given `given`, always after the log. */
    ghost predicate InStep(before: seq<byte>, logged: seq<byte>, given: seq<byte>)
      reads this`trace, log
    {
      && log.Valid()
      && Stream(log.View()) == before + logged
      && LogFirst(trace)
      && LoggedBytes(trace) == logged
      && HandedBytes(trace) == DispatchedBytes(trace) == given
    }

    method LogChunk(data: seq<byte>, ghost before: seq<byte>, ghost bytes: seq<byte>) returns (ok: bool, count: nat)
      requires InStep(before, bytes, bytes)
      modifies this`trace, log
      ensures (log.View(), ok, count) == Wrote(log.setup, old(log.View()), data)
      ensures count <= |data| && (ok ==> count == |data|) && InStep(before, bytes + data[..count], bytes)
    {
      ok, count := log.WriteLogRaw(data);
      hide Wrote;
      Associate(before, bytes, data[..count]);
      Record(Logged(data[..count]));
    }

    /** What the console consumer got, what is pending and what was captured, after these chunks. */
    ghost predicate ConsoleAt(chunks: seq<seq<byte>>, consumers: Consumers)
      reads this`delivered, this`pending, this`captureLines
    {
      (delivered, pending) == Console(chunks, consumers.lineRaises) && captureLines == Captured(delivered, 0, consumers.capturing)
    }

    method ShowChunk(data: seq<byte>, consumers: Consumers, ghost chunks: seq<seq<byte>>)
      requires ConsoleAt(chunks, consumers)
      modifies this`pending, this`captureLines, this`delivered
      ensures ConsoleAt(chunks + [data], consumers)
    {
      hide Dispatch, HandedOver;
      ghost var before := delivered;
      Snoc(chunks, data);
      var raised := DispatchLines(data, consumers);
      CapturedConcat(before, delivered[|before|..], consumers.capturing);
      assert delivered == before + delivered[|before|..];
    }

    /** One chunk: log, bridge, console. If the log write fails nothing below it sees the chunk. */
    method HandleChunk(data: seq<byte>, consumers: Consumers, ghost before: seq<byte>, ghost chunks: seq<seq<byte>>)
      returns (ok: bool, count: nat)
      requires InStep(before, Flatten(chunks), Flatten(chunks)) && ConsoleAt(chunks, consumers)
      modifies this, log
      ensures (log.View(), ok, count) == Wrote(log.setup, old(log.View()), data)
      ensures count <= |data| && (ok ==> count == |data|)
      ensures InStep(before, Flatten(chunks) + data[..count], if ok then Flatten(chunks) + data else Flatten(chunks))
      ensures ConsoleAt(if ok then chunks + [data] else chunks, consumers)
    {
      hide Wrote, ConsoleAt, Flatten, Stream, LogFirst, LoggedBytes, HandedBytes, DispatchedBytes;
      ok, count := LogChunk(data, before, Flatten(chunks));
      if !ok {
        return;
      }
      assert data[..count] == data;
      Record(Handed(data));
      var ignored := consumers.rawRaises(data);
      Record(Dispatched(data));
      ShowChunk(data, consumers, chunks);
    }

    /** `_read_loop`, over whatever the device returns. It ends with the script, with a failing read, or with a failing
        log write. Log, turns and outcome are `ReadRun`, which knows no consumer; the lines are `Console`, which knows no
        capture. */
    method ReadLoop(input: seq<Read>, consumers: Consumers) returns (turns: nat, logRaised: bool, ghost partial: seq<byte>)
      requires log.Valid() && trace == [] && pending == [] && delivered == [] && captureLines == []
      modifies this, log
      ensures LogRun(log.View(), turns, logRaised, partial) == ReadRun(log.setup, old(log.View()), input, 0)
      ensures log.Valid() && turns <= |input|
      // it goes on until a read fails or the log raises; if the log does not, it has all there was to read before that
      ensures !logRaised ==> turns == FirstFailure(input) && partial == []
      ensures logRaised ==> turns < FirstFailure(input) && input[turns].Data? && input[turns].bytes != []
      // the log: every chunk of the completed turns, and a prefix of the chunk whose write failed
      ensures Stream(log.View()) == old(Stream(log.View())) + (Flatten(Chunks(input, turns)) + partial)
      ensures LoggedBytes(trace) == Flatten(Chunks(input, turns)) + partial
      // the order
      ensures LogFirst(trace)
      ensures HandedBytes(trace) == DispatchedBytes(trace) == Flatten(Chunks(input, turns))
      // the console
      ensures (delivered, pending) == Console(Chunks(input, turns), consumers.lineRaises)
      ensures captureLines == Captured(delivered, 0, consumers.capturing)
    {
      hide Wrote, Console, ConsoleAt, Captured, LoggedBytes, HandedBytes, DispatchedBytes, LogFirst, Stream, Flatten, Assemble, Dispatch;
      turns, logRaised, partial := 0, false, [];
      ghost var before := Stream(log.View());
      EmptyLeft(before);
      assert InStep(before, Flatten(Chunks(input, 0)), Flatten(Chunks(input, 0))) by { NothingYet(); }
      assert ConsoleAt(Chunks(input, 0), consumers) by { NothingShown(consumers); }
      while turns < |input|
        invariant turns <= |input| && partial == [] && !logRaised
        invariant InStep(before, Flatten(Chunks(input, turns)), Flatten(Chunks(input, turns)))
        invariant ConsoleAt(Chunks(input, turns), consumers)
        invariant forall k :: 0 <= k < turns ==> !input[k].Failed?
        invariant ReadRun(log.setup, log.View(), input, turns) == ReadRun(log.setup, old(log.View()), input, 0)
      {
        EndIsFirstFailure(input, turns);
        var read := input[turns];
        if read.Failed? {
          break;
        }
        ChunksStep(input, turns);
        if read.Data? && read.bytes != [] {
          var ok, count := HandleChunk(read.bytes, consumers, before, Chunks(input, turns));
          if !ok {
            logRaised, partial := true, read.bytes[..count];
            ConsoleIs(Chunks(input, turns), consumers);
            return;
          }
          assert read.bytes[..count] == read.bytes;
        }
        turns := turns + 1;
      }
      EmptyLeft(Flatten(Chunks(input, turns)));
      EndIsFirstFailure(input, turns);
      ConsoleIs(Chunks(input, turns), consumers);
    }

    static lemma EndIsFirstFailure(input: seq<Read>, turns: nat)
      requires turns <= |input| && forall k :: 0 <= k < turns ==> !input[k].Failed?
      ensures turns <= FirstFailure(input)
      ensures turns == |input| || input[turns].Failed? ==> turns == FirstFailure(input)
      ensures turns < |input| && !input[turns].Failed? ==> turns < FirstFailure(input)
    {
    }

    lemma ConsoleIs(chunks: seq<seq<byte>>, consumers: Consumers)
      requires ConsoleAt(chunks, consumers)
      ensures (delivered, pending) == Console(chunks, consumers.lineRaises)
      ensures captureLines == Captured(delivered, 0, consumers.capturing)
    {
    }

    lemma NothingYet()
      requires trace == []
      ensures LogFirst(trace) && LoggedBytes(trace) == [] && HandedBytes(trace) == [] && DispatchedBytes(trace) == []
      ensures Flatten<byte>([]) == []
    {
    }

    lemma NothingShown(consumers: Consumers)
      requires delivered == [] && pending == [] && captureLines == []
      ensures ConsoleAt([], consumers)
    {
    }
  }

  /** Two nodes read the same from their ports and their log devices answer alike. However differently their bridges,
      consoles and captures behave, raising included, the logs are the same in every byte, file and time, and so is the
      pending line; and if their consoles raise alike, so are the lines, whatever is captured. */
  method SameLogWhoeverListens(a: SerialReader, b: SerialReader, input: seq<Read>, ca: Consumers, cb: Consumers)
    requires a != b && a.log != b.log && a.log.setup == b.log.setup && a.log.View() == b.log.View()
    requires a.log.Valid() && a.trace == [] && a.pending == [] && a.delivered == [] && a.captureLines == []
    requires b.log.Valid() && b.trace == [] && b.pending == [] && b.delivered == [] && b.captureLines == []
    modifies a, b, a.log, b.log
    ensures a.log.View() == b.log.View() && a.pending == b.pending
    ensures LoggedBytes(a.trace) == LoggedBytes(b.trace) && HandedBytes(a.trace) == HandedBytes(b.trace)
    ensures ca.lineRaises == cb.lineRaises ==> a.delivered == b.delivered
  {
    hide ReadRun, Console, Captured, LoggedBytes, HandedBytes, DispatchedBytes, LogFirst, Stream;
    var m, raisedA, partialA := a.ReadLoop(input, ca);
    var n, raisedB, partialB := b.ReadLoop(input, cb);
    ConsoleIsAssembly(Chunks(input, m), ca.lineRaises);
    ConsoleIsAssembly(Chunks(input, m), cb.lineRaises);
  }
}
