/** Opening, closing, releasing and reacquiring the port; serialized writes; one command capture from its caller's view. */
module Lifecycle {
  import opened Common
  import opened LogDirectory
  import opened LogMachine
  import opened LogInvariant
  import opened LogRuns
  import opened LogOutcomes
  import opened RawLog
  import Capture

  /** Where an operation raised. `Refused` is a check of the worker's own state. */
  datatype Stage = Refused | ClosingDevice | SyncingLog | OpeningDevice | StartingLog | StartingThread | Writing | Busy | TimedOut

  datatype Outcome = Done | Raised(at: Stage)

  /** What the outside world does to one call: closing a held device raises, the port can be opened, a thread can be started. */
  datatype World = World(closeRaises: bool, opens: bool, spawns: bool)

  /** How `close` ends, from the state it finds and from what the world does. */
  ghost function CloseOutcome(u: Setup, l: Log, held: bool, w: World): Outcome {
    if held && w.closeRaises then Raised(ClosingDevice)
    else if !Closed(u, l).1 then Raised(SyncingLog)
    else Done
  }

  /** How the part of `open` behind its own `close` ends. */
  ghost function ConnectOutcome(u: Setup, l: Log, stamp: string, w: World): Outcome {
    if !w.opens then Raised(OpeningDevice)
    else if !Started(u, l, stamp).1 then Raised(StartingLog)
    else if !w.spawns then Raised(StartingThread)
    else Done
  }

  ghost function OpenOutcome(u: Setup, l: Log, held: bool, stamp: string, w: World): Outcome {
    var r := CloseOutcome(u, l, held, w);
    if r.Raised? then r else ConnectOutcome(u, Closed(u, l).0, stamp, w)
  }

  /** The held device cannot be closed while its log is open. */
  predicate KeepsOldLog(l: Log, held: bool, w: World) {
    held && w.closeRaises && l.isOpen
  }

  /** Everything succeeds up to the reader thread, which cannot be started. */
  ghost predicate LacksReader(u: Setup, l: Log, held: bool, stamp: string, w: World) {
    && CloseOutcome(u, l, held, w).Done?
    && w.opens && !w.spawns && Started(u, Closed(u, l).0, stamp).1
  }

  /** A log session can be started: a name is free, and creation and first sync are granted. */
  ghost predicate CanStart(u: Setup, l: Log, stamp: string) {
    SomeNameFree(l, stamp, 1) && u.device.creates(l.asked.creates) && u.device.syncs(l.asked.syncs)
  }

  /** The log, if open, can be synced. */
  predicate CanSync(u: Setup, l: Log) {
    l.isOpen ==> u.device.syncs(l.asked.syncs)
  }

  /** The bytes of the first `n` answers. */
  function Answered(takes: nat -> int, n: nat): int {
    if n == 0 then 0 else Answered(takes, n - 1) + takes(n - 1)
  }

  /** Each of these writes took at least a byte, and no more than was left. */
  ghost predicate AllTaken(takes: nat -> int, size: int, n: nat) {
    forall k: nat :: k < n ==> 1 <= takes(k) <= size - Answered(takes, k)
  }

  /** The device takes it all, in whatever pieces, before it stalls or claims more than was left. */
  ghost predicate TakesAll(takes: nat -> int, size: int) {
    exists n: nat :: AllTaken(takes, size, n) && Answered(takes, n) == size
  }

  lemma NoneTaken(takes: nat -> int, size: int)
    ensures AllTaken(takes, size, 0) && Answered(takes, 0) == 0
  {
  }

  lemma OneMoreAnswered(takes: nat -> int, n: nat)
    ensures Answered(takes, n + 1) == Answered(takes, n) + takes(n)
  {
  }

  lemma OneMoreTaken(takes: nat -> int, size: int, n: nat)
    ensures Answered(takes, n + 1) == Answered(takes, n) + takes(n)
    ensures AllTaken(takes, size, n + 1) <==> AllTaken(takes, size, n) && 1 <= takes(n) <= size - Answered(takes, n)
  {
    hide Answered;
    OneMoreAnswered(takes, n);
    if AllTaken(takes, size, n) && 1 <= takes(n) <= size - Answered(takes, n) {
      forall k: nat | k < n + 1 ensures 1 <= takes(k) <= size - Answered(takes, k) {
        if k < n {
          assert 1 <= takes(k);
        }
      }
    }
  }

  lemma {:induction false} AnsweredGrows(takes: nat -> int, size: int, m: nat, n: nat)
    requires m < n && AllTaken(takes, size, n)
    ensures Answered(takes, m) < Answered(takes, n)
  {
    hide Answered;
    OneMoreTaken(takes, size, n - 1);
    if m < n - 1 {
      AnsweredGrows(takes, size, m, n - 1);
    }
  }

  lemma StallTakesNotAll(takes: nat -> int, size: int, k: nat)
    requires AllTaken(takes, size, k) && Answered(takes, k) < size && !(1 <= takes(k) <= size - Answered(takes, k))
    ensures !TakesAll(takes, size)
  {
    hide Answered;
    forall n: nat | AllTaken(takes, size, n) ensures Answered(takes, n) != size {
      if n < k {
        AnsweredGrows(takes, size, n, k);
      }
    }
  }

  class SerialWorker {
    const log: RawLogWriter
    /** `_serial is not None`, and its `is_open`. */
    var hasDevice: bool
    var deviceOpen: bool
    var released: bool
    var port: Option<string>
    var baudrate: nat
    var reading: bool
    /** What the device accepted. */
    var sent: seq<byte>
    var captureGate: bool
    var captureActive: bool
    var captureSentinel: string
    var captureLines: seq<string>

    constructor (log: RawLogWriter)
      requires log.Valid() && !log.isOpen
      ensures this.log == log && Idle() && !released && port == None && CaptureClear() && !captureGate
    {
      this.log := log;
      hasDevice, deviceOpen, released, port, baudrate, reading := false, false, false, None, 115200, false;
      sent, captureGate, captureActive, captureSentinel, captureLines := [], false, false, "", [];
    }

    predicate Idle()
      reads this, log
    {
      !hasDevice && !log.isOpen
    }

    predicate Running()
      reads this, log
    {
      hasDevice && deviceOpen && log.isOpen && reading
    }

    predicate Holding()
      reads this
    {
      hasDevice && deviceOpen
    }

    /** The promise behind the handoff: a released port is in nobody's hands here. */
    predicate HandoffOk()
      reads this, log
    {
      released ==> Idle()
    }

    predicate Writable()
      reads this
    {
      !released && hasDevice && deviceOpen
    }

    predicate CaptureClear()
      reads this
    {
      !captureActive && captureSentinel == "" && captureLines == []
    }

    /** The device is let go in every case; the log is closed unless the device's close raised. */
    method Close(w: World) returns (r: Outcome)
      requires log.Valid()
      modifies this`hasDevice, this`deviceOpen, this`released, this`reading, log
      ensures r == CloseOutcome(log.setup, old(log.View()), old(Holding()), w)
      ensures r.Done? <==> !(old(Holding()) && w.closeRaises) && CanSync(log.setup, old(log.View()))
      ensures log.Valid() && !hasDevice
      ensures log.View() == if r == Raised(ClosingDevice) then old(log.View()) else Closed(log.setup, old(log.View())).0
      ensures r.Done? ==> Idle() && !released && !reading
      ensures r.Raised? ==> released == old(released) && (Idle() <==> !KeepsOldLog(old(log.View()), old(Holding()), w))
      ensures old(HandoffOk()) ==> HandoffOk()
    {
      hide Ok, Closed;
      CloseSucceedsIff(log.setup, log.View());
      if hasDevice {
        var held := deviceOpen;
        hasDevice, deviceOpen := false, false;
        if held && w.closeRaises {
          return Raised(ClosingDevice);
        }
      }
      reading := false;
      var synced := log.CloseSession();
      if !synced {
        return Raised(SyncingLog);
      }
      released := false;
      r := Done;
    }

    /** Device, session log, reader thread; the device is unwound if there is no log, but not if there is no thread. */
    method Connect(port: string, baudrate: nat, timestamp: string, w: World) returns (r: Outcome)
      requires log.Valid() && Idle()
      modifies this`hasDevice, this`deviceOpen, this`released, this`reading, this`port, this`baudrate, log
      ensures r == ConnectOutcome(log.setup, old(log.View()), timestamp, w)
      ensures r.Done? <==> w.opens && CanStart(log.setup, old(log.View()), timestamp) && w.spawns
      ensures log.Valid() && !released
      ensures log.View() == if w.opens then Started(log.setup, old(log.View()), timestamp).0 else old(log.View())
      ensures r.Done? ==> Running()
      ensures r == Raised(OpeningDevice) ==> this.port == old(this.port) && this.baudrate == old(this.baudrate)
      ensures r != Raised(OpeningDevice) ==> this.port == Some(port) && this.baudrate == baudrate
      ensures r.Raised? ==> (Idle() <==> r.at != StartingThread)
      ensures r == Raised(StartingThread) ==> Holding() && log.isOpen && reading == old(reading)
    {
      hide SomeNameFree, Ok, Started, CleansWell, StaysPruned, Spaced, InOrder, Stream, Segments;
      released := false;
      if !w.opens {
        return Raised(OpeningDevice);
      }
      hasDevice, deviceOpen := true, true;
      this.port, this.baudrate := Some(port), baudrate;
      var started := log.StartSession(timestamp);
      if !started {
        hasDevice, deviceOpen := false, false;
        return Raised(StartingLog);
      }
      if !w.spawns {
        return Raised(StartingThread);
      }
      reading := true;
      r := Done;
    }

    /** How it ends is a function of the entry state and the world. A failed open leaves neither device nor log exactly
        unless the old device could not be closed with its log open, or the reader thread could not be started. */
    method Open(port: string, baudrate: nat, timestamp: string, w: World) returns (r: Outcome)
      requires log.Valid()
      modifies this`hasDevice, this`deviceOpen, this`released, this`reading, this`port, this`baudrate, log
      ensures r == OpenOutcome(log.setup, old(log.View()), old(Holding()), timestamp, w)
      ensures r.Done? <==> && !(old(Holding()) && w.closeRaises) && CanSync(log.setup, old(log.View()))
                           && w.opens && CanStart(log.setup, Closed(log.setup, old(log.View())).0, timestamp) && w.spawns
      ensures log.Valid()
      ensures r.Done? ==> Running() && !released
      ensures r.Raised? ==>
                (Idle() <==> !KeepsOldLog(old(log.View()), old(Holding()), w)
                             && !LacksReader(log.setup, old(log.View()), old(Holding()), timestamp, w))
      ensures r == Raised(StartingThread) ==> Holding() && log.isOpen && !released && !reading
      ensures r.Done? || r.at in {StartingLog, StartingThread} ==> this.port == Some(port) && this.baudrate == baudrate
      ensures r.Raised? && r.at in {ClosingDevice, SyncingLog, OpeningDevice} ==>
                this.port == old(this.port) && this.baudrate == old(this.baudrate)
      ensures r.Done? || r.at !in {ClosingDevice, SyncingLog} ==>
                log.View() == if w.opens then Started(log.setup, Closed(log.setup, old(log.View())).0, timestamp).0
                              else Closed(log.setup, old(log.View())).0
      ensures old(HandoffOk()) ==> HandoffOk()
    {
      hide Ok, Started, Closed;
      r := Close(w);
      if r.Done? {
        r := Connect(port, baudrate, timestamp, w);
      }
    }

    method Release(w: World) returns (r: Outcome)
      requires log.Valid()
      modifies this`hasDevice, this`deviceOpen, this`released, this`reading, this`port, this`baudrate, log
      ensures r == if !old(Holding()) then Raised(Refused) else CloseOutcome(log.setup, old(log.View()), true, w)
      ensures r.Done? <==> old(Holding()) && !w.closeRaises && CanSync(log.setup, old(log.View()))
      ensures log.Valid() && port == old(port) && baudrate == old(baudrate)
      ensures r == Raised(Refused) ==> hasDevice == old(hasDevice) && log.View() == old(log.View())
      ensures r.Done? ==> released && Idle() && log.View() == Closed(log.setup, old(log.View())).0
      ensures r.Raised? ==> released == old(released)
      ensures old(HandoffOk()) ==> HandoffOk()
    {
      hide Ok, Closed;
      if !hasDevice || !deviceOpen {
        return Raised(Refused);
      }
      var p, b := port, baudrate;
      r := Close(w);
      if r.Raised? {
        return;
      }
      port, baudrate, released := p, b, true;
    }

    /** A failed reacquire stays released, with the same port; and a released port is in nobody's hands afterwards exactly
        unless it was the reader thread that could not be started. */
    method Reacquire(timestamp: string, w: World) returns (r: Outcome)
      requires log.Valid()
      modifies this`hasDevice, this`deviceOpen, this`released, this`reading, this`port, this`baudrate, log
      ensures r == if !old(released) || old(port) == None || old(port) == Some("") then Raised(Refused)
                   else OpenOutcome(log.setup, old(log.View()), old(Holding()), timestamp, w)
      ensures r.Done? <==> && old(released) && old(port) != None && old(port) != Some("")
                           && !(old(Holding()) && w.closeRaises) && CanSync(log.setup, old(log.View()))
                           && w.opens && CanStart(log.setup, Closed(log.setup, old(log.View())).0, timestamp) && w.spawns
      ensures log.Valid() && port == old(port) && baudrate == old(baudrate)
      ensures r.Done? ==> Running() && !released
      ensures r.Raised? ==> released == old(released)
      ensures r == Raised(StartingThread) ==> Holding() && log.isOpen
      ensures r == Raised(Refused) ==> log.View() == old(log.View())
      ensures old(HandoffOk()) ==>
                (HandoffOk() <==> r == Raised(Refused)
                                  || !LacksReader(log.setup, old(log.View()), old(Holding()), timestamp, w))
    {
      hide Ok, Started, Closed;
      if !released || port == None || port == Some("") {
        return Raised(Refused);
      }
      var p, b := port, baudrate;
      r := Open(p.value, b, timestamp, w);
      if r.Raised? {
        port, baudrate, released := p, b, true;
      }
    }

    /** Refused when closed or released; otherwise the device gets the payload once and in order, all of it unless a
        write makes no progress. `takes` says what the device's writes return. */
    method WriteRaw(data: seq<byte>, takes: nat -> int) returns (r: Outcome, ghost count: nat, ghost asked: nat)
      modifies this`sent
      ensures r == Raised(Refused) <==> !Writable()
      ensures r.Raised? ==> r.at.Refused? || r.at.Writing?
      ensures count <= |data| && sent == old(sent) + data[..count]
      ensures r == Raised(Refused) ==> count == 0
      ensures r.Done? ==> count == |data|
      ensures r == Raised(Writing) ==> count < |data|
      // it is done exactly if every write it asked for took at least a byte and no more than was left
      ensures Writable() ==>
                (r.Done? <==> AllTaken(takes, |data|, asked)) && (r.Done? <==> TakesAll(takes, |data|))
    {
      hide AllTaken, Answered;
      NoneTaken(takes, |data|);
      count, asked := 0, 0;
      if released || !hasDevice || !deviceOpen {
        return Raised(Refused), 0, 0;
      }
      var remaining, k := data, 0;
      while remaining != []
        invariant count <= |data| && remaining == data[count..]
        invariant sent == old(sent) + data[..count]
        invariant asked == k && count == Answered(takes, k) && AllTaken(takes, |data|, k)
        decreases |remaining|
      {
        var written := takes(k);
        OneMoreTaken(takes, |data|, k);
        k := k + 1;
        asked := k;
        if written <= 0 || written > |remaining| {
          StallTakesNotAll(takes, |data|, asked - 1);
          return Raised(Writing), count, asked;
        }
        assert data[..count] + remaining[..written] == data[..count + written];
        sent := sent + remaining[..written];
        count := count + written;
        remaining := remaining[written..];
      }
      r := Done;
    }

    /** One call as its caller sees it; the interleavings with other callers are in `Capture`. A taken gate is waited for,
        and the call goes on if it is given back in time (`gateFreed`); `stillOpen` is what the second check of the port
        finds, `during` what the reader delivers while the capture is armed. On every exit the capture state is clear
        and the gate given back, unless another call still has it. */
    method CaptureCommand(payload: seq<byte>, cmd: string, sentinel: string, takes: nat -> int,
                          gateFreed: bool, stillOpen: bool, during: seq<string>)
      returns (r: Outcome, output: seq<string>)
      requires !captureGate ==> CaptureClear()
      modifies this`sent, this`captureGate, this`captureActive, this`captureSentinel, this`captureLines
      ensures !Writable() ==> r == Raised(Refused) && sent == old(sent) && captureGate == old(captureGate)
      ensures Writable() && old(captureGate) && !gateFreed ==>
                && r == Raised(Busy) && captureGate && sent == old(sent) && captureActive == old(captureActive)
                && captureSentinel == old(captureSentinel) && captureLines == old(captureLines)
      ensures Writable() && (!old(captureGate) || gateFreed) ==> !captureGate && CaptureClear()
      ensures Writable() && (!old(captureGate) || gateFreed) ==>
                && (!stillOpen <==> r == Raised(Refused)) && r != Raised(Busy)
                && (r.Done? <==> stillOpen && TakesAll(takes, |payload|) && Capture.Finished(during, sentinel))
                && (r.Done? ==> sent == old(sent) + payload && Capture.Finished(during, sentinel)
                                && output == Capture.Output(during, cmd, sentinel))
                && (r == Raised(TimedOut) ==> sent == old(sent) + payload && !Capture.Finished(during, sentinel))
      ensures old(sent) <= sent <= old(sent) + payload
    {
      hide TakesAll, AllTaken, Capture.Finished;
      output := [];
      if !Writable() {
        return Raised(Refused), [];
      }
      if captureGate && !gateFreed {
        return Raised(Busy), [];
      }
      captureGate := true;
      captureActive, captureSentinel, captureLines := false, "", [];
      if !stillOpen {
        captureGate := false;
        return Raised(Refused), [];
      }
      captureLines, captureSentinel, captureActive := [], sentinel, true;
      ghost var count: nat, asked: nat;
      r, count, asked := WriteRaw(payload, takes);
      if r.Done? {
        captureLines := captureLines + during;
        assert captureLines == during;
        if Capture.Finished(captureLines, sentinel) {
          output := Capture.Output(captureLines, cmd, sentinel);
        } else {
          r := Raised(TimedOut);
        }
      }
      captureActive, captureSentinel, captureLines := false, "", [];
      captureGate := false;
    }
  }

  // ------------------------------------------------------------------ the failing calls

  const GOOD_DEVICE := Device((n: nat) => n, (n: nat) => 1, (n: nat) => true, (n: nat) => true, (n: nat) => true, (n: nat) => true)

  lemma GoodDeviceStarts(u: Setup, l: Log, stamp: string)
    requires u.device == GOOD_DEVICE && SegmentName(stamp, 1) !in l.dir
    ensures Started(u, l, stamp).1
    ensures Started(u, l, stamp).0.dir.Keys <= l.dir.Keys + {SegmentName(stamp, 1)}
  {
    hide SegmentName, Listing, Examined;
    assert Token(stamp, 1) == stamp;
  }

  lemma GoodDeviceCloses(u: Setup, l: Log)
    requires u.device == GOOD_DEVICE
    ensures Closed(u, l).1 && Closed(u, l).0.dir.Keys <= l.dir.Keys
  {
    hide Listing, Examined;
  }

  /** A first open whose reader thread cannot be started leaves device and log behind. */
  method FailedOpenLeavesDevice() returns (w: SerialWorker)
    ensures w.Holding() && w.log.isOpen && !w.reading
  {
    var log := new RawLogWriter(GOOD_DEVICE, 4, 8, map[], 0, []);
    w := new SerialWorker(log);
    hide Ok, Started, Closed, SegmentName, Stream, Segments;
    GoodDeviceCloses(log.setup, log.View());
    GoodDeviceStarts(log.setup, Closed(log.setup, log.View()).0, "a");
    var r := w.Open("tty", 9600, "a", World(false, true, false));
  }

  /** After a handoff, a reacquire whose reader thread cannot be started calls the port released and holds it. */
  method FailedReacquireHoldsPort() returns (w: SerialWorker)
    ensures w.released && w.Holding() && w.log.isOpen
  {
    var log := new RawLogWriter(GOOD_DEVICE, 4, 8, map[], 0, []);
    w := new SerialWorker(log);
    hide Ok, Started, Closed, SegmentName, Stream, Segments;
    ghost var u, first := log.setup, log.View();
    GoodDeviceCloses(u, first);
    ghost var closed := Closed(u, first).0;
    GoodDeviceStarts(u, closed, "a");
    var r := w.Open("tty", 9600, "a", World(false, true, true));
    ghost var open := log.View();
    GoodDeviceCloses(u, open);
    r := w.Release(World(false, true, true));
    GoodDeviceCloses(u, log.View());
    NamesDiffer();
    GoodDeviceStarts(u, Closed(u, log.View()).0, "bb");
    r := w.Reacquire("bb", World(false, true, false));
  }

  lemma NamesDiffer()
    ensures SegmentName("a", 1) != SegmentName("bb", 1)
  {
    assert |SegmentName("a", 1)| != |SegmentName("bb", 1)|;
  }
}
