/** Command captures as a step relation: callers that queue for one serial channel, and a reader that delivers lines. */
module Capture {
  import opened Common

  // ------------------------------------------------------------------------ output

  predicate Contains(line: string, part: string) {
    exists i :: 0 <= i <= |line| - |part| && line[i..][..|part|] == part
  }

  predicate IsBlank(c: char) {
    c in {' ', '\t', '\n', '\r'}
  }

  function Strip(s: string): string {
    if s != "" && IsBlank(s[0]) then Strip(s[1..])
    else if s != "" && IsBlank(s[|s| - 1]) then Strip(s[..|s| - 1])
    else s
  }

  predicate Finished(lines: seq<string>, sentinel: string) {
    exists i :: 0 <= i < |lines| && Contains(lines[i], sentinel)
  }

  /** The lines without the sentinel's and the command's own echo. */
  function Output(lines: seq<string>, cmd: string, sentinel: string): seq<string> {
    if lines == [] then []
    else
      Output(lines[..|lines| - 1], cmd, sentinel)
      + (if !Contains(lines[|lines| - 1], sentinel) && Strip(lines[|lines| - 1]) != cmd then [lines[|lines| - 1]] else [])
  }

  predicate Kept(line: string, cmd: string, sentinel: string) {
    !Contains(line, sentinel) && Strip(line) != cmd
  }

  /** The output is the in-order selection of exactly the lines that neither hold the sentinel nor are the command. */
  lemma {:induction false} OutputIsSelection(lines: seq<string>, cmd: string, sentinel: string)
    ensures Subsequence(Output(lines, cmd, sentinel), lines)
    ensures forall x :: multiset(Output(lines, cmd, sentinel))[x] == if Kept(x, cmd, sentinel) then multiset(lines)[x] else 0
  {
    if lines != [] {
      var init, x := lines[..|lines| - 1], lines[|lines| - 1];
      assert lines == init + [x];
      OutputIsSelection(init, cmd, sentinel);
      SubsequenceAppend(Output(init, cmd, sentinel), init, x);
      assert Output(lines, cmd, sentinel) == if Kept(x, cmd, sentinel) then Output(init, cmd, sentinel) + [x] else Output(init, cmd, sentinel);
    }
  }

  predicate AllBlank(s: string) {
    forall i :: 0 <= i < |s| ==> IsBlank(s[i])
  }

  /** Blanks around it, and none at its ends. */
  ghost predicate IsStripped(s: string, front: string, r: string, back: string) {
    && s == front + r + back && AllBlank(front) && AllBlank(back)
    && (r != "" ==> !IsBlank(r[0]) && !IsBlank(r[|r| - 1]))
  }

  lemma BlankBefore(x: char, s: string, front: string, r: string, back: string)
    requires IsBlank(x) && IsStripped(s, front, r, back)
    ensures IsStripped([x] + s, [x] + front, r, back)
  {
  }

  lemma BlankBehind(x: char, s: string, front: string, r: string, back: string)
    requires IsBlank(x) && IsStripped(s, front, r, back)
    ensures IsStripped(s + [x], front, r, back + [x])
  {
  }

  lemma NothingToStrip(s: string)
    requires s != "" ==> !IsBlank(s[0]) && !IsBlank(s[|s| - 1])
    ensures IsStripped(s, "", s, "")
  {
    assert s == "" + s + "";
  }

  /** Stripping takes blanks off both ends, and all of them. */
  lemma {:induction false} StripIsStripped(s: string) returns (front: string, back: string)
    ensures IsStripped(s, front, Strip(s), back)
    decreases |s|
  {
    hide IsStripped;
    front, back := "", "";
    if s != "" && IsBlank(s[0]) {
      front, back := StripIsStripped(s[1..]);
      BlankBefore(s[0], s[1..], front, Strip(s), back);
      front := [s[0]] + front;
      assert s == [s[0]] + s[1..];
    } else if s != "" && IsBlank(s[|s| - 1]) {
      front, back := StripIsStripped(s[..|s| - 1]);
      BlankBehind(s[|s| - 1], s[..|s| - 1], front, Strip(s), back);
      back := back + [s[|s| - 1]];
      assert s == s[..|s| - 1] + [s[|s| - 1]];
    } else {
      NothingToStrip(s);
    }
  }

  lemma FinishedStep(lines: seq<string>, x: string, sentinel: string)
    ensures Finished(lines + [x], sentinel) <==> Finished(lines, sentinel) || Contains(x, sentinel)
  {
    var longer := lines + [x];
    if Finished(lines, sentinel) {
      var i :| 0 <= i < |lines| && Contains(lines[i], sentinel);
      assert longer[i] == lines[i];
    }
    assert longer[|lines|] == x;
  }

  // ------------------------------------------------------------------------- state

  datatype Result = Lines(lines: seq<string>) | Refused | Busy | NotWritten | TimedOut

  /** Where a call of `capture_command` stands. */
  datatype Phase =
    | Queued              // checked once, waiting for the gate
    | Holding             // has the gate
    | Armed               // the capture is active
    | Waiting             // the command is written
    | Woken               // done was set, or the time was up
    | Clearing(r: Result) // about to clear the capture state
    | Leaving(r: Result)  // about to give the gate back

  datatype Call = Call(cmd: string, sentinel: string, at: Phase)

  /** `since` records the lines delivered since the last arming; `sent` the commands the port took. */
  datatype State = State(
    calls: map<nat, Call>, gate: Option<nat>,
    active: bool, sentinel: string, lines: seq<string>, done: bool,
    writable: bool, sent: seq<string>, since: seq<string>)

  const IDLE := State(map[], None, false, "", [], false, false, [], [])

  datatype CaptureStep =
    | Enter(c: nat, cmd: string, sentinel: string)
    | Acquire(c: nat)
    | GiveUp(c: nat)             // the gate was not given back in time
    | Arm(c: nat)
    | Write(c: nat, ok: bool)
    | Wake(c: nat)               // done, or the time is up
    | Collect(c: nat)
    | Clear(c: nat)
    | Leave(c: nat)
    | Deliver(line: string)      // the reader, under the worker's lock
    | Port(writable: bool)       // open, close, release or reacquire

  ghost predicate IsAt(s: State, c: nat, p: Phase) {
    c in s.calls && s.calls[c].at == p
  }

  ghost predicate Enabled(s: State, step: CaptureStep) {
    match step
    case Enter(c, _, sentinel) => c !in s.calls && sentinel != ""
    case Acquire(c) => IsAt(s, c, Queued) && s.gate == None
    case GiveUp(c) => IsAt(s, c, Queued)
    case Arm(c) => IsAt(s, c, Holding)
    case Write(c, _) => IsAt(s, c, Armed)
    case Wake(c) => IsAt(s, c, Waiting)
    case Collect(c) => IsAt(s, c, Woken)
    case Clear(c) => c in s.calls && s.calls[c].at.Clearing?
    case Leave(c) => c in s.calls && s.calls[c].at.Leaving?
    case _ => true
  }

  function Moved(s: State, c: nat, p: Phase): State
    requires c in s.calls
  {
    s.(calls := s.calls[c := s.calls[c].(at := p)])
  }

  function Next(s: State, step: CaptureStep): State
    requires Enabled(s, step)
  {
    match step
    case Enter(c, cmd, sentinel) => if s.writable then s.(calls := s.calls[c := Call(cmd, sentinel, Queued)]) else s
    case Acquire(c) => Moved(s, c, Holding).(gate := Some(c))
    case GiveUp(c) => s.(calls := s.calls - {c})
    case Arm(c) =>
      if !s.writable then Moved(s, c, Leaving(Refused))
      else Moved(s, c, Armed).(active := true, sentinel := s.calls[c].sentinel, lines := [], done := false, since := [])
    case Write(c, ok) =>
      if !s.writable then Moved(s, c, Clearing(Refused))
      else if !ok then Moved(s, c, Clearing(NotWritten))
      else Moved(s, c, Waiting).(sent := s.sent + [s.calls[c].cmd])
    case Wake(c) => Moved(s, c, Woken)
    case Collect(c) =>
      var call := s.calls[c];
      Moved(s, c, Clearing(if Finished(s.lines, call.sentinel) then Lines(Output(s.lines, call.cmd, call.sentinel)) else TimedOut))
    case Clear(c) => Moved(s, c, Leaving(s.calls[c].at.r)).(active := false, sentinel := "", lines := [])
    case Leave(c) => s.(calls := s.calls - {c}, gate := None)
    case Deliver(line) =>
      if !s.active then s.(since := s.since + [line])
      else s.(since := s.since + [line], lines := s.lines + [line],
              done := s.done || (s.sentinel != "" && Contains(line, s.sentinel)))
    case Port(writable) => s.(writable := writable)
  }

  // --------------------------------------------------------------------- invariant

  /** Between arming and clearing. */
  predicate Inside(p: Phase) {
    p.Armed? || p.Waiting? || p.Woken? || p.Clearing?
  }

  predicate HoldsGate(p: Phase) {
    !p.Queued?
  }

  ghost predicate GateOk(s: State) {
    && (forall c :: c in s.calls ==> (HoldsGate(s.calls[c].at) <==> s.gate == Some(c)))
    && (s.gate.Some? ==> s.gate.value in s.calls)
    && (forall c :: c in s.calls ==> s.calls[c].sentinel != "")
  }

  /** Active exactly while the gate's holder is between arming and clearing, and clear otherwise. */
  ghost predicate CaptureOk(s: State) {
    && (s.active <==> s.gate.Some? && s.gate.value in s.calls && Inside(s.calls[s.gate.value].at))
    && (!s.active ==> s.sentinel == "" && s.lines == [])
    && (s.active ==> s.gate.Some? && s.gate.value in s.calls && s.sentinel == s.calls[s.gate.value].sentinel)
    && (s.active ==> s.lines == s.since && (s.done <==> Finished(s.lines, s.sentinel)))
  }

  ghost predicate SentOk(s: State) {
    forall c :: c in s.calls && Written(s.calls[c].at) ==> s.sent != [] && s.sent[|s.sent| - 1] == s.calls[c].cmd
  }

  /** The command went out, and nothing of another call since. */
  predicate Written(p: Phase) {
    p.Waiting? || p.Woken? || (p.Clearing? && (p.r.Lines? || p.r.TimedOut?)) || (p.Leaving? && (p.r.Lines? || p.r.TimedOut?))
  }

  ghost predicate Ok(s: State) {
    GateOk(s) && CaptureOk(s) && SentOk(s)
  }

  /** A call moves on with the gate it has. */
  lemma MovedKeepsGate(s: State, c: nat, p: Phase)
    requires GateOk(s) && c in s.calls && (HoldsGate(p) <==> HoldsGate(s.calls[c].at))
    ensures GateOk(Moved(s, c, p))
  {
  }

  /** Only the calls and the gate matter for it. */
  lemma SameGate(s: State, t: State)
    requires GateOk(s) && t.calls == s.calls && t.gate == s.gate
    ensures GateOk(t)
  {
  }

  lemma InsideKeepsGate(s: State, step: CaptureStep)
    requires GateOk(s) && Enabled(s, step)
    requires step.Arm? || step.Write? || step.Wake? || step.Collect? || step.Clear?
    ensures GateOk(Next(s, step))
  {
    var t := Next(s, step);
    MovedKeepsGate(s, step.c, t.calls[step.c].at);
    SameGate(Moved(s, step.c, t.calls[step.c].at), t);
  }

  lemma StepKeepsGate(s: State, step: CaptureStep)
    requires GateOk(s) && Enabled(s, step)
    ensures GateOk(Next(s, step))
  {
    if step.Arm? || step.Write? || step.Wake? || step.Collect? || step.Clear? {
      hide GateOk, Next;
      InsideKeepsGate(s, step);
    }
  }

  lemma DeliverKeepsCapture(s: State, line: string)
    requires Ok(s)
    ensures CaptureOk(Next(s, Deliver(line)))
  {
    hide Finished, Contains;
    if s.active {
      FinishedStep(s.lines, line, s.sentinel);
    }
  }

  lemma ArmKeepsCapture(s: State, c: nat)
    requires Ok(s) && Enabled(s, Arm(c))
    ensures CaptureOk(Next(s, Arm(c)))
  {
  }

  lemma StepKeepsCapture(s: State, step: CaptureStep)
    requires Ok(s) && Enabled(s, step)
    ensures CaptureOk(Next(s, step))
  {
    hide Finished, Output, Contains, SentOk;
    match step {
      case Deliver(line) => DeliverKeepsCapture(s, line);
      case Arm(c) => ArmKeepsCapture(s, c);
      case _ =>
    }
  }

  lemma StepKeepsSent(s: State, step: CaptureStep)
    requires GateOk(s) && SentOk(s) && Enabled(s, step)
    ensures SentOk(Next(s, step))
  {
    hide Finished, Output, Contains;
  }

  // -------------------------------------------------------------------------- runs

  ghost predicate Possible(s: State, steps: seq<CaptureStep>)
    decreases |steps|
  {
    steps == [] || (Enabled(s, steps[0]) && Possible(Next(s, steps[0]), steps[1..]))
  }

  function Run(s: State, steps: seq<CaptureStep>): State
    requires Possible(s, steps)
    decreases |steps|
  {
    if steps == [] then s else Run(Next(s, steps[0]), steps[1..])
  }

  lemma {:induction false} AlwaysOk(s: State, steps: seq<CaptureStep>)
    requires Ok(s) && Possible(s, steps)
    ensures Ok(Run(s, steps))
    decreases |steps|
  {
    hide GateOk, CaptureOk, SentOk;
    if steps != [] {
      StepKeepsGate(s, steps[0]);
      StepKeepsCapture(s, steps[0]);
      StepKeepsSent(s, steps[0]);
      AlwaysOk(Next(s, steps[0]), steps[1..]);
    }
  }

  lemma IdleIsOk()
    ensures Ok(IDLE)
  {
  }

  /** However callers, reader and port interleave: at most one call is between arming and clearing; the capture state is
      clear whenever the gate is free; and what a capture holds is exactly the lines delivered since it was armed. */
  lemma OneCaptureAtATime(steps: seq<CaptureStep>, c: nat, d: nat)
    requires Possible(IDLE, steps)
    requires var s := Run(IDLE, steps); c in s.calls && d in s.calls && Inside(s.calls[c].at)
    ensures var s := Run(IDLE, steps);
            && (Inside(s.calls[d].at) ==> c == d)
            && s.gate == Some(c) && s.active && s.lines == s.since && s.sentinel == s.calls[c].sentinel
            && (Written(s.calls[c].at) ==> s.sent != [] && s.sent[|s.sent| - 1] == s.calls[c].cmd)
  {
    hide Finished;
    IdleIsOk();
    AlwaysOk(IDLE, steps);
  }

  lemma ClearWhenFree(steps: seq<CaptureStep>)
    requires Possible(IDLE, steps) && Run(IDLE, steps).gate == None
    ensures var s := Run(IDLE, steps); !s.active && s.sentinel == "" && s.lines == []
  {
    hide Finished;
    IdleIsOk();
    AlwaysOk(IDLE, steps);
  }

  /** What a call returns: the lines delivered between its arming and its collecting, without the sentinel's and the
      command's own, if the sentinel is among them; it times out otherwise. */
  lemma CollectReturnsTheLinesSince(steps: seq<CaptureStep>, c: nat)
    requires Possible(IDLE, steps) && Enabled(Run(IDLE, steps), Collect(c))
    ensures var s := Run(IDLE, steps);
            var call := s.calls[c];
            Next(s, Collect(c)).calls[c].at
            == Clearing(if Finished(s.since, call.sentinel) then Lines(Output(s.since, call.cmd, call.sentinel)) else TimedOut)
  {
    hide Finished, Output;
    IdleIsOk();
    AlwaysOk(IDLE, steps);
  }

  // ---------------------------------------------------------------------- progress

  /** The next step of a call that has the gate. None of them waits for anybody. */
  function Onward(c: nat, p: Phase): CaptureStep
    requires HoldsGate(p)
  {
    match p
    case Holding => Arm(c)
    case Armed => Write(c, false)
    case Waiting => Wake(c)
    case Woken => Collect(c)
    case Clearing(_) => Clear(c)
    case Leaving(_) => Leave(c)
  }

  function Rank(p: Phase): nat {
    match p
    case Queued => 6
    case Holding => 5
    case Armed => 4
    case Waiting => 3
    case Woken => 2
    case Clearing(_) => 1
    case Leaving(_) => 0
  }

  lemma OnwardIsEnabled(s: State, c: nat)
    requires GateOk(s) && s.gate == Some(c)
    ensures c in s.calls && HoldsGate(s.calls[c].at) && Enabled(s, Onward(c, s.calls[c].at))
    ensures var t := Next(s, Onward(c, s.calls[c].at));
            if s.calls[c].at.Leaving? then t.gate == None
            else t.gate == Some(c) && c in t.calls && Rank(t.calls[c].at) < Rank(s.calls[c].at)
  {
    hide Finished, Output, Contains;
  }

  lemma GoesOnward(s: State, c: nat)
    requires Ok(s) && s.gate == Some(c)
    ensures c in s.calls && HoldsGate(s.calls[c].at) && Enabled(s, Onward(c, s.calls[c].at))
    ensures var t := Next(s, Onward(c, s.calls[c].at));
            && Ok(t)
            && if s.calls[c].at.Leaving? then t.gate == None
               else t.gate == Some(c) && c in t.calls && Rank(t.calls[c].at) < Rank(s.calls[c].at)
  {
    hide GateOk, CaptureOk, SentOk, Enabled, Next, Onward, Rank, HoldsGate;
    OnwardIsEnabled(s, c);
    var step := Onward(c, s.calls[c].at);
    StepKeepsGate(s, step);
    StepKeepsCapture(s, step);
    StepKeepsSent(s, step);
  }

  /** From every reachable state the holder alone can give the gate back, so queued calls are not shut out. */
  lemma {:induction false} GateIsGivenBack(s: State, c: nat) returns (steps: seq<CaptureStep>)
    requires Ok(s) && s.gate == Some(c)
    ensures Possible(s, steps) && Run(s, steps).gate == None && |steps| <= Rank(s.calls[c].at) + 1
    decreases Rank(s.calls[c].at)
  {
    var step := Onward(c, s.calls[c].at);
    var t := Next(s, step);
    GoesOnward(s, c);
    hide Ok, Next, Onward, Enabled;
    if s.calls[c].at.Leaving? {
      steps := [step];
      assert steps[1..] == [];
      assert Run(s, steps) == t;
    } else {
      var rest := GateIsGivenBack(t, c);
      steps := [step] + rest;
      assert steps[1..] == rest;
      assert Possible(s, steps) && Run(s, steps) == Run(t, rest);
    }
  }

  // -------------------------------------------------------------- one undisturbed call

  function Deliveries(lines: seq<string>): seq<CaptureStep> {
    if lines == [] then [] else [Deliver(lines[0])] + Deliveries(lines[1..])
  }

  lemma {:induction false} DeliveriesArrive(s: State, lines: seq<string>)
    requires s.active
    ensures Possible(s, Deliveries(lines))
    ensures var t := Run(s, Deliveries(lines));
            && t.calls == s.calls && t.gate == s.gate && t.active && t.writable == s.writable
            && t.lines == s.lines + lines && t.sentinel == s.sentinel
    decreases |lines|
  {
    hide Finished, Contains;
    var steps := Deliveries(lines);
    if lines == [] {
      assert s.lines + lines == s.lines;
    } else {
      var t := Next(s, Deliver(lines[0]));
      assert steps[1..] == Deliveries(lines[1..]);
      DeliveriesArrive(t, lines[1..]);
      assert s.lines + [lines[0]] + lines[1..] == s.lines + lines;
    }
  }

  /** The state in which call `c` has written its command and nothing has come back yet. */
  function Asked(s: State, c: nat, cmd: string, sentinel: string): State {
    s.(calls := s.calls[c := Call(cmd, sentinel, Waiting)], gate := Some(c), active := true, sentinel := sentinel,
       lines := [], done := false, sent := s.sent + [cmd], since := [])
  }

  lemma CallIsMade(s: State, c: nat, cmd: string, sentinel: string) returns (steps: seq<CaptureStep>)
    requires c !in s.calls && s.gate == None && s.writable && sentinel != ""
    ensures Possible(s, steps) && Run(s, steps) == Asked(s, c, cmd, sentinel)
  {
    steps := [Enter(c, cmd, sentinel), Acquire(c), Arm(c), Write(c, true)];
    var a := Next(s, steps[0]);
    var b := Next(a, steps[1]);
    var d := Next(b, steps[2]);
    var e := Next(d, steps[3]);
    assert e == Asked(s, c, cmd, sentinel) by { assert e.calls == Asked(s, c, cmd, sentinel).calls; }
    hide Next, Enabled, Asked;
    assert Enabled(s, steps[0]) && Enabled(a, steps[1]) && Enabled(b, steps[2]) && Enabled(d, steps[3]);
    assert steps[1..] == [Acquire(c), Arm(c), Write(c, true)] && steps[1..][1..] == [Arm(c), Write(c, true)]
        && steps[1..][1..][1..] == [Write(c, true)] && steps[1..][1..][1..][1..] == [];
    assert Possible(e, []) && Run(e, []) == e;
    assert Possible(d, steps[3..]) && Run(d, steps[3..]) == e by { assert steps[3..] == steps[1..][1..][1..]; }
    assert Possible(b, steps[2..]) && Run(b, steps[2..]) == e by { assert steps[2..][1..] == steps[3..]; }
    assert Possible(a, steps[1..]) && Run(a, steps[1..]) == e by { assert steps[1..][1..] == steps[2..]; }
  }

  lemma {:induction false} ThenRun(s: State, a: seq<CaptureStep>, b: seq<CaptureStep>)
    requires Possible(s, a) && Possible(Run(s, a), b)
    ensures Possible(s, a + b) && Run(s, a + b) == Run(Run(s, a), b)
    decreases |a|
  {
    hide Enabled, Next;
    if a == [] {
      assert a + b == b;
    } else {
      assert (a + b)[1..] == a[1..] + b;
      ThenRun(Next(s, a[0]), a[1..], b);
    }
  }

  /** A call on a free channel goes through: whatever lines come back, it returns them without its own echo if the sentinel
      is among them, and times out if not. */
  lemma CallGoesThrough(s: State, c: nat, cmd: string, sentinel: string, lines: seq<string>) returns (steps: seq<CaptureStep>)
    requires c !in s.calls && s.gate == None && s.writable && sentinel != ""
    ensures Possible(s, steps)
    ensures IsAt(Run(s, steps), c, Clearing(if Finished(lines, sentinel) then Lines(Output(lines, cmd, sentinel)) else TimedOut))
  {
    hide Finished, Output, Possible, Run;
    var call := CallIsMade(s, c, cmd, sentinel);
    var asked := Asked(s, c, cmd, sentinel);
    DeliveriesArrive(asked, lines);
    var heard := Run(asked, Deliveries(lines));
    assert heard.lines == lines by { assert [] + lines == lines; }
    var last := LastSteps(heard, c);
    ThenRun(asked, Deliveries(lines), last);
    ThenRun(s, call, Deliveries(lines) + last);
    steps := call + (Deliveries(lines) + last);
  }

  lemma LastSteps(s: State, c: nat) returns (steps: seq<CaptureStep>)
    requires IsAt(s, c, Waiting)
    ensures Possible(s, steps)
    ensures var call := s.calls[c];
            IsAt(Run(s, steps), c,
                 Clearing(if Finished(s.lines, call.sentinel) then Lines(Output(s.lines, call.cmd, call.sentinel)) else TimedOut))
  {
    hide Finished, Output;
    steps := [Wake(c), Collect(c)];
    var a := Next(s, Wake(c));
    var b := Next(a, Collect(c));
    assert steps[1..] == [Collect(c)] && steps[1..][1..] == [];
    assert Possible(b, []) && Run(b, []) == b;
    assert Possible(a, steps[1..]) && Run(a, steps[1..]) == b;
  }
}
