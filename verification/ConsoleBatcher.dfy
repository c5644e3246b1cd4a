/** The 50 ms batching window: a pending list, one timer at a time, and timers that fire too late to be cancelled. */
module ConsoleBatcher {
  import opened Common

  /** `counting` timers may still be cancelled; `firing` ones have run out and are waiting for the lock. `fed` records the
      lines since the last reset and `start` how many batches there were then. `batches` are numbered as they are swapped
      out under the lock; their flushes emit them after giving it back, so for a while they are `emitting`, and `order`
      records the numbers as they get through. */
  datatype State = State(pending: seq<string>, timer: Option<nat>, next: nat, counting: set<nat>, firing: set<nat>,
                         fed: seq<string>, start: nat, batches: seq<seq<string>>, emitting: set<nat>, order: seq<nat>)

  const EMPTY := State([], None, 0, {}, {}, [], 0, [], {}, [])

  function CancelTimer(s: State): State {
    s.(timer := None, counting := if s.timer.Some? then s.counting - {s.timer.value} else s.counting)
  }

  function FeedNext(s: State, line: string): State {
    var t := s.(pending := s.pending + [line], fed := s.fed + [line]);
    if s.timer.Some? then t else t.(timer := Some(s.next), next := s.next + 1, counting := s.counting + {s.next})
  }

  /** The locked part of `flush`. */
  function FlushNext(s: State): State {
    if s.pending == [] then CancelTimer(s)
    else CancelTimer(s).(pending := [], batches := s.batches + [s.pending], emitting := s.emitting + {|s.batches|})
  }

  /** The rest of it: `on_event`. */
  function EmitNext(s: State, k: nat): State {
    s.(emitting := s.emitting - {k}, order := s.order + [k])
  }

  function ResetNext(s: State): State {
    CancelTimer(s).(pending := [], fed := [], start := |s.batches|)
  }

  class ConsoleBatcher {
    var pending: seq<string>
    var timer: Option<nat>
    var next: nat
    var counting: set<nat>
    var firing: set<nat>
    ghost var fed: seq<string>
    ghost var start: nat
    ghost var batches: seq<seq<string>>
    ghost var emitting: set<nat>
    ghost var order: seq<nat>

    constructor ()
      ensures View() == EMPTY
    {
      pending, timer, next, counting, firing := [], None, 0, {}, {};
      fed, start, batches, emitting, order := [], 0, [], {}, [];
    }

    ghost function View(): State
      reads this
    {
      State(pending, timer, next, counting, firing, fed, start, batches, emitting, order)
    }

    method EnsureTimer()
      modifies this`timer, this`next, this`counting
      ensures View() == if old(timer).Some? then old(View())
                        else old(View()).(timer := Some(old(next)), next := old(next) + 1, counting := old(counting) + {old(next)})
    {
      if timer.Some? {
        return;
      }
      timer := Some(next);
      counting := counting + {next};
      next := next + 1;
    }

    method CancelLocked()
      modifies this`timer, this`counting
      ensures View() == CancelTimer(old(View()))
    {
      var t := timer;
      timer := None;
      if t.Some? {
        counting := counting - {t.value};
      }
    }

    method Feed(text: string)
      modifies this
      ensures View() == FeedNext(old(View()), text)
      ensures pending == old(pending) + [text] && timer.Some? && (old(timer).Some? ==> timer == old(timer))
      ensures batches == old(batches)
    {
      pending := pending + [text];
      fed := fed + [text];
      EnsureTimer();
    }

    /** The locked part; returns the batch to emit, if any. */
    method Flush() returns (batch: Option<seq<string>>)
      modifies this
      ensures View() == FlushNext(old(View()))
      ensures pending == [] && timer == None
      ensures batches == if old(pending) == [] then old(batches) else old(batches) + [old(pending)]
      ensures batch == if old(pending) == [] then None else Some(old(pending))
    {
      if pending == [] {
        CancelLocked();
        return None;
      }
      var lines := pending;
      pending := [];
      emitting := emitting + {|batches|};
      batches := batches + [lines];
      CancelLocked();
      batch := Some(lines);
    }

    /** The caller has handed batch `k` to `on_event`. */
    ghost method Emitted(k: nat)
      modifies this`emitting, this`order
      ensures View() == EmitNext(old(View()), k)
    {
      emitting, order := emitting - {k}, order + [k];
    }

    method Reset()
      modifies this
      ensures View() == ResetNext(old(View()))
      ensures pending == [] && timer == None && fed == [] && batches == old(batches) && emitting == old(emitting)
    {
      CancelLocked();
      pending := [];
      fed, start := [], |batches|;
    }
  }

  // -------------------------------------------------------------------- all runs

  datatype BatchStep =
    | Feed(line: string)
    | Expire(id: nat)       // the window of a timer ends: it cannot be cancelled any more
    | TimerFlush(id: nat)   // its thread gets the lock
    | ExplicitFlush
    | Emit(k: nat)          // the flush that swapped batch k out emits it
    | Reset

  ghost predicate Enabled(s: State, step: BatchStep) {
    match step
    case Expire(id) => id in s.counting
    case TimerFlush(id) => id in s.firing
    case Emit(k) => k in s.emitting
    case _ => true
  }

  function Next(s: State, step: BatchStep): State {
    match step
    case Feed(line) => FeedNext(s, line)
    case Expire(id) => s.(counting := s.counting - {id}, firing := s.firing + {id})
    case TimerFlush(id) => FlushNext(s.(firing := s.firing - {id}))
    case ExplicitFlush => FlushNext(s)
    case Emit(k) => EmitNext(s, k)
    case Reset => ResetNext(s)
  }

  /** Nothing is lost, doubled or reordered on the way into batches, and no batch is empty. */
  ghost predicate LinesOk(s: State) {
    && s.start <= |s.batches|
    && Flatten(s.batches[s.start..]) + s.pending == s.fed
    && (forall i :: 0 <= i < |s.batches| ==> s.batches[i] != [])
  }

  /** Exactly the non-empty pending list has a timer, and that timer is still going to flush; at most it is counting. */
  ghost predicate TimerOk(s: State) {
    && (s.timer.Some? <==> s.pending != [])
    && (s.timer.Some? ==> s.timer.value in s.counting || s.timer.value in s.firing)
    && (forall id :: id in s.counting ==> s.timer == Some(id))
    && (forall id :: id in s.counting ==> id < s.next)
    && (forall id :: id in s.firing ==> id < s.next)
  }

  ghost predicate Distinct(order: seq<nat>) {
    forall i, j :: 0 <= i < j < |order| ==> order[i] != order[j]
  }

  /** Every batch swapped out is either still being emitted or was emitted once. */
  ghost predicate EmitOk(s: State) {
    && Distinct(s.order)
    && (forall k :: k in s.emitting ==> k < |s.batches|)
    && (forall i :: 0 <= i < |s.order| ==> s.order[i] < |s.batches|)
    && (forall k :: 0 <= k < |s.batches| ==> (k in s.order <==> k !in s.emitting))
  }

  ghost predicate Ok(s: State) {
    LinesOk(s) && TimerOk(s) && EmitOk(s)
  }

  lemma FeedKeepsLines(s: State, line: string)
    requires LinesOk(s)
    ensures LinesOk(FeedNext(s, line))
  {
    assert Flatten(s.batches[s.start..]) + (s.pending + [line]) == (Flatten(s.batches[s.start..]) + s.pending) + [line];
  }

  lemma FlattenSnoc(parts: seq<seq<string>>, x: seq<string>)
    ensures Flatten(parts + [x]) == Flatten(parts) + x
  {
    assert (parts + [x])[..|parts|] == parts;
  }

  lemma FlushKeepsLines(s: State)
    requires LinesOk(s)
    ensures LinesOk(FlushNext(s))
  {
    hide Flatten;
    if s.pending != [] {
      FlattenSnoc(s.batches[s.start..], s.pending);
      assert (s.batches + [s.pending])[s.start..] == s.batches[s.start..] + [s.pending];
    }
  }

  lemma StepKeepsLines(s: State, step: BatchStep)
    requires LinesOk(s) && Enabled(s, step)
    ensures LinesOk(Next(s, step))
  {
    match step {
      case Feed(line) => FeedKeepsLines(s, line);
      case TimerFlush(id) => FlushKeepsLines(s.(firing := s.firing - {id}));
      case ExplicitFlush => FlushKeepsLines(s);
      case Reset => assert s.batches[|s.batches|..] == [];
      case _ =>
    }
  }

  lemma StepKeepsTimer(s: State, step: BatchStep)
    requires TimerOk(s) && Enabled(s, step)
    ensures TimerOk(Next(s, step))
  {
  }

  lemma EmittedOnce(s: State, k: nat)
    requires EmitOk(s) && k in s.emitting
    ensures EmitOk(EmitNext(s, k))
  {
    var order := s.order + [k];
    forall j | 0 <= j < |s.batches| ensures j in order <==> j !in s.emitting - {k} {
      assert j in order <==> j in s.order || j == k;
    }
  }

  lemma StepKeepsEmit(s: State, step: BatchStep)
    requires EmitOk(s) && Enabled(s, step)
    ensures EmitOk(Next(s, step))
  {
    if step.Emit? {
      EmittedOnce(s, step.k);
    }
  }

  lemma StepKeepsOk(s: State, step: BatchStep)
    requires Ok(s) && Enabled(s, step)
    ensures Ok(Next(s, step))
  {
    hide LinesOk, TimerOk, EmitOk, Enabled, Next;
    StepKeepsLines(s, step);
    StepKeepsTimer(s, step);
    StepKeepsEmit(s, step);
  }

  /** A flush that is not disturbed between swap and emission. */
  lemma FlushThenEmit(s: State)
    requires Ok(s)
    ensures Ok(FlushNext(s)) && FlushNext(s).pending == [] && FlushNext(s).timer == None
    ensures s.pending != [] ==>
              && Ok(EmitNext(FlushNext(s), |s.batches|))
              && EmitNext(FlushNext(s), |s.batches|).emitting == s.emitting
  {
    StepKeepsOk(s, ExplicitFlush);
    if s.pending != [] {
      StepKeepsOk(FlushNext(s), Emit(|s.batches|));
      assert |s.batches| !in s.emitting;
    }
  }

  ghost predicate Possible(s: State, steps: seq<BatchStep>)
    decreases |steps|
  {
    steps == [] || (Enabled(s, steps[0]) && Possible(Next(s, steps[0]), steps[1..]))
  }

  function Run(s: State, steps: seq<BatchStep>): State
    decreases |steps|
  {
    if steps == [] then s else Run(Next(s, steps[0]), steps[1..])
  }

  lemma EmptyIsOk()
    ensures Ok(EMPTY)
  {
  }

  /** Under every interleaving the lines fed since the last reset are the batches in the order they were swapped out,
      then the pending list; no batch is empty; pending lines always have a timer that will flush them; and every batch
      is emitted once or still being emitted. */
  lemma {:induction false} AlwaysOk(s: State, steps: seq<BatchStep>)
    requires Ok(s) && Possible(s, steps)
    ensures Ok(Run(s, steps))
    decreases |steps|
  {
    hide Ok, Enabled, Next;
    if steps != [] {
      StepKeepsOk(s, steps[0]);
      AlwaysOk(Next(s, steps[0]), steps[1..]);
    }
  }

  /** The timer that guards a line empties the list when it gets its turn, however late, and so does a late one. */
  lemma TimersDrain(s: State, id: nat)
    requires Ok(s)
    ensures Next(s, TimerFlush(id)).pending == []
    ensures Next(s, TimerFlush(id)).batches == if s.pending == [] then s.batches else s.batches + [s.pending]
    ensures s.pending != [] ==> Enabled(s, Expire(s.timer.value)) || Enabled(s, TimerFlush(s.timer.value))
  {
  }

  // ------------------------------------------------------------------ order of delivery

  /** What `on_event` was given, in order. */
  function Delivered(s: State): seq<seq<string>>
    requires EmitOk(s)
  {
    seq(|s.order|, i requires 0 <= i < |s.order| => s.batches[s.order[i]])
  }

  /** The batches got through as they were swapped out. */
  ghost predicate InSwapOrder(order: seq<nat>) {
    forall i :: 0 <= i < |order| ==> order[i] == i
  }

  /** No batch gets through while an older one is still being emitted. */
  ghost predicate NoOvertaking(s: State, steps: seq<BatchStep>)
    decreases |steps|
  {
    steps == []
    || ((steps[0].Emit? ==> forall j :: j in s.emitting ==> steps[0].k <= j) && NoOvertaking(Next(s, steps[0]), steps[1..]))
  }

  lemma {:induction false} OrderOnlyGrows(s: State, steps: seq<BatchStep>)
    ensures s.order <= Run(s, steps).order
    decreases |steps|
  {
    if steps != [] {
      OrderOnlyGrows(Next(s, steps[0]), steps[1..]);
    }
  }

  /** While order is kept, the batches being emitted are those from the next one on. */
  lemma EmittingIsTheRest(s: State)
    requires EmitOk(s) && InSwapOrder(s.order)
    ensures forall k :: 0 <= k < |s.batches| ==> (k in s.emitting <==> |s.order| <= k)
  {
    forall k | 0 <= k < |s.batches| ensures k in s.emitting <==> |s.order| <= k {
      if k < |s.order| { assert s.order[k] == k; }
    }
  }

  lemma EmitInOrderIff(s: State, k: nat)
    requires EmitOk(s) && k in s.emitting && InSwapOrder(s.order)
    ensures InSwapOrder(s.order + [k]) <==> forall j :: j in s.emitting ==> k <= j
  {
    EmittingIsTheRest(s);
    var order := s.order + [k];
    assert order[|s.order|] == k;
    if k != |s.order| {
      assert |s.order| < k && |s.order| in s.emitting;
    }
  }

  /** Batches are delivered in the order they were swapped out exactly when none overtakes an older one. */
  lemma {:induction false} DeliveryInOrderIff(s: State, steps: seq<BatchStep>)
    requires Ok(s) && Possible(s, steps) && InSwapOrder(s.order)
    ensures InSwapOrder(Run(s, steps).order) <==> NoOvertaking(s, steps)
    decreases |steps|
  {
    hide LinesOk, TimerOk;
    if steps != [] {
      var next := Next(s, steps[0]);
      StepKeepsOk(s, steps[0]);
      if steps[0].Emit? {
        EmitInOrderIff(s, steps[0].k);
      }
      if InSwapOrder(next.order) {
        DeliveryInOrderIff(next, steps[1..]);
      } else {
        OrderOnlyGrows(next, steps[1..]);
      }
    }
  }

  /** Once nothing is being emitted every batch was delivered exactly once; in order, if no flush was overtaken. */
  lemma DeliveredOnce(steps: seq<BatchStep>)
    requires Possible(EMPTY, steps) && Run(EMPTY, steps).emitting == {}
    ensures var s := Run(EMPTY, steps);
            && EmitOk(s) && Distinct(s.order) && |Delivered(s)| == |s.order|
            && (forall k :: 0 <= k < |s.batches| <==> k in s.order)
            && (NoOvertaking(EMPTY, steps) ==> Delivered(s) == s.batches)
  {
    hide TimerOk;
    EmptyIsOk();
    AlwaysOk(EMPTY, steps);
    var s := Run(EMPTY, steps);
    forall k ensures 0 <= k < |s.batches| <==> k in s.order {
      if k in s.order {
        var i :| 0 <= i < |s.order| && s.order[i] == k;
      }
    }
    if NoOvertaking(EMPTY, steps) {
      DeliveryInOrderIff(EMPTY, steps);
      EmittingIsTheRest(s);
      assert |s.order| >= |s.batches| by { assert |s.order| < |s.batches| ==> |s.order| in s.emitting; }
      assert |s.order| <= |s.batches| by { assert s.order != [] ==> s.order[|s.order| - 1] == |s.order| - 1; }
      assert forall i :: 0 <= i < |s.order| ==> Delivered(s)[i] == s.batches[i];
    }
  }

  /** If no two flushes are ever between swap and emission at once, no batch is overtaken. */
  ghost predicate NoOverlap(s: State, steps: seq<BatchStep>)
    decreases |steps|
  {
    (forall j, k :: j in s.emitting && k in s.emitting ==> j == k)
    && (steps == [] || NoOverlap(Next(s, steps[0]), steps[1..]))
  }

  lemma {:induction false} NoOverlapNoOvertaking(s: State, steps: seq<BatchStep>)
    requires Possible(s, steps) && NoOverlap(s, steps)
    ensures NoOvertaking(s, steps)
    decreases |steps|
  {
    if steps != [] {
      NoOverlapNoOvertaking(Next(s, steps[0]), steps[1..]);
    }
  }
}
