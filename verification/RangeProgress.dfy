/**
  How far the range loop gets. In every state some goroutine other than the chain
  has something to do until the channel of heights is closed; below the tip the
  loop makes a bounded number of steps under any schedule; and whatever the node
  answers, a run over a range below the tip can be completed.
 */
module RangeProgress {
  import opened Decimal
  import opened StartHeight
  import opened Pipeline
  import opened PipelineSafety
  import opened PipelineProgress
  import opened EveryRun
  import opened WholeRun

  // ------------------------------------------------------------------- nobody waits for ever

  /** A step that takes the range loop on, or a block nearer to the tables. */
  predicate IsBlockSide(step: Step) {
    (step.Enqueue? && step.e != Spin) || IsBlockStep(step)
  }

  /** The node's answer to any height is one of the three outcomes. */
  ghost predicate IsFate(fate: Fate) {
    forall h :: fate(h) == Succeed || fate(h) == Fail || fate(h) == Drop
  }

  /**
    With the inner guard true the height at the cursor is skipped, if it is indexed
    and not to be redone, or else sent, which nothing holds up; either way the
    cursor moves on.
   */
  lemma FillingMoves(c: Config, s: State)
    requires ClosingInv(c, s) && s.phase == Filling && MayFill(c, s)
    ensures EnqueuerCan(c, s, Skip) <==> !c.reIndex && s.curr in s.indexed
    ensures EnqueuerCan(c, s, Prepare) <==> c.reIndex || s.curr !in s.indexed
    ensures EnqueuerCan(c, s, Skip) ==> EnqueuerDo(c, s, Skip) == s.(curr := s.curr + 1)
    ensures EnqueuerCan(c, s, Prepare) ==>
              && EnqueuerCan(c, EnqueuerDo(c, s, Prepare), Send)
              && EnqueuerDo(c, EnqueuerDo(c, s, Prepare), Send)
                 == s.(blockChan := s.blockChan + [s.curr], sent := s.sent + [s.curr], curr := s.curr + 1)
  {
  }

  lemma {:induction false} MissingFrom(indexed: set<int>, start: int, end: int, g: int) returns (h: int)
    requires start <= g && forall x | start <= x < g :: x in indexed
    ensures IsFirstMissing(indexed, start, end, h)
    decreases end - g
  {
    if g > end {
      h := start;
    } else if g !in indexed {
      h := g;
    } else {
      h := MissingFrom(indexed, start, end, g + 1);
    }
  }

  /** What worker w can do next, as the node answers. */
  lemma WorkerStep(c: Config, fate: Fate, s: State, w: nat) returns (step: Step)
    requires ClosingInv(c, s) && IsFate(fate) && s.writer == Selecting && !s.txNil
    requires w < |s.workers| && s.workers[w] != Done && (s.workers[w] == Idle ==> s.blockChan != [] || s.phase == Closed)
    ensures Enabled(c, s, step) && IsBlockStep(step) && Follows(fate, s, step)
  {
    if s.workers[w].Busy? {
      step := Work(w, fate(s.workers[w].height));
    } else if s.workers[w].Ready? {
      step := if s.txChan != [] then Consume(Receive) else Work(w, Push);
    } else {
      step := if s.blockChan != [] then Work(w, Take) else Work(w, Leave);
    }
  }

  lemma WritersRest(c: Config, s: State)
    requires ClosingInv(c, s) && s.phase != Closed
    ensures Done !in s.workers && !s.txClosed && !s.txNil && s.writer != Finished
    ensures |s.workers| >= 1 && s.workers[0] != Done
  {
    assert s.workers[0] in s.workers;
  }

  /** With heights on the channel the workers or the writer can go on. */
  lemma WorkGoesOn(c: Config, fate: Fate, s: State) returns (step: Step)
    requires ClosingInv(c, s) && IsFate(fate) && s.phase != Closed && s.blockChan != []
    ensures Enabled(c, s, step) && IsBlockStep(step) && Follows(fate, s, step)
  {
    WritersRest(c, s);
    if s.writer.Writing? {
      step := Consume(Write);
    } else {
      step := WorkerStep(c, fate, s, 0);
    }
  }

  /** Before the range loop starts. */
  lemma PreparationGoesOn(c: Config, fate: Fate, s: State) returns (step: Step)
    requires ClosingInv(c, s) && IsFate(fate) && !Started(s)
    ensures Enabled(c, s, step) && IsBlockSide(step) && Follows(fate, s, step)
  {
    var highest := HighestExists(s.indexed);
    match s.phase
    case Retrying(todo) =>
      if todo == [] {
        step := Enqueue(EndRetry);
      } else if |s.blockChan| < BLOCK_CAP {
        step := Enqueue(Retry);
      } else {
        step := WorkGoesOn(c, fate, s);
      }
    case Bounding => step := Enqueue(Bound(highest));
    case Probing(_) => step := Enqueue(Probe(highest));
    case Scanning(end) =>
      var first := MissingFrom(s.indexed, c.startBlock, end, c.startBlock);
      step := Enqueue(Scan(first));
    case _ =>
  }

  lemma RangeGoesOn(c: Config, fate: Fate, s: State) returns (step: Step)
    requires ClosingInv(c, s) && IsFate(fate) && Started(s) && s.phase != Closed
    ensures Enabled(c, s, step) && IsBlockSide(step) && Follows(fate, s, step)
  {
    if s.phase == Sending {
      step := Enqueue(Send);
    } else if s.phase == Filling {
      step := Enqueue(if !MayFill(c, s) then StopFilling else if !c.reIndex && s.curr in s.indexed then Skip else Prepare);
    } else if MustExit(c, s) {
      step := Enqueue(Exit);
    } else if |s.blockChan| <= BLOCK_CAP / 4 {
      step := Enqueue(Poll);
    } else {
      step := WorkGoesOn(c, fate, s);
    }
  }

  lemma ClosedGoesOn(c: Config, fate: Fate, s: State) returns (step: Step)
    requires ClosingInv(c, s) && IsFate(fate) && s.phase == Closed && BlockMeasure(s) > 0
    ensures Enabled(c, s, step) && IsBlockStep(step) && Follows(fate, s, step)
  {
    DoneWorkIsNone(s.workers);
    assert s.workers[0] in s.workers;
    if s.writer.Writing? {
      step := Consume(Write);
    } else if w :| 0 <= w < |s.workers| && s.workers[w] != Done {
      assert s.workers[w] in s.workers;
      step := WorkerStep(c, fate, s, w);
    } else if !s.txClosed {
      assert forall w | w in s.workers :: w == Done;
      step := CloseTx;
    } else {
      step := if s.txChan != [] then Consume(Receive) else Consume(SeeTxClosed);
    }
  }

  /**
    Until the channel of heights is closed and all its blocks are dealt with, the
    enqueuer, a worker or the writer can go on, whatever the node answers.
   */
  lemma BlockSideGoesOn(c: Config, fate: Fate, s: State) returns (step: Step)
    requires ClosingInv(c, s) && IsFate(fate) && (s.phase == Closed ==> BlockMeasure(s) > 0)
    ensures Enabled(c, s, step) && IsBlockSide(step) && Follows(fate, s, step)
  {
    if s.phase == Closed {
      step := ClosedGoesOn(c, fate, s);
    } else if Started(s) {
      step := RangeGoesOn(c, fate, s);
    } else {
      step := PreparationGoesOn(c, fate, s);
    }
  }

  /** In every reachable state some step other than growth and idling is possible while the channel of heights is open. */
  lemma NeverStuckBefore(c: Config, states: seq<State>, steps: seq<Step>, n: nat) returns (step: Step)
    requires IsRun(c, states, steps) && n < |states| && states[n].phase != Closed
    ensures Enabled(c, states[n], step) && IsBlockSide(step)
  {
    RunInv(c, states, steps, n);
    step := BlockSideGoesOn(c, h => Succeed, states[n]);
  }

  // ----------------------------------------------------------------- the work of the range loop

  /** How many heights of the range the cursor still has before it. */
  function HeightsLeft(c: Config, s: State): nat {
    var from := if Started(s) then s.curr else c.startBlock;
    if from <= c.endBlock then c.endBlock + 1 - from else 0
  }

  /** How many steps the enqueuer has at most before it is at the next height. */
  function PhaseWork(c: Config, s: State): nat {
    match s.phase
    case Retrying(todo) => 8 + |todo|
    case Bounding => 7
    case Probing(_) => 6
    case Scanning(_) => 5
    case Looping => 3
    case Filling => if MayFill(c, s) then 2 else 4
    case Sending => 1
    case Closed => 0
  }

  function EnqueuerWork(c: Config, s: State): nat {
    4 * HeightsLeft(c, s) + PhaseWork(c, s)
  }

  /** The chain is above the end of the range, or the cursor is past it. */
  predicate EndInReach(c: Config, s: State) {
    c.endBlock != -1 && (c.endBlock < s.tip || (Started(s) && s.curr > c.endBlock))
  }

  /** Every step of the enqueuer but idling takes it on. */
  lemma EnqueuerWorkFalls(c: Config, s: State, e: EnqueuerAction)
    requires RangeInv(c, s) && EndInReach(c, s) && EnqueuerCan(c, s, e) && e != Spin
    ensures EnqueuerWork(c, EnqueuerDo(c, s, e)) < EnqueuerWork(c, s)
  {
  }

  predicate SameEnqueuer(s: State, s2: State) {
    && s2.phase == s.phase && s2.curr == s.curr && s2.latest == s.latest && |s2.blockChan| <= |s.blockChan|
  }

  lemma WorkersLeaveEnqueuer(c: Config, s: State, w: nat, a: WorkerAction)
    requires WorkerCan(c, s, w, a)
    ensures SameEnqueuer(s, WorkerDo(c, s, w, a))
  {
  }

  lemma WriterLeavesEnqueuer(s: State, r: WriterAction)
    requires WriterCan(s, r)
    ensures SameEnqueuer(s, WriterDo(s, r))
  {
  }

  lemma SameEnqueuerSameWork(c: Config, s: State, s2: State)
    requires SameEnqueuer(s, s2) && |s.blockChan| <= BLOCK_CAP
    ensures EnqueuerWork(c, s2) <= EnqueuerWork(c, s)
  {
  }

  lemma OthersKeepEnqueuer(c: Config, s: State, step: Step)
    requires Enabled(c, s, step) && !step.Enqueue?
    ensures SameEnqueuer(s, Do(c, s, step))
  {
    match step
    case Work(w, a) => WorkersLeaveEnqueuer(c, s, w, a);
    case CloseTx =>
    case Produce(_, _) =>
    case Consume(r) => WriterLeavesEnqueuer(s, r);
    case Grow(_) =>
  }

  lemma OthersLeaveEnqueuer(c: Config, s: State, step: Step)
    requires |s.blockChan| <= BLOCK_CAP && Enabled(c, s, step) && !step.Enqueue?
    ensures EnqueuerWork(c, Do(c, s, step)) <= EnqueuerWork(c, s)
  {
    OthersKeepEnqueuer(c, s, step);
    SameEnqueuerSameWork(c, s, Do(c, s, step));
  }

  /** A height that is sent, or re-enqueued, is five further steps of the workers and the writer. */
  lemma EnqueuerAddsBlocks(c: Config, s: State, e: EnqueuerAction)
    requires EnqueuerCan(c, s, e)
    ensures Measure(EnqueuerDo(c, s, e)) - Measure(s) == BlockMeasure(EnqueuerDo(c, s, e)) - BlockMeasure(s)
    ensures BlockMeasure(EnqueuerDo(c, s, e)) == BlockMeasure(s) + if e == Send || e == Retry then 5 else 0
  {
  }

  function RangeWork(c: Config, s: State): nat {
    6 * EnqueuerWork(c, s) + BlockMeasure(s)
  }

  /** Every step of the enqueuer, the workers and the writer lowers the work left on the range, but for idling. */
  lemma RangeWorkFalls(c: Config, s: State, step: Step)
    requires ClosingInv(c, s) && RangeInv(c, s) && EndInReach(c, s) && Enabled(c, s, step) && IsBlockSide(step)
    ensures RangeWork(c, Do(c, s, step)) < RangeWork(c, s)
  {
    if step.Enqueue? {
      EnqueuerWorkFalls(c, s, step.e);
      EnqueuerAddsBlocks(c, s, step.e);
    } else {
      BlockWorkFalls(c, s, step);
      OthersLeaveEnqueuer(c, s, step);
    }
  }

  /** No other step raises it. */
  lemma RangeWorkKept(c: Config, s: State, step: Step)
    requires ClosingInv(c, s) && Enabled(c, s, step) && !IsBlockSide(step)
    ensures RangeWork(c, Do(c, s, step)) <= RangeWork(c, s)
  {
    if !step.Enqueue? {
      BlockWorkFalls(c, s, step);
      OthersLeaveEnqueuer(c, s, step);
    }
  }

  lemma EnqueuerPassesOn(c: Config, s: State, e: EnqueuerAction)
    requires EnqueuerCan(c, s, e)
    ensures Started(s) ==> Started(EnqueuerDo(c, s, e)) && s.curr <= EnqueuerDo(c, s, e).curr
    ensures EnqueuerDo(c, s, e).tip == s.tip
  {
  }

  lemma StaysInReach(c: Config, s: State, step: Step)
    requires Enabled(c, s, step) && EndInReach(c, s)
    ensures EndInReach(c, Do(c, s, step))
  {
    if step.Enqueue? {
      EnqueuerPassesOn(c, s, step.e);
    } else {
      OthersLeaveRange(c, s, step);
    }
  }

  // -------------------------------------------------------------------- reaching the end

  /** The exit that comes before the end of the range is due: the tip last seen is below the cursor. */
  predicate ExitsEarly(c: Config, s: State) {
    c.exitWhenCaughtUp && Started(s) && s.latest < s.curr <= c.endBlock
  }

  lemma EnqueuerStaysIn(c: Config, s: State, e: EnqueuerAction)
    requires RangeInv(c, s) && EnqueuerCan(c, s, e) && EndInReach(c, s) && c.endBlock <= MAX_INT64
    ensures ExitsEarly(c, EnqueuerDo(c, s, e)) ==> ExitsEarly(c, s)
  {
  }

  lemma StaysIn(c: Config, s: State, step: Step)
    requires RangeInv(c, s) && Enabled(c, s, step) && EndInReach(c, s) && c.endBlock <= MAX_INT64
    ensures ExitsEarly(c, Do(c, s, step)) ==> ExitsEarly(c, s)
  {
    if step.Enqueue? {
      EnqueuerStaysIn(c, s, step.e);
    } else {
      OthersLeaveRange(c, s, step);
    }
  }

  /** A continuation without growth in which the workers' outcomes are as the node answers. */
  ghost predicate Carries(c: Config, fate: Fate, states: seq<State>, steps: seq<Step>) {
    ContinuesQuietly(c, states, steps) && forall i | 0 <= i < |steps| :: Follows(fate, states[i], steps[i])
  }

  ghost function Carried(c: Config, fate: Fate, run: (seq<State>, seq<Step>), step: Step)
    : (longer: (seq<State>, seq<Step>))
    requires Carries(c, fate, run.0, run.1) && Enabled(c, run.0[|run.1|], step)
    requires !step.Grow? && Follows(fate, run.0[|run.1|], step)
    ensures Carries(c, fate, longer.0, longer.1) && longer.0[0] == run.0[0]
    ensures longer.0[|longer.1|] == Do(c, run.0[|run.1|], step)
  {
    Continued(c, run, step)
  }

  /** The blocks of the range are all dealt with, and the channel of heights is closed. */
  predicate AtEnd(s: State) {
    s.phase == Closed && BlockMeasure(s) == 0
  }

  lemma {:induction false} CarriesOn(c: Config, fate: Fate, s0: State, run: (seq<State>, seq<Step>))
      returns (longer: (seq<State>, seq<Step>))
    requires Carries(c, fate, run.0, run.1) && IsFate(fate) && c.endBlock <= MAX_INT64
    requires Inv(c, s0, run.0[|run.1|]) && EndInReach(c, run.0[|run.1|])
    ensures Carries(c, fate, longer.0, longer.1) && longer.0[0] == run.0[0]
    ensures Inv(c, s0, longer.0[|longer.1|]) && AtEnd(longer.0[|longer.1|])
    ensures ExitsEarly(c, longer.0[|longer.1|]) ==> ExitsEarly(c, run.0[|run.1|])
    decreases RangeWork(c, run.0[|run.1|])
  {
    var s := run.0[|run.1|];
    if AtEnd(s) {
      longer := run;
    } else {
      var step := BlockSideGoesOn(c, fate, s);
      RangeWorkFalls(c, s, step);
      StepInv(c, s0, s, step);
      StaysInReach(c, s, step);
      StaysIn(c, s, step);
      longer := CarriesOn(c, fate, s0, Carried(c, fate, run, step));
    }
  }

  lemma ClosedPastTheEnd(c: Config, s: State)
    requires RangeInv(c, s) && s.phase == Closed && c.endBlock != -1
    ensures s.curr > c.endBlock <==> !ExitsEarly(c, s)
  {
  }

  /**
    From every reachable state, on a chain above the end of the range that need not
    grow, and whatever the node answers, the goroutines can close the channel of
    heights and deal with all blocks; unless the early exit is due, the whole range
    has been gone through then.
   */
  lemma ReachesTheEnd(c: Config, fate: Fate, states: seq<State>, steps: seq<Step>, n: nat)
      returns (run: (seq<State>, seq<Step>))
    requires IsRun(c, states, steps) && n < |states| && IsFate(fate) && EndInReach(c, states[n])
    ensures Carries(c, fate, run.0, run.1) && run.0[0] == states[n]
    ensures run.0[|run.1|].phase == Closed && BlocksDone(run.0[|run.1|])
    ensures !ExitsEarly(c, states[n]) ==> run.0[|run.1|].curr > c.endBlock
  {
    RunInv(c, states, steps, n);
    run := CarriesOn(c, fate, states[0], ([states[n]], []));
    StuckBlocksAreDone(c, run.0[|run.1|]);
    ClosedPastTheEnd(c, run.0[|run.1|]);
  }

  /** For every node there is a complete run over a range below the tip, which stores and marks exactly what is due. */
  lemma EveryNodeHasARun(c: Config, fate: Fate, s0: State) returns (run: (seq<State>, seq<Step>))
    requires Init(c, s0) && IsFate(fate) && c.endBlock != -1 && c.endBlock < s0.tip
    ensures IsFatedRun(c, fate, run.0, run.1) && run.0[0] == s0 && Complete(c, run.0[|run.1|])
  {
    run := ReachesTheEnd(c, fate, [s0], [], 0);
  }

  /** Some schedule without growth closes the channel of heights behind the end of the range. */
  ghost predicate CanReachTheEnd(c: Config, s: State) {
    exists states: seq<State>, steps: seq<Step> ::
      && ContinuesQuietly(c, states, steps) && states[0] == s
      && states[|steps|].phase == Closed && states[|steps|].curr > c.endBlock
  }

  /** The cursor is still in the range, and the tip or the early exit keeps it there. */
  predicate KeptIn(c: Config, s: State) {
    && Started(s) && s.curr <= c.endBlock
    && (s.tip <= c.endBlock || (c.exitWhenCaughtUp && s.latest < s.curr))
  }

  lemma EnqueuerKeptIn(c: Config, s: State, e: EnqueuerAction)
    requires RangeInv(c, s) && EnqueuerCan(c, s, e) && KeptIn(c, s) && c.endBlock != -1
    ensures KeptIn(c, EnqueuerDo(c, s, e))
  {
  }

  lemma QuietLeavesTip(c: Config, s: State, step: Step)
    requires Enabled(c, s, step) && !step.Grow?
    ensures Do(c, s, step).tip == s.tip
  {
    match step
    case Enqueue(e) => EnqueuerPassesOn(c, s, e);
    case Work(w, a) => WorkerLeavesFeed(c, s, w, a);
    case CloseTx =>
    case Produce(_, _) =>
    case Consume(r) => WriterLeavesFeed(s, r);
    case _ =>
  }

  lemma {:induction false} RemainsKeptIn(c: Config, states: seq<State>, steps: seq<Step>)
    requires ContinuesQuietly(c, states, steps) && RangeInv(c, states[0]) && KeptIn(c, states[0]) && c.endBlock != -1
    ensures RangeInv(c, states[|steps|]) && KeptIn(c, states[|steps|])
  {
    if steps != [] {
      var n := |steps| - 1;
      RemainsKeptIn(c, states[..n + 1], steps[..n]);
      RangeStep(c, states[n], steps[n]);
      QuietLeavesTip(c, states[n], steps[n]);
      if steps[n].Enqueue? {
        EnqueuerKeptIn(c, states[n], steps[n].e);
      } else {
        OthersLeaveRange(c, states[n], steps[n]);
      }
    }
  }

  /**
    Exactly when the range loop can get through its range on a chain that does not
    grow: the cursor is past the end, or the end is below the tip and the early exit
    is not due. In particular it never does when the end is the tip itself.
   */
  lemma EndReachableIff(c: Config, states: seq<State>, steps: seq<Step>, n: nat)
    requires IsRun(c, states, steps) && n < |states| && Started(states[n]) && c.endBlock != -1
    ensures CanReachTheEnd(c, states[n])
       <==> states[n].curr > c.endBlock || (c.endBlock < states[n].tip && !ExitsEarly(c, states[n]))
  {
    var s := states[n];
    RunInv(c, states, steps, n);
    if s.curr > c.endBlock || (c.endBlock < s.tip && !ExitsEarly(c, s)) {
      var run := ReachesTheEnd(c, h => Succeed, states, steps, n);
      assert ContinuesQuietly(c, run.0, run.1);
    } else {
      forall others: seq<State>, moves: seq<Step> | ContinuesQuietly(c, others, moves) && others[0] == s
        ensures others[|moves|].curr <= c.endBlock
      {
        RemainsKeptIn(c, others, moves);
      }
    }
  }

  // ------------------------------------------------------------------------ whole commands

  /** A step that is neither growth nor idling. */
  predicate IsWork(step: Step) {
    !step.Grow? && step != Enqueue(Spin)
  }

  function Works(steps: seq<Step>): nat {
    if steps == [] then 0 else Works(steps[..|steps| - 1]) + (if IsWork(steps[|steps| - 1]) then 1 else 0)
  }

  function BlockSideSteps(steps: seq<Step>): nat {
    if steps == [] then 0 else BlockSideSteps(steps[..|steps| - 1]) + (if IsBlockSide(steps[|steps| - 1]) then 1 else 0)
  }

  lemma RangeWorkStep(c: Config, s0: State, s: State, step: Step)
    requires Inv(c, s0, s) && EndInReach(c, s) && Enabled(c, s, step)
    ensures Inv(c, s0, Do(c, s, step)) && EndInReach(c, Do(c, s, step))
    ensures RangeWork(c, Do(c, s, step)) + (if IsBlockSide(step) then 1 else 0) <= RangeWork(c, s)
  {
    StepInv(c, s0, s, step);
    StaysInReach(c, s, step);
    if IsBlockSide(step) {
      RangeWorkFalls(c, s, step);
    } else {
      RangeWorkKept(c, s, step);
    }
  }

  /**
    From every reachable state, on a chain above the end of the range, the work left
    on the range bounds the steps of the enqueuer, the workers and the writer on
    blocks, under any schedule and whatever the producers of events do.
   */
  lemma {:induction false} RangeEndsWithin(c: Config, s0: State, states: seq<State>, steps: seq<Step>)
    requires Continues(c, states, steps) && Inv(c, s0, states[0]) && EndInReach(c, states[0])
    ensures Inv(c, s0, states[|steps|]) && EndInReach(c, states[|steps|])
    ensures BlockSideSteps(steps) + RangeWork(c, states[|steps|]) <= RangeWork(c, states[0])
  {
    if steps != [] {
      var n := |steps| - 1;
      RangeEndsWithin(c, s0, states[..n + 1], steps[..n]);
      RangeWorkStep(c, s0, states[n], steps[n]);
    }
  }

  /** All work that is left: on the range, and of the producers of events and the writer. */
  function AllWork(c: Config, s: State): nat {
    6 * EnqueuerWork(c, s) + Measure(s)
  }

  lemma AllWorkFalls(c: Config, s: State, step: Step)
    requires ClosingInv(c, s) && RangeInv(c, s) && EndInReach(c, s) && BothEnd(s) && Enabled(c, s, step)
    ensures if IsWork(step) then AllWork(c, Do(c, s, step)) < AllWork(c, s)
            else AllWork(c, Do(c, s, step)) <= AllWork(c, s)
  {
    if step.Enqueue? {
      if step.e != Spin {
        EnqueuerWorkFalls(c, s, step.e);
        EnqueuerAddsBlocks(c, s, step.e);
      }
    } else {
      OthersLeaveEnqueuer(c, s, step);
      if !step.Grow? {
        WorkFalls(c, s, step);
      }
    }
  }

  lemma AllWorkStep(c: Config, s0: State, s: State, step: Step)
    requires Inv(c, s0, s) && EndInReach(c, s) && BothEnd(s) && Enabled(c, s, step)
    ensures Inv(c, s0, Do(c, s, step)) && EndInReach(c, Do(c, s, step)) && BothEnd(Do(c, s, step))
    ensures AllWork(c, Do(c, s, step)) + (if IsWork(step) then 1 else 0) <= AllWork(c, s)
  {
    StepInv(c, s0, s, step);
    StaysInReach(c, s, step);
    EndsStep(c, s, step);
    AllWorkFalls(c, s, step);
  }

  lemma {:induction false} AllEndsWithin(c: Config, s0: State, states: seq<State>, steps: seq<Step>)
    requires Continues(c, states, steps) && Inv(c, s0, states[0]) && EndInReach(c, states[0]) && BothEnd(states[0])
    ensures Inv(c, s0, states[|steps|]) && EndInReach(c, states[|steps|]) && BothEnd(states[|steps|])
    ensures Works(steps) + AllWork(c, states[|steps|]) <= AllWork(c, states[0])
  {
    if steps != [] {
      var n := |steps| - 1;
      AllEndsWithin(c, s0, states[..n + 1], steps[..n]);
      AllWorkStep(c, s0, states[n], steps[n]);
    }
  }

  lemma NoWorkLeft(c: Config, states: seq<State>, steps: seq<Step>)
    requires IsRun(c, states, steps) && forall step | Enabled(c, states[|steps|], step) :: !IsWork(step)
    ensures BlocksDone(states[|steps|]) && (Returned(states[|steps|]) || StarvedAlone(c, states[|steps|]))
  {
    var s := states[|steps|];
    RunInv(c, states, steps, |steps|);
    if s.phase != Closed {
      var step := NeverStuckBefore(c, states, steps, |steps|);
    }
    OnlyGrowsIff(c, s);
    if Returned(s) {
      ReturnedIsDone(c, s);
    }
  }

  /**
    The whole command, from its start: on a chain above the end of the range, with
    block events that have an end, the steps of all goroutines are bounded under any
    schedule; and when none but idling and growth is left, the channel of heights is
    closed, all blocks are dealt with, and the command has returned or only its
    producer of block events is left, starved by the chain.
   */
  lemma CommandEnds(c: Config, states: seq<State>, steps: seq<Step>)
    requires IsRun(c, states, steps) && c.endBlock != -1 && c.endBlock < states[0].tip && !EndlessEvents(c)
    ensures Works(steps) <= AllWork(c, states[0])
    ensures (forall step | Enabled(c, states[|steps|], step) :: !IsWork(step)) ==>
              && BlocksDone(states[|steps|])
              && (Returned(states[|steps|]) || StarvedAlone(c, states[|steps|]))
  {
    var s := states[|steps|];
    RunInv(c, states, steps, 0);
    RunInv(c, states, steps, |steps|);
    EndsAreKept(c, states, steps, 0);
    AllEndsWithin(c, states[0], states, steps);
    if forall step | Enabled(c, s, step) :: !IsWork(step) {
      NoWorkLeft(c, states, steps);
    }
  }
}
