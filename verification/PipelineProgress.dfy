/**
  Once the enqueuer has returned, the blocks that the pipeline holds are dealt with
  in a bounded number of moves whatever the producers of events do. The command as
  a whole then returns, or waits for ever for a chain that does not grow past the
  end of the block events; with block events that have no end it never returns.
 */
module PipelineProgress {
  import opened Decimal
  import opened Options
  import opened Pipeline
  import opened PipelineSafety

  // ------------------------------------------------------------------- the work that is left

  function Weight(w: Worker): nat {
    match w
    case Busy(_) => 5
    case Ready(_) => 4
    case Idle => 1
    case Done => 0
  }

  function WorkersWork(ws: seq<Worker>): nat {
    if ws == [] then 0 else WorkersWork(ws[..|ws| - 1]) + Weight(ws[|ws| - 1])
  }

  /** What is left to do for blocks: heights count less the further they got. */
  function BlockMeasure(s: State): nat {
    5 * |s.blockChan| + WorkersWork(s.workers) + 2 * |s.txChan| + (if s.writer.Writing? then 1 else 0)
    + (if s.txClosed then 0 else 1) + (if s.txNil then 0 else 1)
  }

  /** How many heights or epochs a producer has left; none are counted for one without end. */
  function Remaining(a: Agenda): nat {
    match a
    case BlockRange(next, end) => if end.Some? && next <= end.value then end.value + 1 - next else 0
    case EpochList(left) => left
  }

  function TurnWork(turn: Turn): nat {
    match turn
    case Waiting => 2
    case Asking => 1
    case Holding => 0
  }

  function FeedWork(f: Feed, seenClosed: bool): nat {
    4 * Remaining(f.agenda) + TurnWork(f.turn) + f.queued + (if f.closed then 0 else 1) + (if seenClosed then 0 else 1)
  }

  function Measure(s: State): nat {
    BlockMeasure(s) + FeedWork(s.blockFeed, s.blockNil) + FeedWork(s.epochFeed, s.epochNil)
    + (if s.writer == Finished then 0 else 1)
  }

  /** A step that takes a block nearer to the tables. */
  predicate IsBlockStep(step: Step) {
    || step.Work? || step.CloseTx?
    || (step.Consume? && (step.r == Receive || step.r == Write || step.r == SeeTxClosed))
  }

  /** A step of a goroutine other than the enqueuer. */
  predicate IsMove(step: Step) {
    !step.Enqueue? && !step.Grow?
  }

  /** The producer leaves a height behind. */
  predicate GoesOn(p: ProducerAction) {
    p == PassOver || p == Fetch(false) || p == Emit
  }

  /** The one move that makes no headway: a producer without end goes on to its next height. */
  predicate IsEndlessMove(s: State, step: Step) {
    step.Produce? && GoesOn(step.p) && Endless(FeedOf(s, step.epoch))
  }

  lemma {:induction false} WorkUpdated(ws: seq<Worker>, w: nat, x: Worker)
    requires w < |ws|
    ensures WorkersWork(ws[w := x]) + Weight(ws[w]) == WorkersWork(ws) + Weight(x)
  {
    var init := ws[..|ws| - 1];
    if w == |ws| - 1 {
      assert ws[w := x][..|ws| - 1] == init;
    } else {
      assert ws[w := x][..|ws| - 1] == init[w := x];
      WorkUpdated(init, w, x);
    }
  }

  lemma WorkerWork(c: Config, s: State, w: nat, a: WorkerAction)
    requires WorkerCan(c, s, w, a)
    ensures BlockMeasure(WorkerDo(c, s, w, a)) < BlockMeasure(s)
    ensures Measure(WorkerDo(c, s, w, a)) - BlockMeasure(WorkerDo(c, s, w, a)) == Measure(s) - BlockMeasure(s)
  {
    WorkUpdated(s.workers, w, NextWorker(c, s, w, a));
  }

  lemma WriterBlockWork(s: State, r: WriterAction)
    requires WriterCan(s, r)
    ensures IsBlockStep(Consume(r)) ==> BlockMeasure(WriterDo(s, r)) < BlockMeasure(s)
    ensures !IsBlockStep(Consume(r)) ==> BlockMeasure(WriterDo(s, r)) == BlockMeasure(s)
  {
  }

  /** Block steps lower the blocks' measure, at any time, and no step of the other goroutines raises it. */
  lemma BlockWorkFalls(c: Config, s: State, step: Step)
    requires Enabled(c, s, step) && !step.Enqueue?
    ensures IsBlockStep(step) ==> BlockMeasure(Do(c, s, step)) < BlockMeasure(s)
    ensures !IsBlockStep(step) ==> BlockMeasure(Do(c, s, step)) == BlockMeasure(s)
  {
    match step
    case Work(w, a) => WorkerWork(c, s, w, a);
    case CloseTx =>
    case Produce(_, _) =>
    case Consume(r) => WriterBlockWork(s, r);
    case Grow(_) =>
  }

  lemma FeedWorkFalls(c: Config, tip: int, f: Feed, seenClosed: bool, p: ProducerAction)
    requires ProducerCan(c, tip, f, p)
    ensures FeedWork(ProducerDo(c, tip, f, p), seenClosed) < FeedWork(f, seenClosed) <==> !(GoesOn(p) && Endless(f))
  {
  }

  lemma ProducerWork(s: State, epoch: bool, f: Feed)
    ensures Measure(WithFeed(s, epoch, f)) - Measure(s) ==
            FeedWork(f, NilOf(s, epoch)) - FeedWork(FeedOf(s, epoch), NilOf(s, epoch))
  {
  }

  lemma ProducerWorkFalls(c: Config, s: State, epoch: bool, p: ProducerAction)
    requires Enabled(c, s, Produce(epoch, p))
    ensures Measure(Do(c, s, Produce(epoch, p))) < Measure(s) <==> !IsEndlessMove(s, Produce(epoch, p))
  {
    FeedWorkFalls(c, s.tip, FeedOf(s, epoch), NilOf(s, epoch), p);
    ProducerWork(s, epoch, ProducerDo(c, s.tip, FeedOf(s, epoch), p));
  }

  lemma WriterWorkFalls(s: State, r: WriterAction)
    requires WriterCan(s, r)
    ensures Measure(WriterDo(s, r)) < Measure(s)
  {
  }

  /** A move lowers the whole measure if and only if it is not a producer without end going on to its next height. */
  lemma WorkFalls(c: Config, s: State, step: Step)
    requires Enabled(c, s, step) && IsMove(step)
    ensures Measure(Do(c, s, step)) < Measure(s) <==> !IsEndlessMove(s, step)
  {
    match step
    case Work(w, a) => WorkerWork(c, s, w, a);
    case CloseTx =>
    case Produce(epoch, p) => ProducerWorkFalls(c, s, epoch, p);
    case Consume(r) => WriterWorkFalls(s, r);
  }

  // -------------------------------------------------------------------------- never stuck

  lemma WorkerCanMove(c: Config, s: State, w: nat) returns (step: Step)
    requires ClosingInv(c, s) && s.phase == Closed && s.writer == Selecting
    requires w < |s.workers| && s.workers[w] != Done
    ensures Enabled(c, s, step) && IsBlockStep(step)
    ensures !(step.Work? && step.a == Drop)
  {
    assert s.workers[w] in s.workers;
    if s.workers[w].Busy? {
      step := Work(w, Succeed);
    } else if s.workers[w].Ready? {
      step := if s.txChan != [] then Consume(Receive) else Work(w, Push);
    } else {
      step := if s.blockChan != [] then Work(w, Take) else Work(w, Leave);
    }
  }

  lemma {:induction false} DoneWorkIsNone(ws: seq<Worker>)
    ensures WorkersWork(ws) == 0 <==> forall w | w in ws :: w == Done
  {
    if ws != [] {
      var init, last := ws[..|ws| - 1], ws[|ws| - 1];
      DoneWorkIsNone(init);
      assert ws == init + [last];
      assert last in ws && (forall w | w in init :: w in ws) && (forall w | w in ws :: w in init || w == last);
    }
  }

  /** While work on blocks is left, some goroutine can do a piece of it, whatever the producers of events do. */
  lemma BlocksNeverStuck(c: Config, s: State) returns (step: Step)
    requires ClosingInv(c, s) && s.phase == Closed && BlockMeasure(s) > 0
    ensures Enabled(c, s, step) && IsBlockStep(step)
    ensures !(step.Work? && step.a == Drop)
  {
    DoneWorkIsNone(s.workers);
    assert s.workers[0] in s.workers;
    if s.writer.Writing? {
      step := Consume(Write);
    } else if w :| 0 <= w < |s.workers| && s.workers[w] != Done {
      step := WorkerCanMove(c, s, w);
    } else if !s.txClosed {
      assert forall w | w in s.workers :: w == Done;
      step := CloseTx;
    } else {
      step := if s.txChan != [] then Consume(Receive) else Consume(SeeTxClosed);
    }
  }

  /** No work on blocks is left exactly when no block step can be taken, and then all of them are dealt with. */
  lemma StuckBlocksAreDone(c: Config, s: State)
    requires ClosingInv(c, s) && s.phase == Closed
    ensures (forall step | Enabled(c, s, step) :: !IsBlockStep(step)) <==> BlockMeasure(s) == 0
    ensures BlockMeasure(s) == 0 <==> BlocksDone(s) && s.txNil
  {
    DoneWorkIsNone(s.workers);
    assert s.workers[0] in s.workers;
    if BlockMeasure(s) > 0 {
      var step := BlocksNeverStuck(c, s);
    } else {
      forall step | Enabled(c, s, step) ensures !IsBlockStep(step) {
        BlockWorkFalls(c, s, step);
      }
    }
  }

  /**
    The producer of block events can do nothing until the chain grows: it waits for
    the chain to pass the height it dealt with last, even if that was its last one,
    or it repeats for ever a query for a height that the chain does not have.
   */
  predicate Starved(c: Config, tip: int, f: Feed) {
    && !f.closed && f.agenda.BlockRange? && f.agenda.next > tip
    && (f.turn == Waiting || (f.turn == Asking && HasNext(f.agenda) && !GivesUp(c)))
  }

  /** The action of a producer that is not starved, in the state of its channel being empty. */
  function NextAction(tip: int, f: Feed): ProducerAction {
    match f.turn
    case Holding => Emit
    case Waiting => Resume
    case Asking => if !HasNext(f.agenda) then CloseFeed else if ChainHasNext(f.agenda, tip) then Fetch(false) else PassOver
  }

  lemma FeedCanMove(c: Config, tip: int, f: Feed, seenClosed: bool)
    requires FeedInv(c, tip, f, seenClosed) && !f.closed && f.queued == 0
    ensures Starved(c, tip, f) <==> forall p :: !ProducerCan(c, tip, f, p)
    ensures !Starved(c, tip, f) ==> ProducerCan(c, tip, f, NextAction(tip, f))
  {
    assert !Starved(c, tip, f) ==> ProducerCan(c, tip, f, NextAction(tip, f));
  }

  /** The writer and a producer get on with each other unless the producer is starved. */
  lemma WriterCanMove(c: Config, s: State, epoch: bool) returns (step: Step)
    requires ClosingInv(c, s) && s.writer == Selecting && !NilOf(s, epoch)
    requires FeedOf(s, epoch).queued > 0 || !Starved(c, s.tip, FeedOf(s, epoch))
    ensures Enabled(c, s, step) && IsMove(step) && !step.Work?
    ensures IsEndlessMove(s, step) ==> Endless(FeedOf(s, epoch))
  {
    var f := FeedOf(s, epoch);
    if f.queued > 0 {
      step := Consume(ReceiveEvent(epoch));
    } else if f.closed {
      step := Consume(SeeFeedClosed(epoch));
    } else {
      FeedCanMove(c, s.tip, f, NilOf(s, epoch));
      step := Produce(epoch, NextAction(s.tip, f));
    }
  }

  predicate BothEnd(s: State) {
    !Endless(s.blockFeed) && !Endless(s.epochFeed)
  }

  /** All else is drained, and the writer waits for the events of a starved producer. */
  predicate StarvedAlone(c: Config, s: State) {
    && BlocksDone(s) && s.txNil && s.epochNil && s.writer == Selecting
    && s.blockFeed.queued == 0 && Starved(c, s.tip, s.blockFeed)
  }

  /**
    Until the command returns or all hangs on the chain, some goroutine can move;
    with producers that end, nearer to the return.
   */
  lemma NeverStuck(c: Config, s: State) returns (step: Step)
    requires ClosingInv(c, s) && s.phase == Closed && !Returned(s) && !StarvedAlone(c, s)
    ensures Enabled(c, s, step) && IsMove(step)
    ensures !(step.Work? && step.a == Drop)
    ensures BothEnd(s) ==> Measure(Do(c, s, step)) < Measure(s)
  {
    if BlockMeasure(s) > 0 {
      step := BlocksNeverStuck(c, s);
    } else {
      StuckBlocksAreDone(c, s);
      if !s.epochNil {
        step := WriterCanMove(c, s, true);
      } else if !s.blockNil {
        step := WriterCanMove(c, s, false);
      } else {
        step := Consume(Finish);
      }
    }
    WorkFalls(c, s, step);
  }

  /** The state hangs on the chain: no goroutine can do anything. */
  ghost predicate OnlyGrows(c: Config, s: State) {
    forall step | Enabled(c, s, step) :: step.Grow?
  }

  lemma DoneWorkersRest(c: Config, s: State)
    requires BlocksDone(s)
    ensures forall w, a :: !WorkerCan(c, s, w, a)
  {
    forall w: nat, a | w < |s.workers| ensures !WorkerCan(c, s, w, a) {
      assert s.workers[w] in s.workers;
    }
  }

  lemma NoProducerMoves(c: Config, s: State, epoch: bool, p: ProducerAction)
    requires ClosingInv(c, s) && s.phase == Closed && (Returned(s) || StarvedAlone(c, s))
    ensures !ProducerCan(c, s.tip, FeedOf(s, epoch), p)
  {
  }

  lemma NoWriterMoves(c: Config, s: State, r: WriterAction)
    requires ClosingInv(c, s) && s.phase == Closed && (Returned(s) || StarvedAlone(c, s))
    ensures !WriterCan(s, r)
  {
  }

  /** Exactly when nothing but the chain can move: the command has returned, or only a starved producer is left. */
  lemma OnlyGrowsIff(c: Config, s: State)
    requires ClosingInv(c, s) && s.phase == Closed
    ensures OnlyGrows(c, s) <==> Returned(s) || StarvedAlone(c, s)
  {
    if Returned(s) || StarvedAlone(c, s) {
      if Returned(s) {
        ReturnedIsDone(c, s);
      }
      DoneWorkersRest(c, s);
      forall step | Enabled(c, s, step) ensures step.Grow? {
        match step
        case Produce(epoch, p) => NoProducerMoves(c, s, epoch, p);
        case Consume(r) => NoWriterMoves(c, s, r);
        case _ =>
      }
    } else {
      var step := NeverStuck(c, s);
    }
  }

  /** The end of the block events, if they have one. */
  function EndOf(s: State): Option<int> {
    if s.blockFeed.agenda.BlockRange? then s.blockFeed.agenda.end else None
  }

  /** Whether the producers end, and where, never changes. */
  predicate SameEnds(s: State, s2: State) {
    (BothEnd(s2) <==> BothEnd(s)) && EndOf(s2) == EndOf(s) && (s.blockFeed.closed ==> s2.blockFeed.closed)
  }

  lemma EnqueuerLeavesEnds(c: Config, s: State, e: EnqueuerAction)
    requires EnqueuerCan(c, s, e)
    ensures SameEnds(s, EnqueuerDo(c, s, e))
  {
  }

  lemma WorkerLeavesEnds(c: Config, s: State, w: nat, a: WorkerAction)
    requires WorkerCan(c, s, w, a)
    ensures SameEnds(s, WorkerDo(c, s, w, a))
  {
  }

  lemma WriterLeavesEnds(s: State, r: WriterAction)
    requires WriterCan(s, r)
    ensures SameEnds(s, WriterDo(s, r))
  {
  }

  lemma EndsStep(c: Config, s: State, step: Step)
    requires Enabled(c, s, step)
    ensures SameEnds(s, Do(c, s, step))
  {
    match step
    case Enqueue(e) => EnqueuerLeavesEnds(c, s, e);
    case Work(w, a) => WorkerLeavesEnds(c, s, w, a);
    case CloseTx =>
    case Produce(_, _) =>
    case Consume(r) => WriterLeavesEnds(s, r);
    case Grow(_) =>
  }

  // ------------------------------------------------------------------------ continuations

  ghost predicate Continues(c: Config, states: seq<State>, steps: seq<Step>) {
    && |states| == |steps| + 1
    && forall i | 0 <= i < |steps| :: Enabled(c, states[i], steps[i]) && states[i + 1] == Do(c, states[i], steps[i])
  }

  /** The moves of a continuation, and those among them that take a block nearer to the tables. */
  function Moves(steps: seq<Step>): nat {
    if steps == [] then 0 else Moves(steps[..|steps| - 1]) + (if IsMove(steps[|steps| - 1]) then 1 else 0)
  }

  function BlockMoves(steps: seq<Step>): nat {
    if steps == [] then 0 else BlockMoves(steps[..|steps| - 1]) + (if IsBlockStep(steps[|steps| - 1]) then 1 else 0)
  }

  lemma ClosedStays(c: Config, s: State, step: Step)
    requires Enabled(c, s, step) && s.phase == Closed
    ensures !step.Enqueue? && Do(c, s, step).phase == Closed
  {
  }

  lemma {:induction false} ClosingContinues(c: Config, states: seq<State>, steps: seq<Step>)
    requires Continues(c, states, steps) && ClosingInv(c, states[0]) && states[0].phase == Closed
    ensures ClosingInv(c, states[|steps|]) && states[|steps|].phase == Closed
    ensures BothEnd(states[|steps|]) <==> BothEnd(states[0])
  {
    if steps != [] {
      var n := |steps| - 1;
      ClosingContinues(c, states[..n + 1], steps[..n]);
      ClosingStep(c, states[n], steps[n]);
      ClosedStays(c, states[n], steps[n]);
      EndsStep(c, states[n], steps[n]);
    }
  }

  /**
    Once blockChan is closed, the work left on blocks bounds the block steps that
    follow under any schedule, even while a producer of events goes on for ever.
   */
  lemma {:induction false} BlocksDrainWithinMeasure(c: Config, states: seq<State>, steps: seq<Step>)
    requires Continues(c, states, steps) && states[0].phase == Closed
    ensures states[|steps|].phase == Closed
    ensures BlockMoves(steps) + BlockMeasure(states[|steps|]) <= BlockMeasure(states[0])
  {
    if steps != [] {
      var n := |steps| - 1;
      BlocksDrainWithinMeasure(c, states[..n + 1], steps[..n]);
      ClosedStays(c, states[n], steps[n]);
      BlockWorkFalls(c, states[n], steps[n]);
    }
  }

  /** With producers that end, the work that is left bounds all moves, however they are scheduled. */
  lemma {:induction false} DrainsWithinMeasure(c: Config, states: seq<State>, steps: seq<Step>)
    requires Continues(c, states, steps) && states[0].phase == Closed && BothEnd(states[0])
    ensures states[|steps|].phase == Closed && BothEnd(states[|steps|])
    ensures Moves(steps) + Measure(states[|steps|]) <= Measure(states[0])
  {
    if steps != [] {
      var n := |steps| - 1;
      DrainsWithinMeasure(c, states[..n + 1], steps[..n]);
      ClosedStays(c, states[n], steps[n]);
      EndsStep(c, states[n], steps[n]);
      if IsMove(steps[n]) {
        WorkFalls(c, states[n], steps[n]);
      }
    }
  }

  /** A continuation one step longer. */
  ghost function Continued(c: Config, run: (seq<State>, seq<Step>), step: Step): (longer: (seq<State>, seq<Step>))
    requires Continues(c, run.0, run.1) && Enabled(c, run.0[|run.1|], step)
    ensures Continues(c, longer.0, longer.1) && longer.0[0] == run.0[0]
    ensures longer.1 == run.1 + [step] && longer.0[|longer.1|] == Do(c, run.0[|run.1|], step)
    ensures Moves(longer.1) == Moves(run.1) + (if IsMove(step) then 1 else 0)
  {
    var longer := (run.0 + [Do(c, run.0[|run.1|], step)], run.1 + [step]);
    assert longer.1[..|run.1|] == run.1;
    longer
  }

  /** While a producer has no end, a chain that grows lets some goroutine move. */
  lemma EndlessMovesOn(c: Config, run: (seq<State>, seq<Step>)) returns (longer: (seq<State>, seq<Step>))
    requires Continues(c, run.0, run.1)
    requires ClosingInv(c, run.0[|run.1|]) && run.0[|run.1|].phase == Closed && !BothEnd(run.0[|run.1|])
    ensures Continues(c, longer.0, longer.1) && longer.0[0] == run.0[0] && Moves(longer.1) == Moves(run.1) + 1
  {
    var s := run.0[|run.1|];
    var grow := Grow(if s.tip < s.blockFeed.agenda.next then s.blockFeed.agenda.next else s.tip);
    ClosingStep(c, s, grow);
    longer := Continued(c, run, grow);
    var step := NeverStuck(c, Do(c, s, grow));
    longer := Continued(c, longer, step);
  }

  lemma {:induction false} EndlessGoesOn(c: Config, s: State, n: nat) returns (run: (seq<State>, seq<Step>))
    requires ClosingInv(c, s) && s.phase == Closed && !BothEnd(s)
    ensures Continues(c, run.0, run.1) && run.0[0] == s && Moves(run.1) == n
  {
    if n == 0 {
      run := ([s], []);
    } else {
      run := EndlessGoesOn(c, s, n - 1);
      ClosingContinues(c, run.0, run.1);
      run := EndlessMovesOn(c, run);
    }
  }

  /** No continuation of s makes more than bound moves. */
  ghost predicate Bounded(c: Config, s: State, bound: nat) {
    forall states, steps | Continues(c, states, steps) && states[0] == s :: Moves(steps) <= bound
  }

  /** After blockChan is closed the moves of all schedules are bounded if and only if both producers end. */
  lemma BoundedIff(c: Config, s: State)
    requires ClosingInv(c, s) && s.phase == Closed
    ensures (exists bound :: Bounded(c, s, bound)) <==> BothEnd(s)
  {
    if BothEnd(s) {
      forall states, steps | Continues(c, states, steps) && states[0] == s ensures Moves(steps) <= Measure(s) {
        DrainsWithinMeasure(c, states, steps);
      }
      assert Bounded(c, s, Measure(s));
    } else if bound: nat :| Bounded(c, s, bound) {
      var run := EndlessGoesOn(c, s, bound + 1);
    }
  }

  /** A schedule that can go no further has made the command return if and only if no producer is starved. */
  lemma StuckMeansReturned(c: Config, states: seq<State>, steps: seq<Step>)
    requires Continues(c, states, steps) && ClosingInv(c, states[0]) && states[0].phase == Closed
    requires OnlyGrows(c, states[|steps|])
    ensures Returned(states[|steps|]) <==> !Starved(c, states[|steps|].tip, states[|steps|].blockFeed)
  {
    ClosingContinues(c, states, steps);
    OnlyGrowsIff(c, states[|steps|]);
  }

  /** Whatever the producers of events do, the blocks at hand can all be dealt with, and none dropped. */
  lemma {:induction false} BlocksCanFinish(c: Config, run: (seq<State>, seq<Step>)) returns (longer: (seq<State>, seq<Step>))
    requires Continues(c, run.0, run.1)
    requires ClosingInv(c, run.0[|run.1|]) && run.0[|run.1|].phase == Closed
    ensures Continues(c, longer.0, longer.1) && longer.0[0] == run.0[0] && BlocksDone(longer.0[|longer.1|])
    ensures RangeKept(run.0[|run.1|], longer.0[|longer.1|])
    ensures longer.0[|longer.1|].dropped == run.0[|run.1|].dropped
    decreases BlockMeasure(run.0[|run.1|])
  {
    var s := run.0[|run.1|];
    if BlockMeasure(s) == 0 {
      StuckBlocksAreDone(c, s);
      longer := run;
    } else {
      var step := BlocksNeverStuck(c, s);
      ClosingStep(c, s, step);
      ClosedStays(c, s, step);
      BlockWorkFalls(c, s, step);
      OthersLeaveRange(c, s, step);
      longer := BlocksCanFinish(c, Continued(c, run, step));
    }
  }

  // ------------------------------------------------------------- a chain that does not grow

  /**
    The producer of block events is starved, or has heights up to its end and the
    tip before it, so that it can come to wait for the chain to pass the tip.
   */
  predicate MayStarve(c: Config, s: State) {
    var f := s.blockFeed;
    && !f.closed && f.agenda.BlockRange?
    && ((f.agenda.next <= s.tip && (f.agenda.end.Some? ==> s.tip <= f.agenda.end.value)) || Starved(c, s.tip, f))
  }

  ghost predicate ContinuesQuietly(c: Config, states: seq<State>, steps: seq<Step>) {
    Continues(c, states, steps) && forall i | 0 <= i < |steps| :: !steps[i].Grow?
  }

  /** No schedule without growth is longer than bound. */
  ghost predicate EndsWithin(c: Config, s: State, bound: nat) {
    forall states, steps | ContinuesQuietly(c, states, steps) && states[0] == s :: |steps| <= bound
  }

  /** A schedule without growth that can go no further has returned. */
  ghost predicate EndsInReturn(c: Config, s: State) {
    forall states, steps | ContinuesQuietly(c, states, steps) && states[0] == s && OnlyGrows(c, states[|steps|]) ::
      Returned(states[|steps|])
  }

  /** However the goroutines are scheduled, they come to an end without any growth of the chain, and have returned then. */
  ghost predicate ReturnsUnaided(c: Config, s: State) {
    (exists bound :: EndsWithin(c, s, bound)) && EndsInReturn(c, s)
  }

  predicate SameFeed(s: State, s2: State) {
    s2.blockFeed == s.blockFeed && s2.tip == s.tip
  }

  lemma WorkerLeavesFeed(c: Config, s: State, w: nat, a: WorkerAction)
    requires WorkerCan(c, s, w, a)
    ensures SameFeed(s, WorkerDo(c, s, w, a))
  {
  }

  lemma WriterLeavesFeed(s: State, r: WriterAction)
    requires WriterCan(s, r)
    ensures SameFeed(s, WriterDo(s, r).(blockFeed := WriterDo(s, r).blockFeed.(queued := s.blockFeed.queued)))
  {
  }

  /** Without growth a producer that cannot starve stays so. */
  lemma StaysFed(c: Config, s: State, step: Step)
    requires ClosingInv(c, s) && s.phase == Closed && Enabled(c, s, step) && !step.Grow?
    ensures MayStarve(c, Do(c, s, step)) ==> MayStarve(c, s)
  {
    match step
    case Work(w, a) => WorkerLeavesFeed(c, s, w, a);
    case CloseTx =>
    case Produce(_, _) =>
    case Consume(r) => WriterLeavesFeed(s, r);
    case _ =>
  }

  lemma {:induction false} QuietlyFed(c: Config, states: seq<State>, steps: seq<Step>)
    requires ContinuesQuietly(c, states, steps) && ClosingInv(c, states[0]) && states[0].phase == Closed
    ensures MayStarve(c, states[|steps|]) ==> MayStarve(c, states[0])
  {
    if steps != [] {
      var n := |steps| - 1;
      QuietlyFed(c, states[..n + 1], steps[..n]);
      ClosingContinues(c, states[..n + 1], steps[..n]);
      StaysFed(c, states[n], steps[n]);
    }
  }

  /** How far a producer that may starve is from it, when it passes over no height. */
  function ToStarvation(s: State): nat {
    var f := s.blockFeed;
    BlockMeasure(s) + FeedWork(s.epochFeed, s.epochNil) + TurnWork(f.turn) + f.queued
    + (if f.agenda.BlockRange? && f.agenda.next <= s.tip then 4 * (s.tip + 1 - f.agenda.next) else 0)
  }

  lemma BlockStepNearer(c: Config, s: State, step: Step)
    requires Enabled(c, s, step) && IsBlockStep(step) && MayStarve(c, s)
    ensures MayStarve(c, Do(c, s, step)) && ToStarvation(Do(c, s, step)) < ToStarvation(s)
  {
    if step.Work? {
      WorkerWork(c, s, step.w, step.a);
      WorkerLeavesFeed(c, s, step.w, step.a);
    }
  }

  lemma EpochStepNearer(c: Config, s: State) returns (step: Step)
    requires ClosingInv(c, s) && MayStarve(c, s) && s.writer == Selecting && !s.epochNil
    ensures Enabled(c, s, step) && IsMove(step)
    ensures MayStarve(c, Do(c, s, step)) && ToStarvation(Do(c, s, step)) < ToStarvation(s)
  {
    var f := s.epochFeed;
    if f.queued > 0 {
      step := Consume(ReceiveEvent(true));
    } else if f.closed {
      step := Consume(SeeFeedClosed(true));
    } else {
      FeedCanMove(c, s.tip, f, s.epochNil);
      step := Produce(true, NextAction(s.tip, f));
      FeedWorkFalls(c, s.tip, f, s.epochNil, step.p);
    }
  }

  lemma BlockFeedNearer(c: Config, s: State) returns (step: Step)
    requires ClosingInv(c, s) && MayStarve(c, s) && s.writer == Selecting
    requires s.blockFeed.queued > 0 || !Starved(c, s.tip, s.blockFeed)
    ensures Enabled(c, s, step) && IsMove(step)
    ensures MayStarve(c, Do(c, s, step)) && ToStarvation(Do(c, s, step)) < ToStarvation(s)
  {
    if s.blockFeed.queued > 0 {
      step := Consume(ReceiveEvent(false));
    } else {
      FeedCanMove(c, s.tip, s.blockFeed, s.blockNil);
      step := Produce(false, NextAction(s.tip, s.blockFeed));
    }
  }

  lemma NearerToStarvation(c: Config, s: State) returns (step: Step)
    requires ClosingInv(c, s) && s.phase == Closed && MayStarve(c, s) && !StarvedAlone(c, s)
    ensures Enabled(c, s, step) && IsMove(step)
    ensures MayStarve(c, Do(c, s, step)) && ToStarvation(Do(c, s, step)) < ToStarvation(s)
  {
    if BlockMeasure(s) > 0 {
      step := BlocksNeverStuck(c, s);
      BlockStepNearer(c, s, step);
    } else {
      StuckBlocksAreDone(c, s);
      if !s.epochNil {
        step := EpochStepNearer(c, s);
      } else {
        step := BlockFeedNearer(c, s);
      }
    }
  }

  lemma {:induction false} Starves(c: Config, run: (seq<State>, seq<Step>)) returns (longer: (seq<State>, seq<Step>))
    requires ContinuesQuietly(c, run.0, run.1)
    requires ClosingInv(c, run.0[|run.1|]) && run.0[|run.1|].phase == Closed && MayStarve(c, run.0[|run.1|])
    ensures ContinuesQuietly(c, longer.0, longer.1) && longer.0[0] == run.0[0]
    ensures ClosingInv(c, longer.0[|longer.1|]) && StarvedAlone(c, longer.0[|longer.1|])
    decreases ToStarvation(run.0[|run.1|])
  {
    var s := run.0[|run.1|];
    if StarvedAlone(c, s) {
      longer := run;
    } else {
      var step := NearerToStarvation(c, s);
      ClosingStep(c, s, step);
      ClosedStays(c, s, step);
      longer := Starves(c, Continued(c, run, step));
    }
  }

  lemma {:induction false} QuietStepsAreMoves(c: Config, states: seq<State>, steps: seq<Step>)
    requires ContinuesQuietly(c, states, steps) && states[0].phase == Closed
    ensures Moves(steps) == |steps| && states[|steps|].phase == Closed
  {
    if steps != [] {
      var n := |steps| - 1;
      QuietStepsAreMoves(c, states[..n + 1], steps[..n]);
      ClosedStays(c, states[n], steps[n]);
    }
  }

  /** A producer without end that cannot starve goes on for ever: past the tip it passes over one height after the other. */
  lemma {:induction false} QuietlyGoesOn(c: Config, s: State, n: nat) returns (run: (seq<State>, seq<Step>))
    requires ClosingInv(c, s) && s.phase == Closed && !BothEnd(s) && !MayStarve(c, s)
    ensures ContinuesQuietly(c, run.0, run.1) && run.0[0] == s && |run.1| == n
  {
    if n == 0 {
      run := ([s], []);
    } else {
      run := QuietlyGoesOn(c, s, n - 1);
      ClosingContinues(c, run.0, run.1);
      QuietlyFed(c, run.0, run.1);
      var step := NeverStuck(c, run.0[|run.1|]);
      run := Continued(c, run, step);
    }
  }

  lemma EndsWithinMeasure(c: Config, s: State)
    requires s.phase == Closed && BothEnd(s)
    ensures EndsWithin(c, s, Measure(s))
  {
    forall states, steps | ContinuesQuietly(c, states, steps) && states[0] == s ensures |steps| <= Measure(s) {
      QuietStepsAreMoves(c, states, steps);
      DrainsWithinMeasure(c, states, steps);
    }
  }

  lemma UnstarvedEndsInReturn(c: Config, s: State)
    requires ClosingInv(c, s) && s.phase == Closed && !MayStarve(c, s)
    ensures EndsInReturn(c, s)
  {
    forall states, steps | ContinuesQuietly(c, states, steps) && states[0] == s && OnlyGrows(c, states[|steps|])
      ensures Returned(states[|steps|])
    {
      StuckMeansReturned(c, states, steps);
      QuietlyFed(c, states, steps);
    }
  }

  /**
    Exactly when the command returns on a chain that stands still, whatever the
    schedule: when block events have an end, and their producer cannot come to wait
    past the tip.
   */
  lemma ReturnsUnaidedIff(c: Config, s: State)
    requires ClosingInv(c, s) && s.phase == Closed
    ensures ReturnsUnaided(c, s) <==> BothEnd(s) && !MayStarve(c, s)
  {
    if MayStarve(c, s) {
      var run := Starves(c, ([s], []));
      OnlyGrowsIff(c, run.0[|run.1|]);
    } else if BothEnd(s) {
      EndsWithinMeasure(c, s);
      UnstarvedEndsInReturn(c, s);
    } else if bound: nat :| EndsWithin(c, s, bound) {
      var run := QuietlyGoesOn(c, s, bound + 1);
    }
  }

  // ------------------------------------------------------ heights that the chain does not have

  /** The next height of the producer of block events. */
  function NextOf(s: State): int {
    if s.blockFeed.agenda.BlockRange? then s.blockFeed.agenda.next else 0
  }

  /** Its query for h failed until it gave up, and it went on; the code records h as a failed event block. */
  predicate PassedOver(states: seq<State>, steps: seq<Step>, h: int) {
    exists i | 0 <= i < |steps| && i < |states| :: steps[i] == Produce(false, PassOver) && NextOf(states[i]) == h
  }

  /** It asks for a height that the chain does not have. */
  predicate AsksAhead(s: State) {
    var f := s.blockFeed;
    !f.closed && f.agenda.BlockRange? && f.turn == Asking && HasNext(f.agenda) && f.agenda.next > s.tip
  }

  lemma EnqueuerLeavesFeed(c: Config, s: State, e: EnqueuerAction)
    requires EnqueuerCan(c, s, e)
    ensures EnqueuerDo(c, s, e).blockFeed == s.blockFeed && EnqueuerDo(c, s, e).tip == s.tip
  {
  }

  /** What a step does to the producer of block events. */
  lemma ProducerStep(c: Config, s: State, step: Step)
    requires ClosingInv(c, s) && Enabled(c, s, step)
    ensures var s2 := Do(c, s, step);
            && s.tip <= s2.tip && NextOf(s) <= NextOf(s2) <= NextOf(s) + 1
            && (step == Produce(false, PassOver) ==> NextOf(s2) == NextOf(s) + 1)
            && (NextOf(s2) != NextOf(s) ==> step == Produce(false, PassOver) || NextOf(s) <= s.tip)
            && (AsksAhead(s2) && !AsksAhead(s) ==> step == Produce(false, PassOver) && NextOf(s) == s.tip)
            && (s2.blockFeed.closed && !s.blockFeed.closed ==> !HasNext(s2.blockFeed.agenda))
            && (s.blockFeed.closed ==> s2.blockFeed.closed && s2.blockFeed.agenda == s.blockFeed.agenda)
  {
    match step
    case Enqueue(e) => EnqueuerLeavesFeed(c, s, e);
    case Work(w, a) => WorkerLeavesFeed(c, s, w, a);
    case CloseTx =>
    case Produce(_, _) =>
    case Consume(r) => WriterLeavesFeed(s, r);
    case Grow(_) =>
  }

  /**
    The producer of block events comes to ask for a height that the chain does not
    have only by giving up on the tip itself, after which it does not wait.
   */
  lemma AheadOnlyByFailure(c: Config, s: State, step: Step)
    requires ClosingInv(c, s) && Enabled(c, s, step)
    ensures AsksAhead(Do(c, s, step)) && !AsksAhead(s) ==> step == Produce(false, PassOver) && NextOf(s) == s.tip
  {
    ProducerStep(c, s, step);
  }

  // -------------------------------------------------------------------------- whole runs

  lemma {:induction false} EndsAreKept(c: Config, states: seq<State>, steps: seq<Step>, n: nat)
    requires IsRun(c, states, steps) && n < |states|
    ensures BothEnd(states[n]) <==> !EndlessEvents(c)
    ensures EndOf(states[n]) == if EndlessEvents(c) then None else Some(c.blockEventsEnd)
    ensures !c.blockEvents ==> states[n].blockFeed.closed
  {
    if n > 0 {
      EndsAreKept(c, states, steps, n - 1);
      EndsStep(c, states[n - 1], steps[n - 1]);
    }
  }

  /**
    In a run whose block channel is closed, the moves still to come are bounded for
    every schedule if and only if block events are not indexed without end.
   */
  lemma RunEndsIff(c: Config, states: seq<State>, steps: seq<Step>, n: nat)
    requires IsRun(c, states, steps) && n < |states| && states[n].phase == Closed
    ensures (exists bound :: Bounded(c, states[n], bound)) <==> !EndlessEvents(c)
  {
    RunInv(c, states, steps, n);
    EndsAreKept(c, states, steps, n);
    BoundedIff(c, states[n]);
  }

  /** While block events are indexed without end, no run of the command ever returns. */
  lemma EndlessNeverReturns(c: Config, states: seq<State>, steps: seq<Step>, n: nat)
    requires IsRun(c, states, steps) && n < |states| && EndlessEvents(c)
    ensures !Returned(states[n])
  {
    RunInv(c, states, steps, n);
    EndsAreKept(c, states, steps, n);
  }

  /**
    When the chain has grown past the end of the block events, as it has when a
    height from that end on was sent, the command returns without further growth,
    in a bounded number of moves under any schedule.
   */
  lemma PassedEndReturns(c: Config, states: seq<State>, steps: seq<Step>, n: nat)
    requires IsRun(c, states, steps) && n < |states| && states[n].phase == Closed && !EndlessEvents(c)
    requires !c.blockEvents || c.blockEventsEnd < states[n].tip || exists h | h in states[n].sent :: c.blockEventsEnd <= h
    ensures ReturnsUnaided(c, states[n]) && Bounded(c, states[n], Measure(states[n]))
  {
    RunInv(c, states, steps, n);
    EndsAreKept(c, states, steps, n);
    ReturnsUnaidedIff(c, states[n]);
    RangeIsOrderly(c, states, steps, n);
    forall others, moves | Continues(c, others, moves) && others[0] == states[n] ensures Moves(moves) <= Measure(states[n]) {
      DrainsWithinMeasure(c, others, moves);
    }
  }

  lemma PassedLonger(states: seq<State>, steps: seq<Step>, n: nat, h: int)
    requires n < |steps| && |states| == |steps| + 1
    ensures PassedOver(states[..n + 1], steps[..n], h) ==> PassedOver(states, steps, h)
  {
    if i :| 0 <= i < n && steps[..n][i] == Produce(false, PassOver) && NextOf(states[..n + 1][i]) == h {
      assert steps[i] == Produce(false, PassOver) && NextOf(states[i]) == h;
    }
  }

  lemma {:induction false} NextGrows(c: Config, states: seq<State>, steps: seq<Step>, n: nat)
    requires IsRun(c, states, steps) && n < |states|
    ensures NextOf(states[0]) <= NextOf(states[n])
    ensures forall i | 0 <= i < n && steps[i] == Produce(false, PassOver) ::
              NextOf(states[0]) <= NextOf(states[i]) < NextOf(states[n])
    ensures c.blockEvents && states[n].blockFeed.closed ==> !HasNext(states[n].blockFeed.agenda)
  {
    if n > 0 {
      NextGrows(c, states, steps, n - 1);
      RunInv(c, states, steps, n - 1);
      ProducerStep(c, states[n - 1], steps[n - 1]);
    }
  }

  lemma RunPrefix(c: Config, states: seq<State>, steps: seq<Step>, n: nat)
    requires IsRun(c, states, steps) && n <= |steps|
    ensures IsRun(c, states[..n + 1], steps[..n])
  {
  }

  lemma {:induction false} LeftBehindIsPassedOver(c: Config, states: seq<State>, steps: seq<Step>, h: int)
    requires IsRun(c, states, steps)
    requires states[|steps|].tip < h && NextOf(states[0]) <= h < NextOf(states[|steps|])
    ensures PassedOver(states, steps, h)
  {
    if steps != [] {
      var n := |steps| - 1;
      RunPrefix(c, states, steps, n);
      RunInv(c, states, steps, n);
      ProducerStep(c, states[n], steps[n]);
      if h < NextOf(states[n]) {
        LeftBehindIsPassedOver(c, states[..n + 1], steps[..n], h);
        PassedLonger(states, steps, n, h);
      }
    }
  }

  /**
    Of the heights that the chain does not have, the producer of block events has
    given up on exactly those it has left behind.
   */
  lemma AheadOfTheChainIff(c: Config, states: seq<State>, steps: seq<Step>, h: int)
    requires IsRun(c, states, steps) && states[|steps|].tip < h
    ensures PassedOver(states, steps, h) <==> NextOf(states[0]) <= h < NextOf(states[|steps|])
  {
    NextGrows(c, states, steps, |steps|);
    if NextOf(states[0]) <= h < NextOf(states[|steps|]) {
      LeftBehindIsPassedOver(c, states, steps, h);
    }
  }

  /** A command that returns before the chain has reached the end of the block events gave up on all heights in between. */
  lemma ReturnedBeforeTheEnd(c: Config, states: seq<State>, steps: seq<Step>, h: int)
    requires IsRun(c, states, steps) && Returned(states[|steps|]) && c.blockEvents
    requires NextOf(states[0]) <= h <= c.blockEventsEnd && states[|steps|].tip < h
    ensures PassedOver(states, steps, h)
  {
    RunInv(c, states, steps, |steps|);
    EndsAreKept(c, states, steps, |steps|);
    NextGrows(c, states, steps, |steps|);
    AheadOfTheChainIff(c, states, steps, h);
  }

  /** A chain of height 3 that is indexed up to there, and block events to be indexed from height 3 to an end. */
  function Halting(end: int): Config {
    Config(1, 3, false, false, false, 1, true, end, 0)
  }

  function Halted(phase: Phase, curr: int, blockFeed: Feed): State {
    State(phase, curr, curr, MAX_INT64, 3, [], [Idle], [], false, false,
          blockFeed, false, Feed(EpochList(0), Asking, 0, true), false,
          Selecting, {1, 2, 3}, {}, [], {}, {}, [])
  }

  lemma HaltedExits(end: int) returns (run: (seq<State>, seq<Step>))
    requires end >= 3
    ensures IsRun(Halting(end), run.0, run.1) && NextOf(run.0[0]) == 3
    ensures run.0[|run.1|] == Halted(Closed, 4, Feed(BlockRange(3, Some(end)), Asking, 0, false))
  {
    var c := Halting(end);
    run := ([Halted(Bounding, 0, Feed(BlockRange(3, Some(end)), Asking, 0, false))], []);
    run := Extended(c, run, Enqueue(Bound(3)));
    run := Extended(c, run, Enqueue(Probe(3)));
    run := Extended(c, run, Enqueue(Scan(4)));
    run := Extended(c, run, Enqueue(Exit));
  }

  lemma HaltedSends(end: int) returns (run: (seq<State>, seq<Step>))
    requires end >= 3
    ensures IsRun(Halting(end), run.0, run.1)
    ensures run.0[|run.1|] == Halted(Closed, 4, Feed(BlockRange(4, Some(end)), Waiting, 0, false))
  {
    run := HaltedExits(end);
    run := Extended(Halting(end), run, Produce(false, Fetch(true)));
    run := Extended(Halting(end), run, Produce(false, Emit));
    run := Extended(Halting(end), run, Consume(ReceiveEvent(false)));
  }

  lemma HaltedDrains(c: Config, run: (seq<State>, seq<Step>), f: Feed) returns (longer: (seq<State>, seq<Step>))
    requires IsRun(c, run.0, run.1) && run.0[|run.1|] == Halted(Closed, 4, f)
    ensures IsRun(c, longer.0, longer.1) && longer.0[0] == run.0[0]
    ensures longer.0[|longer.1|]
         == Halted(Closed, 4, f).(workers := [Done], txClosed := true, txNil := true, epochNil := true)
  {
    longer := Extended(c, run, Work(0, Leave));
    longer := Extended(c, longer, CloseTx);
    longer := Extended(c, longer, Consume(SeeTxClosed));
    longer := Extended(c, longer, Consume(SeeFeedClosed(true)));
  }

  /**
    With an end of the block events at or above the tip of a chain that stands still
    the command need not return: the events of height 3 are received, and the
    producer waits for height 4 before it looks at its end.
   */
  lemma HaltedChainNeverReturns(end: int) returns (run: (seq<State>, seq<Step>))
    requires end >= 3
    ensures IsRun(Halting(end), run.0, run.1) && run.0[|run.1|].phase == Closed && !EndlessEvents(Halting(end))
    ensures OnlyGrows(Halting(end), run.0[|run.1|]) && !Returned(run.0[|run.1|])
  {
    run := HaltedSends(end);
    run := HaltedDrains(Halting(end), run, Feed(BlockRange(4, Some(end)), Waiting, 0, false));
    RunInv(Halting(end), run.0, run.1, |run.1|);
    OnlyGrowsIff(Halting(end), run.0[|run.1|]);
  }

  lemma {:induction false} PassesOverAll(end: int, run: (seq<State>, seq<Step>), next: int)
      returns (longer: (seq<State>, seq<Step>))
    requires IsRun(Halting(end), run.0, run.1) && next <= end + 1
    requires run.0[|run.1|] == Halted(Closed, 4, Feed(BlockRange(next, Some(end)), Asking, 0, false))
    ensures IsRun(Halting(end), longer.0, longer.1) && longer.0[0] == run.0[0]
    ensures longer.0[|longer.1|] == Halted(Closed, 4, Feed(BlockRange(end + 1, Some(end)), Asking, 0, true))
    decreases end - next
  {
    if next == end + 1 {
      longer := Extended(Halting(end), run, Produce(false, CloseFeed));
    } else {
      longer := Extended(Halting(end), run, Produce(false, PassOver));
      longer := PassesOverAll(end, longer, next + 1);
    }
  }

  /**
    With any end above the tip the same command may return instead: its query for
    the tip fails, and so it gives up on every height up to the end, though the
    chain has none of them yet.
   */
  lemma FailedQueryOvertakes(end: int) returns (run: (seq<State>, seq<Step>))
    requires end >= 3
    ensures IsRun(Halting(end), run.0, run.1) && Returned(run.0[|run.1|]) && run.0[|run.1|].tip == 3
    ensures forall h | 3 < h <= end :: PassedOver(run.0, run.1, h)
  {
    run := HaltedExits(end);
    run := PassesOverAll(end, run, 3);
    run := HaltedDrains(Halting(end), run, Feed(BlockRange(end + 1, Some(end)), Asking, 0, true));
    run := Extended(Halting(end), run, Consume(SeeFeedClosed(false)));
    run := Extended(Halting(end), run, Consume(Finish));
    forall h | 3 < h <= end ensures PassedOver(run.0, run.1, h) {
      ReturnedBeforeTheEnd(Halting(end), run.0, run.1, h);
    }
  }

  /**
    Even then no height is lost: after blockChan is closed, a state in which no
    block step can be taken has dealt with every height up to the cursor.
   */
  lemma StoredThoughEndless(c: Config, states: seq<State>, steps: seq<Step>, h: int)
    requires IsRun(c, states, steps) && states[|steps|].phase == Closed
    requires forall step | Enabled(c, states[|steps|], step) :: !IsBlockStep(step)
    requires c.startBlock <= h < states[|steps|].curr
    ensures Covered(states[|steps|], h) || OnlyDropped(states[|steps|], h)
  {
    RunInv(c, states, steps, |steps|);
    StuckBlocksAreDone(c, states[|steps|]);
    NoHeightIsLost(c, states, steps, h);
  }

  // ------------------------------------------------------------------- the writer's exit

  predicate FeedDrained(f: Feed) {
    f.closed && f.queued == 0
  }

  /** All three channels are closed and empty, and the writer holds no block. */
  predicate ChannelsDrained(s: State) {
    && s.txClosed && s.txChan == [] && FeedDrained(s.blockFeed) && FeedDrained(s.epochFeed)
    && !s.writer.Writing?
  }

  /** What the writer still has to do then: see each channel closed, and leave. */
  function ExitsLeft(s: State): nat {
    (if s.txNil then 0 else 1) + (if s.blockNil then 0 else 1) + (if s.epochNil then 0 else 1)
    + (if s.writer == Finished then 0 else 1)
  }

  lemma WorkersAreGone(c: Config, s: State)
    requires ClosingInv(c, s) && s.txClosed
    ensures forall w, a :: !WorkerCan(c, s, w, a)
  {
    forall w: nat, a | w < |s.workers| ensures !WorkerCan(c, s, w, a) {
      assert s.workers[w] in s.workers;
    }
  }

  lemma EnqueuerLeavesDrained(c: Config, s: State, e: EnqueuerAction)
    requires ChannelsDrained(s) && EnqueuerCan(c, s, e)
    ensures ChannelsDrained(EnqueuerDo(c, s, e)) && ExitsLeft(EnqueuerDo(c, s, e)) == ExitsLeft(s)
  {
  }

  lemma WriterLeaves(s: State, r: WriterAction)
    requires ChannelsDrained(s) && WriterCan(s, r) && (s.writer == Finished ==> s.txNil && s.blockNil && s.epochNil)
    ensures ChannelsDrained(WriterDo(s, r)) && ExitsLeft(WriterDo(s, r)) == ExitsLeft(s) - 1
    ensures r.SeeTxClosed? || r.SeeFeedClosed? || r.Finish?
  {
  }

  /** On drained channels each of the writer's steps brings it one nearer to its exit, and no other step matters. */
  lemma DrainedStep(c: Config, s: State, step: Step)
    requires ClosingInv(c, s) && ChannelsDrained(s) && Enabled(c, s, step)
    ensures ChannelsDrained(Do(c, s, step))
    ensures ExitsLeft(Do(c, s, step)) == ExitsLeft(s) - (if step.Consume? then 1 else 0)
    ensures step.Consume? ==> step.r.SeeTxClosed? || step.r.SeeFeedClosed? || step.r.Finish?
  {
    WorkersAreGone(c, s);
    if step.Enqueue? {
      EnqueuerLeavesDrained(c, s, step.e);
    } else if step.Consume? {
      WriterLeaves(s, step.r);
    }
  }

  function WriterMoves(steps: seq<Step>): nat {
    if steps == [] then 0 else WriterMoves(steps[..|steps| - 1]) + (if steps[|steps| - 1].Consume? then 1 else 0)
  }

  /** From drained channels on, the writer is finished after exactly the steps it has left, at most four. */
  lemma {:induction false} WriterCountsDown(c: Config, states: seq<State>, steps: seq<Step>)
    requires Continues(c, states, steps) && ClosingInv(c, states[0]) && ChannelsDrained(states[0])
    ensures ClosingInv(c, states[|steps|]) && ChannelsDrained(states[|steps|])
    ensures WriterMoves(steps) + ExitsLeft(states[|steps|]) == ExitsLeft(states[0]) <= 4
    ensures states[|steps|].writer == Finished <==> WriterMoves(steps) == ExitsLeft(states[0])
  {
    if steps != [] {
      var n := |steps| - 1;
      WriterCountsDown(c, states[..n + 1], steps[..n]);
      ClosingStep(c, states[n], steps[n]);
      DrainedStep(c, states[n], steps[n]);
    }
  }

  ghost predicate WriterStuck(s: State) {
    forall r :: !WriterCan(s, r)
  }

  /**
    In every reachable state the writer has finished exactly when all three
    channels are closed and drained and it has nothing left to do.
   */
  lemma WriterFinishesWhenDrained(c: Config, states: seq<State>, steps: seq<Step>, n: nat)
    requires IsRun(c, states, steps) && n < |states|
    ensures states[n].writer == Finished <==> ChannelsDrained(states[n]) && WriterStuck(states[n])
  {
    RunInv(c, states, steps, n);
    var s := states[n];
    if ChannelsDrained(s) && s.writer == Selecting {
      var r := if !s.txNil then SeeTxClosed else if !s.blockNil then SeeFeedClosed(false)
               else if !s.epochNil then SeeFeedClosed(true) else Finish;
      assert WriterCan(s, r);
    }
  }
}
