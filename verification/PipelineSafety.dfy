/**
  What every interleaving of the pipeline keeps, and what it has achieved when all
  blocks are dealt with: no height is lost, and none is sent that should not be.
 */
module PipelineSafety {
  import opened Options
  import opened Decimal
  import opened Pipeline

  // ------------------------------------------------------------------ channels and closing

  /** The producer has no end and never closes its channel. */
  predicate Endless(f: Feed) {
    f.agenda.BlockRange? && f.agenda.end.None?
  }

  /** Events are of heights that the chain has, and a producer is never more than one height past its end or the tip. */
  predicate FeedInv(c: Config, tip: int, f: Feed, seenClosed: bool) {
    && f.queued <= DataCap(c)
    && (f.closed ==> !Endless(f))
    && (seenClosed ==> f.closed && f.queued == 0)
    && (f.turn == Holding ==> HasNext(f.agenda) && ChainHasNext(f.agenda, tip))
    && (f.turn == Waiting ==>
          && f.agenda.BlockRange? && f.agenda.next <= tip + 1
          && (f.agenda.end.Some? ==> f.agenda.next <= f.agenda.end.value + 1))
  }

  predicate FeedsInv(c: Config, s: State) {
    && s.blockFeed.agenda.BlockRange? && FeedInv(c, s.tip, s.blockFeed, s.blockNil)
    && s.epochFeed.agenda.EpochList? && FeedInv(c, s.tip, s.epochFeed, s.epochNil)
  }

  predicate ChannelsInv(c: Config, s: State) {
    && |s.workers| == Threads(c.rpcWorkers)
    && |s.blockChan| <= BLOCK_CAP && |s.txChan| <= DataCap(c)
    && (s.phase == Sending ==> |s.blockChan| < BLOCK_CAP)
    && (Done in s.workers ==> s.phase == Closed && s.blockChan == [])
    && (s.txClosed ==> forall w | w in s.workers :: w == Done)
    && (s.txNil ==> s.txClosed && s.txChan == [])
    && (s.writer == Finished ==> s.txNil && s.blockNil && s.epochNil)
  }

  /** Channels stay within their bounds and are closed and abandoned in order. */
  predicate ClosingInv(c: Config, s: State) {
    ChannelsInv(c, s) && FeedsInv(c, s)
  }

  lemma Updated(ws: seq<Worker>, w: nat, x: Worker)
    requires w < |ws|
    ensures x in ws[w := x]
    ensures forall y :: y in ws[w := x] ==> y == x || y in ws
    ensures forall y :: y in ws && y != ws[w] ==> y in ws[w := x]
  {
    forall y | y in ws && y != ws[w] ensures y in ws[w := x] {
      var i :| 0 <= i < |ws| && ws[i] == y;
      assert ws[w := x][i] == y;
    }
    assert ws[w := x][w] == x;
  }

  lemma EnqueuerChannels(c: Config, s: State, e: EnqueuerAction)
    requires ChannelsInv(c, s) && EnqueuerCan(c, s, e)
    ensures ChannelsInv(c, EnqueuerDo(c, s, e))
  {
  }

  lemma EnqueuerFeeds(c: Config, s: State, e: EnqueuerAction)
    requires FeedsInv(c, s) && EnqueuerCan(c, s, e)
    ensures FeedsInv(c, EnqueuerDo(c, s, e))
  {
  }

  lemma WorkerClosing(c: Config, s: State, w: nat, a: WorkerAction)
    requires ClosingInv(c, s) && WorkerCan(c, s, w, a)
    ensures ClosingInv(c, WorkerDo(c, s, w, a))
  {
    assert s.workers[w] in s.workers;
    Updated(s.workers, w, NextWorker(c, s, w, a));
  }

  lemma WriterChannels(c: Config, s: State, r: WriterAction)
    requires ChannelsInv(c, s) && WriterCan(s, r)
    ensures ChannelsInv(c, WriterDo(s, r))
  {
  }

  lemma WriterFeeds(c: Config, s: State, r: WriterAction)
    requires FeedsInv(c, s) && WriterCan(s, r)
    ensures FeedsInv(c, WriterDo(s, r))
  {
  }

  lemma ProducerFeed(c: Config, tip: int, f: Feed, seenClosed: bool, p: ProducerAction)
    requires FeedInv(c, tip, f, seenClosed) && ProducerCan(c, tip, f, p)
    ensures var g := ProducerDo(c, tip, f, p);
            && FeedInv(c, tip, g, seenClosed)
            && (g.agenda.BlockRange? <==> f.agenda.BlockRange?) && (Endless(g) <==> Endless(f))
  {
  }

  lemma ProducerClosing(c: Config, s: State, epoch: bool, p: ProducerAction)
    requires ClosingInv(c, s) && ProducerCan(c, s.tip, FeedOf(s, epoch), p)
    ensures ClosingInv(c, WithFeed(s, epoch, ProducerDo(c, s.tip, FeedOf(s, epoch), p)))
  {
    ProducerFeed(c, s.tip, FeedOf(s, epoch), NilOf(s, epoch), p);
  }

  lemma ClosingStep(c: Config, s: State, step: Step)
    requires ClosingInv(c, s) && Enabled(c, s, step)
    ensures ClosingInv(c, Do(c, s, step))
  {
    match step
    case Enqueue(e) => EnqueuerChannels(c, s, e); EnqueuerFeeds(c, s, e);
    case Work(w, a) => WorkerClosing(c, s, w, a);
    case CloseTx =>
    case Produce(epoch, p) => ProducerClosing(c, s, epoch, p);
    case Consume(r) => WriterChannels(c, s, r); WriterFeeds(c, s, r);
    case Grow(_) =>
  }

  // --------------------------------------------------------------------------- accounting

  /** h is on a channel or in the hands of a worker or the writer. */
  predicate InFlight(s: State, h: int) {
    h in s.blockChan || Busy(h) in s.workers || Ready(h) in s.workers || h in s.txChan || s.writer == Writing(h)
  }

  predicate Attempted(s: State, h: int) {
    h in s.sent || h in s.retried
  }

  predicate Settled(s: State, h: int) {
    Wrote(h) in s.log || MarkedFailed(h) in s.log || h in s.dropped
  }

  /** Every attempt at h was dropped: the node had neither a result nor an error. */
  predicate OnlyDropped(s: State, h: int) {
    h in s.dropped && Wrote(h) !in s.log && MarkedFailed(h) !in s.log
  }

  predicate Covered(s: State, h: int) {
    h in s.indexed || h in s.failed
  }

  /** Heights enter by being attempted, are in flight, and leave by being settled; nothing else happens to them. */
  ghost predicate AccountInv(s: State) {
    && (forall h :: Attempted(s, h) ==> InFlight(s, h) || Settled(s, h))
    && (forall h :: InFlight(s, h) || Settled(s, h) ==> Attempted(s, h))
  }

  /** Heights in flight stay so or are settled, and only attempted heights come in flight. */
  predicate FlightKept(s: State, s2: State, h: int) {
    && (InFlight(s, h) ==> InFlight(s2, h) || Settled(s2, h))
    && (InFlight(s2, h) ==> InFlight(s, h) || Attempted(s2, h))
    && (Attempted(s2, h) ==> Attempted(s, h) || InFlight(s2, h))
  }

  /** What is settled or attempted stays so, and only heights in flight are settled. */
  predicate SettledKept(s: State, s2: State, h: int) {
    && (Settled(s, h) ==> Settled(s2, h))
    && (Settled(s2, h) ==> Settled(s, h) || InFlight(s, h))
    && (Attempted(s, h) ==> Attempted(s2, h))
  }

  predicate AccountKept(s: State, s2: State, h: int) {
    FlightKept(s, s2, h) && SettledKept(s, s2, h)
  }

  lemma EnqueuerAccount(c: Config, s: State, e: EnqueuerAction, h: int)
    requires EnqueuerCan(c, s, e)
    ensures AccountKept(s, EnqueuerDo(c, s, e), h)
  {
  }

  lemma WorkerFlight(c: Config, s: State, w: nat, a: WorkerAction, h: int)
    requires WorkerCan(c, s, w, a)
    ensures FlightKept(s, WorkerDo(c, s, w, a), h)
  {
    Updated(s.workers, w, NextWorker(c, s, w, a));
  }

  lemma WorkerSettled(c: Config, s: State, w: nat, a: WorkerAction, h: int)
    requires WorkerCan(c, s, w, a)
    ensures SettledKept(s, WorkerDo(c, s, w, a), h)
  {
    assert s.workers[w] in s.workers;
  }

  lemma WorkerAccount(c: Config, s: State, w: nat, a: WorkerAction, h: int)
    requires WorkerCan(c, s, w, a)
    ensures AccountKept(s, WorkerDo(c, s, w, a), h)
  {
    WorkerFlight(c, s, w, a, h);
    WorkerSettled(c, s, w, a, h);
  }

  lemma WriterAccount(s: State, r: WriterAction, h: int)
    requires WriterCan(s, r)
    ensures AccountKept(s, WriterDo(s, r), h)
  {
  }

  lemma StepAccount(c: Config, s: State, step: Step, h: int)
    requires Enabled(c, s, step)
    ensures AccountKept(s, Do(c, s, step), h)
  {
    match step
    case Enqueue(e) => EnqueuerAccount(c, s, e, h);
    case Work(w, a) => WorkerAccount(c, s, w, a, h);
    case CloseTx =>
    case Produce(_, _) =>
    case Consume(r) => WriterAccount(s, r, h);
    case Grow(_) =>
  }

  lemma AccountStep(c: Config, s: State, step: Step)
    requires AccountInv(s) && Enabled(c, s, step)
    ensures AccountInv(Do(c, s, step))
  {
    forall h ensures Attempted(Do(c, s, step), h) ==> InFlight(Do(c, s, step), h) || Settled(Do(c, s, step), h) {
      StepAccount(c, s, step, h);
    }
    forall h ensures InFlight(Do(c, s, step), h) || Settled(Do(c, s, step), h) ==> Attempted(Do(c, s, step), h) {
      StepAccount(c, s, step, h);
    }
  }

  /** The tables as the commits left them: s0 is the state the run began in. */
  ghost predicate TablesInv(s0: State, s: State) {
    && (forall h :: h in s.indexed <==> h in s0.indexed || Wrote(h) in s.log)
    && (forall h :: h in s.failed ==> h in s0.failed || MarkedFailed(h) in s.log)
    && (forall h :: h in s0.failed || MarkedFailed(h) in s.log ==> Covered(s, h))
  }

  lemma EnqueuerLeavesTables(c: Config, s: State, e: EnqueuerAction)
    requires EnqueuerCan(c, s, e)
    ensures var s2 := EnqueuerDo(c, s, e); s2.indexed == s.indexed && s2.failed == s.failed && s2.log == s.log
  {
  }

  lemma WorkerTables(c: Config, s0: State, s: State, w: nat, a: WorkerAction)
    requires TablesInv(s0, s) && WorkerCan(c, s, w, a)
    ensures TablesInv(s0, WorkerDo(c, s, w, a))
  {
  }

  lemma WriterTables(s0: State, s: State, r: WriterAction)
    requires TablesInv(s0, s) && WriterCan(s, r)
    ensures TablesInv(s0, WriterDo(s, r))
  {
  }

  lemma TablesStep(c: Config, s0: State, s: State, step: Step)
    requires TablesInv(s0, s) && Enabled(c, s, step)
    ensures TablesInv(s0, Do(c, s, step))
  {
    match step
    case Enqueue(e) => EnqueuerLeavesTables(c, s, e);
    case Work(w, a) => WorkerTables(c, s0, s, w, a);
    case CloseTx =>
    case Produce(_, _) =>
    case Consume(r) => WriterTables(s0, s, r);
    case Grow(_) =>
  }

  // ------------------------------------------------------------------------ the range loop

  predicate Started(s: State) {
    s.phase == Looping || s.phase == Filling || s.phase == Sending || s.phase == Closed
  }

  predicate WithinTip(s: State) {
    && (s.latest <= s.tip || s.latest == MAX_INT64)
    && (s.phase == Filling || s.phase == Sending ==> s.latest <= s.tip)
  }

  /** Everything below the cursor has been sent or is indexed. */
  predicate CursorInv(c: Config, s: State) {
    && c.startBlock <= s.start <= s.curr
    && (forall h | c.startBlock <= h < s.curr :: h in s.sent || h in s.indexed)
    && (c.reIndex ==> s.start == c.startBlock)
    && (s.curr == s.start || (s.latest <= s.tip && s.curr <= s.latest))
    && (s.curr == s.start || c.endBlock == -1 || s.curr <= c.endBlock + 1)
    && (s.phase == Sending ==> s.curr < s.latest && (c.endBlock == -1 || s.curr <= c.endBlock))
    && (s.phase == Closed ==> MustExit(c, s))
  }

  /** Heights are sent in increasing order, within the range, below the cursor and below the tip. */
  predicate SentInv(c: Config, s: State) {
    && Ascending(s.sent)
    && forall h | h in s.sent :: s.start <= h < s.curr && h < s.tip && (c.endBlock == -1 || h <= c.endBlock)
  }

  predicate RangeInv(c: Config, s: State) {
    && c.startBlock >= 1
    && WithinTip(s)
    && (s.phase.Probing? || s.phase.Scanning? ==> !c.reIndex)
    && (if Started(s) then CursorInv(c, s) else s.sent == [] && s.latest == MAX_INT64)
    && SentInv(c, s)
  }

  /** The enqueuer's variables stand still while the tables and the chain may grow. */
  predicate RangeKept(s: State, s2: State) {
    && s2.phase == s.phase && s2.curr == s.curr && s2.start == s.start && s2.latest == s.latest
    && s2.sent == s.sent && s2.retried == s.retried
    && s.tip <= s2.tip && s.indexed <= s2.indexed
  }

  lemma WorkerLeavesRange(c: Config, s: State, w: nat, a: WorkerAction)
    requires WorkerCan(c, s, w, a)
    ensures RangeKept(s, WorkerDo(c, s, w, a))
  {
  }

  lemma WriterLeavesRange(s: State, r: WriterAction)
    requires WriterCan(s, r)
    ensures RangeKept(s, WriterDo(s, r))
  {
  }

  lemma OthersLeaveRange(c: Config, s: State, step: Step)
    requires Enabled(c, s, step) && !step.Enqueue?
    ensures RangeKept(s, Do(c, s, step))
  {
    match step
    case Work(w, a) => WorkerLeavesRange(c, s, w, a);
    case CloseTx =>
    case Produce(_, _) =>
    case Consume(r) => WriterLeavesRange(s, r);
    case Grow(_) =>
  }

  lemma SentStep(c: Config, s: State)
    requires RangeInv(c, s) && EnqueuerCan(c, s, Send)
    ensures SentInv(c, EnqueuerDo(c, s, Send))
    ensures forall h :: h in s.sent + [s.curr] <==> h in s.sent || h == s.curr
  {
    forall i | 0 <= i < |s.sent| ensures s.sent[i] < s.curr {
      assert s.sent[i] in s.sent;
    }
  }

  lemma EnqueuerStep(c: Config, s: State, e: EnqueuerAction)
    requires RangeInv(c, s) && EnqueuerCan(c, s, e)
    ensures RangeInv(c, EnqueuerDo(c, s, e))
  {
    if e == Send {
      SentStep(c, s);
    }
  }

  lemma RangeStep(c: Config, s: State, step: Step)
    requires RangeInv(c, s) && Enabled(c, s, step)
    ensures RangeInv(c, Do(c, s, step))
  {
    if step.Enqueue? {
      EnqueuerStep(c, s, step.e);
    } else {
      OthersLeaveRange(c, s, step);
    }
  }

  /** Failed blocks are re-enqueued exactly once each, when that is configured, before the range loop starts. */
  ghost predicate RetryInv(c: Config, s0: State, s: State) {
    if s.phase.Retrying? then
      && c.reattemptFailed
      && (forall h :: h in s0.failed <==> h in s.retried || h in s.phase.todo)
    else
      forall h :: h in s.retried <==> c.reattemptFailed && h in s0.failed
  }

  lemma EnqueuerRetry(c: Config, s0: State, s: State, e: EnqueuerAction)
    requires RetryInv(c, s0, s) && EnqueuerCan(c, s, e)
    ensures RetryInv(c, s0, EnqueuerDo(c, s, e))
  {
  }

  lemma RetryStep(c: Config, s0: State, s: State, step: Step)
    requires RetryInv(c, s0, s) && Enabled(c, s, step)
    ensures RetryInv(c, s0, Do(c, s, step))
  {
    if step.Enqueue? {
      EnqueuerRetry(c, s0, s, step.e);
    } else {
      OthersLeaveRange(c, s, step);
    }
  }

  // ---------------------------------------------------------------------------- whole runs

  ghost predicate Inv(c: Config, s0: State, s: State) {
    ClosingInv(c, s) && AccountInv(s) && TablesInv(s0, s) && RangeInv(c, s) && RetryInv(c, s0, s)
  }

  lemma InitInv(c: Config, s: State)
    requires Init(c, s)
    ensures Inv(c, s, s)
  {
    assert Done !in s.workers;
    forall h ensures !InFlight(s, h) && !Settled(s, h) && !Attempted(s, h) {
      assert Busy(h) !in s.workers && Ready(h) !in s.workers;
    }
  }

  lemma StepInv(c: Config, s0: State, s: State, step: Step)
    requires Inv(c, s0, s) && Enabled(c, s, step)
    ensures Inv(c, s0, Do(c, s, step))
  {
    ClosingStep(c, s, step);
    AccountStep(c, s, step);
    TablesStep(c, s0, s, step);
    RangeStep(c, s, step);
    RetryStep(c, s0, s, step);
  }

  lemma {:induction false} RunInv(c: Config, states: seq<State>, steps: seq<Step>, n: nat)
    requires IsRun(c, states, steps) && n < |states|
    ensures Inv(c, states[0], states[n])
  {
    if n == 0 {
      InitInv(c, states[0]);
    } else {
      RunInv(c, states, steps, n - 1);
      StepInv(c, states[0], states[n - 1], steps[n - 1]);
    }
  }

  // ------------------------------------------------------------------------ main results

  /** At every moment an attempted height is on its way, stored, marked failed, or was dropped. */
  lemma NothingDisappears(c: Config, states: seq<State>, steps: seq<Step>, n: nat, h: int)
    requires IsRun(c, states, steps) && n < |states|
    ensures Attempted(states[n], h) <==> InFlight(states[n], h) || Settled(states[n], h)
    ensures Settled(states[n], h) && !OnlyDropped(states[n], h) ==> Covered(states[n], h)
    ensures Covered(states[0], h) ==> Covered(states[n], h)
  {
    RunInv(c, states, steps, n);
  }

  /** The range loop, the only producer on blockChan by then, never waits for room. */
  lemma SendNeverBlocks(c: Config, states: seq<State>, steps: seq<Step>, n: nat)
    requires IsRun(c, states, steps) && n < |states|
    ensures states[n].phase == Sending ==> Enabled(c, states[n], Enqueue(Send))
  {
    RunInv(c, states, steps, n);
  }

  /**
    The range loop sends each height at most once, in increasing order, from the
    chosen start on, below a tip that the chain had and not past the end block;
    a height that it passes without sending it is indexed.
   */
  lemma RangeIsOrderly(c: Config, states: seq<State>, steps: seq<Step>, n: nat)
    requires IsRun(c, states, steps) && n < |states|
    ensures var s := states[n];
            && Ascending(s.sent)
            && (forall h | h in s.sent :: c.startBlock <= s.start <= h < s.tip && (c.endBlock == -1 || h <= c.endBlock))
            && (Started(s) ==> forall h | c.startBlock <= h < s.curr && h !in s.sent :: h in s.indexed)
  {
    RunInv(c, states, steps, n);
    var s := states[n];
    if s.sent != [] {
      assert s.sent[0] in s.sent;
    }
  }

  lemma NothingInFlight(s: State, h: int)
    requires BlocksDone(s)
    ensures !InFlight(s, h)
  {
  }

  /** A command that has returned has dealt with all its blocks. */
  lemma ReturnedIsDone(c: Config, s: State)
    requires ClosingInv(c, s) && Returned(s)
    ensures BlocksDone(s)
  {
    assert s.workers[0] in s.workers;
  }

  /**
    When all blocks are dealt with, the heights with a row, indexed or failed, are
    exactly those that had one before and those that were sent and not only dropped.
   */
  lemma CoverageAtReturn(c: Config, states: seq<State>, steps: seq<Step>, h: int)
    requires IsRun(c, states, steps) && BlocksDone(states[|steps|])
    ensures Covered(states[|steps|], h)
       <==> Covered(states[0], h) || (h in states[|steps|].sent && !OnlyDropped(states[|steps|], h))
  {
    var s := states[|steps|];
    RunInv(c, states, steps, |steps|);
    NothingInFlight(s, h);
    if h in s.retried {
      assert h in states[0].failed;
    }
  }

  /**
    No height is lost. When all blocks are dealt with, every height from the
    configured start to the cursor is indexed or marked failed, unless the node
    answered for it with neither a result nor an error each time it was tried.
   */
  lemma NoHeightIsLost(c: Config, states: seq<State>, steps: seq<Step>, h: int)
    requires IsRun(c, states, steps) && BlocksDone(states[|steps|])
    requires c.startBlock <= h < states[|steps|].curr
    ensures Covered(states[|steps|], h) || OnlyDropped(states[|steps|], h)
  {
    var s := states[|steps|];
    RunInv(c, states, steps, |steps|);
    NothingInFlight(s, h);
  }

  /**
    The enqueuer leaves before its end block, or without one, only by
    exitWhenCaughtUp, and only when the start it chose was already past the tip that
    the chain had before the run; then it has sent nothing.
   */
  lemma EarlyReturn(c: Config, states: seq<State>, steps: seq<Step>)
    requires IsRun(c, states, steps) && states[|steps|].phase == Closed
    ensures var s := states[|steps|];
            || (c.endBlock != -1 && s.curr > c.endBlock)
            || (c.exitWhenCaughtUp && s.curr == s.start > s.latest && s.start > states[0].tip && s.sent == [])
  {
    var s := states[|steps|];
    RunInv(c, states, steps, |steps|);
    TipsGrow(c, states, steps, |steps|);
    assert s.sent != [] ==> s.sent[0] in s.sent;
  }

  /** The guard of the exit that ends a run before its range is done. */
  predicate CutShort(c: Config, s: State) {
    c.exitWhenCaughtUp && s.start > s.latest
  }

  predicate InRange(c: Config, h: int) {
    c.startBlock <= h <= c.endBlock
  }

  ghost predicate RangeCovered(c: Config, s: State) {
    forall h | InRange(c, h) :: Covered(s, h)
  }

  /**
    Exactly when a height of the range ends without a row: it had none before, and
    either the run was cut short or the height was only ever dropped.
   */
  lemma HeightCoveredIff(c: Config, states: seq<State>, steps: seq<Step>, h: int)
    requires IsRun(c, states, steps) && BlocksDone(states[|steps|]) && InRange(c, h)
    ensures var s := states[|steps|];
            Covered(s, h) <==> Covered(states[0], h) || (!CutShort(c, s) && !OnlyDropped(s, h))
  {
    var s := states[|steps|];
    RunInv(c, states, steps, |steps|);
    EarlyReturn(c, states, steps);
    CoverageAtReturn(c, states, steps, h);
    if h < s.curr {
      NoHeightIsLost(c, states, steps, h);
    }
    assert CutShort(c, s) && s.sent != [] ==> s.sent[0] in s.sent;
  }

  /**
    Exactly when a run covers its whole range: no new height was only dropped, and
    unless the run was cut short everything from the start on had a row before it began.
   */
  lemma RangeCoveredIff(c: Config, states: seq<State>, steps: seq<Step>)
    requires IsRun(c, states, steps) && BlocksDone(states[|steps|]) && c.endBlock != -1
    ensures var s := states[|steps|];
            RangeCovered(c, s) <==>
              && (forall h | InRange(c, h) :: Covered(states[0], h) || !OnlyDropped(s, h))
              && (CutShort(c, s) ==> forall h | s.start <= h <= c.endBlock :: Covered(states[0], h))
  {
    var s := states[|steps|];
    RunInv(c, states, steps, |steps|);
    forall h | InRange(c, h)
      ensures Covered(s, h) <==> Covered(states[0], h) || (!CutShort(c, s) && !OnlyDropped(s, h))
      ensures h < s.start ==> Covered(s, h) || OnlyDropped(s, h)
    {
      HeightCoveredIff(c, states, steps, h);
      if h < s.start {
        NoHeightIsLost(c, states, steps, h);
      }
    }
    if RangeCovered(c, s) && CutShort(c, s) {
      forall h | s.start <= h <= c.endBlock ensures Covered(states[0], h) {
        assert InRange(c, h);
      }
    }
  }

  /** Without exitWhenCaughtUp nothing but dropped heights is missing from the range. */
  lemma RangeCoveredWithoutCaughtUpExit(c: Config, states: seq<State>, steps: seq<Step>, h: int)
    requires IsRun(c, states, steps) && BlocksDone(states[|steps|]) && InRange(c, h)
    requires !c.exitWhenCaughtUp
    ensures Covered(states[|steps|], h) <==> Covered(states[0], h) || !OnlyDropped(states[|steps|], h)
  {
    HeightCoveredIff(c, states, steps, h);
  }

  lemma EnqueuerSeesTip(c: Config, s: State, e: EnqueuerAction)
    requires EnqueuerCan(c, s, e)
    ensures var s2 := EnqueuerDo(c, s, e); s2.tip == s.tip && (s2.latest == s.latest || s2.latest == s.tip)
  {
  }

  lemma TipStep(c: Config, s: State, step: Step, tip: int)
    requires Enabled(c, s, step) && tip <= s.tip && tip <= s.latest
    ensures tip <= Do(c, s, step).tip && tip <= Do(c, s, step).latest
  {
    if step.Enqueue? {
      EnqueuerSeesTip(c, s, step.e);
    } else {
      OthersLeaveRange(c, s, step);
    }
  }

  /** The chain never falls behind the tip it had when the run began, and neither does what the enqueuer knows of it. */
  lemma {:induction false} TipsGrow(c: Config, states: seq<State>, steps: seq<Step>, n: nat)
    requires IsRun(c, states, steps) && n < |states|
    ensures states[0].tip <= states[n].tip && states[0].tip <= states[n].latest
  {
    if n > 0 {
      TipsGrow(c, states, steps, n - 1);
      TipStep(c, states[n - 1], steps[n - 1], states[0].tip);
    }
  }

  /** A run whose chosen start is at or below the tip the chain had before is not cut short. */
  lemma NotCutShort(c: Config, states: seq<State>, steps: seq<Step>, h: int)
    requires IsRun(c, states, steps) && BlocksDone(states[|steps|]) && InRange(c, h)
    requires states[|steps|].start <= states[0].tip
    ensures Covered(states[|steps|], h) <==> Covered(states[0], h) || !OnlyDropped(states[|steps|], h)
  {
    TipsGrow(c, states, steps, |steps|);
    HeightCoveredIff(c, states, steps, h);
  }

  lemma RunExtends(c: Config, states: seq<State>, steps: seq<Step>, step: Step)
    requires IsRun(c, states, steps) && Enabled(c, states[|steps|], step)
    ensures IsRun(c, states + [Do(c, states[|steps|], step)], steps + [step])
  {
    var states2, steps2 := states + [Do(c, states[|steps|], step)], steps + [step];
    forall i | 0 <= i < |steps2| ensures Enabled(c, states2[i], steps2[i]) && states2[i + 1] == Do(c, states2[i], steps2[i]) {
      if i < |steps| {
        assert states2[i] == states[i] && states2[i + 1] == states[i + 1] && steps2[i] == steps[i];
      }
    }
  }

  ghost function Extended(c: Config, run: (seq<State>, seq<Step>), step: Step): (longer: (seq<State>, seq<Step>))
    requires IsRun(c, run.0, run.1) && Enabled(c, run.0[|run.1|], step)
    ensures IsRun(c, longer.0, longer.1) && longer.0[0] == run.0[0]
    ensures longer.0[|longer.1|] == Do(c, run.0[|run.1|], step)
  {
    RunExtends(c, run.0, run.1, step);
    (run.0 + [Do(c, run.0[|run.1|], step)], run.1 + [step])
  }

  /** A database indexed up to height 3, the tip, and a configured range of 1 to 5. */
  const CAUGHT_UP := Config(1, 5, false, true, false, 1, false, 0, 0)

  function CaughtUp(phase: Phase, curr: int, latest: int): State {
    State(phase, curr, curr, latest, 3, [], [Idle], [], false, false,
          Feed(BlockRange(1, Some(0)), Asking, 0, true), false, Feed(EpochList(0), Asking, 0, true), false,
          Selecting, {1, 2, 3}, {}, [], {}, {}, [])
  }

  lemma CaughtUpEnqueues() returns (run: (seq<State>, seq<Step>))
    ensures IsRun(CAUGHT_UP, run.0, run.1)
    ensures run.0[|run.1|] == CaughtUp(Looping, 4, MAX_INT64)
  {
    run := ([CaughtUp(Bounding, 0, MAX_INT64)], []);
    run := Extended(CAUGHT_UP, run, Enqueue(Bound(3)));
    run := Extended(CAUGHT_UP, run, Enqueue(Probe(3)));
    run := Extended(CAUGHT_UP, run, Enqueue(Scan(4)));
  }

  lemma CaughtUpExits() returns (run: (seq<State>, seq<Step>))
    ensures IsRun(CAUGHT_UP, run.0, run.1)
    ensures run.0[|run.1|] == CaughtUp(Closed, 4, 3)
  {
    run := CaughtUpEnqueues();
    run := Extended(CAUGHT_UP, run, Enqueue(Poll));
    run := Extended(CAUGHT_UP, run, Enqueue(StopFilling));
    run := Extended(CAUGHT_UP, run, Enqueue(Exit));
  }

  lemma CaughtUpDrains() returns (run: (seq<State>, seq<Step>))
    ensures IsRun(CAUGHT_UP, run.0, run.1)
    ensures run.0[|run.1|] == CaughtUp(Closed, 4, 3).(workers := [Done], txClosed := true, txNil := true)
  {
    run := CaughtUpExits();
    run := Extended(CAUGHT_UP, run, Work(0, Leave));
    run := Extended(CAUGHT_UP, run, CloseTx);
    run := Extended(CAUGHT_UP, run, Consume(SeeTxClosed));
  }

  /**
    With exitWhenCaughtUp the range need not be covered: on a chain of height 3
    that is indexed up to there, the range 1 to 5 ends at once without 4 and 5.
   */
  lemma CaughtUpExitLosesHeights() returns (run: (seq<State>, seq<Step>))
    ensures IsRun(CAUGHT_UP, run.0, run.1) && Returned(run.0[|run.1|])
    ensures run.0[|run.1|].dropped == {}
    ensures !RangeCovered(CAUGHT_UP, run.0[|run.1|])
  {
    run := CaughtUpDrains();
    run := Extended(CAUGHT_UP, run, Consume(SeeFeedClosed(false)));
    run := Extended(CAUGHT_UP, run, Consume(SeeFeedClosed(true)));
    run := Extended(CAUGHT_UP, run, Consume(Finish));
    assert !Covered(run.0[|run.1|], 4);
  }
}
