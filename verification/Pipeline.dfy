/**
  The block-indexing pipeline as a state machine: one enqueuer on a bounded
  channel of heights, a fixed number of workers, one writer that drains three
  channels, and two producers of events. Every step is what one goroutine does
  between two channel or database operations; a run is any interleaving of steps.
  A run in which the process ends with a fatal error is not a run here.
 */
module Pipeline {
  import opened Options
  import opened Decimal
  import opened StartHeight

  const BLOCK_CAP: nat := 10000

  /** The configured number of workers, 0 standing for 4 and 64 being the most. */
  function Threads(rpcWorkers: nat): (n: nat)
    ensures 1 <= n <= 64
    ensures rpcWorkers == 0 ==> n == 4
    ensures 1 <= rpcWorkers <= 64 ==> n == rpcWorkers
  {
    if rpcWorkers == 0 then 4 else if rpcWorkers > 64 then 64 else rpcWorkers
  }

  /** An end of -1 means no end, for blocks and for block events; a negative retry limit means none. */
  datatype Config = Config(
    startBlock: int, endBlock: int, reIndex: bool, exitWhenCaughtUp: bool, reattemptFailed: bool, rpcWorkers: nat,
    blockEvents: bool, blockEventsEnd: int, retryLimit: int)

  /** The producer of block events then goes on for ever and never closes its channel. */
  predicate EndlessEvents(c: Config) {
    c.blockEvents && c.blockEventsEnd == -1
  }

  /** A query that keeps failing is given up at some time. */
  predicate GivesUp(c: Config) {
    c.retryLimit >= 0
  }

  function DataCap(c: Config): nat {
    4 * Threads(c.rpcWorkers)
  }

  /**
    Where the enqueuer is: re-enqueueing failed blocks, choosing the start height
    (three database reads), at the top of the outer loop, at the guard of the inner
    loop, past that guard with a height to send, or returned with blockChan closed.
   */
  datatype Phase =
    | Retrying(todo: seq<int>)
    | Bounding
    | Probing(end: int)
    | Scanning(end: int)
    | Looping
    | Filling
    | Sending
    | Closed

  /** Waiting for a height, processing one, waiting to hand over its data, or returned. */
  datatype Worker = Idle | Busy(height: int) | Ready(height: int) | Done

  /** What a producer of events has before it: heights from next to an end, if there is one, or a number of epochs. */
  datatype Agenda = BlockRange(next: int, end: Option<int>) | EpochList(left: nat)

  /**
    Asking the node about the next height, holding its events for the channel, or
    waiting, once a height of a range is dealt with, for the chain to reach the next.
   */
  datatype Turn = Asking | Holding | Waiting

  /** A producer of events and its channel. */
  datatype Feed = Feed(agenda: Agenda, turn: Turn, queued: nat, closed: bool)

  datatype Writer = Selecting | Writing(height: int) | Finished

  /** A committed change of the tables. */
  datatype Commit = Wrote(height: int) | MarkedFailed(height: int)

  datatype State = State(
    phase: Phase, curr: int, start: int, latest: int, tip: int,
    blockChan: seq<int>, workers: seq<Worker>,
    txChan: seq<int>, txClosed: bool, txNil: bool,
    blockFeed: Feed, blockNil: bool, epochFeed: Feed, epochNil: bool,
    writer: Writer,
    indexed: set<int>, failed: set<int>,
    // history: heights sent by the range loop, re-enqueued, dropped without a trace, and all commits
    sent: seq<int>, retried: set<int>, dropped: set<int>, log: seq<Commit>)

  datatype EnqueuerAction =
    | Retry | EndRetry | Bound(highest: int) | Probe(highest: int) | Scan(first: int)
    | Exit | Poll | Spin | Skip | Prepare | Send | StopFilling

  datatype WorkerAction = Take | Succeed | Fail | Drop | Push | Leave

  datatype ProducerAction = PassOver | Fetch(found: bool) | Emit | Resume | CloseFeed

  datatype WriterAction =
    | Receive | Write | SeeTxClosed | ReceiveEvent(epoch: bool) | SeeFeedClosed(epoch: bool) | Finish

  /** A step of the enqueuer, worker w, the closer of txDataChan, a producer of events, the writer, or the chain. */
  datatype Step =
    | Enqueue(e: EnqueuerAction)
    | Work(w: nat, a: WorkerAction)
    | CloseTx
    | Produce(epoch: bool, p: ProducerAction)
    | Consume(r: WriterAction)
    | Grow(newTip: int)

  predicate Ascending(s: seq<int>) {
    forall i, j | 0 <= i < j < |s| :: s[i] < s[j]
  }

  ghost predicate Init(c: Config, s: State) {
    && c.startBlock >= 1 && c.endBlock <= MAX_INT64
    && (if c.reattemptFailed
        then s.phase.Retrying? && Ascending(s.phase.todo) && (forall h :: h in s.phase.todo <==> h in s.failed)
        else s.phase == Bounding)
    && s.latest == MAX_INT64 && s.tip <= MAX_INT64
    && s.blockChan == [] && s.txChan == [] && !s.txClosed && !s.txNil
    && |s.workers| == Threads(c.rpcWorkers) && (forall w | w in s.workers :: w == Idle)
    && s.blockFeed.agenda.BlockRange? && s.blockFeed.agenda.next >= 1
    && s.blockFeed.agenda.end == (if EndlessEvents(c) then None else Some(c.blockEventsEnd))
    && s.blockFeed.turn == Asking && s.blockFeed.queued == 0 && (s.blockFeed.closed <==> !c.blockEvents) && !s.blockNil
    && s.epochFeed.agenda.EpochList?
    && s.epochFeed.turn == Asking && s.epochFeed.queued == 0 && !s.epochNil
    && s.writer == Selecting
    && s.sent == [] && s.retried == {} && s.dropped == {} && s.log == []
  }

  function FeedOf(s: State, epoch: bool): Feed {
    if epoch then s.epochFeed else s.blockFeed
  }

  function NilOf(s: State, epoch: bool): bool {
    if epoch then s.epochNil else s.blockNil
  }

  function WithFeed(s: State, epoch: bool, f: Feed): State {
    if epoch then s.(epochFeed := f) else s.(blockFeed := f)
  }

  /** The enqueuer's exit conditions, tested at the top of its outer loop. */
  predicate MustExit(c: Config, s: State) {
    (c.endBlock != -1 && s.curr > c.endBlock) || (c.exitWhenCaughtUp && s.curr > s.latest)
  }

  /** The guard of the enqueuer's inner loop. */
  predicate MayFill(c: Config, s: State) {
    s.curr < s.latest && (s.curr <= c.endBlock || c.endBlock == -1) && |s.blockChan| != BLOCK_CAP
  }

  predicate EnqueuerCan(c: Config, s: State, e: EnqueuerAction) {
    match e
    case Retry => s.phase.Retrying? && s.phase.todo != [] && |s.blockChan| < BLOCK_CAP
    case EndRetry => s.phase.Retrying? && s.phase.todo == []
    case Bound(highest) => s.phase == Bounding && IsHighest(s.indexed, highest)
    case Probe(highest) => s.phase.Probing? && IsHighest(s.indexed, highest)
    case Scan(first) => s.phase.Scanning? && IsFirstMissing(s.indexed, c.startBlock, s.phase.end, first)
    case Exit => s.phase == Looping && MustExit(c, s)
    case Poll => s.phase == Looping && !MustExit(c, s) && |s.blockChan| <= BLOCK_CAP / 4
    case Spin => s.phase == Looping && !MustExit(c, s) && |s.blockChan| > BLOCK_CAP / 4
    case Skip => s.phase == Filling && MayFill(c, s) && !c.reIndex && s.curr in s.indexed
    case Prepare => s.phase == Filling && MayFill(c, s) && (c.reIndex || s.curr !in s.indexed)
    case Send => s.phase == Sending && |s.blockChan| < BLOCK_CAP
    case StopFilling => s.phase == Filling && !MayFill(c, s)
  }

  function EnqueuerDo(c: Config, s: State, e: EnqueuerAction): State
    requires EnqueuerCan(c, s, e)
  {
    match e
    case Retry =>
      var h := s.phase.todo[0];
      s.(phase := Retrying(s.phase.todo[1..]), blockChan := s.blockChan + [h], retried := s.retried + {h})
    case EndRetry => s.(phase := Bounding)
    case Bound(highest) =>
      if c.reIndex then s.(phase := Looping, curr := c.startBlock, start := c.startBlock)
      else s.(phase := Probing(if c.endBlock == -1 then highest else c.endBlock))
    case Probe(highest) => s.(phase := Scanning(if highest > c.startBlock then highest + 1 else s.phase.end))
    case Scan(first) => s.(phase := Looping, curr := first, start := first)
    case Exit => s.(phase := Closed)
    case Poll => s.(phase := Filling, latest := s.tip)
    case Spin => s
    case Skip => s.(curr := s.curr + 1)
    case Prepare => s.(phase := Sending)
    case Send =>
      s.(phase := Filling, blockChan := s.blockChan + [s.curr], sent := s.sent + [s.curr], curr := s.curr + 1)
    case StopFilling => s.(phase := Looping)
  }

  predicate WorkerCan(c: Config, s: State, w: nat, a: WorkerAction) {
    && w < |s.workers|
    && match a
       case Take => s.workers[w] == Idle && s.blockChan != []
       case Succeed => s.workers[w].Busy?
       case Fail => s.workers[w].Busy?
       case Drop => s.workers[w].Busy?
       case Push => s.workers[w].Ready? && |s.txChan| < DataCap(c)
       case Leave => s.workers[w] == Idle && s.blockChan == [] && s.phase == Closed
  }

  /** What worker w becomes. */
  function NextWorker(c: Config, s: State, w: nat, a: WorkerAction): Worker
    requires WorkerCan(c, s, w, a)
  {
    match a
    case Take => Busy(s.blockChan[0])
    case Succeed => Ready(s.workers[w].height)
    case Leave => Done
    case _ => Idle
  }

  function WorkerDo(c: Config, s: State, w: nat, a: WorkerAction): State
    requires WorkerCan(c, s, w, a)
  {
    var s2 := s.(workers := s.workers[w := NextWorker(c, s, w, a)]);
    match a
    case Take => s2.(blockChan := s.blockChan[1..])
    case Fail =>
      var h := s.workers[w].height;
      s2.(failed := s.failed + {h}, log := s.log + [MarkedFailed(h)])
    case Drop => s2.(dropped := s.dropped + {s.workers[w].height})
    case Push => s2.(txChan := s.txChan + [s.workers[w].height])
    case _ => s2
  }

  /** The guard of a producer's loop. */
  predicate HasNext(a: Agenda) {
    match a
    case BlockRange(next, end) => end.None? || next <= end.value
    case EpochList(left) => left > 0
  }

  function Rest(a: Agenda): Agenda
    requires HasNext(a)
  {
    match a
    case BlockRange(next, end) => BlockRange(next + 1, end)
    case EpochList(left) => EpochList(left - 1)
  }

  /** The chain has the next height of a range; an epoch's height is one it had before. */
  predicate ChainHasNext(a: Agenda, tip: int) {
    a.BlockRange? ==> a.next <= tip
  }

  /**
    The node has results for the heights of its chain. A query may fail all the
    same, and past the tip it always does, until the producer gives up.
   */
  predicate ProducerCan(c: Config, tip: int, f: Feed, p: ProducerAction) {
    && !f.closed
    && match p
       case PassOver => f.turn == Asking && HasNext(f.agenda) && GivesUp(c)
       case Fetch(_) => f.turn == Asking && HasNext(f.agenda) && ChainHasNext(f.agenda, tip)
       case Emit => f.turn == Holding && HasNext(f.agenda) && f.queued < DataCap(c)
       case Resume => f.turn == Waiting && ChainHasNext(f.agenda, tip)
       case CloseFeed => f.turn == Asking && !HasNext(f.agenda)
  }

  /** The height is dealt with: a range then waits for the chain, even after its last height. */
  function Handled(f: Feed): Feed
    requires HasNext(f.agenda)
  {
    f.(agenda := Rest(f.agenda), turn := if f.agenda.BlockRange? then Waiting else Asking)
  }

  function ProducerDo(c: Config, tip: int, f: Feed, p: ProducerAction): Feed
    requires ProducerCan(c, tip, f, p)
  {
    match p
    case PassOver => f.(agenda := Rest(f.agenda))
    case Fetch(found) => if found then f.(turn := Holding) else Handled(f)
    case Emit => Handled(f).(queued := f.queued + 1)
    case Resume => f.(turn := Asking)
    case CloseFeed => f.(closed := true)
  }

  predicate WriterCan(s: State, r: WriterAction) {
    match r
    case Receive => s.writer == Selecting && !s.txNil && s.txChan != []
    case Write => s.writer.Writing?
    case SeeTxClosed => s.writer == Selecting && !s.txNil && s.txChan == [] && s.txClosed
    case ReceiveEvent(epoch) => s.writer == Selecting && !NilOf(s, epoch) && FeedOf(s, epoch).queued > 0
    case SeeFeedClosed(epoch) =>
      s.writer == Selecting && !NilOf(s, epoch) && FeedOf(s, epoch).queued == 0 && FeedOf(s, epoch).closed
    case Finish => s.writer == Selecting && s.txNil && s.blockNil && s.epochNil
  }

  function WriterDo(s: State, r: WriterAction): State
    requires WriterCan(s, r)
  {
    match r
    case Receive => s.(writer := Writing(s.txChan[0]), txChan := s.txChan[1..])
    case Write =>
      var h := s.writer.height;
      s.(writer := Selecting, indexed := s.indexed + {h}, failed := s.failed - {h}, log := s.log + [Wrote(h)])
    case SeeTxClosed => s.(txNil := true)
    case ReceiveEvent(epoch) => WithFeed(s, epoch, FeedOf(s, epoch).(queued := FeedOf(s, epoch).queued - 1))
    case SeeFeedClosed(epoch) => if epoch then s.(epochNil := true) else s.(blockNil := true)
    case Finish => s.(writer := Finished)
  }

  predicate Enabled(c: Config, s: State, step: Step) {
    match step
    case Enqueue(e) => EnqueuerCan(c, s, e)
    case Work(w, a) => WorkerCan(c, s, w, a)
    case CloseTx => !s.txClosed && forall w | w in s.workers :: w == Done
    case Produce(epoch, p) => ProducerCan(c, s.tip, FeedOf(s, epoch), p)
    case Consume(r) => WriterCan(s, r)
    case Grow(newTip) => s.tip <= newTip
  }

  function Do(c: Config, s: State, step: Step): State
    requires Enabled(c, s, step)
  {
    match step
    case Enqueue(e) => EnqueuerDo(c, s, e)
    case Work(w, a) => WorkerDo(c, s, w, a)
    case CloseTx => s.(txClosed := true)
    case Produce(epoch, p) => WithFeed(s, epoch, ProducerDo(c, s.tip, FeedOf(s, epoch), p))
    case Consume(r) => WriterDo(s, r)
    case Grow(newTip) => s.(tip := newTip)
  }

  /** A run: states joined by steps. */
  ghost predicate IsRun(c: Config, states: seq<State>, steps: seq<Step>) {
    && |states| == |steps| + 1
    && Init(c, states[0])
    && forall i | 0 <= i < |steps| :: Enabled(c, states[i], steps[i]) && states[i + 1] == Do(c, states[i], steps[i])
  }

  /** The indexing command returns: the enqueuer has returned and the writer has finished. */
  predicate Returned(s: State) {
    s.phase == Closed && s.writer == Finished
  }

  /** Every block handed out has been dealt with, whatever the producers of events still do. */
  predicate BlocksDone(s: State) {
    && s.phase == Closed && s.blockChan == [] && s.txChan == [] && !s.writer.Writing?
    && forall w | w in s.workers :: w == Done
  }
}
