/**
  What can be said of a range before the command is started: whether every run
  from given tables, on a chain of a given height, will cover it.
 */
module EveryRun {
  import opened Options
  import opened Decimal
  import opened StartHeight
  import opened Pipeline
  import opened PipelineSafety
  import opened PipelineProgress

  /** The start that the enqueuer chooses when these heights are indexed. */
  ghost predicate IsChosen(c: Config, indexed: set<int>, h: int) {
    if c.reIndex then h == c.startBlock
    else exists highest :: IsHighest(indexed, highest) && IsFirstMissing(indexed, c.startBlock, ScanEnd(c, highest), h)
  }

  /** How far it looks for a missing height. */
  function ScanEnd(c: Config, highest: int): int {
    if highest > c.startBlock then highest + 1 else if c.endBlock == -1 then highest else c.endBlock
  }

  lemma {:induction false} HighestExists(indexed: set<int>) returns (h: int)
    ensures IsHighest(indexed, h)
    decreases |indexed|
  {
    if indexed == {} {
      h := 0;
    } else {
      var g := SomeElement(indexed);
      var rest := HighestExists(indexed - {g});
      h := if indexed == {g} || g > rest then g else rest;
      assert forall x | x in indexed :: x == g || x in indexed - {g};
    }
  }

  lemma ChosenOnce(c: Config, indexed: set<int>, g: int, h: int)
    requires IsChosen(c, indexed, g) && IsChosen(c, indexed, h)
    ensures g == h
  {
    if !c.reIndex {
      var x :| IsHighest(indexed, x) && IsFirstMissing(indexed, c.startBlock, ScanEnd(c, x), g);
      var y :| IsHighest(indexed, y) && IsFirstMissing(indexed, c.startBlock, ScanEnd(c, y), h);
      assert x == y;
    }
  }

  /**
    Unless everything is to be redone, the chosen start is the first height from the
    configured one on that is not indexed, provided that something is indexed behind
    the configured start or the range goes on behind it.
   */
  lemma ChosenIsFirstMissing(c: Config, indexed: set<int>, start: int)
    requires IsChosen(c, indexed, start) && c.startBlock >= 1
    ensures c.reIndex ==> start == c.startBlock
    ensures !c.reIndex && ((exists h :: h in indexed && h > c.startBlock) || c.endBlock > c.startBlock) ==>
              c.startBlock <= start && start !in indexed && forall h | c.startBlock <= h < start :: h in indexed
  {
    if !c.reIndex {
      var highest :| IsHighest(indexed, highest) && IsFirstMissing(indexed, c.startBlock, ScanEnd(c, highest), start);
      assert highest + 1 !in indexed;
      assert highest <= c.startBlock ==> c.startBlock + 1 !in indexed;
    }
  }

  // ------------------------------------------------------------------- the start of a run

  /** Before the range loop starts nothing is on its way, and the start is chosen from what was indexed. */
  ghost predicate ChoiceInv(c: Config, s0: State, s: State) {
    if Started(s) then IsChosen(c, s0.indexed, s.start)
    else
      && s.indexed == s0.indexed && s.blockChan == [] && s.txChan == [] && !s.writer.Writing?
      && (forall w | w in s.workers :: w == Idle)
      && !s.phase.Retrying?
      && (s.phase.Probing? ==> !c.reIndex && s.phase.end == c.endBlock)
      && (s.phase.Scanning? ==> !c.reIndex && exists x :: IsHighest(s0.indexed, x) && s.phase.end == ScanEnd(c, x))
  }

  lemma EnqueuerChooses(c: Config, s0: State, s: State, e: EnqueuerAction)
    requires ChoiceInv(c, s0, s) && c.endBlock != -1 && EnqueuerCan(c, s, e)
    ensures ChoiceInv(c, s0, EnqueuerDo(c, s, e))
  {
    if e.Probe? {
      assert IsHighest(s0.indexed, e.highest) && EnqueuerDo(c, s, e).phase.end == ScanEnd(c, e.highest);
    }
  }

  lemma WriterWaits(c: Config, s0: State, s: State, r: WriterAction)
    requires ChoiceInv(c, s0, s) && WriterCan(s, r)
    ensures ChoiceInv(c, s0, WriterDo(s, r))
  {
  }

  lemma WorkersWait(c: Config, s: State)
    requires s.blockChan == [] && s.phase != Closed && forall w | w in s.workers :: w == Idle
    ensures forall w, a :: !WorkerCan(c, s, w, a)
  {
    forall w: nat, a | w < |s.workers| ensures !WorkerCan(c, s, w, a) {
      assert s.workers[w] in s.workers;
    }
  }

  lemma ChoiceStep(c: Config, s0: State, s: State, step: Step)
    requires ChoiceInv(c, s0, s) && c.endBlock != -1 && Enabled(c, s, step)
    ensures ChoiceInv(c, s0, Do(c, s, step))
  {
    if step.Enqueue? {
      EnqueuerChooses(c, s0, s, step.e);
    } else if Started(s) {
      OthersLeaveRange(c, s, step);
    } else if step.Consume? {
      WriterWaits(c, s0, s, step.r);
    } else {
      WorkersWait(c, s);
    }
  }

  lemma {:induction false} RunChooses(c: Config, states: seq<State>, steps: seq<Step>, n: nat)
    requires IsRun(c, states, steps) && n < |states| && c.endBlock != -1 && !c.reattemptFailed
    ensures ChoiceInv(c, states[0], states[n])
  {
    if n > 0 {
      RunChooses(c, states, steps, n - 1);
      ChoiceStep(c, states[0], states[n - 1], steps[n - 1]);
    }
  }

  // ------------------------------------------------------------------ re-attempts that succeed

  /** Nothing is on its way and all workers wait. */
  predicate Rested(c: Config, s: State) {
    && s.blockChan == [] && s.txChan == [] && s.writer == Selecting && !s.txNil
    && |s.workers| == Threads(c.rpcWorkers) && (forall w | w in s.workers :: w == Idle)
  }

  /** The state a re-attempt ends in when its block is stored at once. */
  function Reattempted(s: State): State
    requires s.phase.Retrying? && s.phase.todo != []
  {
    var h := s.phase.todo[0];
    s.(phase := Retrying(s.phase.todo[1..]), retried := s.retried + {h},
       indexed := s.indexed + {h}, failed := s.failed - {h}, log := s.log + [Wrote(h)])
  }

  lemma FetchFirst(c: Config, run: (seq<State>, seq<Step>)) returns (longer: (seq<State>, seq<Step>))
    requires Continues(c, run.0, run.1)
    requires var s := run.0[|run.1|]; s.phase.Retrying? && s.phase.todo != [] && Rested(c, s)
    ensures Continues(c, longer.0, longer.1) && longer.0[0] == run.0[0]
    ensures var s := run.0[|run.1|];
            var h := s.phase.todo[0];
            longer.0[|longer.1|] ==
            s.(phase := Retrying(s.phase.todo[1..]), retried := s.retried + {h}, workers := s.workers[0 := Ready(h)])
  {
    var s := run.0[|run.1|];
    var h := s.phase.todo[0];
    assert s.workers[0] in s.workers;
    longer := Continued(c, run, Enqueue(Retry));
    longer := Continued(c, longer, Work(0, Take));
    longer := Continued(c, longer, Work(0, Succeed));
    assert s.workers[0 := Busy(h)][0 := Ready(h)] == s.workers[0 := Ready(h)];
  }

  lemma RetryFirst(c: Config, run: (seq<State>, seq<Step>)) returns (longer: (seq<State>, seq<Step>))
    requires Continues(c, run.0, run.1)
    requires var s := run.0[|run.1|]; s.phase.Retrying? && s.phase.todo != [] && Rested(c, s)
    ensures Continues(c, longer.0, longer.1) && longer.0[0] == run.0[0]
    ensures longer.0[|longer.1|] == Reattempted(run.0[|run.1|])
  {
    var s := run.0[|run.1|];
    var h := s.phase.todo[0];
    longer := FetchFirst(c, run);
    longer := Continued(c, longer, Work(0, Push));
    assert s.workers[0] in s.workers && s.workers[0 := Ready(h)][0 := Idle] == s.workers;
    longer := Continued(c, longer, Consume(Receive));
    longer := Continued(c, longer, Consume(Write));
  }

  lemma {:induction false} RetryAll(c: Config, run: (seq<State>, seq<Step>)) returns (longer: (seq<State>, seq<Step>))
    requires Continues(c, run.0, run.1)
    requires run.0[|run.1|].phase.Retrying? && Rested(c, run.0[|run.1|])
    ensures Continues(c, longer.0, longer.1) && longer.0[0] == run.0[0]
    ensures var s, s2 := run.0[|run.1|], longer.0[|longer.1|];
            && s2.phase == Retrying([]) && Rested(c, s2) && s2.latest == s.latest && s2.tip == s.tip
            && s2.indexed == s.indexed + set h | h in s.phase.todo
    decreases |run.0[|run.1|].phase.todo|
  {
    var s := run.0[|run.1|];
    if s.phase.todo == [] {
      longer := run;
    } else {
      var todo := s.phase.todo;
      longer := RetryFirst(c, run);
      longer := RetryAll(c, longer);
      assert (set h | h in todo) == {todo[0]} + set h | h in todo[1..];
    }
  }

  /** What is indexed when the start is chosen, if every re-attempted block was stored before. */
  function AtBest(c: Config, s0: State): set<int> {
    if c.reattemptFailed then s0.indexed + s0.failed else s0.indexed
  }

  lemma ReachBounding(c: Config, s0: State) returns (run: (seq<State>, seq<Step>))
    requires Init(c, s0)
    ensures Continues(c, run.0, run.1) && run.0[0] == s0
    ensures var s := run.0[|run.1|];
            && s.phase == Bounding && s.blockChan == [] && s.latest == MAX_INT64 && s.tip == s0.tip
            && s.indexed == AtBest(c, s0)
  {
    run := ([s0], []);
    if c.reattemptFailed {
      run := RetryAll(c, run);
      var todo := set h | h in s0.phase.todo;
      assert forall h :: h in todo <==> h in s0.failed;
      assert s0.failed == todo;
      run := Continued(c, run, Enqueue(EndRetry));
    }
  }

  // -------------------------------------------------------------------- a run cut short

  lemma ReachProbing(c: Config, run: (seq<State>, seq<Step>), highest: int) returns (longer: (seq<State>, seq<Step>))
    requires Continues(c, run.0, run.1) && run.0[|run.1|].phase == Bounding && !c.reIndex
    requires IsHighest(run.0[|run.1|].indexed, highest)
    ensures Continues(c, longer.0, longer.1) && longer.0[0] == run.0[0]
    ensures longer.0[|longer.1|] == run.0[|run.1|].(phase := Probing(if c.endBlock == -1 then highest else c.endBlock))
  {
    longer := Continued(c, run, Enqueue(Bound(highest)));
  }

  lemma ReachScanning(c: Config, run: (seq<State>, seq<Step>), highest: int) returns (longer: (seq<State>, seq<Step>))
    requires Continues(c, run.0, run.1) && run.0[|run.1|].phase == Bounding && !c.reIndex
    requires IsHighest(run.0[|run.1|].indexed, highest)
    ensures Continues(c, longer.0, longer.1) && longer.0[0] == run.0[0]
    ensures longer.0[|longer.1|] == run.0[|run.1|].(phase := Scanning(ScanEnd(c, highest)))
  {
    longer := ReachProbing(c, run, highest);
    longer := Continued(c, longer, Enqueue(Probe(highest)));
  }

  lemma ReachLooping(c: Config, run: (seq<State>, seq<Step>), start: int) returns (longer: (seq<State>, seq<Step>))
    requires Continues(c, run.0, run.1) && run.0[|run.1|].phase == Bounding
    requires IsChosen(c, run.0[|run.1|].indexed, start)
    ensures Continues(c, longer.0, longer.1) && longer.0[0] == run.0[0]
    ensures longer.0[|longer.1|] == run.0[|run.1|].(phase := Looping, curr := start, start := start)
  {
    var indexed := run.0[|run.1|].indexed;
    if c.reIndex {
      var highest := HighestExists(indexed);
      longer := Continued(c, run, Enqueue(Bound(highest)));
    } else {
      var highest :| IsHighest(indexed, highest) && IsFirstMissing(indexed, c.startBlock, ScanEnd(c, highest), start);
      longer := ReachScanning(c, run, highest);
      longer := Continued(c, longer, Enqueue(Scan(start)));
    }
  }

  lemma ReachExit(c: Config, s0: State, start: int) returns (run: (seq<State>, seq<Step>))
    requires Init(c, s0) && IsChosen(c, AtBest(c, s0), start)
    requires c.exitWhenCaughtUp && s0.tip < start && (c.endBlock == -1 || start <= c.endBlock)
    ensures Continues(c, run.0, run.1) && run.0[0] == s0
    ensures run.0[|run.1|].phase == Closed && run.0[|run.1|].start == start > run.0[|run.1|].latest
  {
    run := ReachBounding(c, s0);
    run := ReachLooping(c, run, start);
    if start <= MAX_INT64 {
      run := Continued(c, run, Enqueue(Poll));
      run := Continued(c, run, Enqueue(StopFilling));
    }
    run := Continued(c, run, Enqueue(Exit));
  }

  /** Such a run never touches the heights without a row. */
  lemma CutShortLoses(c: Config, states: seq<State>, steps: seq<Step>, h: int)
    requires IsRun(c, states, steps) && BlocksDone(states[|steps|]) && c.endBlock != -1
    requires CutShort(c, states[|steps|]) && InRange(c, h) && !Covered(states[0], h)
    ensures !Covered(states[|steps|], h) && !OnlyDropped(states[|steps|], h) && states[|steps|].start <= h
  {
    var s := states[|steps|];
    RunInv(c, states, steps, |steps|);
    EarlyReturn(c, states, steps);
    HeightCoveredIff(c, states, steps, h);
    assert OnlyDropped(s, h) ==> Settled(s, h);
    if h < s.start {
      NoHeightIsLost(c, states, steps, h);
    }
  }

  // ------------------------------------------------------------------------ main result

  /** The run gave every height of the range a row, but for those the node had nothing for. */
  ghost predicate LosesNothing(c: Config, s: State) {
    forall h | InRange(c, h) :: Covered(s, h) || OnlyDropped(s, h)
  }

  ghost predicate EveryRunCovers(c: Config, s0: State) {
    forall states, steps | IsRun(c, states, steps) && states[0] == s0 && BlocksDone(states[|steps|]) ::
      LosesNothing(c, states[|steps|])
  }

  /** A height of the range that is missing in the best case is not before the start chosen then. */
  lemma BestStart(c: Config, s0: State, start: int, h: int)
    requires c.endBlock != -1 && IsChosen(c, AtBest(c, s0), start) && InRange(c, h) && h !in AtBest(c, s0)
    ensures start <= h
    ensures !c.reIndex ==> start !in AtBest(c, s0)
  {
    if !c.reIndex {
      var indexed := AtBest(c, s0);
      var highest :| IsHighest(indexed, highest) && IsFirstMissing(indexed, c.startBlock, ScanEnd(c, highest), start);
      assert highest > c.startBlock ==> highest + 1 !in indexed;
    }
  }

  /** No run starts later than in the best case, as far as a height without a row is still to come. */
  lemma NoLaterStart(c: Config, states: seq<State>, steps: seq<Step>, start: int, h: int)
    requires IsRun(c, states, steps) && BlocksDone(states[|steps|]) && c.endBlock != -1
    requires IsChosen(c, AtBest(c, states[0]), start)
    requires CutShort(c, states[|steps|]) && InRange(c, h) && !Covered(states[0], h)
    ensures states[|steps|].start <= start <= h
  {
    var s := states[|steps|];
    RunInv(c, states, steps, |steps|);
    CutShortLoses(c, states, steps, h);
    BestStart(c, states[0], start, h);
    if !c.reattemptFailed {
      RunChooses(c, states, steps, |steps|);
      ChosenOnce(c, states[0].indexed, start, s.start);
    } else if !c.reIndex && start < s.start {
      CutShortLoses(c, states, steps, start);
    }
  }

  /**
    Before the command is started one can tell whether every run, under every
    schedule and any growth of the chain, will cover the range: exactly when it may
    not exit early, or the latest start it can choose is not past the tip, or
    nothing is missing from there on.
   */
  lemma EveryRunCoversIff(c: Config, s0: State, start: int)
    requires Init(c, s0) && c.endBlock != -1 && IsChosen(c, AtBest(c, s0), start)
    ensures EveryRunCovers(c, s0)
       <==> !c.exitWhenCaughtUp || start <= s0.tip || forall h | start <= h <= c.endBlock :: Covered(s0, h)
  {
    if !c.exitWhenCaughtUp || start <= s0.tip || forall h | start <= h <= c.endBlock :: Covered(s0, h) {
      forall states, steps | IsRun(c, states, steps) && states[0] == s0 && BlocksDone(states[|steps|])
        ensures LosesNothing(c, states[|steps|])
      {
        RunCovers(c, states, steps, start);
      }
    } else {
      var h :| start <= h <= c.endBlock && !Covered(s0, h);
      var run := SomeRunLoses(c, s0, start, h);
    }
  }

  lemma SomeRunLoses(c: Config, s0: State, start: int, h: int) returns (run: (seq<State>, seq<Step>))
    requires Init(c, s0) && IsChosen(c, AtBest(c, s0), start)
    requires c.exitWhenCaughtUp && s0.tip < start <= h <= c.endBlock != -1 && !Covered(s0, h)
    ensures IsRun(c, run.0, run.1) && run.0[0] == s0 && BlocksDone(run.0[|run.1|])
    ensures !LosesNothing(c, run.0[|run.1|])
  {
    var exiting := ReachExit(c, s0, start);
    RunInv(c, exiting.0, exiting.1, |exiting.1|);
    run := BlocksCanFinish(c, exiting);
    StartInRange(c, AtBest(c, s0), start);
    CutShortLoses(c, run.0, run.1, h);
    assert InRange(c, h);
  }

  lemma StartInRange(c: Config, indexed: set<int>, start: int)
    requires IsChosen(c, indexed, start)
    ensures c.startBlock <= start
  {
  }

  lemma RunCovers(c: Config, states: seq<State>, steps: seq<Step>, start: int)
    requires IsRun(c, states, steps) && BlocksDone(states[|steps|]) && c.endBlock != -1
    requires IsChosen(c, AtBest(c, states[0]), start)
    requires !c.exitWhenCaughtUp || start <= states[0].tip || forall h | start <= h <= c.endBlock :: Covered(states[0], h)
    ensures LosesNothing(c, states[|steps|])
  {
    var s := states[|steps|];
    TipsGrow(c, states, steps, |steps|);
    forall h | InRange(c, h) ensures Covered(s, h) || OnlyDropped(s, h) {
      HeightCoveredIff(c, states, steps, h);
      if CutShort(c, s) && !Covered(states[0], h) {
        NoLaterStart(c, states, steps, start, h);
      }
    }
  }

  // ------------------------------------------------------------------- a range without end

  /** The latest start that the scan can come to when no more than these heights are indexed. */
  function LastStart(c: Config, highest: int): int {
    if highest > c.startBlock then highest + 1 else c.startBlock
  }

  predicate StartInv(c: Config, highest: int, s: State) {
    && (s.phase.Probing? || s.phase.Scanning? ==> s.phase.end <= LastStart(c, highest))
    && (Started(s) ==> s.start <= LastStart(c, highest))
  }

  lemma HighestGrows(indexed: set<int>, more: set<int>, g: int, h: int)
    requires indexed <= more && IsHighest(indexed, g) && IsHighest(more, h)
    ensures g <= h || g == 0
  {
  }

  lemma EnqueuerStarts(c: Config, best: set<int>, highest: int, s: State, e: EnqueuerAction)
    requires c.endBlock == -1 && c.startBlock >= 1 && IsHighest(best, highest)
    requires StartInv(c, highest, s) && EnqueuerCan(c, s, e) && (Started(s) || s.indexed <= best)
    ensures StartInv(c, highest, EnqueuerDo(c, s, e))
  {
    match e
    case Bound(g) => HighestGrows(s.indexed, best, g, highest);
    case Probe(g) => HighestGrows(s.indexed, best, g, highest);
    case _ =>
  }

  /** As long as nothing is sent, only what was indexed or re-attempted is indexed. */
  lemma IndexedAtBest(c: Config, states: seq<State>, steps: seq<Step>, n: nat)
    requires IsRun(c, states, steps) && n < |states| && states[n].sent == []
    ensures states[n].indexed <= AtBest(c, states[0])
  {
    RunInv(c, states, steps, n);
    var s := states[n];
    forall h | h in s.indexed ensures h in AtBest(c, states[0]) {
      assert Wrote(h) in s.log ==> Settled(s, h);
      assert Settled(s, h) ==> Attempted(s, h);
    }
  }

  lemma {:induction false} RunStarts(c: Config, states: seq<State>, steps: seq<Step>, n: nat, highest: int)
    requires IsRun(c, states, steps) && n < |states| && c.endBlock == -1
    requires IsHighest(AtBest(c, states[0]), highest)
    ensures StartInv(c, highest, states[n])
  {
    if n > 0 {
      var s := states[n - 1];
      RunStarts(c, states, steps, n - 1, highest);
      RunInv(c, states, steps, n - 1);
      if !Started(s) {
        IndexedAtBest(c, states, steps, n - 1);
      }
      if steps[n - 1].Enqueue? {
        EnqueuerStarts(c, AtBest(c, states[0]), highest, s, steps[n - 1].e);
      } else {
        OthersLeaveRange(c, s, steps[n - 1]);
      }
    }
  }

  lemma BestIsLast(c: Config, best: set<int>, start: int, highest: int, mine: int)
    requires c.endBlock == -1 && IsChosen(c, best, start) && IsHighest(best, highest)
    requires mine <= LastStart(c, highest) && forall h | c.startBlock <= h < mine :: h in best
    requires c.reIndex ==> mine == c.startBlock
    ensures mine <= start
  {
    if !c.reIndex {
      var g :| IsHighest(best, g) && IsFirstMissing(best, c.startBlock, ScanEnd(c, g), start);
      assert g == highest && (highest > c.startBlock ==> highest + 1 !in best);
    }
  }

  lemma ClosedStart(c: Config, states: seq<State>, steps: seq<Step>, start: int)
    requires IsRun(c, states, steps) && states[|steps|].phase == Closed && c.endBlock == -1
    requires IsChosen(c, AtBest(c, states[0]), start)
    ensures c.exitWhenCaughtUp && states[0].tip < states[|steps|].start <= start
  {
    var s := states[|steps|];
    var highest := HighestExists(AtBest(c, states[0]));
    EarlyReturn(c, states, steps);
    RunInv(c, states, steps, |steps|);
    IndexedAtBest(c, states, steps, |steps|);
    RunStarts(c, states, steps, |steps|, highest);
    BestIsLast(c, AtBest(c, states[0]), start, highest, s.start);
  }

  ghost predicate SomeRunCloses(c: Config, s0: State) {
    exists states: seq<State>, steps: seq<Step> ::
      IsRun(c, states, steps) && states[0] == s0 && states[|steps|].phase == Closed
  }

  /**
    Without an end block some run closes the channel of heights if and only if
    exitWhenCaughtUp is on and the latest start it can choose is past the tip. In all
    other cases the enqueuer goes on for ever, since its cursor never passes the tip.
   */
  lemma RangeWithoutEndClosesIff(c: Config, s0: State, start: int)
    requires Init(c, s0) && c.endBlock == -1 && IsChosen(c, AtBest(c, s0), start)
    ensures SomeRunCloses(c, s0) <==> c.exitWhenCaughtUp && s0.tip < start
  {
    if c.exitWhenCaughtUp && s0.tip < start {
      var run := ReachExit(c, s0, start);
      assert IsRun(c, run.0, run.1);
    }
    forall states: seq<State>, steps: seq<Step>
      | IsRun(c, states, steps) && states[0] == s0 && states[|steps|].phase == Closed
      ensures c.exitWhenCaughtUp && s0.tip < start
    {
      ClosedStart(c, states, steps, start);
    }
  }
}
