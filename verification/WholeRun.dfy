/**
  Whole runs against the tables: the pipeline's commits replayed on the
  natural-key view, and the result that a finished run ends in the same tables
  whatever the interleaving of its goroutines was.
 */
module WholeRun {
  import opened Decimal
  import opened Options
  import opened Ledger
  import opened Tables
  import opened BlockData
  import opened StartHeight
  import opened Pipeline
  import opened PipelineSafety
  import opened WorkerOutcome

  // ------------------------------------------------------------------- heights in the view

  /** The test for an indexed block: the flag is set and the time is not the zero time. */
  predicate IsIndexed(v: View, chain: string, h: int) {
    var row := At(v, BlockK(chain, h));
    row.Some? && row.value.BlockV? && row.value.indexed && row.value.time != ZERO_TIME
  }

  predicate IsFailed(v: View, chain: string, h: int) {
    FailedK(chain, h) in v
  }

  /** The chain and what it holds at each height, as the worker would deliver it. */
  datatype Chain = Chain(id: string, name: string, content: int -> BlockData)

  /** Blocks sit at their own height, have a time, and share no transaction. */
  ghost predicate GoodChain(ch: Chain) {
    && (forall h :: ch.content(h).height == h && ch.content(h).time != ZERO_TIME)
    && (forall g, h | g != h :: Separate(ch.content(g), ch.content(h)))
  }

  function FailedOps(ch: Chain, h: int): seq<Op> {
    [Ensure(ChainK(ch.id), ChainV(ch.name)), Ensure(FailedK(ch.id, h), Unit)]
  }

  function OpsOf(ch: Chain, commit: Commit): seq<Op> {
    match commit
    case Wrote(h) => BlockOps(ch.id, ch.content(h))
    case MarkedFailed(h) => FailedOps(ch, h)
  }

  /** The view after the commits of a log. */
  function After(ch: Chain, v: View, log: seq<Commit>): View {
    if log == [] then v else ApplyAll(After(ch, v, log[..|log| - 1]), OpsOf(ch, log[|log| - 1]))
  }

  /** The two sets of heights are what the view says. */
  ghost predicate ShowsHeights(ch: Chain, v: View, heights: Heights) {
    forall h ::
      (h in heights.indexed <==> IsIndexed(v, ch.id, h)) && (h in heights.failed <==> IsFailed(v, ch.id, h))
  }

  datatype Heights = Heights(indexed: set<int>, failed: set<int>)

  function HeightsOf(s: State): Heights {
    Heights(s.indexed, s.failed)
  }

  ghost predicate Shows(ch: Chain, v: View, s: State) {
    ShowsHeights(ch, v, HeightsOf(s))
  }

  /** What a commit does to the two sets. */
  function With(heights: Heights, commit: Commit): Heights {
    match commit
    case Wrote(h) => Heights(heights.indexed + {h}, heights.failed - {h})
    case MarkedFailed(h) => Heights(heights.indexed, heights.failed + {h})
  }

  lemma WroteShows(ch: Chain, v: View, g: int, h: int)
    requires GoodChain(ch)
    ensures var w := ApplyAll(v, OpsOf(ch, Wrote(g)));
            && (IsIndexed(w, ch.id, h) <==> h == g || IsIndexed(v, ch.id, h))
            && (IsFailed(w, ch.id, h) <==> h != g && IsFailed(v, ch.id, h))
  {
    var block := ch.content(g);
    if h == g {
      BlockIsIndexed(v, ch.id, block);
    } else {
      Frame(v, ch.id, block, BlockK(ch.id, h));
      Frame(v, ch.id, block, FailedK(ch.id, h));
    }
  }

  lemma MarkedShows(ch: Chain, v: View, g: int, h: int)
    ensures var w := ApplyAll(v, OpsOf(ch, MarkedFailed(g)));
            && (IsIndexed(w, ch.id, h) <==> IsIndexed(v, ch.id, h))
            && (IsFailed(w, ch.id, h) <==> h == g || IsFailed(v, ch.id, h))
  {
    var ops := FailedOps(ch, g);
    Locality(v, ops, BlockK(ch.id, h));
    Locality(v, ops, FailedK(ch.id, h));
    UntouchedStays(At(v, BlockK(ch.id, h)), ops, BlockK(ch.id, h));
    EnsureKeeps(At(v, FailedK(ch.id, h)), ops, FailedK(ch.id, h));
    if h == g {
      assert ops[1].k == FailedK(ch.id, h) && ops[1] in ops;
    } else {
      UntouchedStays(At(v, FailedK(ch.id, h)), ops, FailedK(ch.id, h));
    }
  }

  predicate SameTables(s: State, s2: State) {
    s2.indexed == s.indexed && s2.failed == s.failed && s2.log == s.log
  }

  predicate OneCommit(s: State, s2: State, commit: Commit) {
    s2.log == s.log + [commit] && HeightsOf(s2) == With(HeightsOf(s), commit)
  }

  lemma CommitShows(ch: Chain, v: View, heights: Heights, commit: Commit)
    requires GoodChain(ch) && ShowsHeights(ch, v, heights)
    ensures ShowsHeights(ch, ApplyAll(v, OpsOf(ch, commit)), With(heights, commit))
  {
    var w, heights2 := ApplyAll(v, OpsOf(ch, commit)), With(heights, commit);
    forall h ensures (h in heights2.indexed <==> IsIndexed(w, ch.id, h)) && (h in heights2.failed <==> IsFailed(w, ch.id, h)) {
      if commit.Wrote? {
        WroteShows(ch, v, commit.height, h);
      } else {
        MarkedShows(ch, v, commit.height, h);
      }
    }
  }

  lemma WorkerCommits(c: Config, s: State, w: nat, a: WorkerAction)
    requires WorkerCan(c, s, w, a)
    ensures a != Fail ==> SameTables(s, WorkerDo(c, s, w, a))
    ensures a == Fail ==> OneCommit(s, WorkerDo(c, s, w, a), MarkedFailed(s.workers[w].height))
  {
  }

  lemma WriterCommits(s: State, r: WriterAction)
    requires WriterCan(s, r)
    ensures r != Write ==> SameTables(s, WriterDo(s, r))
    ensures r == Write ==> OneCommit(s, WriterDo(s, r), Commit.Wrote(s.writer.height))
  {
  }

  /** Only a worker that gives up and the writer change the tables, each by one commit. */
  lemma StepCommits(c: Config, s: State, step: Step)
    requires Enabled(c, s, step)
    ensures SameTables(s, Do(c, s, step)) || exists commit :: OneCommit(s, Do(c, s, step), commit)
  {
    match step
    case Enqueue(e) => EnqueuerLeavesTables(c, s, e);
    case Work(w, a) => WorkerCommits(c, s, w, a);
    case CloseTx =>
    case Produce(_, _) =>
    case Consume(r) => WriterCommits(s, r);
    case Grow(_) =>
  }

  lemma StepShows(c: Config, ch: Chain, v: View, s: State, step: Step)
    requires GoodChain(ch) && Enabled(c, s, step) && Shows(ch, After(ch, v, s.log), s)
    ensures var s2 := Do(c, s, step); Shows(ch, After(ch, v, s2.log), s2)
  {
    StepCommits(c, s, step);
    var s2 := Do(c, s, step);
    if !SameTables(s, s2) {
      var commit :| OneCommit(s, s2, commit);
      CommitShows(ch, After(ch, v, s.log), HeightsOf(s), commit);
      assert s2.log[..|s2.log| - 1] == s.log;
    }
  }

  /** At every moment of a run the two sets are what the tables, as its commits left them, say. */
  lemma {:induction false} RunShows(c: Config, ch: Chain, v: View, states: seq<State>, steps: seq<Step>, n: nat)
    requires GoodChain(ch) && IsRun(c, states, steps) && n < |states|
    requires Shows(ch, v, states[0])
    ensures Shows(ch, After(ch, v, states[n].log), states[n])
  {
    if n > 0 {
      RunShows(c, ch, v, states, steps, n - 1);
      StepShows(c, ch, v, states[n - 1], steps[n - 1]);
    }
  }

  /** The blocks query over the rows is the test on the view. */
  lemma IndexedHeightsShow(t: Tables, chain: Id, h: int)
    requires Valid(t) && chain in t.chains
    ensures h in IndexedHeights(t, chain) <==> IsIndexed(ViewOf(t), t.chains[chain].chainId, h)
  {
    var name := t.chains[chain].chainId;
    var k := BlockK(name, h);
    if h in IndexedHeights(t, chain) {
      var i :| i in t.blocks && t.blocks[i].chain == chain && t.blocks[i].indexed
               && t.blocks[i].time != ZERO_TIME && t.blocks[i].height == h;
      ViewAt(t, k, i);
    }
    if IsIndexed(ViewOf(t), name, h) {
      var i := RowOf(t, k);
      ViewAt(t, k, i);
      assert IsAt(t, ChainK(name), chain) && IsAt(t, ChainK(name), t.blocks[i].chain);
    }
  }

  // -------------------------------------------------------------- what becomes of a height

  /** For every height, what processing it comes to: it succeeds, fails, or is dropped. */
  type Fate = int -> WorkerAction

  /** The workers' outcomes follow the fate of their heights. */
  predicate Follows(fate: Fate, s: State, step: Step) {
    step.Work? && (step.a == Succeed || step.a == Fail || step.a == Drop)
    && step.w < |s.workers| && s.workers[step.w].Busy?
    ==> step.a == fate(s.workers[step.w].height)
  }

  ghost predicate IsFatedRun(c: Config, fate: Fate, states: seq<State>, steps: seq<Step>) {
    && IsRun(c, states, steps)
    && forall i | 0 <= i < |steps| :: Follows(fate, states[i], steps[i])
  }

  /** What has left the workers did so as fated. */
  ghost predicate FateInv(fate: Fate, s: State) {
    && (forall h | Ready(h) in s.workers || h in s.txChan || s.writer == Writing(h) :: fate(h) == Succeed)
    && (forall h | Commit.Wrote(h) in s.log :: fate(h) == Succeed)
    && (forall h | MarkedFailed(h) in s.log :: fate(h) == Fail)
    && (forall h | h in s.dropped :: fate(h) == Drop)
  }

  lemma WorkerFate(c: Config, fate: Fate, s: State, w: nat, a: WorkerAction)
    requires FateInv(fate, s) && WorkerCan(c, s, w, a) && Follows(fate, s, Work(w, a))
    ensures FateInv(fate, WorkerDo(c, s, w, a))
  {
    assert s.workers[w] in s.workers;
    Updated(s.workers, w, NextWorker(c, s, w, a));
  }

  lemma WriterFate(fate: Fate, s: State, r: WriterAction)
    requires FateInv(fate, s) && WriterCan(s, r)
    ensures FateInv(fate, WriterDo(s, r))
  {
  }

  lemma EnqueuerFate(c: Config, fate: Fate, s: State, e: EnqueuerAction)
    requires FateInv(fate, s) && EnqueuerCan(c, s, e)
    ensures FateInv(fate, EnqueuerDo(c, s, e))
  {
  }

  lemma StepFate(c: Config, fate: Fate, s: State, step: Step)
    requires FateInv(fate, s) && Enabled(c, s, step) && Follows(fate, s, step)
    ensures FateInv(fate, Do(c, s, step))
  {
    match step
    case Enqueue(e) => EnqueuerFate(c, fate, s, e);
    case Work(w, a) => WorkerFate(c, fate, s, w, a);
    case CloseTx =>
    case Produce(_, _) =>
    case Consume(r) => WriterFate(fate, s, r);
    case Grow(_) =>
  }

  /** Heights indexed before the run are only sent when re-indexing; then every height below the cursor is. */
  predicate ChoiceInv(c: Config, s0: State, s: State) {
    && s0.indexed <= s.indexed
    && (!c.reIndex ==> forall h | h in s.sent :: h !in s0.indexed)
    && (!c.reIndex && s.phase == Sending ==> s.curr !in s0.indexed)
    && (c.reIndex && Started(s) ==> forall h | c.startBlock <= h < s.curr :: h in s.sent)
  }

  lemma EnqueuerChoice(c: Config, s0: State, s: State, e: EnqueuerAction)
    requires ChoiceInv(c, s0, s) && RangeInv(c, s) && EnqueuerCan(c, s, e)
    ensures ChoiceInv(c, s0, EnqueuerDo(c, s, e))
  {
  }

  lemma StepChoice(c: Config, s0: State, s: State, step: Step)
    requires ChoiceInv(c, s0, s) && RangeInv(c, s) && Enabled(c, s, step)
    ensures ChoiceInv(c, s0, Do(c, s, step))
  {
    if step.Enqueue? {
      EnqueuerChoice(c, s0, s, step.e);
    } else {
      OthersLeaveRange(c, s, step);
    }
  }

  lemma {:induction false} RunFate(c: Config, fate: Fate, states: seq<State>, steps: seq<Step>, n: nat)
    requires IsFatedRun(c, fate, states, steps) && n < |states|
    ensures FateInv(fate, states[n]) && ChoiceInv(c, states[0], states[n])
  {
    if n == 0 {
      assert forall h :: Ready(h) !in states[0].workers;
    } else {
      RunFate(c, fate, states, steps, n - 1);
      RunInv(c, states, steps, n - 1);
      StepFate(c, fate, states[n - 1], steps[n - 1]);
      StepChoice(c, states[0], states[n - 1], steps[n - 1]);
    }
  }

  // ------------------------------------------------------------------------ main results

  /** The heights a run works on: failed ones to be re-attempted, and those of the range that are due. */
  predicate Due(c: Config, s0: State, h: int) {
    || (c.reattemptFailed && h in s0.failed)
    || (c.startBlock <= h <= c.endBlock && (c.reIndex || h !in s0.indexed))
  }

  /** The run reached the end of its range and has dealt with all its blocks. */
  predicate Complete(c: Config, s: State) {
    BlocksDone(s) && c.endBlock != -1 && s.curr > c.endBlock
  }

  /** A complete run stores exactly the due heights that succeed, and marks exactly the due ones that fail. */
  lemma CommitsOfARun(c: Config, fate: Fate, states: seq<State>, steps: seq<Step>, h: int)
    requires IsFatedRun(c, fate, states, steps) && Complete(c, states[|steps|])
    ensures Commit.Wrote(h) in states[|steps|].log <==> Due(c, states[0], h) && fate(h) == Succeed
    ensures MarkedFailed(h) in states[|steps|].log <==> Due(c, states[0], h) && fate(h) == Fail
  {
    var s := states[|steps|];
    RunFate(c, fate, states, steps, |steps|);
    RunInv(c, states, steps, |steps|);
    NothingInFlight(s, h);
    if c.startBlock <= h <= c.endBlock {
      assert h in s.sent || h in s.indexed;
    }
  }

  /**
    Exactly which heights of the range end without a row, told by what the node
    answers: those that had none before, when the run was cut short or the node has
    neither a result nor an error for them.
   */
  lemma CoveredByAnswersIff(c: Config, node: int -> Node, states: seq<State>, steps: seq<Step>, h: int)
    requires IsFatedRun(c, g => AnswersTo(node(g)), states, steps) && BlocksDone(states[|steps|]) && InRange(c, h)
    ensures var s := states[|steps|];
            Covered(s, h) <==>
              Covered(states[0], h) || (!CutShort(c, s) && !(FallsBack(node(h)) && node(h).results == Nothing))
  {
    var s := states[|steps|];
    RunFate(c, g => AnswersTo(node(g)), states, steps, |steps|);
    RunInv(c, states, steps, |steps|);
    EarlyReturn(c, states, steps);
    NothingInFlight(s, h);
    HeightCoveredIff(c, states, steps, h);
    if !CutShort(c, s) && !Covered(states[0], h) {
      assert h in s.sent || h in s.indexed;
    }
  }

  /** Exactly when the whole range is covered, told by what the node answers and by the chosen start. */
  lemma RangeCoveredByAnswersIff(c: Config, node: int -> Node, states: seq<State>, steps: seq<Step>)
    requires IsFatedRun(c, g => AnswersTo(node(g)), states, steps) && BlocksDone(states[|steps|]) && c.endBlock != -1
    ensures var s := states[|steps|];
            RangeCovered(c, s) <==>
              && (forall h | InRange(c, h) :: Covered(states[0], h) || !(FallsBack(node(h)) && node(h).results == Nothing))
              && (CutShort(c, s) ==> forall h | s.start <= h <= c.endBlock :: Covered(states[0], h))
  {
    var s := states[|steps|];
    forall h | InRange(c, h)
      ensures Covered(s, h) <==>
                Covered(states[0], h) || (!CutShort(c, s) && !(FallsBack(node(h)) && node(h).results == Nothing))
    {
      CoveredByAnswersIff(c, node, states, steps, h);
    }
    RangeCoveredIff(c, states, steps);
    RunFate(c, g => AnswersTo(node(g)), states, steps, |steps|);
  }

  ghost function FatedLonger(c: Config, fate: Fate, run: (seq<State>, seq<Step>), step: Step)
    : (longer: (seq<State>, seq<Step>))
    requires IsFatedRun(c, fate, run.0, run.1)
    requires Enabled(c, run.0[|run.1|], step) && Follows(fate, run.0[|run.1|], step)
    ensures IsFatedRun(c, fate, longer.0, longer.1)
    ensures longer.0[|longer.1|] == Do(c, run.0[|run.1|], step)
  {
    RunExtends(c, run.0, run.1, step);
    (run.0 + [Do(c, run.0[|run.1|], step)], run.1 + [step])
  }

  /** An empty database, a range of one height, and a node that finds no transactions there and falls silent. */
  const ONE_HEIGHT := Config(1, 1, false, false, false, 1, false, 0, 0)
  const SILENT := Node(TxsReply.Txs(0), Nothing, Reply.Error, Reply.Error, Reply.Error)
  const SILENCE: Fate := h => AnswersTo(SILENT)

  function OneHeight(phase: Phase, curr: int, latest: int): State {
    State(phase, curr, curr, latest, 2, [], [Idle], [], false, false,
          Feed(BlockRange(1, Some(0)), Asking, 0, true), false, Feed(EpochList(0), Asking, 0, true), false,
          Selecting, {}, {}, [], {}, {}, [])
  }

  lemma SilentStarts() returns (run: (seq<State>, seq<Step>))
    ensures IsFatedRun(ONE_HEIGHT, SILENCE, run.0, run.1)
    ensures run.0[|run.1|] == OneHeight(Filling, 1, 2)
  {
    run := ([OneHeight(Bounding, 0, MAX_INT64)], []);
    run := FatedLonger(ONE_HEIGHT, SILENCE, run, Enqueue(Bound(0)));
    run := FatedLonger(ONE_HEIGHT, SILENCE, run, Enqueue(Probe(0)));
    run := FatedLonger(ONE_HEIGHT, SILENCE, run, Enqueue(Scan(1)));
    run := FatedLonger(ONE_HEIGHT, SILENCE, run, Enqueue(Poll));
  }

  lemma SilentSends() returns (run: (seq<State>, seq<Step>))
    ensures IsFatedRun(ONE_HEIGHT, SILENCE, run.0, run.1)
    ensures run.0[|run.1|] == OneHeight(Filling, 2, 2).(start := 1, blockChan := [1], sent := [1])
  {
    run := SilentStarts();
    run := FatedLonger(ONE_HEIGHT, SILENCE, run, Enqueue(Prepare));
    run := FatedLonger(ONE_HEIGHT, SILENCE, run, Enqueue(Send));
  }

  lemma SilentExits() returns (run: (seq<State>, seq<Step>))
    ensures IsFatedRun(ONE_HEIGHT, SILENCE, run.0, run.1)
    ensures run.0[|run.1|] == OneHeight(Closed, 2, 2).(start := 1, blockChan := [1], sent := [1])
  {
    run := SilentSends();
    run := FatedLonger(ONE_HEIGHT, SILENCE, run, Enqueue(StopFilling));
    run := FatedLonger(ONE_HEIGHT, SILENCE, run, Enqueue(Exit));
  }

  lemma SilentDrops() returns (run: (seq<State>, seq<Step>))
    ensures IsFatedRun(ONE_HEIGHT, SILENCE, run.0, run.1)
    ensures run.0[|run.1|]
         == OneHeight(Closed, 2, 2).(start := 1, sent := [1], dropped := {1}, workers := [Done], txClosed := true)
  {
    run := SilentExits();
    run := FatedLonger(ONE_HEIGHT, SILENCE, run, Work(0, Take));
    run := FatedLonger(ONE_HEIGHT, SILENCE, run, Work(0, Drop));
    run := FatedLonger(ONE_HEIGHT, SILENCE, run, Work(0, Leave));
    run := FatedLonger(ONE_HEIGHT, SILENCE, run, CloseTx);
  }

  /** With such a node the command returns with neither a block nor a failed block for the height. */
  lemma SilentHeightIsMissed() returns (run: (seq<State>, seq<Step>))
    ensures IsFatedRun(ONE_HEIGHT, SILENCE, run.0, run.1) && Returned(run.0[|run.1|])
    ensures !CutShort(ONE_HEIGHT, run.0[|run.1|]) && 1 in run.0[|run.1|].sent && !Covered(run.0[|run.1|], 1)
  {
    run := SilentDrops();
    run := FatedLonger(ONE_HEIGHT, SILENCE, run, Consume(SeeTxClosed));
    run := FatedLonger(ONE_HEIGHT, SILENCE, run, Consume(SeeFeedClosed(false)));
    run := FatedLonger(ONE_HEIGHT, SILENCE, run, Consume(SeeFeedClosed(true)));
    run := FatedLonger(ONE_HEIGHT, SILENCE, run, Consume(Finish));
  }

  function Lists(ch: Chain, log: seq<Commit>): seq<seq<Op>> {
    seq(|log|, i requires 0 <= i < |log| => OpsOf(ch, log[i]))
  }

  lemma {:induction false} AfterIsRunAll(ch: Chain, v: View, log: seq<Commit>)
    ensures After(ch, v, log) == RunAll(v, Lists(ch, log))
  {
    if log != [] {
      AfterIsRunAll(ch, v, log[..|log| - 1]);
      assert Lists(ch, log)[..|log| - 1] == Lists(ch, log[..|log| - 1]);
    }
  }

  /** No height is both stored and marked failed. */
  ghost predicate OneOutcome(log: seq<Commit>) {
    forall h :: !(Commit.Wrote(h) in log && MarkedFailed(h) in log)
  }

  lemma CommitUniform(ch: Chain, commit: Commit, k: Key)
    ensures UniformAt(OpsOf(ch, commit), k)
  {
    if commit.Wrote? {
      BlockUniform(ch.id, ch.content(commit.height), k);
    }
  }

  lemma FailedDisjoint(ch: Chain, g: int, h: int, k: Key)
    requires GoodChain(ch) && g != h
    ensures !Touches(BlockOps(ch.id, ch.content(g)), k) || !Touches(FailedOps(ch, h), k)
  {
    if Touches(BlockOps(ch.id, ch.content(g)), k) {
      TouchesOwnOrShared(ch.id, ch.content(g), k);
    }
  }

  lemma FailedAgree(ch: Chain, g: int, h: int, k: Key)
    ensures AgreeAt(FailedOps(ch, g), FailedOps(ch, h), k)
  {
    if g != h && Touches(FailedOps(ch, g), k) && Touches(FailedOps(ch, h), k) {
      var v := ChainV(ch.name);
      assert k == ChainK(ch.id);
      assert OnlyEnsures(FailedOps(ch, g), k, v) && OnlyEnsures(FailedOps(ch, h), k, v);
    }
  }

  lemma CommitsAgree(ch: Chain, log: seq<Commit>, a: Commit, b: Commit, k: Key)
    requires GoodChain(ch) && OneOutcome(log) && a in log && b in log
    ensures AgreeAt(OpsOf(ch, a), OpsOf(ch, b), k)
  {
    match (a, b)
    case (Wrote(g), Wrote(h)) =>
      assert g != h ==> Separate(ch.content(g), ch.content(h));
      SeparateAgree(ch.id, ch.content(g), ch.content(h), k);
    case (Wrote(g), MarkedFailed(h)) => FailedDisjoint(ch, g, h, k);
    case (MarkedFailed(g), Wrote(h)) => FailedDisjoint(ch, h, g, k);
    case (MarkedFailed(g), MarkedFailed(h)) => FailedAgree(ch, g, h, k);
  }

  lemma LogCompatible(ch: Chain, log: seq<Commit>, k: Key)
    requires GoodChain(ch) && OneOutcome(log)
    ensures Compatible(Lists(ch, log), k)
  {
    var lists := Lists(ch, log);
    forall a | a in lists ensures UniformAt(a, k) {
      var i :| 0 <= i < |log| && lists[i] == a;
      CommitUniform(ch, log[i], k);
    }
    forall a, b | a in lists && b in lists ensures AgreeAt(a, b, k) {
      var i :| 0 <= i < |log| && lists[i] == a;
      var j :| 0 <= j < |log| && lists[j] == b;
      CommitsAgree(ch, log, log[i], log[j], k);
    }
  }

  lemma SameLists(ch: Chain, log: seq<Commit>, log2: seq<Commit>, a: seq<Op>)
    requires forall commit | commit in log :: commit in log2
    ensures a in Lists(ch, log) ==> a in Lists(ch, log2)
  {
    if a in Lists(ch, log) {
      var i :| 0 <= i < |log| && Lists(ch, log)[i] == a;
      assert log[i] in log2;
      var j :| 0 <= j < |log2| && log2[j] == log[i];
      assert Lists(ch, log2)[j] == a;
    }
  }

  /** Runs that made the same commits, in whatever order and however often, leave the same view. */
  lemma SameCommitsSameView(ch: Chain, v: View, log: seq<Commit>, log2: seq<Commit>)
    requires GoodChain(ch) && OneOutcome(log)
    requires forall commit :: commit in log <==> commit in log2
    ensures After(ch, v, log) == After(ch, v, log2)
  {
    AfterIsRunAll(ch, v, log);
    AfterIsRunAll(ch, v, log2);
    forall a ensures a in Lists(ch, log) <==> a in Lists(ch, log2) {
      SameLists(ch, log, log2, a);
      SameLists(ch, log2, log, a);
    }
    forall k ensures Convergent(Lists(ch, log), k) {
      LogCompatible(ch, log, k);
    }
    Confluence(v, Lists(ch, log), Lists(ch, log2));
  }

  /** The same range and options; the number of workers may differ. */
  predicate SameRange(c: Config, c2: Config) {
    && c.startBlock == c2.startBlock && c.endBlock == c2.endBlock
    && c.reIndex == c2.reIndex && c.reattemptFailed == c2.reattemptFailed
  }

  lemma SameStart(ch: Chain, v: View, s: State, s2: State)
    requires Shows(ch, v, s) && Shows(ch, v, s2)
    ensures s.indexed == s2.indexed && s.failed == s2.failed
  {
    assert forall h :: h in s.indexed <==> h in s2.indexed;
    assert forall h :: h in s.failed <==> h in s2.failed;
  }

  /** Two complete, equally fated runs over the same range from the same tables. */
  ghost predicate Comparable(c: Config, c2: Config, fate: Fate, states: seq<State>, steps: seq<Step>,
                             states2: seq<State>, steps2: seq<Step>) {
    && SameRange(c, c2)
    && IsFatedRun(c, fate, states, steps) && Complete(c, states[|steps|])
    && IsFatedRun(c2, fate, states2, steps2) && Complete(c2, states2[|steps2|])
    && states[0].indexed == states2[0].indexed && states[0].failed == states2[0].failed
  }

  lemma SameCommits(c: Config, c2: Config, fate: Fate, states: seq<State>, steps: seq<Step>,
                    states2: seq<State>, steps2: seq<Step>, commit: Commit)
    requires Comparable(c, c2, fate, states, steps, states2, steps2)
    ensures commit in states[|steps|].log <==> commit in states2[|steps2|].log
  {
    var h := commit.height;
    CommitsOfARun(c, fate, states, steps, h);
    CommitsOfARun(c2, fate, states2, steps2, h);
    assert Due(c, states[0], h) <==> Due(c2, states2[0], h);
  }

  lemma RunOneOutcome(c: Config, fate: Fate, states: seq<State>, steps: seq<Step>)
    requires IsFatedRun(c, fate, states, steps) && Complete(c, states[|steps|])
    ensures OneOutcome(states[|steps|].log)
  {
    forall h ensures !(Commit.Wrote(h) in states[|steps|].log && MarkedFailed(h) in states[|steps|].log) {
      CommitsOfARun(c, fate, states, steps, h);
    }
  }

  /**
    The interleaving does not matter. Two complete runs over the same range from
    the same tables, with any number of workers, any growth of the chain and any
    schedule, leave the same rows: blocks, transactions, fees, messages, taxable
    amounts and failed blocks.
   */
  lemma ScheduleDoesNotShow(c: Config, c2: Config, fate: Fate, ch: Chain, v: View,
                            states: seq<State>, steps: seq<Step>, states2: seq<State>, steps2: seq<Step>)
    requires GoodChain(ch) && Comparable(c, c2, fate, states, steps, states2, steps2)
    ensures After(ch, v, states[|steps|].log) == After(ch, v, states2[|steps2|].log)
  {
    forall commit ensures commit in states[|steps|].log <==> commit in states2[|steps2|].log {
      SameCommits(c, c2, fate, states, steps, states2, steps2, commit);
    }
    RunOneOutcome(c, fate, states, steps);
    SameCommitsSameView(ch, v, states[|steps|].log, states2[|steps2|].log);
  }

  /** Likewise the heights that count as indexed and as failed. */
  lemma ScheduleDoesNotShowInHeights(
      c: Config, c2: Config, fate: Fate, ch: Chain, v: View,
      states: seq<State>, steps: seq<Step>, states2: seq<State>, steps2: seq<Step>)
    requires GoodChain(ch) && Comparable(c, c2, fate, states, steps, states2, steps2)
    requires Shows(ch, v, states[0]) && Shows(ch, v, states2[0])
    ensures states[|steps|].indexed == states2[|steps2|].indexed
    ensures states[|steps|].failed == states2[|steps2|].failed
  {
    ScheduleDoesNotShow(c, c2, fate, ch, v, states, steps, states2, steps2);
    RunShows(c, ch, v, states, steps, |steps|);
    RunShows(c2, ch, v, states2, steps2, |steps2|);
    SameStart(ch, After(ch, v, states[|steps|].log), states[|steps|], states2[|steps2|]);
  }
}
