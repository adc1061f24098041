/**
  The tables along a run of the pipeline: blocks stored, heights marked failed and
  batches of block events inserted, in the order in which they committed. The
  heights that the tables call indexed or failed are those the pipeline knows.
 */
module StoredHistory {
  import opened Options
  import opened Ledger
  import opened Tables
  import opened BlockEvents
  import opened StartHeight
  import opened Pipeline
  import opened PipelineSafety
  import opened WholeRun

  /** A commit of the pipeline's log, or events inserted into the same tables. */
  datatype Entry = Logged(commit: Commit) | Inserted(events: seq<EventData>)

  function OpsOfEntry(ch: Chain, entry: Entry): seq<Op> {
    match entry
    case Logged(commit) => OpsOf(ch, commit)
    case Inserted(events) => OwnOps(events)
  }

  /** The commits among the entries. */
  function LogOf(entries: seq<Entry>): seq<Commit> {
    if entries == [] then []
    else
      var last := entries[|entries| - 1];
      LogOf(entries[..|entries| - 1]) + if last.Logged? then [last.commit] else []
  }

  function HeightsAfter(heights: Heights, log: seq<Commit>): Heights {
    if log == [] then heights else With(HeightsAfter(heights, log[..|log| - 1]), log[|log| - 1])
  }

  // --------------------------------------------------------------- events and the heights

  /** Events find or create rows; a block row they create is not marked indexed. */
  predicate EventOp(op: Op) {
    op.Ensure? && !op.k.FailedK? && (op.k.BlockK? ==> op.v.BlockV? && !op.v.indexed)
  }

  lemma {:induction false} OwnOpsAreEventOps(events: seq<EventData>)
    ensures forall op | op in OwnOps(events) :: EventOp(op)
  {
    if events != [] {
      OwnOpsAreEventOps(events[..|events| - 1]);
    }
  }

  lemma {:induction false} UnindexedAtMost(ops: seq<Op>, k: Key)
    requires k.BlockK? && forall op | op in ops :: EventOp(op)
    ensures var x := FoldAt(None, ops, k); x.Some? ==> x.value.BlockV? && !x.value.indexed
  {
    if ops != [] {
      assert ops[|ops| - 1] in ops && ops == ops[..|ops| - 1] + [ops[|ops| - 1]];
      UnindexedAtMost(ops[..|ops| - 1], k);
    }
  }

  /** Inserting events changes neither which heights are indexed nor which are failed. */
  lemma EventsKeepHeights(v: View, events: seq<EventData>, chain: string, h: int)
    ensures var w := ApplyAll(v, OwnOps(events));
            && (IsIndexed(w, chain, h) <==> IsIndexed(v, chain, h))
            && (IsFailed(w, chain, h) <==> IsFailed(v, chain, h))
  {
    var ops := OwnOps(events);
    var bk, fk := BlockK(chain, h), FailedK(chain, h);
    OwnOpsAreEventOps(events);
    Locality(v, ops, bk);
    Locality(v, ops, fk);
    EnsureKeeps(At(v, bk), ops, bk);
    UnindexedAtMost(ops, bk);
    UntouchedStays(At(v, fk), ops, fk);
  }

  lemma EntryShows(ch: Chain, v: View, heights: Heights, entry: Entry)
    requires GoodChain(ch) && ShowsHeights(ch, v, heights)
    ensures ShowsHeights(ch, ApplyAll(v, OpsOfEntry(ch, entry)),
                         if entry.Logged? then With(heights, entry.commit) else heights)
  {
    if entry.Logged? {
      CommitShows(ch, v, heights, entry.commit);
    } else {
      var w := ApplyAll(v, OwnOps(entry.events));
      forall h ensures (h in heights.indexed <==> IsIndexed(w, ch.id, h)) && (h in heights.failed <==> IsFailed(w, ch.id, h)) {
        EventsKeepHeights(v, entry.events, ch.id, h);
      }
    }
  }

  // -------------------------------------------------------------------------- the tables

  /** What the storing transactions ensure of the tables. */
  ghost predicate Stores(ch: Chain, t: Tables, t2: Tables, entry: Entry) {
    Valid(t2) && Grows(t, t2) && ViewOf(t2) == ApplyAll(ViewOf(t), OpsOfEntry(ch, entry))
  }

  /** The tables before and after each entry. */
  ghost predicate IsHistory(ch: Chain, tables: seq<Tables>, entries: seq<Entry>) {
    && |tables| == |entries| + 1
    && Valid(tables[0])
    && forall i | 0 <= i < |entries| :: Stores(ch, tables[i], tables[i + 1], entries[i])
  }

  lemma HistoryBefore(ch: Chain, tables: seq<Tables>, entries: seq<Entry>)
    requires IsHistory(ch, tables, entries) && entries != []
    ensures IsHistory(ch, tables[..|entries|], entries[..|entries| - 1])
    ensures Stores(ch, tables[|entries| - 1], tables[|entries|], entries[|entries| - 1])
  {
  }

  lemma HeightsAfterEntry(heights: Heights, entries: seq<Entry>)
    requires entries != []
    ensures var entry := entries[|entries| - 1];
            var before := HeightsAfter(heights, LogOf(entries[..|entries| - 1]));
            HeightsAfter(heights, LogOf(entries)) == if entry.Logged? then With(before, entry.commit) else before
  {
    var entry, log := entries[|entries| - 1], LogOf(entries[..|entries| - 1]);
    if entry.Logged? {
      assert (log + [entry.commit])[..|log|] == log;
    } else {
      assert log + [] == log;
    }
  }

  lemma {:induction false} HistoryShows(ch: Chain, tables: seq<Tables>, entries: seq<Entry>, heights: Heights)
    requires GoodChain(ch) && IsHistory(ch, tables, entries)
    requires ShowsHeights(ch, ViewOf(tables[0]), heights)
    ensures ShowsHeights(ch, ViewOf(tables[|entries|]), HeightsAfter(heights, LogOf(entries)))
  {
    if entries != [] {
      var n := |entries| - 1;
      HistoryBefore(ch, tables, entries);
      HistoryShows(ch, tables[..n + 1], entries[..n], heights);
      HeightsAfterEntry(heights, entries);
      EntryShows(ch, ViewOf(tables[n]), HeightsAfter(heights, LogOf(entries[..n])), entries[n]);
    }
  }

  lemma {:induction false} HistoryKeepsChain(ch: Chain, tables: seq<Tables>, entries: seq<Entry>, chain: Id)
    requires IsHistory(ch, tables, entries) && chain in tables[0].chains
    ensures chain in tables[|entries|].chains && tables[|entries|].chains[chain] == tables[0].chains[chain]
    ensures Valid(tables[|entries|])
  {
    if entries != [] {
      var n := |entries| - 1;
      HistoryBefore(ch, tables, entries);
      HistoryKeepsChain(ch, tables[..n + 1], entries[..n], chain);
      assert RowIn(tables[n], Chains, chain) && SameKeyRow(tables[n], tables[n + 1], Chains, chain);
    }
  }

  lemma StepHeights(c: Config, heights: Heights, s: State, step: Step)
    requires Enabled(c, s, step) && HeightsOf(s) == HeightsAfter(heights, s.log)
    ensures HeightsOf(Do(c, s, step)) == HeightsAfter(heights, Do(c, s, step).log)
  {
    var s2 := Do(c, s, step);
    StepCommits(c, s, step);
    if !SameTables(s, s2) {
      var commit :| OneCommit(s, s2, commit);
      assert s2.log[..|s2.log| - 1] == s.log;
    }
  }

  lemma {:induction false} RunHeights(c: Config, states: seq<State>, steps: seq<Step>, n: nat)
    requires IsRun(c, states, steps) && n < |states|
    ensures HeightsOf(states[n]) == HeightsAfter(HeightsOf(states[0]), states[n].log)
  {
    if n > 0 {
      RunHeights(c, states, steps, n - 1);
      StepHeights(c, HeightsOf(states[0]), states[n - 1], steps[n - 1]);
    }
  }

  // ------------------------------------------------------------------------ main results

  /**
    From the tables to the pipeline and back: when a run starts with the heights
    that the tables hold, then after any of its steps, and any events inserted in
    between, the query for indexed blocks over the rows finds exactly the
    pipeline's indexed heights.
   */
  lemma TablesFollow(c: Config, ch: Chain, tables: seq<Tables>, entries: seq<Entry>, chain: Id,
                     states: seq<State>, steps: seq<Step>, n: nat)
    requires GoodChain(ch) && IsRun(c, states, steps) && n < |states|
    requires IsHistory(ch, tables, entries) && LogOf(entries) == states[n].log
    requires chain in tables[0].chains && tables[0].chains[chain].chainId == ch.id
    requires Shows(ch, ViewOf(tables[0]), states[0])
    ensures chain in tables[|entries|].chains
    ensures IndexedHeights(tables[|entries|], chain) == states[n].indexed
  {
    var last := tables[|entries|];
    HistoryShows(ch, tables, entries, HeightsOf(states[0]));
    RunHeights(c, states, steps, n);
    HistoryKeepsChain(ch, tables, entries, chain);
    forall h ensures h in IndexedHeights(last, chain) <==> h in states[n].indexed {
      IndexedHeightsShow(last, chain, h);
    }
  }

  /**
    No height is lost in the tables: when all blocks are dealt with, every height of
    the range that was not only dropped is found by the query for indexed blocks or
    has a failed row.
   */
  lemma RangeIsStored(c: Config, ch: Chain, tables: seq<Tables>, entries: seq<Entry>, chain: Id,
                      states: seq<State>, steps: seq<Step>, h: int)
    requires GoodChain(ch) && IsRun(c, states, steps) && BlocksDone(states[|steps|])
    requires IsHistory(ch, tables, entries) && LogOf(entries) == states[|steps|].log
    requires chain in tables[0].chains && tables[0].chains[chain].chainId == ch.id
    requires Shows(ch, ViewOf(tables[0]), states[0])
    requires c.startBlock <= h < states[|steps|].curr && !OnlyDropped(states[|steps|], h)
    ensures chain in tables[|entries|].chains
    ensures h in IndexedHeights(tables[|entries|], chain) || IsFailed(ViewOf(tables[|entries|]), ch.id, h)
  {
    NoHeightIsLost(c, states, steps, h);
    TablesFollow(c, ch, tables, entries, chain, states, steps, |steps|);
    HistoryShows(ch, tables, entries, HeightsOf(states[0]));
    RunHeights(c, states, steps, |steps|);
  }
}
