/**
  Runs that index block events beside the blocks: whatever the order in which
  blocks, failed heights and batches of events were committed, and however the
  events were cut into batches and retried, the tables end with the same content.
 */
module Interleaving {
  import opened Ledger
  import opened Tables
  import opened BlockData
  import opened BlockEvents
  import opened Pipeline
  import opened WholeRun
  import opened StoredHistory

  // ------------------------------------------------------------- what events agree upon

  /** The row that each digest stands for. */
  type Digests = nat -> Val

  /** The event lies in a block of the chain, and its row is the one its digest stands for. */
  predicate GoodEvent(ch: Chain, digests: Digests, e: EventData) {
    && e.chain == ch.id && e.chainName == ch.name && e.time == ch.content(e.height).time
    && digests(e.hash) == EventValue(e, (e.chain, e.height))
  }

  predicate Inserts(entries: seq<Entry>, e: EventData) {
    exists entry :: entry in entries && entry.Inserted? && e in entry.events
  }

  ghost predicate GoodEntries(ch: Chain, digests: Digests, entries: seq<Entry>) {
    forall e | Inserts(entries, e) :: GoodEvent(ch, digests, e)
  }

  /** What inserting events of the chain puts at a key where nothing is. */
  function Canon(ch: Chain, digests: Digests, k: Key): Val {
    match k
    case ChainK(_) => ChainV(ch.name)
    case BlockK(_, h) => BlockV(ch.content(h).time, false)
    case EventK(h) => digests(h)
    case _ => Unit
  }

  /** The keys that inserting events of the chain may write. */
  predicate EventKey(ch: Chain, k: Key) {
    k == ChainK(ch.id) || (k.BlockK? && k.chain == ch.id) || k.AddressK? || k.EventK?
  }

  lemma EventOpsAgree(ch: Chain, digests: Digests, e: EventData, k: Key)
    requires GoodEvent(ch, digests, e)
    ensures OnlyEnsures(EventOps(e, (e.chain, e.height)), k, Canon(ch, digests, k))
    ensures Touches(EventOps(e, (e.chain, e.height)), k) ==> EventKey(ch, k)
  {
  }

  /** One entry of a history after its events were taken apart. */
  predicate Single(ch: Chain, digests: Digests, entry: Entry) {
    entry.Inserted? ==> |entry.events| == 1 && GoodEvent(ch, digests, entry.events[0])
  }

  lemma SingleOps(e: EventData)
    ensures OwnOps([e]) == EventOps(e, (e.chain, e.height))
  {
    assert [e][..0] == [];
    assert [] + EventOps(e, (e.chain, e.height)) == EventOps(e, (e.chain, e.height));
  }

  lemma InsertedAgrees(ch: Chain, digests: Digests, entry: Entry, k: Key)
    requires entry.Inserted? && Single(ch, digests, entry)
    ensures OnlyEnsures(OpsOfEntry(ch, entry), k, Canon(ch, digests, k))
    ensures Touches(OpsOfEntry(ch, entry), k) ==> EventKey(ch, k)
  {
    var e := entry.events[0];
    assert entry.events == [e];
    SingleOps(e);
    EventOpsAgree(ch, digests, e, k);
  }

  /** Commits that write a key of events, other than that of a block, only find or create the same row. */
  lemma CommitMeetsEvents(ch: Chain, digests: Digests, commit: Commit, k: Key)
    requires EventKey(ch, k) && !k.BlockK? && Touches(OpsOf(ch, commit), k)
    ensures OnlyEnsures(OpsOf(ch, commit), k, Canon(ch, digests, k))
  {
    if commit.Wrote? {
      TouchesOwnOrShared(ch.id, ch.content(commit.height), k);
      SharedIsUnit(ch.id, ch.content(commit.height), k);
    }
  }

  /** At the key of a block a commit assigns the indexed row; events merely look for one. */
  lemma CommitAtBlock(ch: Chain, commit: Commit, k: Key)
    requires GoodChain(ch) && k.BlockK? && Touches(OpsOf(ch, commit), k)
    ensures AllPut(OpsOf(ch, commit), k, BlockV(ch.content(k.height).time, true))
  {
    var block := ch.content(commit.height);
    if commit.Wrote? {
      TouchesOwnOrShared(ch.id, block, k);
      assert ch.content(commit.height).height == commit.height;
      BlockOpsMild(ch.id, block);
    }
  }

  // ------------------------------------------------------------------------ convergence

  function ListsOf(ch: Chain, entries: seq<Entry>): seq<seq<Op>> {
    seq(|entries|, i requires 0 <= i < |entries| => OpsOfEntry(ch, entries[i]))
  }

  ghost predicate Singles(ch: Chain, digests: Digests, entries: seq<Entry>) {
    forall entry | entry in entries :: Single(ch, digests, entry)
  }

  lemma InLists(ch: Chain, entries: seq<Entry>, a: seq<Op>)
    ensures a in ListsOf(ch, entries) <==> exists entry :: entry in entries && OpsOfEntry(ch, entry) == a
  {
    if a in ListsOf(ch, entries) {
      var i :| 0 <= i < |entries| && ListsOf(ch, entries)[i] == a;
      assert entries[i] in entries;
    }
    if entry :| entry in entries && OpsOfEntry(ch, entry) == a {
      var i :| 0 <= i < |entries| && entries[i] == entry;
      assert ListsOf(ch, entries)[i] == a;
    }
  }

  lemma {:induction false} InLog(entries: seq<Entry>, commit: Commit)
    ensures commit in LogOf(entries) <==> Logged(commit) in entries
  {
    if entries != [] {
      var init, last := entries[..|entries| - 1], entries[|entries| - 1];
      InLog(init, commit);
      assert entries == init + [last];
    }
  }

  lemma EntryUniform(ch: Chain, digests: Digests, entry: Entry, k: Key)
    requires Single(ch, digests, entry)
    ensures UniformAt(OpsOfEntry(ch, entry), k)
  {
    if entry.Logged? {
      CommitUniform(ch, entry.commit, k);
    } else {
      InsertedAgrees(ch, digests, entry, k);
      assert AllEnsure(OpsOfEntry(ch, entry), k);
    }
  }

  lemma EntriesAgree(ch: Chain, digests: Digests, entries: seq<Entry>, x: Entry, y: Entry, k: Key)
    requires GoodChain(ch) && Singles(ch, digests, entries) && OneOutcome(LogOf(entries))
    requires x in entries && y in entries && !k.BlockK?
    ensures AgreeAt(OpsOfEntry(ch, x), OpsOfEntry(ch, y), k)
  {
    if x.Logged? && y.Logged? {
      InLog(entries, x.commit);
      InLog(entries, y.commit);
      CommitsAgree(ch, LogOf(entries), x.commit, y.commit, k);
    } else if Touches(OpsOfEntry(ch, x), k) && Touches(OpsOfEntry(ch, y), k) {
      if x.Inserted? {
        InsertedAgrees(ch, digests, x, k);
      }
      if y.Inserted? {
        InsertedAgrees(ch, digests, y, k);
      }
      if x.Logged? {
        CommitMeetsEvents(ch, digests, x.commit, k);
      }
      if y.Logged? {
        CommitMeetsEvents(ch, digests, y.commit, k);
      }
    }
  }

  lemma EntriesConverge(ch: Chain, digests: Digests, entries: seq<Entry>, k: Key)
    requires GoodChain(ch) && Singles(ch, digests, entries) && OneOutcome(LogOf(entries))
    ensures Convergent(ListsOf(ch, entries), k)
  {
    if k.BlockK? {
      BlocksLayered(ch, digests, entries, k);
    } else {
      EntriesCompatible(ch, digests, entries, k);
    }
  }

  lemma BlocksLayered(ch: Chain, digests: Digests, entries: seq<Entry>, k: Key)
    requires GoodChain(ch) && Singles(ch, digests, entries) && k.BlockK?
    ensures Layered(ListsOf(ch, entries), k, Canon(ch, digests, k), BlockV(ch.content(k.height).time, true))
  {
    forall a | a in ListsOf(ch, entries) && Touches(a, k)
      ensures OnlyEnsures(a, k, Canon(ch, digests, k)) || AllPut(a, k, BlockV(ch.content(k.height).time, true))
    {
      InLists(ch, entries, a);
      var entry :| entry in entries && OpsOfEntry(ch, entry) == a;
      if entry.Logged? {
        CommitAtBlock(ch, entry.commit, k);
      } else {
        InsertedAgrees(ch, digests, entry, k);
      }
    }
  }

  lemma EntriesCompatible(ch: Chain, digests: Digests, entries: seq<Entry>, k: Key)
    requires GoodChain(ch) && Singles(ch, digests, entries) && OneOutcome(LogOf(entries)) && !k.BlockK?
    ensures Compatible(ListsOf(ch, entries), k)
  {
    var lists := ListsOf(ch, entries);
    forall a | a in lists ensures UniformAt(a, k) {
      InLists(ch, entries, a);
      var x :| x in entries && OpsOfEntry(ch, x) == a;
      EntryUniform(ch, digests, x, k);
    }
    forall a, b | a in lists && b in lists ensures AgreeAt(a, b, k) {
      InLists(ch, entries, a);
      InLists(ch, entries, b);
      var x :| x in entries && OpsOfEntry(ch, x) == a;
      var y :| y in entries && OpsOfEntry(ch, y) == b;
      EntriesAgree(ch, digests, entries, x, y, k);
    }
  }

  // ------------------------------------------------------------------ batches taken apart

  function Apart(events: seq<EventData>): seq<Entry> {
    seq(|events|, i requires 0 <= i < |events| => Inserted([events[i]]))
  }

  function Pieces(entry: Entry): seq<Entry> {
    if entry.Logged? then [entry] else Apart(entry.events)
  }

  /** The entries with every batch cut into its events. */
  function Flat(entries: seq<Entry>): seq<Entry> {
    if entries == [] then [] else Flat(entries[..|entries| - 1]) + Pieces(entries[|entries| - 1])
  }

  lemma {:induction false} RunAllConcat(v: View, a: seq<seq<Op>>, b: seq<seq<Op>>)
    ensures RunAll(v, a + b) == RunAll(RunAll(v, a), b)
  {
    if b == [] {
      assert a + b == a;
    } else {
      assert (a + b)[..|a + b| - 1] == a + b[..|b| - 1];
      RunAllConcat(v, a, b[..|b| - 1]);
    }
  }

  lemma {:induction false} ApartRuns(ch: Chain, v: View, events: seq<EventData>)
    ensures RunAll(v, ListsOf(ch, Apart(events))) == ApplyAll(v, OwnOps(events))
  {
    if events != [] {
      var init, e := events[..|events| - 1], events[|events| - 1];
      ApartRuns(ch, v, init);
      assert ListsOf(ch, Apart(events))[..|events| - 1] == ListsOf(ch, Apart(init));
      SingleOps(e);
      ApplyAllConcat(v, OwnOps(init), EventOps(e, (e.chain, e.height)));
    }
  }

  lemma PiecesRun(ch: Chain, v: View, entry: Entry)
    ensures RunAll(v, ListsOf(ch, Pieces(entry))) == ApplyAll(v, OpsOfEntry(ch, entry))
  {
    if entry.Logged? {
      assert ListsOf(ch, [entry])[..0] == [];
    } else {
      ApartRuns(ch, v, entry.events);
    }
  }

  lemma ListsConcat(ch: Chain, a: seq<Entry>, b: seq<Entry>)
    ensures ListsOf(ch, a + b) == ListsOf(ch, a) + ListsOf(ch, b)
  {
  }

  lemma LastRuns(ch: Chain, v: View, entries: seq<Entry>)
    requires entries != []
    ensures var init := entries[..|entries| - 1];
            RunAll(v, ListsOf(ch, entries)) == ApplyAll(RunAll(v, ListsOf(ch, init)), OpsOfEntry(ch, entries[|entries| - 1]))
  {
    assert ListsOf(ch, entries)[..|entries| - 1] == ListsOf(ch, entries[..|entries| - 1]);
  }

  lemma JoinedRuns(ch: Chain, v: View, a: seq<Entry>, b: seq<Entry>)
    ensures RunAll(v, ListsOf(ch, a + b)) == RunAll(RunAll(v, ListsOf(ch, a)), ListsOf(ch, b))
  {
    ListsConcat(ch, a, b);
    RunAllConcat(v, ListsOf(ch, a), ListsOf(ch, b));
  }

  lemma {:induction false} FlatRuns(ch: Chain, v: View, entries: seq<Entry>)
    ensures RunAll(v, ListsOf(ch, Flat(entries))) == RunAll(v, ListsOf(ch, entries))
  {
    if entries != [] {
      var init, last := entries[..|entries| - 1], entries[|entries| - 1];
      assert Flat(entries) == Flat(init) + Pieces(last);
      FlatRuns(ch, v, init);
      JoinedRuns(ch, v, Flat(init), Pieces(last));
      PiecesRun(ch, RunAll(v, ListsOf(ch, init)), last);
      LastRuns(ch, v, entries);
    }
  }

  lemma {:induction false} InFlat(entries: seq<Entry>, entry: Entry)
    ensures entry in Flat(entries) <==>
              if entry.Logged? then entry in entries
              else |entry.events| == 1 && Inserts(entries, entry.events[0])
  {
    if entries != [] {
      var init, last := entries[..|entries| - 1], entries[|entries| - 1];
      assert entries == init + [last];
      InFlat(init, entry);
      if last.Inserted? {
        InApart(last.events, entry);
      }
      if entry.Inserted? && |entry.events| == 1 {
        var e := entry.events[0];
        assert Inserts(entries, e) <==> Inserts(init, e) || (last.Inserted? && e in last.events);
      }
    }
  }

  lemma InApart(events: seq<EventData>, entry: Entry)
    ensures entry in Apart(events) <==> entry.Inserted? && |entry.events| == 1 && entry.events[0] in events
  {
    if entry.Inserted? && |entry.events| == 1 && entry.events[0] in events {
      var i :| 0 <= i < |events| && events[i] == entry.events[0];
      assert Apart(events)[i] == entry;
    }
  }

  // ------------------------------------------------------------------------ main results

  /** The same heights were stored and marked failed, and the same events inserted. */
  ghost predicate SameWork(xs: seq<Entry>, ys: seq<Entry>) {
    && (forall commit :: Logged(commit) in xs <==> Logged(commit) in ys)
    && (forall e :: Inserts(xs, e) <==> Inserts(ys, e))
  }

  /**
    Histories that did the same work leave the same view: the order in which
    blocks, failed heights and batches of events commit does not matter, nor does
    how events are cut into batches, nor a batch that is committed again.
   */
  lemma SameWorkSameView(ch: Chain, digests: Digests, v: View, xs: seq<Entry>, ys: seq<Entry>)
    requires GoodChain(ch) && GoodEntries(ch, digests, xs) && OneOutcome(LogOf(xs))
    requires SameWork(xs, ys)
    ensures RunAll(v, ListsOf(ch, xs)) == RunAll(v, ListsOf(ch, ys))
  {
    FlatRuns(ch, v, xs);
    FlatRuns(ch, v, ys);
    SameFlat(xs, ys);
    FlatIsGood(ch, digests, xs);
    forall a ensures a in ListsOf(ch, Flat(xs)) <==> a in ListsOf(ch, Flat(ys)) {
      InLists(ch, Flat(xs), a);
      InLists(ch, Flat(ys), a);
    }
    forall k ensures Convergent(ListsOf(ch, Flat(xs)), k) {
      EntriesConverge(ch, digests, Flat(xs), k);
    }
    Confluence(v, ListsOf(ch, Flat(xs)), ListsOf(ch, Flat(ys)));
  }

  lemma SameFlat(xs: seq<Entry>, ys: seq<Entry>)
    requires SameWork(xs, ys)
    ensures forall entry :: entry in Flat(xs) <==> entry in Flat(ys)
  {
    forall entry ensures entry in Flat(xs) <==> entry in Flat(ys) {
      InFlat(xs, entry);
      InFlat(ys, entry);
      if entry.Logged? {
        assert Logged(entry.commit) == entry;
      }
    }
  }

  lemma FlatIsGood(ch: Chain, digests: Digests, entries: seq<Entry>)
    requires GoodEntries(ch, digests, entries) && OneOutcome(LogOf(entries))
    ensures Singles(ch, digests, Flat(entries)) && OneOutcome(LogOf(Flat(entries)))
  {
    forall entry | entry in Flat(entries) ensures Single(ch, digests, entry) {
      InFlat(entries, entry);
    }
    forall h ensures !(Commit.Wrote(h) in LogOf(Flat(entries)) && MarkedFailed(h) in LogOf(Flat(entries))) {
      forall commit ensures commit in LogOf(Flat(entries)) <==> commit in LogOf(entries) {
        InLog(Flat(entries), commit);
        InLog(entries, commit);
        InFlat(entries, Logged(commit));
      }
    }
  }

  lemma {:induction false} HistoryRuns(ch: Chain, tables: seq<Tables>, entries: seq<Entry>)
    requires IsHistory(ch, tables, entries)
    ensures ViewOf(tables[|entries|]) == RunAll(ViewOf(tables[0]), ListsOf(ch, entries))
  {
    if entries != [] {
      var n := |entries| - 1;
      HistoryBefore(ch, tables, entries);
      HistoryRuns(ch, tables[..n + 1], entries[..n]);
      assert ListsOf(ch, entries)[..n] == ListsOf(ch, entries[..n]);
    }
  }

  lemma LogsAgree(c: Config, c2: Config, fate: Fate, states: seq<State>, steps: seq<Step>,
                  states2: seq<State>, steps2: seq<Step>, xs: seq<Entry>, ys: seq<Entry>)
    requires Comparable(c, c2, fate, states, steps, states2, steps2)
    requires LogOf(xs) == states[|steps|].log && LogOf(ys) == states2[|steps2|].log
    ensures forall commit :: Logged(commit) in xs <==> Logged(commit) in ys
  {
    forall commit ensures Logged(commit) in xs <==> Logged(commit) in ys {
      SameCommits(c, c2, fate, states, steps, states2, steps2, commit);
      InLog(xs, commit);
      InLog(ys, commit);
    }
  }

  /**
    The interleaving does not matter with event indexing either. Two complete,
    equally fated runs over the same range, which insert the same events in any
    batches between their commits, leave tables with the same content when they
    began with the same content.
   */
  lemma ScheduleDoesNotShowWithEvents(
      c: Config, c2: Config, fate: Fate, ch: Chain, digests: Digests,
      states: seq<State>, steps: seq<Step>, states2: seq<State>, steps2: seq<Step>,
      tables: seq<Tables>, xs: seq<Entry>, tables2: seq<Tables>, ys: seq<Entry>)
    requires GoodChain(ch) && Comparable(c, c2, fate, states, steps, states2, steps2)
    requires IsHistory(ch, tables, xs) && LogOf(xs) == states[|steps|].log
    requires IsHistory(ch, tables2, ys) && LogOf(ys) == states2[|steps2|].log
    requires ViewOf(tables[0]) == ViewOf(tables2[0])
    requires GoodEntries(ch, digests, xs) && forall e :: Inserts(xs, e) <==> Inserts(ys, e)
    ensures ViewOf(tables[|xs|]) == ViewOf(tables2[|ys|])
  {
    HistoryRuns(ch, tables, xs);
    HistoryRuns(ch, tables2, ys);
    LogsAgree(c, c2, fate, states, steps, states2, steps2, xs, ys);
    RunOneOutcome(c, fate, states, steps);
    SameWorkSameView(ch, digests, ViewOf(tables[0]), xs, ys);
  }
}
