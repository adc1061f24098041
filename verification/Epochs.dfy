/**
  The backward walk that records the start heights of a chain's epochs, newest
  first, until it meets an epoch that is already recorded or the earliest one
  that can be.
 */
module Epochs {
  import opened Options

  const INDEXABLE: set<string> := {"day", "week"}

  datatype EpochInfo = EpochInfo(identifier: string, number: int, start: int)

  datatype EpochRow = EpochRow(identifier: string, number: int, start: int)

  const NO_ROW := EpochRow("", 0, 0)

  // ---------------------------------------------------------------- what the chain says

  /**
    The epochs of one identifier: the i-th has number first + i and began at
    begins[i]. The chain reports no start height for the oldest ones, those below
    unreported.
   */
  datatype History = History(identifier: string, first: int, begins: seq<int>, unreported: nat)

  predicate GoodHistory(h: History) {
    && h.first >= 1 && h.unreported <= |h.begins|
    && (forall i, j | 0 <= i < j < |h.begins| :: h.begins[i] < h.begins[j])
    && (forall i | h.unreported <= i < |h.begins| :: h.begins[i] > 0)
  }

  /** The epoch that is current at a height: the last that began at or below it, or -1. */
  function IndexAt(begins: seq<int>, height: int): (i: int)
    ensures -1 <= i < |begins|
    ensures i >= 0 ==> begins[i] <= height
    ensures i + 1 < |begins| ==> begins[i + 1] > height
  {
    if begins == [] then -1
    else if begins[|begins| - 1] <= height then |begins| - 1
    else IndexAt(begins[..|begins| - 1], height)
  }

  lemma Ordered(h: History, i: int, j: int)
    requires GoodHistory(h)
    ensures 0 <= i <= j < |h.begins| ==> h.begins[i] <= h.begins[j]
  {
  }

  lemma IndexIs(h: History, height: int, i: int)
    requires GoodHistory(h) && 0 <= i < |h.begins|
    requires h.begins[i] <= height && (i + 1 < |h.begins| ==> h.begins[i + 1] > height)
    ensures IndexAt(h.begins, height) == i
  {
    var j := IndexAt(h.begins, height);
    Ordered(h, j + 1, i);
    Ordered(h, i + 1, j);
  }

  function Row(h: History, i: int): EpochRow
    requires 0 <= i < |h.begins|
  {
    EpochRow(h.identifier, h.first + i, h.begins[i])
  }

  /** The rows of the epochs from index lo to index hi. */
  function Span(h: History, lo: int, hi: int): set<EpochRow>
    requires 0 <= lo && hi < |h.begins|
  {
    set i: int | lo <= i <= hi :: Row(h, i)
  }

  lemma InSpan(h: History, lo: int, hi: int, i: int)
    requires 0 <= lo && hi < |h.begins| && 0 <= i < |h.begins|
    ensures Row(h, i) in Span(h, lo, hi) <==> lo <= i <= hi
  {
    if Row(h, i) in Span(h, lo, hi) {
      var j: int :| lo <= j <= hi && Row(h, j) == Row(h, i);
    }
  }

  /** An answer to the query at one height: an error, or the current epoch of every identifier. */
  type Answer = Option<seq<EpochInfo>>

  function FirstOf(infos: seq<EpochInfo>, identifier: string): Option<EpochInfo> {
    if infos == [] then None
    else if infos[0].identifier == identifier then Some(infos[0])
    else FirstOf(infos[1..], identifier)
  }

  /** An answer about the identifier, if any, is that of the epoch current at the height. */
  predicate Truthful(h: History, height: int, infos: seq<EpochInfo>) {
    var i := IndexAt(h.begins, height);
    match FirstOf(infos, h.identifier)
    case None => true
    case Some(info) =>
      if i < h.unreported then info.start <= 0
      else info.number == h.first + i && info.start == h.begins[i]
  }

  ghost predicate HonestNode(h: History, answers: int -> Answer) {
    forall height :: answers(height).Some? ==> Truthful(h, height, answers(height).value)
  }

  // -------------------------------------------------------------------------- the walk

  /** Ended normally with the last row and whether the earliest epoch was reached, or ended the process. */
  datatype Outcome = Returned(last: EpochRow, reachedFirst: bool) | Fatal

  /** An answer that names the identifier, which must be one of the indexable ones. */
  predicate Useful(identifier: string, answer: Answer) {
    answer.Some? && identifier in INDEXABLE && FirstOf(answer.value, identifier).Some?
  }

  /** The height at which the walk asks for epoch i: where it started, or just below epoch i + 1. */
  function AskedAt(h: History, height: int, i: int): int
    requires -1 <= i < |h.begins|
  {
    if i + 1 < |h.begins| && i < IndexAt(h.begins, height) then h.begins[i + 1] - 1 else height
  }

  /** A row with the same identifier and start height is already there. */
  predicate Clashes(rows: set<EpochRow>, row: EpochRow) {
    exists other :: other in rows && other.identifier == row.identifier && other.start == row.start
  }

  /** Another row stands where the row of epoch i would go. */
  predicate Collides(h: History, rows: set<EpochRow>, i: int)
    requires 0 <= i < |h.begins|
  {
    Row(h, i) !in rows && Clashes(rows, Row(h, i))
  }

  /** Asking for epoch i gives no useful answer, or its row cannot be created. */
  predicate Stuck(h: History, height: int, answers: int -> Answer, rows: set<EpochRow>, i: int)
    requires -1 <= i < |h.begins|
  {
    !Useful(h.identifier, answers(AskedAt(h, height, i))) || (i >= h.unreported && Collides(h, rows, i))
  }

  /** Where lo may stand: one past the current epoch at first, then down to the earliest recordable one. */
  predicate InReach(h: History, height: int, lo: int) {
    var k := IndexAt(h.begins, height);
    h.unreported <= lo <= |h.begins| && if k < h.unreported then lo == |h.begins| else lo <= k + 1
  }

  /** The epoch that the walk asks for when it has added those from lo up. */
  function Next(h: History, height: int, lo: int): int {
    var k := IndexAt(h.begins, height);
    if lo <= k then lo - 1 else k
  }

  /** The walk has added the epochs from lo up to the current one, none of which was recorded. */
  ghost predicate Added(h: History, height: int, answers: int -> Answer,
                        rows: set<EpochRow>, rows2: set<EpochRow>, lo: int)
    requires InReach(h, height, lo)
  {
    var k := IndexAt(h.begins, height);
    && rows2 == rows + Span(h, lo, k)
    && Span(h, lo, k) !! rows
    && (forall i | lo <= i <= k :: Useful(h.identifier, answers(AskedAt(h, height, i))))
  }

  /** The next answer is useful. */
  predicate Asks(h: History, height: int, answers: int -> Answer, lo: int)
    requires InReach(h, height, lo)
  {
    Useful(h.identifier, answers(AskedAt(h, height, Next(h, height, lo))))
  }

  /** It ends where it is stuck, at the earliest recordable epoch, or at one that was recorded before. */
  predicate EndsAt(h: History, height: int, answers: int -> Answer, rows: set<EpochRow>, outcome: Outcome, lo: int)
    requires GoodHistory(h) && InReach(h, height, lo)
  {
    match outcome
    case Fatal => Stuck(h, height, answers, rows, Next(h, height, lo))
    case Returned(last, true) =>
      if IndexAt(h.begins, height) < h.unreported then last == NO_ROW && Asks(h, height, answers, lo)
      else lo == h.unreported && lo <= IndexAt(h.begins, height) && last == Row(h, lo)
    case Returned(last, false) =>
      && h.unreported < lo <= IndexAt(h.begins, height) + 1 && last == Row(h, lo - 1) && last in rows
      && Asks(h, height, answers, lo)
  }

  /** What one walk from a height does to the recorded rows. */
  ghost predicate IsWalk(h: History, height: int, answers: int -> Answer,
                         rows: set<EpochRow>, rows2: set<EpochRow>, outcome: Outcome)
    requires GoodHistory(h)
  {
    exists lo :: InReach(h, height, lo) && Added(h, height, answers, rows, rows2, lo)
                 && EndsAt(h, height, answers, rows, outcome, lo)
  }

  class EpochStore {
    var rows: set<EpochRow>

    constructor ()
      ensures rows == {}
    {
      rows := {};
    }

    /** The first entry for the identifier, if it is one of the indexable ones. */
    static method Search(infos: seq<EpochInfo>, identifier: string) returns (found: Option<EpochInfo>)
      ensures found == if identifier in INDEXABLE then FirstOf(infos, identifier) else None
    {
      found := None;
      for n := 0 to |infos|
        invariant identifier in INDEXABLE ==> FirstOf(infos, identifier) == FirstOf(infos[n..], identifier)
      {
        if infos[n].identifier in INDEXABLE && infos[n].identifier == identifier {
          return Some(infos[n]);
        }
        assert infos[n..][1..] == infos[n + 1..];
      }
    }

    /** Find or create; None when another row has the same identifier and start height. */
    method FirstOrCreate(row: EpochRow) returns (created: Option<bool>)
      modifies this
      ensures created == Some(false) <==> row in old(rows)
      ensures created == Some(true) <==>
                row !in old(rows) && !Clashes(old(rows), row)
      ensures rows == if created == Some(true) then old(rows) + {row} else old(rows)
    {
      if row in rows {
        return Some(false);
      }
      if other :| other in rows && other.identifier == row.identifier && other.start == row.start {
        return None;
      }
      rows := rows + {row};
      return Some(true);
    }

    /** The queried height strictly falls, so the walk ends; h is the truth behind the answers. */
    method IndexEpochsAtStartingHeight(identifier: string, startingHeight: int, answers: int -> Answer, ghost h: History)
      returns (outcome: Outcome)
      requires GoodHistory(h) && h.identifier == identifier && HonestNode(h, answers)
      modifies this
      ensures IsWalk(h, startingHeight, answers, old(rows), rows, outcome)
    {
      var currentHeight := startingHeight;
      var last := NO_ROW;
      ghost var k := IndexAt(h.begins, startingHeight);
      ghost var lo := if k < h.unreported then |h.begins| else k + 1;
      assert Span(h, lo, k) == {};
      while true
        invariant InReach(h, startingHeight, lo)
        invariant Added(h, startingHeight, answers, old(rows), rows, lo)
        invariant currentHeight == AskedAt(h, startingHeight, Next(h, startingHeight, lo))
        invariant last == LastAdded(h, startingHeight, lo)
        decreases currentHeight
      {
        var answer := answers(currentHeight);
        Visit(h, startingHeight, answers, old(rows), rows, lo);
        if answer.None? || answer.value == [] {
          return Fatal;
        }
        var info := Search(answer.value, identifier);
        if info.None? {
          return Fatal;
        }
        if info.value.start <= 0 {
          return Returned(last, true);
        }
        currentHeight := info.value.start - 1;
        var row := EpochRow(identifier, info.value.number, info.value.start);
        var created := FirstOrCreate(row);
        if created.None? {
          return Fatal;
        }
        if !created.value {
          return Returned(row, false);
        }
        if currentHeight <= 0 || row.number == 1 {
          return Returned(row, true);
        }
        last := row;
        lo := Next(h, startingHeight, lo);
      }
    }
  }

  function LastAdded(h: History, height: int, lo: int): EpochRow
    requires InReach(h, height, lo)
  {
    if lo <= IndexAt(h.begins, height) then Row(h, lo) else NO_ROW
  }

  /** Every way in which one turn of the walk can go. */
  lemma Visit(h: History, height: int, answers: int -> Answer, rows: set<EpochRow>, rows2: set<EpochRow>, lo: int)
    requires GoodHistory(h) && HonestNode(h, answers)
    requires InReach(h, height, lo) && Added(h, height, answers, rows, rows2, lo)
    ensures var next := Next(h, height, lo);
            var asked := AskedAt(h, height, next);
            if !Useful(h.identifier, answers(asked)) then IsWalk(h, height, answers, rows, rows2, Fatal)
            else
              var info := FirstOf(answers(asked).value, h.identifier).value;
              if info.start <= 0 then
                IsWalk(h, height, answers, rows, rows2, Returned(LastAdded(h, height, lo), true))
              else
                && next >= h.unreported && info.start == h.begins[next] <= asked
                && Row(h, next) == EpochRow(h.identifier, info.number, info.start)
                && AfterRow(h, height, answers, rows, rows2, next)
  {
    var next := Next(h, height, lo);
    var asked := AskedAt(h, height, next);
    if !Useful(h.identifier, answers(asked)) {
      End(h, height, answers, rows, rows2, Fatal, lo);
    } else {
      AnswerAbout(h, height, answers, lo);
      var info := FirstOf(answers(asked).value, h.identifier).value;
      if info.start <= 0 {
        End(h, height, answers, rows, rows2, Returned(LastAdded(h, height, lo), true), lo);
      } else {
        CurrentIndex(h, height, lo);
        VisitRow(h, height, answers, rows, rows2, lo);
      }
    }
  }

  /** What finding or creating the row of epoch i comes to. */
  ghost predicate AfterRow(h: History, height: int, answers: int -> Answer,
                           rows: set<EpochRow>, rows2: set<EpochRow>, i: int)
    requires GoodHistory(h) && h.unreported <= i < |h.begins|
  {
    var row := Row(h, i);
    if row in rows2 then IsWalk(h, height, answers, rows, rows2, Returned(row, false))
    else if Clashes(rows2, row) then IsWalk(h, height, answers, rows, rows2, Fatal)
    else
      && InReach(h, height, i) && i <= IndexAt(h.begins, height)
      && Added(h, height, answers, rows, rows2 + {row}, i)
      && (row.start <= 1 || row.number == 1 ==>
            IsWalk(h, height, answers, rows, rows2 + {row}, Returned(row, true)))
      && (row.start > 1 && row.number != 1 ==> AskedAt(h, height, Next(h, height, i)) == row.start - 1)
  }

  lemma VisitRow(h: History, height: int, answers: int -> Answer, rows: set<EpochRow>, rows2: set<EpochRow>, lo: int)
    requires GoodHistory(h) && InReach(h, height, lo) && Added(h, height, answers, rows, rows2, lo)
    requires Next(h, height, lo) >= h.unreported
    requires Useful(h.identifier, answers(AskedAt(h, height, Next(h, height, lo))))
    ensures AfterRow(h, height, answers, rows, rows2, Next(h, height, lo))
  {
    var i := Next(h, height, lo);
    var row := Row(h, i);
    NotYetAdded(h, height, lo, i, rows, rows2);
    if row in rows2 {
      End(h, height, answers, rows, rows2, Returned(row, false), lo);
    } else if Clashes(rows2, row) {
      assert Collides(h, rows, i);
      End(h, height, answers, rows, rows2, Fatal, lo);
    } else {
      VisitNewRow(h, height, answers, rows, rows2, lo);
    }
  }

  lemma VisitNewRow(h: History, height: int, answers: int -> Answer, rows: set<EpochRow>, rows2: set<EpochRow>, lo: int)
    requires GoodHistory(h) && InReach(h, height, lo) && Added(h, height, answers, rows, rows2, lo)
    requires Next(h, height, lo) >= h.unreported
    requires Useful(h.identifier, answers(AskedAt(h, height, Next(h, height, lo))))
    requires Row(h, Next(h, height, lo)) !in rows2 && !Clashes(rows2, Row(h, Next(h, height, lo)))
    ensures AfterRow(h, height, answers, rows, rows2, Next(h, height, lo))
  {
    var i := Next(h, height, lo);
    var row := Row(h, i);
    AddedOne(h, height, answers, rows, rows2, lo);
    if row.start <= 1 || row.number == 1 {
      EarliestStops(h, i);
      End(h, height, answers, rows, rows2 + {row}, Returned(row, true), i);
    }
  }

  lemma End(h: History, height: int, answers: int -> Answer,
            rows: set<EpochRow>, rows2: set<EpochRow>, outcome: Outcome, lo: int)
    requires GoodHistory(h) && InReach(h, height, lo) && Added(h, height, answers, rows, rows2, lo)
    requires EndsAt(h, height, answers, rows, outcome, lo)
    ensures IsWalk(h, height, answers, rows, rows2, outcome)
  {
  }

  /** A useful answer to the next question is about the next epoch. */
  lemma AnswerAbout(h: History, height: int, answers: int -> Answer, lo: int)
    requires GoodHistory(h) && InReach(h, height, lo) && HonestNode(h, answers)
    requires Useful(h.identifier, answers(AskedAt(h, height, Next(h, height, lo))))
    ensures var i := Next(h, height, lo);
            var info := FirstOf(answers(AskedAt(h, height, i)).value, h.identifier).value;
            if i < h.unreported then info.start <= 0 else info.number == h.first + i && info.start == h.begins[i] > 0
  {
    var asked := AskedAt(h, height, Next(h, height, lo));
    CurrentIndex(h, height, lo);
    assert Truthful(h, asked, answers(asked).value);
  }

  /** Asking just below the start of an epoch gives the epoch before it. */
  lemma CurrentIndex(h: History, height: int, lo: int)
    requires GoodHistory(h) && InReach(h, height, lo)
    ensures var i := Next(h, height, lo); IndexAt(h.begins, AskedAt(h, height, i)) == i
  {
    var i := Next(h, height, lo);
    if 0 <= i < IndexAt(h.begins, height) {
      Ordered(h, i, i + 1);
      IndexIs(h, AskedAt(h, height, i), i);
    } else if i < IndexAt(h.begins, height) {
      Ordered(h, 0, IndexAt(h.begins, AskedAt(h, height, i)));
    }
  }

  /** The next epoch's row, or one that it collides with, is there only if it was before the walk. */
  lemma NotYetAdded(h: History, height: int, lo: int, i: int, rows: set<EpochRow>, rows2: set<EpochRow>)
    requires GoodHistory(h) && InReach(h, height, lo) && i == Next(h, height, lo) && i >= h.unreported
    requires rows2 == rows + Span(h, lo, IndexAt(h.begins, height))
    ensures Row(h, i) in rows2 <==> Row(h, i) in rows
    ensures Collides(h, rows2, i) <==> Collides(h, rows, i)
  {
    InSpan(h, lo, IndexAt(h.begins, height), i);
    Ordered(h, i + 1, lo);
  }

  lemma AddedOne(h: History, height: int, answers: int -> Answer, rows: set<EpochRow>, rows2: set<EpochRow>, lo: int)
    requires GoodHistory(h) && InReach(h, height, lo) && Added(h, height, answers, rows, rows2, lo)
    requires var i := Next(h, height, lo);
             && i >= h.unreported && Useful(h.identifier, answers(AskedAt(h, height, i)))
             && Row(h, i) !in rows
    ensures InReach(h, height, Next(h, height, lo))
    ensures Added(h, height, answers, rows, rows2 + {Row(h, Next(h, height, lo))}, Next(h, height, lo))
  {
    SpanDown(h, Next(h, height, lo) + 1, IndexAt(h.begins, height));
    if lo > IndexAt(h.begins, height) {
      assert Span(h, lo, IndexAt(h.begins, height)) == {};
      assert Span(h, Next(h, height, lo) + 1, IndexAt(h.begins, height)) == {};
    }
  }

  lemma SpanDown(h: History, lo: int, k: int)
    requires 0 < lo <= k + 1 <= |h.begins|
    ensures Span(h, lo - 1, k) == Span(h, lo, k) + {Row(h, lo - 1)}
  {
  }

  /** Only the earliest recordable epoch can start at height 1 or have number 1. */
  lemma EarliestStops(h: History, i: int)
    requires GoodHistory(h) && h.unreported <= i < |h.begins|
    requires h.begins[i] <= 1 || h.first + i == 1
    ensures i == h.unreported
  {
    if h.unreported < i {
      BeginsApart(h, h.unreported, i);
    }
  }

  lemma BeginsApart(h: History, i: int, j: int)
    requires GoodHistory(h)
    ensures 0 <= i < j < |h.begins| ==> h.begins[i] < h.begins[j]
  {
  }

  // ------------------------------------------------------------------- what walks keep

  /** The recorded epochs are all those from the earliest recordable one up to epoch m. */
  predicate RecordedUpTo(h: History, rows: set<EpochRow>, m: int) {
    && h.unreported - 1 <= m < |h.begins|
    && (set row | row in rows && row.identifier == h.identifier) == Span(h, h.unreported, m)
  }

  lemma RecordedIs(h: History, rows: set<EpochRow>, m: int, i: int)
    requires RecordedUpTo(h, rows, m) && 0 <= i < |h.begins|
    ensures Row(h, i) in rows <==> h.unreported <= i <= m
  {
    InSpan(h, h.unreported, m, i);
    assert Row(h, i) in rows <==> Row(h, i) in set row | row in rows && row.identifier == h.identifier;
  }

  lemma RecordedMore(h: History, rows: set<EpochRow>, m: int, k: int)
    requires RecordedUpTo(h, rows, m) && m <= k < |h.begins|
    ensures RecordedUpTo(h, rows + Span(h, m + 1, k), k)
  {
    var own := set row | row in rows && row.identifier == h.identifier;
    var own2 := set row | row in rows + Span(h, m + 1, k) && row.identifier == h.identifier;
    assert own2 == own + Span(h, m + 1, k);
    assert Span(h, h.unreported, k) == Span(h, h.unreported, m) + Span(h, m + 1, k);
  }

  lemma RecordedNoClash(h: History, rows: set<EpochRow>, m: int, i: int)
    requires GoodHistory(h) && RecordedUpTo(h, rows, m) && 0 <= i < |h.begins|
    ensures !Collides(h, rows, i)
  {
    if Collides(h, rows, i) {
      var other :| other in rows && other.identifier == h.identifier && other.start == h.begins[i];
      assert other in Span(h, h.unreported, m);
      var j: int :| h.unreported <= j <= m && other == Row(h, j);
      BeginsApart(h, i, j);
      BeginsApart(h, j, i);
    }
  }

  /** Where a walk over gapless rows comes to: never among the rows that were there. */
  lemma WalkMeets(h: History, height: int, rows: set<EpochRow>, m: int, lo: int)
    requires GoodHistory(h) && RecordedUpTo(h, rows, m) && InReach(h, height, lo)
    requires Span(h, lo, IndexAt(h.begins, height)) !! rows
    ensures m < lo || IndexAt(h.begins, height) < lo
  {
    var k := IndexAt(h.begins, height);
    if lo <= m && lo <= k {
      RecordedIs(h, rows, m, lo);
      InSpan(h, lo, k, lo);
    }
  }

  /** Every question the walk asks on its way down to the recorded epochs gets a useful answer, or not even the first. */
  predicate Uninterrupted(h: History, height: int, answers: int -> Answer, m: int)
    requires m >= -1
  {
    var k := IndexAt(h.begins, height);
    || k <= m
    || !Useful(h.identifier, answers(height))
    || forall i | m < i <= k :: Useful(h.identifier, answers(AskedAt(h, height, i)))
  }

  function Later(i: int, j: int): int {
    if i < j then j else i
  }

  lemma StopsAtRecorded(h: History, height: int, answers: int -> Answer, rows: set<EpochRow>,
                        outcome: Outcome, m: int, lo: int)
    requires GoodHistory(h) && RecordedUpTo(h, rows, m) && outcome.Returned?
    requires InReach(h, height, lo) && EndsAt(h, height, answers, rows, outcome, lo)
    requires m < IndexAt(h.begins, height) && (m < lo || IndexAt(h.begins, height) < lo)
    ensures lo == m + 1
  {
    if !outcome.reachedFirst {
      RecordedIs(h, rows, m, lo - 1);
    }
  }

  /** Walks that return leave no gap: afterwards all epochs up to the later of the two are recorded. */
  lemma ReturnedWalkLeavesNoGap(h: History, height: int, answers: int -> Answer,
                                rows: set<EpochRow>, rows2: set<EpochRow>, outcome: Outcome, m: int)
    requires GoodHistory(h) && RecordedUpTo(h, rows, m)
    requires IsWalk(h, height, answers, rows, rows2, outcome) && outcome.Returned?
    ensures RecordedUpTo(h, rows2, Later(m, IndexAt(h.begins, height)))
    ensures Uninterrupted(h, height, answers, m)
  {
    var k := IndexAt(h.begins, height);
    var lo :| InReach(h, height, lo) && Added(h, height, answers, rows, rows2, lo)
              && EndsAt(h, height, answers, rows, outcome, lo);
    WalkMeets(h, height, rows, m, lo);
    if k <= m {
      assert Span(h, lo, k) == {};
      assert rows2 == rows;
    } else {
      StopsAtRecorded(h, height, answers, rows, outcome, m, lo);
      RecordedMore(h, rows, m, k);
    }
  }

  lemma FatalWalk(h: History, height: int, answers: int -> Answer,
                  rows: set<EpochRow>, rows2: set<EpochRow>, m: int)
    requires GoodHistory(h) && RecordedUpTo(h, rows, m)
    requires IsWalk(h, height, answers, rows, rows2, Fatal)
    ensures (exists m2 :: RecordedUpTo(h, rows2, m2)) <==> Uninterrupted(h, height, answers, m)
  {
    var lo :| InReach(h, height, lo) && Added(h, height, answers, rows, rows2, lo)
              && EndsAt(h, height, answers, rows, Fatal, lo);
    WalkMeets(h, height, rows, m, lo);
    if IndexAt(h.begins, height) < lo {
      FatalAtFirst(h, height, answers, rows, rows2, m, lo);
    } else if lo == m + 1 {
      FatalAtRecorded(h, height, answers, rows, rows2, m, lo);
    } else {
      FatalAbove(h, height, answers, rows, rows2, m, lo);
    }
  }

  /** A walk that is stuck just above the recorded epochs has closed up with them. */
  lemma FatalAtRecorded(h: History, height: int, answers: int -> Answer,
                        rows: set<EpochRow>, rows2: set<EpochRow>, m: int, lo: int)
    requires GoodHistory(h) && RecordedUpTo(h, rows, m) && lo == m + 1 <= IndexAt(h.begins, height)
    requires InReach(h, height, lo) && Added(h, height, answers, rows, rows2, lo)
    ensures RecordedUpTo(h, rows2, IndexAt(h.begins, height)) && Uninterrupted(h, height, answers, m)
  {
    RecordedMore(h, rows, m, IndexAt(h.begins, height));
  }

  /** A walk that is stuck higher up leaves a gap. */
  lemma FatalAbove(h: History, height: int, answers: int -> Answer,
                   rows: set<EpochRow>, rows2: set<EpochRow>, m: int, lo: int)
    requires GoodHistory(h) && RecordedUpTo(h, rows, m) && m + 1 < lo <= IndexAt(h.begins, height)
    requires InReach(h, height, lo) && Added(h, height, answers, rows, rows2, lo)
    requires EndsAt(h, height, answers, rows, Fatal, lo)
    ensures !(exists m2 :: RecordedUpTo(h, rows2, m2)) && !Uninterrupted(h, height, answers, m)
  {
    Gap(h, height, rows, rows2, m, lo);
    RecordedNoClash(h, rows, m, lo - 1);
    CutShort(h, height, answers, m, lo);
  }

  /** A walk that is stuck at its first question adds nothing. */
  lemma FatalAtFirst(h: History, height: int, answers: int -> Answer,
                     rows: set<EpochRow>, rows2: set<EpochRow>, m: int, lo: int)
    requires GoodHistory(h) && RecordedUpTo(h, rows, m) && IndexAt(h.begins, height) < lo
    requires InReach(h, height, lo) && Added(h, height, answers, rows, rows2, lo)
    requires EndsAt(h, height, answers, rows, Fatal, lo)
    ensures RecordedUpTo(h, rows2, m) && Uninterrupted(h, height, answers, m)
  {
    var k := IndexAt(h.begins, height);
    assert Span(h, lo, k) == {};
    assert rows2 == rows;
    if k >= h.unreported {
      RecordedNoClash(h, rows, m, k);
    }
  }

  lemma CutShort(h: History, height: int, answers: int -> Answer, m: int, lo: int)
    requires m + 1 < lo <= IndexAt(h.begins, height) && m >= -1
    requires Useful(h.identifier, answers(AskedAt(h, height, IndexAt(h.begins, height))))
    requires !Useful(h.identifier, answers(AskedAt(h, height, lo - 1)))
    ensures !Uninterrupted(h, height, answers, m)
  {
  }

  lemma Gap(h: History, height: int, rows: set<EpochRow>, rows2: set<EpochRow>, m: int, lo: int)
    requires RecordedUpTo(h, rows, m) && InReach(h, height, lo) && m + 1 < lo <= IndexAt(h.begins, height)
    requires rows2 == rows + Span(h, lo, IndexAt(h.begins, height))
    ensures !exists m2 :: RecordedUpTo(h, rows2, m2)
  {
    var k := IndexAt(h.begins, height);
    RecordedIs(h, rows, m, lo - 1);
    InSpan(h, lo, k, lo - 1);
    InSpan(h, lo, k, k);
    if m2 :| RecordedUpTo(h, rows2, m2) {
      RecordedIs(h, rows2, m2, k);
      RecordedIs(h, rows2, m2, lo - 1);
    }
  }

  /**
    Exactly when one walk over gapless rows leaves gapless rows, whether it
    returns or ends the process: it is not cut short between the current epoch and
    the recorded ones.
   */
  lemma WalkLeavesNoGapIff(h: History, height: int, answers: int -> Answer,
                           rows: set<EpochRow>, rows2: set<EpochRow>, outcome: Outcome, m: int)
    requires GoodHistory(h) && RecordedUpTo(h, rows, m)
    requires IsWalk(h, height, answers, rows, rows2, outcome)
    ensures (exists m2 :: RecordedUpTo(h, rows2, m2)) <==> Uninterrupted(h, height, answers, m)
  {
    if outcome.Fatal? {
      FatalWalk(h, height, answers, rows, rows2, m);
    } else {
      ReturnedWalkLeavesNoGap(h, height, answers, rows, rows2, outcome, m);
    }
  }

  const THREE_DAYS := History("day", 1, [5, 10, 15], 0)

  /** A node that answers at heights 20 and 14, and fails at 9, where the first epoch is current. */
  function Failing(height: int): Answer {
    if height == 20 then Some([EpochInfo("day", 3, 15)])
    else if height == 14 then Some([EpochInfo("day", 2, 10)])
    else None
  }

  /** The node tells the truth where it answers. */
  lemma FailingIsHonest()
    ensures HonestNode(THREE_DAYS, Failing)
  {
    IndexIs(THREE_DAYS, 20, 2);
    IndexIs(THREE_DAYS, 14, 1);
  }

  /** Walks with that node end the process, with days 3 and 2 recorded, and leave a gap, as any walk with it does. */
  lemma InterruptedWalk()
    ensures GoodHistory(THREE_DAYS) && HonestNode(THREE_DAYS, Failing)
    ensures IsWalk(THREE_DAYS, 20, Failing, {}, {EpochRow("day", 2, 10), EpochRow("day", 3, 15)}, Fatal)
    ensures forall rows2, outcome | IsWalk(THREE_DAYS, 20, Failing, {}, rows2, outcome) ::
              !exists m2 :: RecordedUpTo(THREE_DAYS, rows2, m2)
  {
    FailingIsHonest();
    assert RecordedUpTo(THREE_DAYS, {}, -1);
    IndexIs(THREE_DAYS, 20, 2);
    assert AskedAt(THREE_DAYS, 20, 0) == 9;
    forall rows2, outcome | IsWalk(THREE_DAYS, 20, Failing, {}, rows2, outcome)
      ensures !exists m2 :: RecordedUpTo(THREE_DAYS, rows2, m2)
    {
      WalkLeavesNoGapIff(THREE_DAYS, 20, Failing, {}, rows2, outcome, -1);
    }
    var added := {Row(THREE_DAYS, 1), Row(THREE_DAYS, 2)};
    assert Span(THREE_DAYS, 1, 2) == added;
    End(THREE_DAYS, 20, Failing, {}, added, Fatal, 1);
  }

  /** A node that always answers about the identifier. */
  ghost predicate AlwaysAnswers(h: History, answers: int -> Answer) {
    forall height :: answers(height).Some? && FirstOf(answers(height).value, h.identifier).Some?
  }

  /** For other identifiers than days and weeks every walk ends the process and records nothing. */
  lemma OtherIdentifiers(h: History, height: int, answers: int -> Answer,
                         rows: set<EpochRow>, rows2: set<EpochRow>, outcome: Outcome)
    requires GoodHistory(h) && IsWalk(h, height, answers, rows, rows2, outcome)
    requires h.identifier != "day" && h.identifier != "week"
    ensures outcome == Fatal && rows2 == rows
  {
    var k := IndexAt(h.begins, height);
    var lo :| InReach(h, height, lo) && Added(h, height, answers, rows, rows2, lo)
              && EndsAt(h, height, answers, rows, outcome, lo);
    assert lo <= k ==> Useful(h.identifier, answers(AskedAt(h, height, k)));
    assert Span(h, lo, k) == {};
  }

  lemma NotStuck(h: History, height: int, answers: int -> Answer, i: int)
    requires AlwaysAnswers(h, answers) && h.identifier in {"day", "week"} && -1 <= i < |h.begins|
    ensures !Stuck(h, height, answers, {}, i)
  {
  }

  lemma EmptyWalk(h: History, height: int, answers: int -> Answer, rows2: set<EpochRow>, outcome: Outcome, lo: int)
    requires GoodHistory(h) && AlwaysAnswers(h, answers) && h.identifier in {"day", "week"}
    requires InReach(h, height, lo) && EndsAt(h, height, answers, {}, outcome, lo)
    ensures outcome.Returned? && (IndexAt(h.begins, height) < h.unreported || lo == h.unreported)
  {
    NotStuck(h, height, answers, Next(h, height, lo));
  }

  /**
    With a node that always answers, the first walk for days or weeks returns, and
    has recorded number and start of every epoch from the earliest that the chain
    reports up to the current one.
   */
  lemma FirstWalk(h: History, height: int, answers: int -> Answer, rows2: set<EpochRow>, outcome: Outcome)
    requires GoodHistory(h) && AlwaysAnswers(h, answers) && IsWalk(h, height, answers, {}, rows2, outcome)
    requires h.identifier == "day" || h.identifier == "week"
    ensures outcome.Returned?
    ensures rows2 == set i: int | h.unreported <= i <= IndexAt(h.begins, height)
                       :: EpochRow(h.identifier, h.first + i, h.begins[i])
  {
    var k := IndexAt(h.begins, height);
    var lo :| InReach(h, height, lo) && Added(h, height, answers, {}, rows2, lo)
              && EndsAt(h, height, answers, {}, outcome, lo);
    EmptyWalk(h, height, answers, rows2, outcome, lo);
    SpanIs(h, if k < h.unreported then lo else h.unreported, k);
  }

  lemma SpanIs(h: History, lo: int, k: int)
    requires 0 <= lo && k < |h.begins|
    ensures Span(h, lo, k) == set i: int | lo <= i <= k :: EpochRow(h.identifier, h.first + i, h.begins[i])
  {
    var rows := set i: int | lo <= i <= k :: EpochRow(h.identifier, h.first + i, h.begins[i]);
    forall row | row in Span(h, lo, k) ensures row in rows {
      var i: int :| lo <= i <= k && Row(h, i) == row;
    }
    forall row | row in rows ensures row in Span(h, lo, k) {
      var i: int :| lo <= i <= k && EpochRow(h.identifier, h.first + i, h.begins[i]) == row;
      InSpan(h, lo, k, i);
    }
  }

  /** A gap is never filled by a walk from above it: epochs below a recorded one stay as they are. */
  lemma GapStays(h: History, height: int, answers: int -> Answer,
                 rows: set<EpochRow>, rows2: set<EpochRow>, outcome: Outcome, g: int, e: int)
    requires GoodHistory(h) && IsWalk(h, height, answers, rows, rows2, outcome)
    requires 0 <= g < e < |h.begins| && h.begins[e] <= height && e >= h.unreported
    requires Row(h, g) !in rows && Row(h, e) in rows
    ensures Row(h, g) !in rows2
  {
    var k := IndexAt(h.begins, height);
    var lo :| InReach(h, height, lo) && Added(h, height, answers, rows, rows2, lo);
    Ordered(h, k + 1, e);
    InSpan(h, lo, k, e);
    InSpan(h, lo, k, g);
  }

  /** The runs of a series, each over the rows the one before left, at heights of a growing chain. */
  ghost predicate IsSeries(h: History, heights: seq<int>, nodes: seq<int -> Answer>,
                           stores: seq<set<EpochRow>>, outcomes: seq<Outcome>)
    requires GoodHistory(h)
  {
    && |stores| == |heights| + 1 && |nodes| == |outcomes| == |heights|
    && forall i | 0 <= i < |heights| ::
         outcomes[i].Returned? && IsWalk(h, heights[i], nodes[i], stores[i], stores[i + 1], outcomes[i])
  }

  /** The latest epoch current at any of the heights, or m. */
  function Latest(h: History, heights: seq<int>, m: int): int {
    if heights == [] then m
    else Later(Latest(h, heights[..|heights| - 1], m), IndexAt(h.begins, heights[|heights| - 1]))
  }

  /** Repeated runs that return leave every epoch up to the latest one recorded, without a gap. */
  lemma {:induction false} SeriesLeavesNoGap(h: History, heights: seq<int>, nodes: seq<int -> Answer>,
                                             stores: seq<set<EpochRow>>, outcomes: seq<Outcome>, m: int)
    requires GoodHistory(h) && IsSeries(h, heights, nodes, stores, outcomes)
    requires RecordedUpTo(h, stores[0], m)
    ensures RecordedUpTo(h, stores[|heights|], Latest(h, heights, m))
  {
    if heights != [] {
      var n := |heights| - 1;
      SeriesLeavesNoGap(h, heights[..n], nodes[..n], stores[..n + 1], outcomes[..n], m);
      ReturnedWalkLeavesNoGap(h, heights[n], nodes[n], stores[n], stores[n + 1], outcomes[n],
                              Latest(h, heights[..n], m));
    }
  }
}
