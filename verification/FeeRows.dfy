/**
  The exports that give every fee a row of its own: the fees of each transaction
  are gathered in a map, and those paid by the address are written out.
 */
module FeeRows {
  import opened Options
  import opened ParsingGroups
  import opened Cointracker

  /** The fees gathered for a transaction: those of its messages, or the first one listed separately. */
  function Gathered(events: seq<Message>, fees: seq<Fee>, id: nat): seq<Fee> {
    if OfTx(events, id) != [] then FeesOfTx(events, id) else FirstOf(FeesOf(fees, id))
  }

  function FirstOf(fees: seq<Fee>): seq<Fee> {
    if fees == [] then [] else [fees[0]]
  }

  /** For every transaction with a message its fees, and for no other. */
  ghost predicate GatheredFromEvents(events: seq<Message>, queues: Queues) {
    forall id :: (id in queues <==> OfTx(events, id) != []) && QueueAt(queues, id) == FeesOfTx(events, id)
  }

  ghost predicate GatheredAll(events: seq<Message>, fees: seq<Fee>, queues: Queues) {
    forall id :: (id in queues <==> OfTx(events, id) != [] || FeesOf(fees, id) != [])
                 && QueueAt(queues, id) == Gathered(events, fees, id)
  }

  lemma {:induction false} LastOfTx(events: seq<Message>, id: nat)
    requires Consistent(events) && OfTx(events, id) != []
    ensures forall m | m in events && m.tx.id == id :: m.tx.fees == FeesOfTx(events, id)
  {
    OfTxDrawn(events, id);
    assert OfTx(events, id)[0] in OfTx(events, id);
  }

  lemma NextEvent(events: seq<Message>, n: nat, id: nat)
    requires Consistent(events) && n < |events|
    ensures Consistent(events[..n + 1])
    ensures OfTx(events[..n + 1], id) == OfTx(events[..n], id) + if events[n].tx.id == id then [events[n]] else []
    ensures FeesOfTx(events[..n + 1], id) == if events[n].tx.id == id then events[n].tx.fees else FeesOfTx(events[..n], id)
  {
    assert events[..n + 1][..n] == events[..n];
    assert events[..n + 1][n] in events[..n + 1];
    assert forall m | m in events[..n + 1] :: m in events;
    if events[n].tx.id == id {
      LastOfTx(events[..n + 1], id);
    }
  }

  method GatherEvents(events: seq<Message>) returns (queues: Queues)
    requires Consistent(events)
    ensures GatheredFromEvents(events, queues)
  {
    queues := map[];
    for n := 0 to |events|
      invariant GatheredFromEvents(events[..n], queues)
    {
      ghost var before := queues;
      queues := queues[events[n].tx.id := events[n].tx.fees];
      forall id ensures (id in queues <==> OfTx(events[..n + 1], id) != [])
                        && QueueAt(queues, id) == FeesOfTx(events[..n + 1], id) {
        assert QueueAt(before, id) == FeesOfTx(events[..n], id);
        NextEvent(events, n, id);
      }
    }
    assert events[..|events|] == events;
  }

  lemma NextFee(fees: seq<Fee>, n: nat, id: nat)
    requires n < |fees|
    ensures FeesOf(fees[..n + 1], id) == FeesOf(fees[..n], id) + if fees[n].tx == id then [fees[n]] else []
    ensures FirstOf(FeesOf(fees[..n + 1], id))
         == if FeesOf(fees[..n], id) == [] && fees[n].tx == id then [fees[n]] else FirstOf(FeesOf(fees[..n], id))
  {
    assert fees[..n + 1][..n] == fees[..n];
  }

  method GatherFees(events: seq<Message>, allFees: seq<Fee>) returns (queues: Queues)
    requires Consistent(events)
    ensures GatheredAll(events, allFees, queues)
  {
    queues := GatherEvents(events);
    assert FeesOf(allFees[..0], 0) == [];
    for n := 0 to |allFees|
      invariant GatheredAll(events, allFees[..n], queues)
    {
      var fee := allFees[n];
      ghost var before := queues;
      if fee.tx !in queues {
        queues := queues[fee.tx := [fee]];
      }
      forall id ensures (id in queues <==> OfTx(events, id) != [] || FeesOf(allFees[..n + 1], id) != [])
                        && QueueAt(queues, id) == Gathered(events, allFees[..n + 1], id) {
        assert QueueAt(before, id) == Gathered(events, allFees[..n], id);
        NextFee(allFees, n, id);
      }
    }
    assert allFees[..|allFees|] == allFees;
  }

  /** The fee rows of the transactions done, in any order of the transactions. */
  ghost predicate RowsDone(done: Queues, rows: seq<Row>, address: string) {
    forall id :: FeesOf(FeesIn(rows), id) == Paid(QueueAt(done, id), address, Always)
  }

  /** Every one of the fees that the address paid can be converted. */
  predicate PaidConvert(fees: seq<Fee>, address: string, converts: Fee -> bool) {
    forall f | f in fees && f.payer == address :: converts(f)
  }

  /** Rows for the fees of one transaction that the address paid; None when one cannot be converted. */
  method PaidRows(fees: seq<Fee>, address: string, converts: Fee -> bool) returns (rows: Option<seq<Row>>)
    ensures rows.Some? <==> PaidConvert(fees, address, converts)
    ensures rows.Some? ==> FeesIn(rows.value) == Paid(fees, address, Always)
    ensures rows.Some? ==> forall row | row in rows.value :: row.message.None? && row.fee.Some?
  {
    var out: seq<Row> := [];
    for n := 0 to |fees|
      invariant FeesIn(out) == Paid(fees[..n], address, Always)
      invariant forall row | row in out :: row.message.None? && row.fee.Some?
      invariant forall k | 0 <= k < n && fees[k].payer == address :: converts(fees[k])
    {
      NextPaid(fees, n, address, Always);
      if fees[n].payer == address {
        if !converts(fees[n]) {
          return None;
        }
        AddedRow(out, Row(None, Some(fees[n])));
        out := out + [Row(None, Some(fees[n]))];
      }
    }
    assert fees[..|fees|] == fees;
    return Some(out);
  }

  lemma MoreRowsAt(done: Queues, rows: seq<Row>, fees: seq<Fee>, txRows: seq<Row>, address: string, id: nat, other: nat)
    requires FeesOf(FeesIn(rows), other) == Paid(QueueAt(done, other), address, Always)
    requires id !in done && AllFeesOf(fees, id) && FeesIn(txRows) == Paid(fees, address, Always)
    ensures FeesOf(FeesIn(rows + txRows), other) == Paid(QueueAt(done[id := fees], other), address, Always)
  {
    PaidAreFees(fees, address, Always);
    FeesInConcat(rows, txRows);
    FeesOfConcat(FeesIn(rows), FeesIn(txRows), other);
    FeesOfOwn(FeesIn(txRows), id, other);
    if other == id {
      assert QueueAt(done, id) == [];
      OntoNothing(FeesOf(FeesIn(rows), id), FeesIn(txRows));
    } else {
      OntoNothing([], FeesOf(FeesIn(rows), other));
    }
  }

  lemma MoreRows(done: Queues, rows: seq<Row>, fees: seq<Fee>, txRows: seq<Row>, address: string, id: nat)
    requires RowsDone(done, rows, address)
    requires id !in done && AllFeesOf(fees, id) && FeesIn(txRows) == Paid(fees, address, Always)
    ensures RowsDone(done[id := fees], rows + txRows, address)
  {
    var done2, rows2 := done[id := fees], rows + txRows;
    forall other ensures FeesOf(FeesIn(rows2), other) == Paid(QueueAt(done2, other), address, Always) {
      assert FeesOf(FeesIn(rows), other) == Paid(QueueAt(done, other), address, Always);
      MoreRowsAt(done, rows, fees, txRows, address, id, other);
    }
  }

  lemma GatheredAreOwn(events: seq<Message>, fees: seq<Fee>, id: nat)
    requires Consistent(events)
    ensures AllFeesOf(Gathered(events, fees, id), id)
  {
    if OfTx(events, id) != [] {
      OfTxDrawn(events, id);
      assert OfTx(events, id)[0] in OfTx(events, id);
    } else {
      OwnFeesOf(fees, id);
    }
  }

  lemma {:induction false} OwnFeesOf(fees: seq<Fee>, id: nat)
    ensures AllFeesOf(FeesOf(fees, id), id)
  {
    if fees != [] {
      OwnFeesOf(fees[..|fees| - 1], id);
    }
  }

  /**
    It succeeds exactly when every gathered fee that the address paid can be
    converted, and the rows then carry for each transaction those fees, one each.
   */
  method HandleFees(address: string, events: seq<Message>, allFees: seq<Fee>, converts: Fee -> bool)
      returns (rows: Option<seq<Row>>)
    requires Consistent(events)
    ensures rows.Some? ==> forall id ::
              FeesOf(FeesIn(rows.value), id) == Paid(Gathered(events, allFees, id), address, Always)
    ensures rows.Some? ==> forall row | row in rows.value :: row.message.None? && row.fee.Some?
    ensures rows.Some? <==> forall id :: PaidConvert(Gathered(events, allFees, id), address, converts)
  {
    if |events| == 0 && |allFees| == 0 {
      assert forall id :: FeesOf(FeesIn([]), id) == Paid(Gathered(events, allFees, id), address, Always);
      assert forall id :: Gathered(events, allFees, id) == [];
      return Some([]);
    }
    var txToFees := GatherFees(events, allFees);
    var out: seq<Row> := [];
    var todo := txToFees.Keys;
    ghost var done: Queues := map[];
    while todo != {}
      invariant todo <= txToFees.Keys && done.Keys == txToFees.Keys - todo
      invariant forall id | id in done :: done[id] == txToFees[id]
      invariant RowsDone(done, out, address)
      invariant forall row | row in out :: row.message.None? && row.fee.Some?
      invariant forall id | id in done :: PaidConvert(done[id], address, converts)
    {
      ghost var some := SomeElement(todo);
      var id :| id in todo;
      todo := todo - {id};
      var txRows := PaidRows(txToFees[id], address, converts);
      assert QueueAt(txToFees, id) == Gathered(events, allFees, id);
      if txRows.None? {
        return None;
      }
      GatheredAreOwn(events, allFees, id);
      MoreRows(done, out, txToFees[id], txRows.value, address, id);
      out := out + txRows.value;
      done := done[id := txToFees[id]];
    }
    assert done == txToFees;
    forall id ensures FeesOf(FeesIn(out), id) == Paid(Gathered(events, allFees, id), address, Always)
                      && PaidConvert(Gathered(events, allFees, id), address, converts) {
      assert QueueAt(txToFees, id) == Gathered(events, allFees, id);
    }
    return Some(out);
  }

  /** All fees of the transaction that the address paid. */
  function Owed(address: string, events: seq<Message>, allFees: seq<Fee>, id: nat): seq<Fee> {
    Paid(if OfTx(events, id) != [] then FeesOfTx(events, id) else FeesOf(allFees, id), address, Always)
  }

  /**
    Exactly when every fee that the address paid for a transaction gets its row:
    the transaction has taxable messages, or at most one fee is listed for it. Of
    several fees of a transaction without messages only the first is kept.
   */
  lemma CompleteIff(address: string, events: seq<Message>, allFees: seq<Fee>, id: nat)
    requires forall f | f in FeesOf(allFees, id) :: f.payer == address
    ensures Paid(Gathered(events, allFees, id), address, Always) == Owed(address, events, allFees, id)
       <==> OfTx(events, id) != [] || |FeesOf(allFees, id)| <= 1
  {
    var fees := FeesOf(allFees, id);
    PaidAreFees(fees, address, Always);
    PaidAreFees(FirstOf(fees), address, Always);
    if |fees| == 1 {
      assert FirstOf(fees) == fees;
    }
  }

  /** Of two fees of a transaction without messages, in different denominations, the second gets no row. */
  lemma SecondFeeIsMissing(address: string)
    ensures var fees := [Fee(7, address, 1, 500), Fee(7, address, 2, 30)];
            && Owed(address, [], fees, 7) == fees
            && Paid(Gathered([], fees, 7), address, Always) == [fees[0]]
  {
    var fees := [Fee(7, address, 1, 500), Fee(7, address, 2, 30)];
    FeesOfOwn(fees, 7, 7);
    PaidAreFees(fees, address, Always);
    PaidAreFees([fees[0]], address, Always);
  }
}
