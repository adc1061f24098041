/**
  The cointracker export of one address: fees are attached to message rows one by
  one, and those left over get rows of their own. What is emitted for each
  transaction is stated as a list, which decides when every fee is emitted once.
 */
module Cointracker {
  import opened Options
  import opened ParsingGroups

  // ------------------------------------------------------------- what the rows amount to

  /** The fees the rows carry, in order. */
  function FeesIn(rows: seq<Row>): seq<Fee> {
    if rows == [] then []
    else
      var last := rows[|rows| - 1];
      FeesIn(rows[..|rows| - 1]) + if last.fee.Some? then [last.fee.value] else []
  }

  function MessagesIn(rows: seq<Row>): seq<Message> {
    if rows == [] then []
    else
      var last := rows[|rows| - 1];
      MessagesIn(rows[..|rows| - 1]) + if last.message.Some? then [last.message.value] else []
  }

  /** The fees of one transaction, in order. */
  function FeesOf(fees: seq<Fee>, id: nat): seq<Fee> {
    if fees == [] then []
    else
      var last := fees[|fees| - 1];
      FeesOf(fees[..|fees| - 1], id) + if last.tx == id then [last] else []
  }

  /** The fees that the address paid and whose amount can be converted. */
  function Paid(fees: seq<Fee>, address: string, converts: Fee -> bool): seq<Fee> {
    if fees == [] then []
    else
      var last := fees[|fees| - 1];
      Paid(fees[..|fees| - 1], address, converts) + if last.payer == address && converts(last) then [last] else []
  }

  function Parsed(messages: seq<Message>, parses: Message -> bool): seq<Message> {
    if messages == [] then []
    else
      var last := messages[|messages| - 1];
      Parsed(messages[..|messages| - 1], parses) + if parses(last) then [last] else []
  }

  /** The row is about transaction id: about a message of it, or about a fee alone. */
  predicate IsOf(row: Row, id: nat) {
    if row.message.Some? then row.message.value.tx.id == id else row.fee.Some? && row.fee.value.tx == id
  }

  /** The rows about one transaction, in order. */
  function RowsOf(rows: seq<Row>, id: nat): seq<Row> {
    if rows == [] then []
    else
      var last := rows[|rows| - 1];
      RowsOf(rows[..|rows| - 1], id) + if IsOf(last, id) then [last] else []
  }

  lemma {:induction false} RowsOfConcat(a: seq<Row>, b: seq<Row>, id: nat)
    ensures RowsOf(a + b, id) == RowsOf(a, id) + RowsOf(b, id)
  {
    if b == [] {
      assert a + b == a;
    } else {
      assert (a + b)[..|a + b| - 1] == a + b[..|b| - 1];
      RowsOfConcat(a, b[..|b| - 1], id);
    }
  }

  lemma OneMoreRow(rows: seq<Row>, row: Row, id: nat)
    ensures RowsOf(rows + [row], id) == RowsOf(rows, id) + if IsOf(row, id) then [row] else []
  {
  }

  lemma {:induction false} RowsOfOwn(rows: seq<Row>, id: nat, other: nat)
    requires forall i | 0 <= i < |rows| :: IsOf(rows[i], id)
    ensures RowsOf(rows, other) == if other == id then rows else []
  {
    if rows != [] {
      var n := |rows| - 1;
      assert rows == rows[..n] + [rows[n]];
      RowsOfOwn(rows[..n], id, other);
    }
  }

  lemma {:induction false} FeesInConcat(a: seq<Row>, b: seq<Row>)
    ensures FeesIn(a + b) == FeesIn(a) + FeesIn(b)
    ensures MessagesIn(a + b) == MessagesIn(a) + MessagesIn(b)
  {
    if b == [] {
      assert a + b == a;
    } else {
      assert (a + b)[..|a + b| - 1] == a + b[..|b| - 1];
      FeesInConcat(a, b[..|b| - 1]);
    }
  }

  lemma {:induction false} FeesOfConcat(a: seq<Fee>, b: seq<Fee>, id: nat)
    ensures FeesOf(a + b, id) == FeesOf(a, id) + FeesOf(b, id)
  {
    if b == [] {
      assert a + b == a;
    } else {
      assert (a + b)[..|a + b| - 1] == a + b[..|b| - 1];
      FeesOfConcat(a, b[..|b| - 1], id);
    }
  }

  lemma {:induction false} OfTxConcat(a: seq<Message>, b: seq<Message>, id: nat)
    ensures OfTx(a + b, id) == OfTx(a, id) + OfTx(b, id)
  {
    if b == [] {
      assert a + b == a;
    } else {
      assert (a + b)[..|a + b| - 1] == a + b[..|b| - 1];
      OfTxConcat(a, b[..|b| - 1], id);
    }
  }

  lemma {:induction false} PaidConcat(a: seq<Fee>, b: seq<Fee>, address: string, converts: Fee -> bool)
    ensures Paid(a + b, address, converts) == Paid(a, address, converts) + Paid(b, address, converts)
  {
    if b == [] {
      assert a + b == a;
    } else {
      assert (a + b)[..|a + b| - 1] == a + b[..|b| - 1];
      PaidConcat(a, b[..|b| - 1], address, converts);
    }
  }

  lemma {:induction false} ParsedConcat(a: seq<Message>, b: seq<Message>, parses: Message -> bool)
    ensures Parsed(a + b, parses) == Parsed(a, parses) + Parsed(b, parses)
  {
    if b == [] {
      assert a + b == a;
    } else {
      assert (a + b)[..|a + b| - 1] == a + b[..|b| - 1];
      ParsedConcat(a, b[..|b| - 1], parses);
    }
  }

  /**
    What each of these lists takes of a single element; on longer lists they take
    it element by element, as the lemmas on concatenation say.
   */
  lemma OfSingles(row: Row, fee: Fee, m: Message, id: nat, address: string,
                  parses: Message -> bool, converts: Fee -> bool)
    ensures FeesIn([row]) == (if row.fee.Some? then [row.fee.value] else [])
    ensures MessagesIn([row]) == (if row.message.Some? then [row.message.value] else [])
    ensures FeesOf([fee], id) == (if fee.tx == id then [fee] else [])
    ensures OfTx([m], id) == (if m.tx.id == id then [m] else [])
    ensures Paid([fee], address, converts) == (if fee.payer == address && converts(fee) then [fee] else [])
    ensures Parsed([m], parses) == (if parses(m) then [m] else [])
    ensures row.message.Some? ==> RowsOf([row], id) == (if row.message.value.tx.id == id then [row] else [])
    ensures row.message.None? && row.fee.Some? ==> RowsOf([row], id) == (if row.fee.value.tx == id then [row] else [])
  {
    assert [row][..0] == [] && [fee][..0] == [] && [m][..0] == [];
  }

  predicate AllFeesOf(fees: seq<Fee>, id: nat) {
    forall f | f in fees :: f.tx == id
  }

  lemma {:induction false} FeesOfOwn(fees: seq<Fee>, id: nat, other: nat)
    requires AllFeesOf(fees, id)
    ensures FeesOf(fees, other) == if other == id then fees else []
  {
    if fees != [] {
      var n := |fees| - 1;
      assert fees[n] in fees && fees == fees[..n] + [fees[n]];
      FeesOfOwn(fees[..n], id, other);
    }
  }

  lemma {:induction false} OfTxOwn(messages: seq<Message>, id: nat, other: nat)
    requires AllOf(messages, id)
    ensures OfTx(messages, other) == if other == id then messages else []
  {
    if messages != [] {
      var n := |messages| - 1;
      assert messages[n] in messages && messages == messages[..n] + [messages[n]];
      OfTxOwn(messages[..n], id, other);
    }
  }

  lemma {:induction false} PaidAreFees(fees: seq<Fee>, address: string, converts: Fee -> bool)
    ensures forall f | f in Paid(fees, address, converts) :: f in fees && f.payer == address
    ensures (forall f | f in fees :: f.payer == address && converts(f)) ==> Paid(fees, address, converts) == fees
    ensures |Paid(fees, address, converts)| <= |fees|
    ensures |Paid(fees, address, converts)| == |fees| ==> forall f | f in fees :: f.payer == address
  {
    if fees != [] {
      var n := |fees| - 1;
      PaidAreFees(fees[..n], address, converts);
      assert fees == fees[..n] + [fees[n]];
    }
  }

  // ------------------------------------------------------------------------ plain messages

  lemma AddedRow(rows: seq<Row>, row: Row)
    ensures FeesIn(rows + [row]) == FeesIn(rows) + if row.fee.Some? then [row.fee.value] else []
    ensures MessagesIn(rows + [row]) == MessagesIn(rows) + if row.message.Some? then [row.message.value] else []
  {
  }

  lemma NextPaid(fees: seq<Fee>, i: nat, address: string, converts: Fee -> bool)
    requires i < |fees|
    ensures Paid(fees[..i + 1], address, converts)
         == Paid(fees[..i], address, converts) + if fees[i].payer == address && converts(fees[i]) then [fees[i]] else []
  {
    assert fees[..i + 1][..i] == fees[..i];
  }

  /** The fee that the i-th row with a message carries: the i-th fee, if the address paid it and it converts. */
  function Attached(fees: seq<Fee>, i: nat, address: string, converts: Fee -> bool): Option<Fee> {
    if i < |fees| && fees[i].payer == address && converts(fees[i]) then Some(fees[i]) else None
  }

  /** A row for each message, with the fee attached at its place, and then rows with a fee alone. */
  predicate MessageRowsFirst(rows: seq<Row>, messages: seq<Message>, fees: seq<Fee>,
                             address: string, converts: Fee -> bool) {
    && |rows| >= |messages|
    && (forall i | 0 <= i < |messages| :: rows[i] == Row(Some(messages[i]), Attached(fees, i, address, converts)))
    && (forall i | |messages| <= i < |rows| :: rows[i].message.None? && rows[i].fee.Some?)
  }

  /** What the rows of one transaction carry when the first n fees have been looked at. */
  predicate RowsSoFar(rows: seq<Row>, messages: seq<Message>, fees: seq<Fee>, n: nat,
                      address: string, converts: Fee -> bool)
    requires n <= |fees|
  {
    && FeesIn(rows) == Paid(fees[..n], address, converts) && MessagesIn(rows) == messages
    && MessageRowsFirst(rows, messages, fees, address, converts)
  }

  lemma MessageRow(rows: seq<Row>, messages: seq<Message>, fees: seq<Fee>, n: nat, m: Message,
                   address: string, converts: Fee -> bool)
    requires n == (if |rows| < |fees| then |rows| else |fees|) && |rows| == |messages|
    requires RowsSoFar(rows, messages, fees, n, address, converts)
    ensures RowsSoFar(rows + [Row(Some(m), Attached(fees, |rows|, address, converts))], messages + [m], fees,
                      if n < |fees| then n + 1 else n, address, converts)
  {
    AddedRow(rows, Row(Some(m), Attached(fees, |rows|, address, converts)));
    if n < |fees| {
      NextPaid(fees, n, address, converts);
    }
  }

  lemma FeeRow(rows: seq<Row>, messages: seq<Message>, fees: seq<Fee>, n: nat, address: string, converts: Fee -> bool)
    requires n < |fees| && RowsSoFar(rows, messages, fees, n, address, converts)
    ensures fees[n].payer == address && converts(fees[n])
        ==> RowsSoFar(rows + [Row(None, Some(fees[n]))], messages, fees, n + 1, address, converts)
    ensures !(fees[n].payer == address && converts(fees[n]))
        ==> RowsSoFar(rows, messages, fees, n + 1, address, converts)
  {
    AddedRow(rows, Row(None, Some(fees[n])));
    NextPaid(fees, n, address, converts);
  }

  /**
    The rows of one transaction: its parsed messages in order, each with the fee at
    its place, and behind them the other fees; in all exactly the fees that the
    address paid, in order, however many of each there are.
   */
  method ParseTx(address: string, events: seq<Message>, fees: seq<Fee>, parses: Message -> bool, converts: Fee -> bool)
      returns (rows: seq<Row>)
    ensures FeesIn(rows) == Paid(fees, address, converts)
    ensures MessagesIn(rows) == Parsed(events, parses)
    ensures var messages := Parsed(events, parses);
            && |rows| >= |messages|
            && (forall i | 0 <= i < |messages| ::
                  && rows[i].message == Some(messages[i])
                  && rows[i].fee == if i < |fees| && fees[i].payer == address && converts(fees[i])
                                    then Some(fees[i]) else None)
            && (forall i | |messages| <= i < |rows| :: rows[i].message.None? && rows[i].fee.Some?)
    ensures MessageRowsFirst(rows, Parsed(events, parses), fees, address, converts)
  {
    rows := [];
    var currFeeIndex := 0;
    for n := 0 to |events|
      invariant currFeeIndex == if |rows| < |fees| then |rows| else |fees|
      invariant |rows| == |Parsed(events[..n], parses)|
      invariant RowsSoFar(rows, Parsed(events[..n], parses), fees, currFeeIndex, address, converts)
    {
      var event := events[n];
      assert events[..n + 1][..n] == events[..n];
      if !parses(event) {
        continue;
      }
      MessageRow(rows, Parsed(events[..n], parses), fees, currFeeIndex, event, address, converts);
      var newRow := Row(Some(event), None);
      if currFeeIndex < |fees| {
        if fees[currFeeIndex].payer == address && converts(fees[currFeeIndex]) {
          newRow := Row(Some(event), Some(fees[currFeeIndex]));
        }
        currFeeIndex := currFeeIndex + 1;
      }
      rows := rows + [newRow];
    }
    assert events[..|events|] == events;
    for i := currFeeIndex to |fees|
      invariant RowsSoFar(rows, Parsed(events, parses), fees, i, address, converts)
    {
      FeeRow(rows, Parsed(events, parses), fees, i, address, converts);
      if fees[i].payer == address && converts(fees[i]) {
        rows := rows + [Row(None, Some(fees[i]))];
      }
    }
    assert fees[..|fees|] == fees;
  }

  // ------------------------------------------------------------------------ grouped messages

  type Queues = map<nat, seq<Fee>>

  function QueueAt(queues: Queues, id: nat): seq<Fee> {
    if id in queues then queues[id] else []
  }

  /** The fees of a grouped transaction. */
  function TxFees(grouped: Lists, id: nat): seq<Fee> {
    if id in grouped && grouped[id] != [] then grouped[id][0].tx.fees else []
  }

  predicate OwnFees(grouped: Lists) {
    forall id | id in grouped :: AllFeesOf(TxFees(grouped, id), id)
  }

  method GetTxToFeesMap(grouped: Lists) returns (queues: Queues)
    requires Tidy(grouped)
    ensures queues.Keys == grouped.Keys
    ensures forall id | id in grouped :: queues[id] == TxFees(grouped, id)
  {
    queues := map[];
    var todo := grouped.Keys;
    while todo != {}
      invariant todo <= grouped.Keys && queues.Keys == grouped.Keys - todo
      invariant forall id | id in queues :: queues[id] == TxFees(grouped, id)
    {
      ghost var some := SomeElement(todo);
      var id :| id in todo;
      todo := todo - {id};
      for n := 0 to |grouped[id]|
        invariant n == 0 && queues.Keys == grouped.Keys - todo - {id}
        invariant forall other | other in queues :: queues[other] == TxFees(grouped, other)
      {
        var tx := grouped[id][n].tx;
        assert grouped[id][n] in grouped[id];
        if tx.id !in queues {
          queues := queues[tx.id := tx.fees];
          break;
        }
      }
    }
  }

  /**
    For transaction id: the fees emitted and those still queued are all of its fees
    in order, and the messages emitted are those done.
   */
  predicate EmittedAt(grouped: Lists, queues: Queues, added: seq<Row>, done: Lists, id: nat) {
    && FeesOf(FeesIn(added), id) + QueueAt(queues, id) == TxFees(grouped, id)
    && AllFeesOf(QueueAt(queues, id), id)
    && OfTx(MessagesIn(added), id) == ListAt(done, id)
  }

  /** The row for a message takes the first queued fee of its transaction, if there is one. */
  function RowFor(m: Message, queues: Queues): Row {
    var queue := QueueAt(queues, m.tx.id);
    Row(Some(m), if queue == [] then None else Some(queue[0]))
  }

  function Popped(queues: Queues, id: nat): Queues {
    if QueueAt(queues, id) == [] then queues else queues[id := queues[id][1..]]
  }

  lemma OneMoreFee(added: seq<Row>, row: Row, id: nat)
    ensures FeesOf(FeesIn(added + [row]), id)
         == FeesOf(FeesIn(added), id) + if row.fee.Some? && row.fee.value.tx == id then [row.fee.value] else []
    ensures OfTx(MessagesIn(added + [row]), id)
         == OfTx(MessagesIn(added), id)
            + if row.message.Some? && row.message.value.tx.id == id then [row.message.value] else []
  {
    AddedRow(added, row);
    var fees := if row.fee.Some? then [row.fee.value] else [];
    var messages := if row.message.Some? then [row.message.value] else [];
    FeesOfConcat(FeesIn(added), fees, id);
    OfTxConcat(MessagesIn(added), messages, id);
    assert fees != [] ==> fees[..0] == [];
    assert messages != [] ==> messages[..0] == [];
  }

  /** What popping the queue of transaction id takes from the queue of another. */
  function Taken(queues: Queues, id: nat, other: nat): seq<Fee> {
    if other == id && QueueAt(queues, id) != [] then [QueueAt(queues, id)[0]] else []
  }

  lemma PoppedAt(queues: Queues, id: nat, other: nat)
    requires AllFeesOf(QueueAt(queues, other), other)
    ensures AllFeesOf(QueueAt(Popped(queues, id), other), other)
    ensures QueueAt(queues, other) == Taken(queues, id, other) + QueueAt(Popped(queues, id), other)
  {
    var queue := QueueAt(queues, other);
    if other == id && queue != [] {
      assert queue == [queue[0]] + queue[1..];
    }
  }

  lemma HeadIsOwn(queues: Queues, id: nat, other: nat)
    requires AllFeesOf(QueueAt(queues, id), id)
    ensures Taken(queues, id, other)
         == if QueueAt(queues, id) != [] && QueueAt(queues, id)[0].tx == other then [QueueAt(queues, id)[0]] else []
  {
    if QueueAt(queues, id) != [] {
      assert QueueAt(queues, id)[0] in QueueAt(queues, id);
    }
  }

  lemma Regroup(a: seq<Fee>, b: seq<Fee>, c: seq<Fee>)
    ensures a + b + c == a + (b + c)
  {
  }

  lemma EmitMessage(grouped: Lists, queues: Queues, added: seq<Row>, done: Lists, m: Message, id: nat)
    requires EmittedAt(grouped, queues, added, done, id)
    requires AllFeesOf(QueueAt(queues, m.tx.id), m.tx.id)
    ensures EmittedAt(grouped, Popped(queues, m.tx.id), added + [RowFor(m, queues)], Add(done, m), id)
  {
    OneMoreFee(added, RowFor(m, queues), id);
    HeadIsOwn(queues, m.tx.id, id);
    PoppedAt(queues, m.tx.id, id);
    Regroup(FeesOf(FeesIn(added), id), Taken(queues, m.tx.id, id), QueueAt(Popped(queues, m.tx.id), id));
  }

  lemma EmitFee(grouped: Lists, queues: Queues, added: seq<Row>, done: Lists, tx: nat, id: nat)
    requires EmittedAt(grouped, queues, added, done, id)
    requires QueueAt(queues, tx) != [] && AllFeesOf(QueueAt(queues, tx), tx)
    ensures EmittedAt(grouped, Popped(queues, tx), added + [Row(None, Some(queues[tx][0]))], done, id)
  {
    OneMoreFee(added, Row(None, Some(queues[tx][0])), id);
    HeadIsOwn(queues, tx, id);
    PoppedAt(queues, tx, id);
    Regroup(FeesOf(FeesIn(added), id), Taken(queues, tx, id), QueueAt(Popped(queues, tx), id));
  }

  ghost predicate EmittedSoFar(grouped: Lists, queues: Queues, added: seq<Row>, done: Lists) {
    forall id :: EmittedAt(grouped, queues, added, done, id)
  }

  lemma EmitMessageAll(grouped: Lists, queues: Queues, added: seq<Row>, done: Lists, m: Message)
    requires EmittedSoFar(grouped, queues, added, done)
    ensures EmittedSoFar(grouped, Popped(queues, m.tx.id), added + [RowFor(m, queues)], Add(done, m))
  {
    assert EmittedAt(grouped, queues, added, done, m.tx.id);
    forall id ensures EmittedAt(grouped, Popped(queues, m.tx.id), added + [RowFor(m, queues)], Add(done, m), id) {
      assert EmittedAt(grouped, queues, added, done, id);
      EmitMessage(grouped, queues, added, done, m, id);
    }
  }

  lemma EmitFeeAll(grouped: Lists, queues: Queues, added: seq<Row>, done: Lists, tx: nat)
    requires EmittedSoFar(grouped, queues, added, done) && QueueAt(queues, tx) != []
    ensures EmittedSoFar(grouped, Popped(queues, tx), added + [Row(None, Some(queues[tx][0]))], done)
  {
    assert EmittedAt(grouped, queues, added, done, tx);
    forall id ensures EmittedAt(grouped, Popped(queues, tx), added + [Row(None, Some(queues[tx][0]))], done, id) {
      assert EmittedAt(grouped, queues, added, done, id);
      EmitFee(grouped, queues, added, done, tx, id);
    }
  }

  /** The fees that are left when each message has taken one. */
  function Beyond(fees: seq<Fee>, messages: nat): seq<Fee> {
    if messages <= |fees| then fees[messages..] else []
  }

  predicate QueueIs(grouped: Lists, queues: Queues, done: Lists, id: nat) {
    QueueAt(queues, id) == Beyond(TxFees(grouped, id), |ListAt(done, id)|)
  }

  ghost predicate QueuesAre(grouped: Lists, queues: Queues, done: Lists) {
    forall id :: QueueIs(grouped, queues, done, id)
  }

  lemma OneLess(fees: seq<Fee>, n: nat)
    ensures Beyond(fees, n + 1) == if Beyond(fees, n) == [] then [] else Beyond(fees, n)[1..]
  {
  }

  lemma MessageTakesOneAt(grouped: Lists, queues: Queues, done: Lists, m: Message, id: nat)
    requires QueueIs(grouped, queues, done, id)
    ensures QueueIs(grouped, Popped(queues, m.tx.id), Add(done, m), id)
  {
    if id == m.tx.id {
      OneLess(TxFees(grouped, id), |ListAt(done, id)|);
      assert |ListAt(Add(done, m), id)| == |ListAt(done, id)| + 1;
    } else {
      assert ListAt(Add(done, m), id) == ListAt(done, id);
    }
  }

  lemma MessageTakesOne(grouped: Lists, queues: Queues, done: Lists, m: Message)
    requires QueuesAre(grouped, queues, done)
    ensures QueuesAre(grouped, Popped(queues, m.tx.id), Add(done, m))
  {
    forall id ensures QueueIs(grouped, Popped(queues, m.tx.id), Add(done, m), id) {
      assert QueueIs(grouped, queues, done, id);
      MessageTakesOneAt(grouped, queues, done, m, id);
    }
  }

  function FeeAt(fees: seq<Fee>, i: nat): Option<Fee> {
    if i < |fees| then Some(fees[i]) else None
  }

  /** A row for each message, with the fee at its place, and a row for each further one of the first n fees. */
  predicate GroupedRows(rows: seq<Row>, messages: seq<Message>, fees: seq<Fee>, n: nat)
    requires n <= |fees|
  {
    && |rows| == (if |messages| < n then n else |messages|)
    && (forall i | 0 <= i < |messages| :: rows[i] == Row(Some(messages[i]), FeeAt(fees, i)))
    && (forall i | |messages| <= i < |rows| :: rows[i] == Row(None, Some(fees[i])))
  }

  /** The rows of a transaction, of whose fees those in the queue are still to come. */
  predicate RowsFit(rows: seq<Row>, messages: seq<Message>, fees: seq<Fee>, queue: seq<Fee>) {
    && |queue| <= |fees| && queue == fees[|fees| - |queue|..]
    && (queue != [] ==> |messages| <= |fees| - |queue|)
    && GroupedRows(rows, messages, fees, |fees| - |queue|)
  }

  predicate RowsAt(grouped: Lists, queues: Queues, added: seq<Row>, done: Lists, id: nat) {
    RowsFit(RowsOf(added, id), ListAt(done, id), TxFees(grouped, id), QueueAt(queues, id))
  }

  ghost predicate RowsAre(grouped: Lists, queues: Queues, added: seq<Row>, done: Lists) {
    forall id :: RowsAt(grouped, queues, added, done, id)
  }

  lemma OneMoreGroupedRow(rows: seq<Row>, messages: seq<Message>, fees: seq<Fee>, n: nat, m: Message)
    requires n == (if |messages| < |fees| then |messages| else |fees|)
    requires GroupedRows(rows, messages, fees, n)
    ensures GroupedRows(rows + [Row(Some(m), FeeAt(fees, |messages|))], messages + [m], fees,
                        if n < |fees| then n + 1 else n)
  {
  }

  lemma BeyondIs(fees: seq<Fee>, n: nat)
    ensures var queue := Beyond(fees, n);
            && |fees| - |queue| == (if n < |fees| then n else |fees|) && queue == fees[|fees| - |queue|..]
            && FeeAt(fees, n) == if queue == [] then None else Some(queue[0])
  {
  }

  lemma NextInQueue(grouped: Lists, queues: Queues, done: Lists, m: Message)
    requires QueueIs(grouped, queues, done, m.tx.id)
    ensures RowFor(m, queues) == Row(Some(m), FeeAt(TxFees(grouped, m.tx.id), |ListAt(done, m.tx.id)|))
    ensures QueueAt(Popped(queues, m.tx.id), m.tx.id)
         == Beyond(TxFees(grouped, m.tx.id), |ListAt(done, m.tx.id)| + 1)
    ensures ListAt(Add(done, m), m.tx.id) == ListAt(done, m.tx.id) + [m]
  {
    BeyondIs(TxFees(grouped, m.tx.id), |ListAt(done, m.tx.id)|);
    OneLess(TxFees(grouped, m.tx.id), |ListAt(done, m.tx.id)|);
  }

  lemma FitsWithMessage(rows: seq<Row>, messages: seq<Message>, fees: seq<Fee>, m: Message)
    requires RowsFit(rows, messages, fees, Beyond(fees, |messages|))
    ensures RowsFit(rows + [Row(Some(m), FeeAt(fees, |messages|))], messages + [m], fees, Beyond(fees, |messages| + 1))
  {
    BeyondIs(fees, |messages|);
    BeyondIs(fees, |messages| + 1);
    OneMoreGroupedRow(rows, messages, fees, if |messages| < |fees| then |messages| else |fees|, m);
  }

  lemma RowsWithOwnMessage(grouped: Lists, queues: Queues, added: seq<Row>, done: Lists, m: Message)
    requires RowsAt(grouped, queues, added, done, m.tx.id) && QueueIs(grouped, queues, done, m.tx.id)
    ensures RowsAt(grouped, Popped(queues, m.tx.id), added + [RowFor(m, queues)], Add(done, m), m.tx.id)
  {
    OneMoreRow(added, RowFor(m, queues), m.tx.id);
    NextInQueue(grouped, queues, done, m);
    FitsWithMessage(RowsOf(added, m.tx.id), ListAt(done, m.tx.id), TxFees(grouped, m.tx.id), m);
  }

  lemma RowsOfOthers(grouped: Lists, queues: Queues, added: seq<Row>, done: Lists, row: Row,
                     queues2: Queues, done2: Lists, id: nat)
    requires RowsAt(grouped, queues, added, done, id) && !IsOf(row, id)
    requires ListAt(done2, id) == ListAt(done, id) && QueueAt(queues2, id) == QueueAt(queues, id)
    ensures RowsAt(grouped, queues2, added + [row], done2, id)
  {
    OneMoreRow(added, row, id);
    assert RowsOf(added, id) + [] == RowsOf(added, id);
  }

  lemma OthersUntouched(queues: Queues, done: Lists, m: Message, id: nat)
    requires id != m.tx.id
    ensures ListAt(Add(done, m), id) == ListAt(done, id)
    ensures QueueAt(Popped(queues, m.tx.id), id) == QueueAt(queues, id)
    ensures !IsOf(RowFor(m, queues), id)
  {
  }

  lemma RowsWithMessage(grouped: Lists, queues: Queues, added: seq<Row>, done: Lists, m: Message, id: nat)
    requires RowsAt(grouped, queues, added, done, id) && QueueIs(grouped, queues, done, id)
    ensures RowsAt(grouped, Popped(queues, m.tx.id), added + [RowFor(m, queues)], Add(done, m), id)
  {
    if id == m.tx.id {
      RowsWithOwnMessage(grouped, queues, added, done, m);
    } else {
      OthersUntouched(queues, done, m, id);
      RowsOfOthers(grouped, queues, added, done, RowFor(m, queues), Popped(queues, m.tx.id), Add(done, m), id);
    }
  }

  lemma FitsWithFee(rows: seq<Row>, messages: seq<Message>, fees: seq<Fee>, queue: seq<Fee>)
    requires queue != [] && RowsFit(rows, messages, fees, queue)
    ensures RowsFit(rows + [Row(None, Some(queue[0]))], messages, fees, queue[1..])
  {
    assert queue[0] == fees[|fees| - |queue|];
  }

  lemma RowsWithOwnFee(grouped: Lists, queues: Queues, added: seq<Row>, done: Lists, tx: nat)
    requires RowsAt(grouped, queues, added, done, tx)
    requires QueueAt(queues, tx) != [] && AllFeesOf(QueueAt(queues, tx), tx)
    ensures RowsAt(grouped, Popped(queues, tx), added + [Row(None, Some(queues[tx][0]))], done, tx)
  {
    assert queues[tx][0] in QueueAt(queues, tx);
    OneMoreRow(added, Row(None, Some(queues[tx][0])), tx);
    FitsWithFee(RowsOf(added, tx), ListAt(done, tx), TxFees(grouped, tx), QueueAt(queues, tx));
  }

  lemma OthersUntouchedByFee(queues: Queues, tx: nat, id: nat)
    requires id != tx && QueueAt(queues, tx) != [] && AllFeesOf(QueueAt(queues, tx), tx)
    ensures QueueAt(Popped(queues, tx), id) == QueueAt(queues, id)
    ensures !IsOf(Row(None, Some(queues[tx][0])), id)
  {
    assert queues[tx][0] in QueueAt(queues, tx);
  }

  lemma RowsWithFee(grouped: Lists, queues: Queues, added: seq<Row>, done: Lists, tx: nat, id: nat)
    requires RowsAt(grouped, queues, added, done, id) && RowsAt(grouped, queues, added, done, tx)
    requires QueueAt(queues, tx) != [] && AllFeesOf(QueueAt(queues, tx), tx)
    ensures RowsAt(grouped, Popped(queues, tx), added + [Row(None, Some(queues[tx][0]))], done, id)
  {
    if id == tx {
      RowsWithOwnFee(grouped, queues, added, done, tx);
    } else {
      OthersUntouchedByFee(queues, tx, id);
      RowsOfOthers(grouped, queues, added, done, Row(None, Some(queues[tx][0])), Popped(queues, tx), done, id);
    }
  }

  lemma RowsWithMessageAll(grouped: Lists, queues: Queues, added: seq<Row>, done: Lists, m: Message)
    requires RowsAre(grouped, queues, added, done) && QueuesAre(grouped, queues, done)
    ensures RowsAre(grouped, Popped(queues, m.tx.id), added + [RowFor(m, queues)], Add(done, m))
  {
    forall id ensures RowsAt(grouped, Popped(queues, m.tx.id), added + [RowFor(m, queues)], Add(done, m), id) {
      assert RowsAt(grouped, queues, added, done, id) && QueueIs(grouped, queues, done, id);
      RowsWithMessage(grouped, queues, added, done, m, id);
    }
  }

  lemma RowsWithFeeAll(grouped: Lists, queues: Queues, added: seq<Row>, done: Lists, tx: nat)
    requires RowsAre(grouped, queues, added, done) && EmittedSoFar(grouped, queues, added, done)
    requires QueueAt(queues, tx) != []
    ensures RowsAre(grouped, Popped(queues, tx), added + [Row(None, Some(queues[tx][0]))], done)
  {
    assert EmittedAt(grouped, queues, added, done, tx) && RowsAt(grouped, queues, added, done, tx);
    forall id ensures RowsAt(grouped, Popped(queues, tx), added + [Row(None, Some(queues[tx][0]))], done, id) {
      assert RowsAt(grouped, queues, added, done, id);
      RowsWithFee(grouped, queues, added, done, tx, id);
    }
  }

  lemma NoRowsAt(grouped: Lists, queues: Queues, id: nat)
    requires QueueAt(queues, id) == TxFees(grouped, id)
    ensures RowsAt(grouped, queues, [], map[], id)
  {
    assert RowsOf([], id) == [] && ListAt(map[], id) == [];
    assert TxFees(grouped, id)[0..] == TxFees(grouped, id);
  }

  lemma NoRowsYet(grouped: Lists, queues: Queues)
    requires queues.Keys == grouped.Keys && forall id | id in grouped :: queues[id] == TxFees(grouped, id)
    ensures RowsAre(grouped, queues, [], map[])
  {
    forall id ensures RowsAt(grouped, queues, [], map[], id) {
      NoRowsAt(grouped, queues, id);
    }
  }

  /** All that is kept while a group is parsed. */
  ghost predicate GroupInv(grouped: Lists, queues: Queues, added: seq<Row>, done: Lists) {
    EmittedSoFar(grouped, queues, added, done) && RowsAre(grouped, queues, added, done)
  }

  /** One row for each message of a transaction, the fees attached as long as there are any. */
  method ParseMessages(ghost grouped: Lists, messages: seq<Message>, id: nat, queues: Queues,
                       rows: seq<Row>, ghost base: nat, ghost done: Lists)
      returns (queues2: Queues, rows2: seq<Row>)
    requires AllOf(messages, id) && id !in done && base <= |rows|
    requires GroupInv(grouped, queues, rows[base..], done) && QueuesAre(grouped, queues, done)
    ensures rows <= rows2 && queues2.Keys == queues.Keys
    ensures var now := if messages == [] then done else done[id := messages];
            GroupInv(grouped, queues2, rows2[base..], now) && QueuesAre(grouped, queues2, now)
  {
    queues2, rows2 := queues, rows;
    ghost var now := done;
    for n := 0 to |messages|
      invariant rows <= rows2 && queues2.Keys == queues.Keys
      invariant now == if n == 0 then done else done[id := messages[..n]]
      invariant GroupInv(grouped, queues2, rows2[base..], now) && QueuesAre(grouped, queues2, now)
    {
      var m := messages[n];
      assert m in messages;
      EmitMessageAll(grouped, queues2, rows2[base..], now, m);
      RowsWithMessageAll(grouped, queues2, rows2[base..], now, m);
      MessageTakesOne(grouped, queues2, now, m);
      var row := Row(Some(m), None);
      var messageFee := QueueAt(queues2, m.tx.id);
      ghost var before := queues2;
      if |messageFee| > 0 {
        row := Row(Some(m), Some(messageFee[0]));
        queues2 := queues2[m.tx.id := queues2[m.tx.id][1..]];
      }
      assert row == RowFor(m, before) && queues2 == Popped(before, m.tx.id);
      assert (rows2 + [row])[base..] == rows2[base..] + [row];
      rows2 := rows2 + [row];
      now := Add(now, m);
      assert messages[..n + 1] == messages[..n] + [m];
    }
    assert messages[..|messages|] == messages;
  }

  /** Everything about transaction id is in the rows: all of its fees and all grouped messages, in order. */
  predicate GroupEmitted(grouped: Lists, added: seq<Row>, id: nat) {
    && FeesOf(FeesIn(added), id) == TxFees(grouped, id)
    && OfTx(MessagesIn(added), id) == ListAt(grouped, id)
    && GroupedRows(RowsOf(added, id), ListAt(grouped, id), TxFees(grouped, id), |TxFees(grouped, id)|)
  }

  lemma AllEmitted(grouped: Lists, queues: Queues, added: seq<Row>, done: Lists, id: nat)
    requires GroupInv(grouped, queues, added, done)
    requires QueueAt(queues, id) == [] && ListAt(done, id) == ListAt(grouped, id)
    ensures GroupEmitted(grouped, added, id)
  {
    assert EmittedAt(grouped, queues, added, done, id) && RowsAt(grouped, queues, added, done, id);
  }

  lemma NothingEmitted(grouped: Lists, queues: Queues)
    requires OwnFees(grouped) && queues.Keys == grouped.Keys
    requires forall id | id in grouped :: queues[id] == TxFees(grouped, id)
    ensures GroupInv(grouped, queues, [], map[]) && QueuesAre(grouped, queues, map[])
  {
    NoRowsYet(grouped, queues);
    forall id ensures EmittedAt(grouped, queues, [], map[], id) {
      assert FeesOf([], id) == [] && OfTx([], id) == [];
    }
  }

  predicate AllConvert(fees: seq<Fee>, converts: Fee -> bool) {
    forall f | f in fees :: converts(f)
  }

  /** The fees of each grouped transaction that no message took can be converted. */
  ghost predicate LeftoversConvert(grouped: Lists, converts: Fee -> bool) {
    forall id | id in grouped :: AllConvert(Beyond(TxFees(grouped, id), |grouped[id]|), converts)
  }

  /** Rows for the queued fees of one transaction; stops at one that cannot be converted. */
  method ParseLeftovers(ghost grouped: Lists, ghost queues: Queues, ghost done: Lists, id: nat, fees: seq<Fee>,
                        rows: seq<Row>, ghost base: nat, converts: Fee -> bool)
      returns (ok: bool, rows2: seq<Row>)
    requires base <= |rows| && QueueAt(queues, id) == fees && id in queues
    requires GroupInv(grouped, queues, rows[base..], done)
    ensures rows <= rows2
    ensures ok ==> GroupInv(grouped, queues[id := []], rows2[base..], done)
    ensures ok <==> AllConvert(fees, converts)
  {
    rows2 := rows;
    ghost var left := queues;
    for i := 0 to |fees|
      invariant rows <= rows2 && left == queues[id := fees[i..]]
      invariant GroupInv(grouped, left, rows2[base..], done)
      invariant forall k | 0 <= k < i :: converts(fees[k])
    {
      var fee := fees[i];
      if !converts(fee) {
        return false, rows2;
      }
      EmitFeeAll(grouped, left, rows2[base..], done, id);
      RowsWithFeeAll(grouped, left, rows2[base..], done, id);
      assert (rows2 + [Row(None, Some(fee))])[base..] == rows2[base..] + [Row(None, Some(fee))];
      rows2 := rows2 + [Row(None, Some(fee))];
      left := Popped(left, id);
      assert fees[i..][1..] == fees[i + 1..];
    }
    return true, rows2;
  }

  method ParseAllMessages(grouped: Lists, rows: seq<Row>) returns (queues: Queues, rows2: seq<Row>)
    requires Tidy(grouped) && OwnFees(grouped)
    ensures rows <= rows2 && queues.Keys == grouped.Keys
    ensures GroupInv(grouped, queues, rows2[|rows|..], grouped) && QueuesAre(grouped, queues, grouped)
  {
    queues := GetTxToFeesMap(grouped);
    NothingEmitted(grouped, queues);
    rows2 := rows;
    ghost var done: Lists := map[];
    var todo := grouped.Keys;
    while todo != {}
      invariant todo <= grouped.Keys && queues.Keys == grouped.Keys && rows <= rows2
      invariant done.Keys == grouped.Keys - todo && forall id | id in done :: done[id] == grouped[id]
      invariant GroupInv(grouped, queues, rows2[|rows|..], done) && QueuesAre(grouped, queues, done)
    {
      ghost var some := SomeElement(todo);
      var id :| id in todo;
      todo := todo - {id};
      queues, rows2 := ParseMessages(grouped, grouped[id], id, queues, rows2, |rows|, done);
      done := done[id := grouped[id]];
    }
    assert done == grouped;
  }

  method ParseAllLeftovers(grouped: Lists, queues: Queues, rows: seq<Row>, ghost base: nat, converts: Fee -> bool)
      returns (ok: bool, rows2: seq<Row>)
    requires queues.Keys == grouped.Keys && base <= |rows|
    requires GroupInv(grouped, queues, rows[base..], grouped)
    ensures rows <= rows2
    ensures ok ==> GroupDone(grouped, rows2[base..])
    ensures ok <==> forall id | id in queues :: AllConvert(queues[id], converts)
  {
    rows2 := rows;
    var todo := queues.Keys;
    ghost var left := queues;
    while todo != {}
      invariant todo <= queues.Keys == left.Keys && rows <= rows2
      invariant forall id | id in queues :: left[id] == if id in todo then queues[id] else []
      invariant GroupInv(grouped, left, rows2[base..], grouped)
      invariant forall id | id in queues && id !in todo :: AllConvert(queues[id], converts)
    {
      ghost var some := SomeElement(todo);
      var id :| id in todo;
      todo := todo - {id};
      ok, rows2 := ParseLeftovers(grouped, left, grouped, id, queues[id], rows2, base, converts);
      if !ok {
        return;
      }
      left := left[id := []];
    }
    forall id ensures GroupEmitted(grouped, rows2[base..], id) {
      AllEmitted(grouped, left, rows2[base..], grouped, id);
    }
    return true, rows2;
  }

  lemma QueuesConvert(grouped: Lists, queues: Queues, converts: Fee -> bool)
    requires QueuesAre(grouped, queues, grouped) && queues.Keys == grouped.Keys
    ensures LeftoversConvert(grouped, converts) <==> forall id | id in queues :: AllConvert(queues[id], converts)
  {
    forall id | id in grouped ensures queues[id] == Beyond(TxFees(grouped, id), |grouped[id]|) {
      assert QueueIs(grouped, queues, grouped, id);
    }
  }

  /**
    Every message of a group gets its row, and every fee of a grouped transaction is
    emitted once, whoever paid it. It fails exactly when a fee that no message took
    cannot be converted.
   */
  method ParseGroup(group: ParsingGroup, converts: Fee -> bool) returns (ok: bool)
    requires Tidy(group.grouped) && OwnFees(group.grouped)
    modifies group`rows
    ensures old(group.rows) <= group.rows
    ensures ok ==> GroupDone(group.grouped, group.rows[|old(group.rows)|..])
    ensures ok <==> LeftoversConvert(group.grouped, converts)
  {
    var txsToFees, rows := ParseAllMessages(group.grouped, group.rows);
    QueuesConvert(group.grouped, txsToFees, converts);
    ok, rows := ParseAllLeftovers(group.grouped, txsToFees, rows, |group.rows|, converts);
    group.rows := rows;
  }

  // ------------------------------------------------------------------------ the whole export

  /** Messages of one transaction carry the same transaction, and its fees are its own. */
  predicate Consistent(taxable: seq<Message>) {
    && (forall a, b | a in taxable && b in taxable && a.tx.id == b.tx.id :: a.tx == b.tx)
    && (forall a | a in taxable :: AllFeesOf(a.tx.fees, a.tx.id))
  }

  /** Every message of the list is one of transaction id in taxable. */
  predicate Drawn(messages: seq<Message>, taxable: seq<Message>, id: nat) {
    forall m | m in messages :: m in taxable && m.tx.id == id
  }

  lemma {:induction false} OfTxDrawn(taxable: seq<Message>, id: nat)
    ensures Drawn(OfTx(taxable, id), taxable, id)
  {
    if taxable != [] {
      OfTxDrawn(taxable[..|taxable| - 1], id);
    }
  }

  lemma {:induction false} ClassesDrawn(messages: seq<Message>, taxable: seq<Message>, id: nat,
                                        kinds: set<string>, kinds2: set<string>)
    requires Drawn(messages, taxable, id)
    ensures Drawn(OfKinds(messages, kinds), taxable, id) && Drawn(Plain(messages, kinds, kinds2), taxable, id)
  {
    if messages != [] {
      var n := |messages| - 1;
      assert messages == messages[..n] + [messages[n]];
      ClassesDrawn(messages[..n], taxable, id, kinds, kinds2);
    }
  }

  function FeesOfTx(taxable: seq<Message>, id: nat): seq<Fee> {
    var messages := OfTx(taxable, id);
    if messages == [] then [] else messages[0].tx.fees
  }

  /** Lists of messages drawn from consistent ones have the fees of their transactions. */
  lemma DrawnFees(taxable: seq<Message>, messages: seq<Message>, id: nat)
    requires Consistent(taxable) && Drawn(messages, taxable, id) && messages != []
    requires OfTx(taxable, id) != []
    ensures messages[0].tx.fees == FeesOfTx(taxable, id) && AllFeesOf(messages[0].tx.fees, id)
  {
    OfTxDrawn(taxable, id);
    assert OfTx(taxable, id)[0] in OfTx(taxable, id) && messages[0] in messages;
  }

  /** Lists that are under their own transaction, drawn from the taxable messages. */
  ghost predicate DrawnLists(lists: Lists, taxable: seq<Message>) {
    forall id :: Drawn(ListAt(lists, id), taxable, id) && (ListAt(lists, id) != [] ==> OfTx(taxable, id) != [])
  }

  lemma DrawnOwnFees(lists: Lists, taxable: seq<Message>)
    requires Consistent(taxable) && DrawnLists(lists, taxable)
    ensures OwnFees(lists)
  {
    forall id | id in lists ensures AllFeesOf(TxFees(lists, id), id) {
      if lists[id] != [] {
        assert ListAt(lists, id) != [];
        DrawnFees(taxable, lists[id], id);
      }
    }
  }

  /** What the plain messages of transaction id add. */
  predicate PlainEmitted(lists: Lists, rows: seq<Row>, address: string,
                         parses: Message -> bool, converts: Fee -> bool, id: nat) {
    var messages := ListAt(lists, id);
    && FeesOf(FeesIn(rows), id) == (if messages == [] then [] else Paid(messages[0].tx.fees, address, converts))
    && OfTx(MessagesIn(rows), id) == Parsed(messages, parses)
    && PlainRows(RowsOf(rows, id), messages, parses, address, converts)
  }

  /** The rows of the plain messages of one transaction, if it has any. */
  predicate PlainRows(rows: seq<Row>, messages: seq<Message>, parses: Message -> bool,
                      address: string, converts: Fee -> bool) {
    if messages == [] then rows == []
    else MessageRowsFirst(rows, Parsed(messages, parses), messages[0].tx.fees, address, converts)
  }

  lemma {:induction false} FeeOfRow(rows: seq<Row>, i: nat)
    requires i < |rows| && rows[i].fee.Some?
    ensures rows[i].fee.value in FeesIn(rows)
  {
    if i < |rows| - 1 {
      FeeOfRow(rows[..|rows| - 1], i);
    }
  }

  lemma TxRowsOwn(rows: seq<Row>, messages: seq<Message>, fees: seq<Fee>, address: string, converts: Fee -> bool, id: nat)
    requires MessageRowsFirst(rows, messages, fees, address, converts) && FeesIn(rows) == Paid(fees, address, converts)
    requires AllOf(messages, id) && AllFeesOf(fees, id)
    ensures forall i | 0 <= i < |rows| :: IsOf(rows[i], id)
  {
    PaidAreFees(fees, address, converts);
    forall i | 0 <= i < |rows| ensures IsOf(rows[i], id) {
      if i < |messages| {
        assert messages[i] in messages;
      } else {
        FeeOfRow(rows, i);
      }
    }
  }

  lemma {:induction false} ParsedDrawn(messages: seq<Message>, parses: Message -> bool, id: nat)
    requires AllOf(messages, id)
    ensures AllOf(Parsed(messages, parses), id)
  {
    if messages != [] {
      var n := |messages| - 1;
      assert messages == messages[..n] + [messages[n]];
      ParsedDrawn(messages[..n], parses, id);
    }
  }

  lemma PlainStep(lists: Lists, taxable: seq<Message>, rows: seq<Row>, txRows: seq<Row>, address: string,
                  parses: Message -> bool, converts: Fee -> bool, id: nat, other: nat)
    requires Consistent(taxable) && DrawnLists(lists, taxable) && ListAt(lists, id) != []
    requires FeesIn(txRows) == Paid(ListAt(lists, id)[0].tx.fees, address, converts)
    requires MessagesIn(txRows) == Parsed(ListAt(lists, id), parses)
    requires PlainRows(txRows, ListAt(lists, id), parses, address, converts)
    ensures RowsOf(rows + txRows, other) == RowsOf(rows, other) + if other == id then txRows else []
    ensures FeesOf(FeesIn(rows + txRows), other)
         == FeesOf(FeesIn(rows), other) + if other == id then FeesIn(txRows) else []
    ensures OfTx(MessagesIn(rows + txRows), other)
         == OfTx(MessagesIn(rows), other) + if other == id then MessagesIn(txRows) else []
  {
    var messages := ListAt(lists, id);
    DrawnFees(taxable, messages, id);
    PaidAreFees(messages[0].tx.fees, address, converts);
    ParsedDrawn(messages, parses, id);
    FeesInConcat(rows, txRows);
    FeesOfConcat(FeesIn(rows), FeesIn(txRows), other);
    OfTxConcat(MessagesIn(rows), MessagesIn(txRows), other);
    FeesOfOwn(FeesIn(txRows), id, other);
    OfTxOwn(MessagesIn(txRows), id, other);
    TxRowsOwn(txRows, Parsed(messages, parses), messages[0].tx.fees, address, converts, id);
    RowsOfConcat(rows, txRows, other);
    RowsOfOwn(txRows, id, other);
  }

  /** What ParseTx makes of a list of plain messages, nothing for an empty one. */
  predicate TxParsed(messages: seq<Message>, txRows: seq<Row>, address: string,
                     parses: Message -> bool, converts: Fee -> bool) {
    if messages == [] then txRows == []
    else
      && FeesIn(txRows) == Paid(messages[0].tx.fees, address, converts) && MessagesIn(txRows) == Parsed(messages, parses)
      && PlainRows(txRows, messages, parses, address, converts)
  }

  lemma PlainMoreAt(lists: Lists, taxable: seq<Message>, done: Lists, rows: seq<Row>, txRows: seq<Row>, address: string,
                    parses: Message -> bool, converts: Fee -> bool, id: nat, other: nat)
    requires Consistent(taxable) && DrawnLists(lists, taxable) && id in lists && id !in done
    requires PlainEmitted(done, rows, address, parses, converts, other)
    requires TxParsed(lists[id], txRows, address, parses, converts)
    ensures PlainEmitted(done[id := lists[id]], rows + txRows, address, parses, converts, other)
  {
    assert ListAt(lists, id) == lists[id];
    var done2 := done[id := lists[id]];
    if lists[id] == [] {
      assert rows + txRows == rows;
      assert ListAt(done2, other) == ListAt(done, other);
    } else {
      PlainStep(lists, taxable, rows, txRows, address, parses, converts, id, other);
      if other == id {
        assert ListAt(done, id) == [] && ListAt(done2, id) == lists[id];
        OntoNothing(FeesOf(FeesIn(rows), id), FeesIn(txRows));
        OntoNothing(OfTx(MessagesIn(rows), id), MessagesIn(txRows));
        OntoNothing(RowsOf(rows, id), txRows);
      } else {
        assert ListAt(done2, other) == ListAt(done, other);
        OntoNothing([], FeesOf(FeesIn(rows), other));
        OntoNothing([], OfTx(MessagesIn(rows), other));
        OntoNothing([], RowsOf(rows, other));
      }
    }
  }

  lemma OntoNothing<T>(a: seq<T>, b: seq<T>)
    ensures a == [] ==> a + b == b && b + a == b
  {
  }

  lemma PlainMore(lists: Lists, taxable: seq<Message>, done: Lists, rows: seq<Row>, txRows: seq<Row>, address: string,
                  parses: Message -> bool, converts: Fee -> bool, id: nat)
    requires Consistent(taxable) && DrawnLists(lists, taxable) && id in lists && id !in done
    requires PlainDone(done, rows, address, parses, converts)
    requires TxParsed(lists[id], txRows, address, parses, converts)
    ensures PlainDone(done[id := lists[id]], rows + txRows, address, parses, converts)
  {
    var done2, rows2 := done[id := lists[id]], rows + txRows;
    forall other ensures PlainEmitted(done2, rows2, address, parses, converts, other) {
      PlainMoreAt(lists, taxable, done, rows, txRows, address, parses, converts, id, other);
    }
  }

  method ParsePlain(lists: Lists, ghost taxable: seq<Message>, address: string,
                    parses: Message -> bool, converts: Fee -> bool) returns (rows: seq<Row>)
    requires Consistent(taxable) && DrawnLists(lists, taxable)
    ensures PlainDone(lists, rows, address, parses, converts)
  {
    rows := [];
    var todo := lists.Keys;
    ghost var done: Lists := map[];
    while todo != {}
      invariant todo <= lists.Keys && done.Keys == lists.Keys - todo
      invariant forall id | id in done :: done[id] == lists[id]
      invariant PlainDone(done, rows, address, parses, converts)
    {
      ghost var some := SomeElement(todo);
      var id :| id in todo;
      todo := todo - {id};
      var txGroup := lists[id];
      if |txGroup| != 0 {
        var fees := txGroup[0].tx.fees;
        var txRows := ParseTx(address, txGroup, fees, parses, converts);
        PlainMore(lists, taxable, done, rows, txRows, address, parses, converts, id);
        rows := rows + txRows;
      } else {
        PlainMore(lists, taxable, done, rows, [], address, parses, converts, id);
        assert rows + [] == rows;
      }
      done := done[id := txGroup];
    }
    assert done == lists;
  }

  /** The fees whose transaction has no taxable message. */
  function Orphans(fees: seq<Fee>, taxable: seq<Message>): seq<Fee> {
    if fees == [] then []
    else
      var last := fees[|fees| - 1];
      Orphans(fees[..|fees| - 1], taxable) + if OfTx(taxable, last.tx) == [] then [last] else []
  }

  lemma OneMoreOf(fees: seq<Fee>, f: Fee, id: nat)
    ensures FeesOf(fees + [f], id) == FeesOf(fees, id) + if f.tx == id then [f] else []
  {
    assert (fees + [f])[..|fees|] == fees;
  }

  lemma {:induction false} OrphansOf(fees: seq<Fee>, taxable: seq<Message>, id: nat)
    ensures FeesOf(Orphans(fees, taxable), id) == if OfTx(taxable, id) == [] then FeesOf(fees, id) else []
  {
    if fees != [] {
      var n := |fees| - 1;
      OrphansOf(fees[..n], taxable, id);
      OneMoreOf(Orphans(fees[..n], taxable), fees[n], id);
      assert Orphans(fees[..n], taxable) + [] == Orphans(fees[..n], taxable);
    }
  }

  method FeesWithoutTx(txMap: Lists, ghost taxable: seq<Message>, fees: seq<Fee>) returns (orphans: seq<Fee>)
    requires Tidy(txMap) && GroupedBy(taxable, txMap)
    ensures orphans == Orphans(fees, taxable)
  {
    orphans := [];
    for n := 0 to |fees|
      invariant orphans == Orphans(fees[..n], taxable)
    {
      assert fees[..n + 1][..n] == fees[..n];
      assert ListAt(txMap, fees[n].tx) == OfTx(taxable, fees[n].tx);
      if fees[n].tx !in txMap {
        orphans := orphans + [fees[n]];
      }
    }
    assert fees[..|fees|] == fees;
  }

  /** A row for each fee, with nothing else. */
  function AloneRows(fees: seq<Fee>): seq<Row> {
    seq(|fees|, i requires 0 <= i < |fees| => Row(None, Some(fees[i])))
  }

  lemma {:induction false} AloneRowsOf(fees: seq<Fee>, id: nat)
    ensures RowsOf(AloneRows(fees), id) == AloneRows(FeesOf(fees, id))
  {
    if fees != [] {
      var n := |fees| - 1;
      AloneRowsOf(fees[..n], id);
      assert AloneRows(fees) == AloneRows(fees[..n]) + [Row(None, Some(fees[n]))];
      OneMoreRow(AloneRows(fees[..n]), Row(None, Some(fees[n])), id);
    }
  }

  method FeeRows(fees: seq<Fee>, converts: Fee -> bool) returns (ok: bool, rows: seq<Row>)
    ensures ok <==> AllConvert(fees, converts)
    ensures ok ==> FeesIn(rows) == fees && MessagesIn(rows) == [] && rows == AloneRows(fees)
  {
    rows := [];
    for n := 0 to |fees|
      invariant FeesIn(rows) == fees[..n] && MessagesIn(rows) == [] && rows == AloneRows(fees[..n])
      invariant forall k | 0 <= k < n :: converts(fees[k])
    {
      if !converts(fees[n]) {
        return false, rows;
      }
      AddedRow(rows, Row(None, Some(fees[n])));
      rows := rows + [Row(None, Some(fees[n]))];
    }
    return true, rows;
  }

  function If(b: bool, fees: seq<Fee>): seq<Fee> {
    if b then fees else []
  }

  /** The messages of transaction id by class. */
  function PlainOf(taxable: seq<Message>, id: nat): seq<Message> {
    Plain(OfTx(taxable, id), PoolKinds(), ConcentratedKinds())
  }

  function PoolOf(taxable: seq<Message>, id: nat): seq<Message> {
    OfKinds(OfTx(taxable, id), PoolKinds())
  }

  function ConcentratedOf(taxable: seq<Message>, id: nat): seq<Message> {
    OfKinds(OfTx(taxable, id), ConcentratedKinds())
  }

  /**
    The fees emitted for transaction id: for plain messages those the address
    paid, for each group that has a message of it all of its fees, and for one
    without any message the separately listed fees.
   */
  function Emitted(address: string, taxable: seq<Message>, taxableFees: seq<Fee>, converts: Fee -> bool, id: nat): seq<Fee> {
    var fees := FeesOfTx(taxable, id);
    If(PlainOf(taxable, id) != [], Paid(fees, address, converts))
    + If(OfTx(taxable, id) == [], FeesOf(taxableFees, id))
    + If(PoolOf(taxable, id) != [], fees)
    + If(ConcentratedOf(taxable, id) != [], fees)
  }

  /** The messages emitted for transaction id: the plain ones that parse, and all grouped ones. */
  function EmittedMessages(taxable: seq<Message>, parses: Message -> bool, id: nat): seq<Message> {
    Parsed(PlainOf(taxable, id), parses) + PoolOf(taxable, id) + ConcentratedOf(taxable, id)
  }

  /** What separating fresh groups leaves, as lists drawn from the taxable messages. */
  ghost predicate Separated(taxable: seq<Message>, plain: Lists, pool: Lists, concentrated: Lists) {
    && (forall id :: ListAt(plain, id) == PlainOf(taxable, id))
    && (forall id :: ListAt(pool, id) == PoolOf(taxable, id))
    && (forall id :: ListAt(concentrated, id) == ConcentratedOf(taxable, id))
  }

  lemma SeparatedFreshAt(taxable: seq<Message>, txMap: Lists, plain: Lists, pool: Lists, concentrated: Lists, id: nat)
    requires ListAt(txMap, id) == OfTx(taxable, id)
    requires SeparatedAt(txMap, map[], map[], plain, pool, concentrated, PoolKinds(), ConcentratedKinds(), id, {})
    ensures ListAt(plain, id) == PlainOf(taxable, id)
    ensures ListAt(pool, id) == PoolOf(taxable, id)
    ensures ListAt(concentrated, id) == ConcentratedOf(taxable, id)
  {
  }

  ghost predicate GroupedBy(taxable: seq<Message>, txMap: Lists) {
    forall id :: ListAt(txMap, id) == OfTx(taxable, id)
  }

  ghost predicate SeparatedFresh(txMap: Lists, plain: Lists, pool: Lists, concentrated: Lists) {
    forall id :: SeparatedAt(txMap, map[], map[], plain, pool, concentrated, PoolKinds(), ConcentratedKinds(), id, {})
  }

  lemma SeparatedFromFresh(taxable: seq<Message>, txMap: Lists, plain: Lists, pool: Lists, concentrated: Lists)
    requires GroupedBy(taxable, txMap) && SeparatedFresh(txMap, plain, pool, concentrated)
    ensures Separated(taxable, plain, pool, concentrated)
  {
    forall id ensures ListAt(plain, id) == PlainOf(taxable, id)
                      && ListAt(pool, id) == PoolOf(taxable, id)
                      && ListAt(concentrated, id) == ConcentratedOf(taxable, id) {
      SeparatedFreshAt(taxable, txMap, plain, pool, concentrated, id);
    }
  }

  /** The messages are one of the three classes of transaction id. */
  predicate IsClass(messages: seq<Message>, taxable: seq<Message>, id: nat) {
    messages == PlainOf(taxable, id) || messages == PoolOf(taxable, id) || messages == ConcentratedOf(taxable, id)
  }

  lemma ClassDrawn(messages: seq<Message>, taxable: seq<Message>, id: nat)
    requires IsClass(messages, taxable, id)
    ensures Drawn(messages, taxable, id) && (messages != [] ==> OfTx(taxable, id) != [])
  {
    var all := OfTx(taxable, id);
    OfTxDrawn(taxable, id);
    ClassesDrawn(all, taxable, id, PoolKinds(), ConcentratedKinds());
    ClassesDrawn(all, taxable, id, ConcentratedKinds(), PoolKinds());
  }

  lemma ListsDrawn(lists: Lists, taxable: seq<Message>)
    requires forall id :: IsClass(ListAt(lists, id), taxable, id)
    ensures DrawnLists(lists, taxable)
  {
    forall id ensures Drawn(ListAt(lists, id), taxable, id) && (ListAt(lists, id) != [] ==> OfTx(taxable, id) != []) {
      assert IsClass(ListAt(lists, id), taxable, id);
      ClassDrawn(ListAt(lists, id), taxable, id);
    }
  }

  lemma SeparatedDrawn(taxable: seq<Message>, plain: Lists, pool: Lists, concentrated: Lists)
    requires Separated(taxable, plain, pool, concentrated)
    ensures DrawnLists(plain, taxable) && DrawnLists(pool, taxable) && DrawnLists(concentrated, taxable)
  {
    ListsDrawn(plain, taxable);
    ListsDrawn(pool, taxable);
    ListsDrawn(concentrated, taxable);
  }

  lemma GroupFees(taxable: seq<Message>, lists: Lists, id: nat)
    requires Consistent(taxable) && DrawnLists(lists, taxable)
    ensures TxFees(lists, id) == If(ListAt(lists, id) != [], FeesOfTx(taxable, id))
  {
    if ListAt(lists, id) != [] {
      DrawnFees(taxable, ListAt(lists, id), id);
    }
  }

  /** The parts of the export that concern the fees of transaction id. */
  lemma FeesExportedAt(address: string, taxable: seq<Message>, taxableFees: seq<Fee>, converts: Fee -> bool,
                       rows: seq<Row>, orphanRows: seq<Row>, poolRows: seq<Row>, concentratedRows: seq<Row>, id: nat)
    requires FeesOf(FeesIn(rows), id) == If(PlainOf(taxable, id) != [], Paid(FeesOfTx(taxable, id), address, converts))
    requires FeesOf(FeesIn(orphanRows), id) == If(OfTx(taxable, id) == [], FeesOf(taxableFees, id))
    requires FeesOf(FeesIn(poolRows), id) == If(PoolOf(taxable, id) != [], FeesOfTx(taxable, id))
    requires FeesOf(FeesIn(concentratedRows), id) == If(ConcentratedOf(taxable, id) != [], FeesOfTx(taxable, id))
    ensures FeesOf(FeesIn(rows + orphanRows + poolRows + concentratedRows), id)
         == Emitted(address, taxable, taxableFees, converts, id)
  {
    ConcatFour(rows, orphanRows, poolRows, concentratedRows, id);
  }

  lemma MessagesExportedAt(taxable: seq<Message>, parses: Message -> bool,
                           rows: seq<Row>, orphanRows: seq<Row>, poolRows: seq<Row>, concentratedRows: seq<Row>, id: nat)
    requires OfTx(MessagesIn(rows), id) == Parsed(PlainOf(taxable, id), parses)
    requires MessagesIn(orphanRows) == []
    requires OfTx(MessagesIn(poolRows), id) == PoolOf(taxable, id)
    requires OfTx(MessagesIn(concentratedRows), id) == ConcentratedOf(taxable, id)
    ensures OfTx(MessagesIn(rows + orphanRows + poolRows + concentratedRows), id)
         == EmittedMessages(taxable, parses, id)
  {
    ConcatFour(rows, orphanRows, poolRows, concentratedRows, id);
    var plain := OfTx(MessagesIn(rows), id);
    assert plain + OfTx(MessagesIn(orphanRows), id) == plain;
  }

  /** All rows of the export, before they are sorted by date. */
  ghost predicate Exported(address: string, taxable: seq<Message>, taxableFees: seq<Fee>,
                           parses: Message -> bool, converts: Fee -> bool, rows: seq<Row>) {
    forall id ::
      && FeesOf(FeesIn(rows), id) == Emitted(address, taxable, taxableFees, converts, id)
      && OfTx(MessagesIn(rows), id) == EmittedMessages(taxable, parses, id)
  }

  /** The rows about one transaction of a group that has these messages of it. */
  predicate GroupRows(rows: seq<Row>, messages: seq<Message>, fees: seq<Fee>) {
    if messages == [] then rows == [] else GroupedRows(rows, messages, fees, |fees|)
  }

  /**
    Which row carries what, for every transaction: without messages its fees have
    rows of their own; the plain messages have the fees that the address paid at
    their places; those of a group have the fees at their places, whoever paid.
   */
  predicate ExportedRowsAt(address: string, taxable: seq<Message>, taxableFees: seq<Fee>,
                           parses: Message -> bool, converts: Fee -> bool,
                           rows: seq<Row>, poolRows: seq<Row>, concentratedRows: seq<Row>, id: nat) {
    && (if OfTx(taxable, id) == [] then RowsOf(rows, id) == AloneRows(FeesOf(taxableFees, id))
        else if PlainOf(taxable, id) == [] then RowsOf(rows, id) == []
        else MessageRowsFirst(RowsOf(rows, id), Parsed(PlainOf(taxable, id), parses), FeesOfTx(taxable, id),
                              address, converts))
    && GroupRows(RowsOf(poolRows, id), PoolOf(taxable, id), FeesOfTx(taxable, id))
    && GroupRows(RowsOf(concentratedRows, id), ConcentratedOf(taxable, id), FeesOfTx(taxable, id))
  }

  ghost predicate ExportedRows(address: string, taxable: seq<Message>, taxableFees: seq<Fee>,
                               parses: Message -> bool, converts: Fee -> bool,
                               rows: seq<Row>, poolRows: seq<Row>, concentratedRows: seq<Row>) {
    forall id :: ExportedRowsAt(address, taxable, taxableFees, parses, converts, rows, poolRows, concentratedRows, id)
  }

  ghost predicate PlainDone(plain: Lists, rows: seq<Row>, address: string, parses: Message -> bool, converts: Fee -> bool) {
    forall id :: PlainEmitted(plain, rows, address, parses, converts, id)
  }

  ghost predicate GroupDone(grouped: Lists, rows: seq<Row>) {
    forall id :: GroupEmitted(grouped, rows, id)
  }

  lemma PlainAt(taxable: seq<Message>, plain: Lists, rows: seq<Row>, address: string,
                parses: Message -> bool, converts: Fee -> bool, id: nat)
    requires Consistent(taxable) && DrawnLists(plain, taxable) && ListAt(plain, id) == PlainOf(taxable, id)
    requires PlainDone(plain, rows, address, parses, converts)
    ensures FeesOf(FeesIn(rows), id) == If(PlainOf(taxable, id) != [], Paid(FeesOfTx(taxable, id), address, converts))
    ensures OfTx(MessagesIn(rows), id) == Parsed(PlainOf(taxable, id), parses)
    ensures if PlainOf(taxable, id) == [] then RowsOf(rows, id) == []
            else MessageRowsFirst(RowsOf(rows, id), Parsed(PlainOf(taxable, id), parses), FeesOfTx(taxable, id),
                                  address, converts)
  {
    if PlainOf(taxable, id) != [] {
      DrawnFees(taxable, PlainOf(taxable, id), id);
    }
    assert PlainEmitted(plain, rows, address, parses, converts, id);
    GroupFees(taxable, plain, id);
  }

  lemma GroupAt(taxable: seq<Message>, grouped: Lists, rows: seq<Row>, messages: seq<Message>, id: nat)
    requires Consistent(taxable) && DrawnLists(grouped, taxable) && ListAt(grouped, id) == messages
    requires GroupDone(grouped, rows)
    ensures FeesOf(FeesIn(rows), id) == If(messages != [], FeesOfTx(taxable, id))
    ensures OfTx(MessagesIn(rows), id) == messages
    ensures GroupRows(RowsOf(rows, id), messages, FeesOfTx(taxable, id))
  {
    assert GroupEmitted(grouped, rows, id);
    GroupFees(taxable, grouped, id);
  }

  /** The fees of a transaction that its messages in a group, if it has any there, do not take. */
  function LeftOver(fees: seq<Fee>, messages: seq<Message>): seq<Fee> {
    if messages == [] then [] else Beyond(fees, |messages|)
  }

  /**
    The fees that get rows of their own can be converted: those of transactions
    without messages, and those left over in either group.
   */
  ghost predicate FeeRowsConvert(taxable: seq<Message>, taxableFees: seq<Fee>, converts: Fee -> bool) {
    && AllConvert(Orphans(taxableFees, taxable), converts)
    && (forall id :: AllConvert(LeftOver(FeesOfTx(taxable, id), PoolOf(taxable, id)), converts))
    && (forall id :: AllConvert(LeftOver(FeesOfTx(taxable, id), ConcentratedOf(taxable, id)), converts))
  }

  lemma GroupLeavesAt(taxable: seq<Message>, grouped: Lists, id: nat)
    requires Consistent(taxable) && DrawnLists(grouped, taxable)
    ensures LeftOver(FeesOfTx(taxable, id), ListAt(grouped, id))
         == if id in grouped then Beyond(TxFees(grouped, id), |grouped[id]|) else []
  {
    GroupFees(taxable, grouped, id);
  }

  lemma GroupLeaves(taxable: seq<Message>, grouped: Lists, converts: Fee -> bool)
    requires Consistent(taxable) && DrawnLists(grouped, taxable)
    ensures LeftoversConvert(grouped, converts)
       <==> forall id :: AllConvert(LeftOver(FeesOfTx(taxable, id), ListAt(grouped, id)), converts)
  {
    forall id
      ensures LeftOver(FeesOfTx(taxable, id), ListAt(grouped, id))
           == if id in grouped then Beyond(TxFees(grouped, id), |grouped[id]|) else []
    {
      GroupLeavesAt(taxable, grouped, id);
    }
  }

  lemma GroupsLeave(taxable: seq<Message>, plain: Lists, pool: Lists, concentrated: Lists,
                    taxableFees: seq<Fee>, converts: Fee -> bool)
    requires Consistent(taxable) && Separated(taxable, plain, pool, concentrated)
    requires DrawnLists(pool, taxable) && DrawnLists(concentrated, taxable)
    ensures FeeRowsConvert(taxable, taxableFees, converts)
       <==> && LeftoversConvert(pool, converts) && LeftoversConvert(concentrated, converts)
            && AllConvert(Orphans(taxableFees, taxable), converts)
  {
    GroupLeaves(taxable, pool, converts);
    GroupLeaves(taxable, concentrated, converts);
  }

  /** The four parts of the export have done their share. */
  ghost predicate AllDone(address: string, taxable: seq<Message>, taxableFees: seq<Fee>,
                          parses: Message -> bool, converts: Fee -> bool,
                          plain: Lists, pool: Lists, concentrated: Lists,
                          rows: seq<Row>, orphanRows: seq<Row>, poolRows: seq<Row>, concentratedRows: seq<Row>) {
    && Consistent(taxable) && Separated(taxable, plain, pool, concentrated)
    && DrawnLists(plain, taxable) && DrawnLists(pool, taxable) && DrawnLists(concentrated, taxable)
    && PlainDone(plain, rows, address, parses, converts)
    && FeesIn(orphanRows) == Orphans(taxableFees, taxable) && MessagesIn(orphanRows) == []
    && orphanRows == AloneRows(Orphans(taxableFees, taxable))
    && GroupDone(pool, poolRows) && GroupDone(concentrated, concentratedRows)
  }

  lemma FeesExported(address: string, taxable: seq<Message>, taxableFees: seq<Fee>,
                     parses: Message -> bool, converts: Fee -> bool,
                     plain: Lists, pool: Lists, concentrated: Lists,
                     rows: seq<Row>, orphanRows: seq<Row>, poolRows: seq<Row>, concentratedRows: seq<Row>, id: nat)
    requires AllDone(address, taxable, taxableFees, parses, converts, plain, pool, concentrated,
                     rows, orphanRows, poolRows, concentratedRows)
    ensures FeesOf(FeesIn(rows + orphanRows + poolRows + concentratedRows), id)
         == Emitted(address, taxable, taxableFees, converts, id)
  {
    PlainAt(taxable, plain, rows, address, parses, converts, id);
    GroupAt(taxable, pool, poolRows, PoolOf(taxable, id), id);
    GroupAt(taxable, concentrated, concentratedRows, ConcentratedOf(taxable, id), id);
    OrphansOf(taxableFees, taxable, id);
    FeesExportedAt(address, taxable, taxableFees, converts, rows, orphanRows, poolRows, concentratedRows, id);
  }

  lemma MessagesExported(address: string, taxable: seq<Message>, taxableFees: seq<Fee>,
                         parses: Message -> bool, converts: Fee -> bool,
                         plain: Lists, pool: Lists, concentrated: Lists,
                         rows: seq<Row>, orphanRows: seq<Row>, poolRows: seq<Row>, concentratedRows: seq<Row>, id: nat)
    requires AllDone(address, taxable, taxableFees, parses, converts, plain, pool, concentrated,
                     rows, orphanRows, poolRows, concentratedRows)
    ensures OfTx(MessagesIn(rows + orphanRows + poolRows + concentratedRows), id)
         == EmittedMessages(taxable, parses, id)
  {
    PlainAt(taxable, plain, rows, address, parses, converts, id);
    GroupAt(taxable, pool, poolRows, PoolOf(taxable, id), id);
    GroupAt(taxable, concentrated, concentratedRows, ConcentratedOf(taxable, id), id);
    MessagesExportedAt(taxable, parses, rows, orphanRows, poolRows, concentratedRows, id);
  }

  lemma RowsExportedAt(address: string, taxable: seq<Message>, taxableFees: seq<Fee>,
                       parses: Message -> bool, converts: Fee -> bool, plain: Lists, rows: seq<Row>, id: nat)
    requires Consistent(taxable) && DrawnLists(plain, taxable) && ListAt(plain, id) == PlainOf(taxable, id)
    requires PlainDone(plain, rows, address, parses, converts)
    ensures var all := RowsOf(rows + AloneRows(Orphans(taxableFees, taxable)), id);
            if OfTx(taxable, id) == [] then all == AloneRows(FeesOf(taxableFees, id))
            else if PlainOf(taxable, id) == [] then all == []
            else MessageRowsFirst(all, Parsed(PlainOf(taxable, id), parses), FeesOfTx(taxable, id), address, converts)
  {
    var alone := AloneRows(Orphans(taxableFees, taxable));
    PlainAt(taxable, plain, rows, address, parses, converts, id);
    OrphansOf(taxableFees, taxable, id);
    AloneRowsOf(Orphans(taxableFees, taxable), id);
    RowsOfConcat(rows, alone, id);
    OntoNothing(RowsOf(rows, id), RowsOf(alone, id));
    OntoNothing(RowsOf(alone, id), RowsOf(rows, id));
    if OfTx(taxable, id) == [] {
      NothingByKind(PoolKinds(), ConcentratedKinds());
    }
  }

  lemma RowsExported(address: string, taxable: seq<Message>, taxableFees: seq<Fee>,
                     parses: Message -> bool, converts: Fee -> bool,
                     plain: Lists, pool: Lists, concentrated: Lists,
                     rows: seq<Row>, orphanRows: seq<Row>, poolRows: seq<Row>, concentratedRows: seq<Row>)
    requires AllDone(address, taxable, taxableFees, parses, converts, plain, pool, concentrated,
                     rows, orphanRows, poolRows, concentratedRows)
    ensures ExportedRows(address, taxable, taxableFees, parses, converts, rows + orphanRows, poolRows, concentratedRows)
  {
    forall id ensures ExportedRowsAt(address, taxable, taxableFees, parses, converts,
                                     rows + orphanRows, poolRows, concentratedRows, id)
    {
      RowsExportedAt(address, taxable, taxableFees, parses, converts, plain, rows, id);
      GroupAt(taxable, pool, poolRows, PoolOf(taxable, id), id);
      GroupAt(taxable, concentrated, concentratedRows, ConcentratedOf(taxable, id), id);
    }
  }

  lemma ExportedIs(address: string, taxable: seq<Message>, taxableFees: seq<Fee>,
                   parses: Message -> bool, converts: Fee -> bool,
                   plain: Lists, pool: Lists, concentrated: Lists,
                   rows: seq<Row>, orphanRows: seq<Row>, poolRows: seq<Row>, concentratedRows: seq<Row>)
    requires AllDone(address, taxable, taxableFees, parses, converts, plain, pool, concentrated,
                     rows, orphanRows, poolRows, concentratedRows)
    ensures Exported(address, taxable, taxableFees, parses, converts,
                     rows + orphanRows + poolRows + concentratedRows)
  {
    var all := rows + orphanRows + poolRows + concentratedRows;
    forall id ensures FeesOf(FeesIn(all), id) == Emitted(address, taxable, taxableFees, converts, id)
                      && OfTx(MessagesIn(all), id) == EmittedMessages(taxable, parses, id) {
      FeesExported(address, taxable, taxableFees, parses, converts, plain, pool, concentrated,
                   rows, orphanRows, poolRows, concentratedRows, id);
      MessagesExported(address, taxable, taxableFees, parses, converts, plain, pool, concentrated,
                       rows, orphanRows, poolRows, concentratedRows, id);
    }
  }

  lemma ConcatFour(a: seq<Row>, b: seq<Row>, c: seq<Row>, d: seq<Row>, id: nat)
    ensures FeesOf(FeesIn(a + b + c + d), id)
         == FeesOf(FeesIn(a), id) + FeesOf(FeesIn(b), id) + FeesOf(FeesIn(c), id) + FeesOf(FeesIn(d), id)
    ensures OfTx(MessagesIn(a + b + c + d), id)
         == OfTx(MessagesIn(a), id) + OfTx(MessagesIn(b), id) + OfTx(MessagesIn(c), id) + OfTx(MessagesIn(d), id)
  {
    ConcatTwo(a, b, id);
    ConcatTwo(a + b, c, id);
    ConcatTwo(a + b + c, d, id);
  }

  lemma ConcatTwo(a: seq<Row>, b: seq<Row>, id: nat)
    ensures FeesOf(FeesIn(a + b), id) == FeesOf(FeesIn(a), id) + FeesOf(FeesIn(b), id)
    ensures OfTx(MessagesIn(a + b), id) == OfTx(MessagesIn(a), id) + OfTx(MessagesIn(b), id)
  {
    FeesInConcat(a, b);
    FeesOfConcat(FeesIn(a), FeesIn(b), id);
    OfTxConcat(MessagesIn(a), MessagesIn(b), id);
  }

  class Parser {
    var rows: seq<Row>
    const pool: ParsingGroup
    const concentrated: ParsingGroup

    constructor ()
      ensures rows == [] && fresh(pool) && fresh(concentrated) && pool != concentrated
      ensures pool.kinds == PoolKinds() && concentrated.kinds == ConcentratedKinds()
      ensures pool.grouped == map[] && concentrated.grouped == map[] && pool.rows == [] && concentrated.rows == []
    {
      rows := [];
      pool := new ParsingGroup(PoolKinds());
      concentrated := new ParsingGroup(ConcentratedKinds());
    }

    /** A parser with its two groups, used for the first time. */
    predicate Unused()
      reads this, pool, concentrated
    {
      && pool != concentrated
      && pool.kinds == PoolKinds() && concentrated.kinds == ConcentratedKinds()
      && rows == [] && pool.rows == [] && concentrated.rows == []
      && pool.grouped == map[] && concentrated.grouped == map[]
    }

    function AllRows(): seq<Row>
      reads this, pool, concentrated
    {
      rows + pool.rows + concentrated.rows
    }

    /** Separates the messages of fresh groups; what is left is parsed one transaction at a time. */
    method Separate(txMap: Lists, ghost taxable: seq<Message>) returns (plain: Lists)
      requires pool != concentrated && pool.kinds == PoolKinds() && concentrated.kinds == ConcentratedKinds()
      requires pool.grouped == map[] && concentrated.grouped == map[]
      requires Tidy(txMap) && GroupedBy(taxable, txMap)
      modifies pool`grouped, concentrated`grouped
      ensures Separated(taxable, plain, pool.grouped, concentrated.grouped)
      ensures Tidy(pool.grouped) && Tidy(concentrated.grouped)
    {
      var inPlace := new TxMap(txMap);
      SeparateParsingGroups(inPlace, pool, concentrated);
      plain := inPlace.lists;
      SeparatedFromFresh(taxable, txMap, plain, pool.grouped, concentrated.grouped);
    }

    /**
      The export of one address by an unused parser. It succeeds exactly when the
      fees that get rows of their own can be converted, and then each transaction's
      fees and messages come out as stated, in any order of the transactions.
     */
    method ProcessTaxableTx(address: string, taxable: seq<Message>, taxableFees: seq<Fee>,
                            parses: Message -> bool, converts: Fee -> bool) returns (ok: bool)
      requires Unused() && Consistent(taxable)
      modifies this, pool, concentrated
      ensures ok ==> Exported(address, taxable, taxableFees, parses, converts, AllRows())
      ensures ok ==> ExportedRows(address, taxable, taxableFees, parses, converts, rows, pool.rows, concentrated.rows)
      ensures ok <==> FeeRowsConvert(taxable, taxableFees, converts)
    {
      var txMap := MakeTXMap(taxable);
      var feesWithoutTx := FeesWithoutTx(txMap, taxable, taxableFees);
      var plain := Separate(txMap, taxable);
      SeparatedDrawn(taxable, plain, pool.grouped, concentrated.grouped);
      DrawnOwnFees(pool.grouped, taxable);
      DrawnOwnFees(concentrated.grouped, taxable);
      GroupsLeave(taxable, plain, pool.grouped, concentrated.grouped, taxableFees, converts);
      rows := ParsePlain(plain, taxable, address, parses, converts);
      ok := ParseGroup(pool, converts);
      if !ok {
        return;
      }
      ok := ParseGroup(concentrated, converts);
      if !ok {
        return;
      }
      var feeRows;
      ok, feeRows := FeeRows(feesWithoutTx, converts);
      if !ok {
        return;
      }
      assert pool.rows[0..] == pool.rows && concentrated.rows[0..] == concentrated.rows;
      ExportedIs(address, taxable, taxableFees, parses, converts, plain, pool.grouped, concentrated.grouped,
                 rows, feeRows, pool.rows, concentrated.rows);
      RowsExported(address, taxable, taxableFees, parses, converts, plain, pool.grouped, concentrated.grouped,
                   rows, feeRows, pool.rows, concentrated.rows);
      rows := rows + feeRows;
    }
  }

  // -------------------------------------------------------------------- exactly once

  /** The transaction's messages are all plain, or all in one group and its fees all paid by the address. */
  predicate OneClass(address: string, taxable: seq<Message>, id: nat) {
    var plain, pool, concentrated := PlainOf(taxable, id) != [], PoolOf(taxable, id) != [], ConcentratedOf(taxable, id) != [];
    || (plain && !pool && !concentrated)
    || (!plain && pool != concentrated && forall f | f in FeesOfTx(taxable, id) :: f.payer == address)
  }

  function Always(f: Fee): bool {
    true
  }

  lemma SomeClass(messages: seq<Message>, kinds: set<string>, kinds2: set<string>)
    requires messages != []
    ensures Plain(messages, kinds, kinds2) != [] || OfKinds(messages, kinds) != [] || OfKinds(messages, kinds2) != []
  {
  }

  /** The fees known for a transaction: those of its messages, or without messages those listed separately. */
  function Due(taxable: seq<Message>, taxableFees: seq<Fee>, id: nat): seq<Fee> {
    if OfTx(taxable, id) != [] then FeesOfTx(taxable, id) else FeesOf(taxableFees, id)
  }

  lemma OnceWithMessages(address: string, taxable: seq<Message>, taxableFees: seq<Fee>, id: nat)
    requires OfTx(taxable, id) != []
    ensures Emitted(address, taxable, taxableFees, Always, id) == Paid(FeesOfTx(taxable, id), address, Always)
       <==> FeesOfTx(taxable, id) == [] || OneClass(address, taxable, id)
  {
    PaidAreFees(FeesOfTx(taxable, id), address, Always);
    SomeClass(OfTx(taxable, id), PoolKinds(), ConcentratedKinds());
  }

  lemma NothingByKind(kinds: set<string>, kinds2: set<string>)
    ensures OfKinds([], kinds) == [] && Plain([], kinds, kinds2) == []
  {
  }

  lemma OnceWithoutMessages(address: string, taxable: seq<Message>, taxableFees: seq<Fee>, id: nat)
    requires OfTx(taxable, id) == []
    ensures Emitted(address, taxable, taxableFees, Always, id) == FeesOf(taxableFees, id)
  {
    NothingByKind(PoolKinds(), ConcentratedKinds());
    NothingByKind(ConcentratedKinds(), PoolKinds());
  }

  lemma AllPaid(fees: seq<Fee>, address: string)
    ensures fees == Paid(fees, address, Always) <==> forall f | f in fees :: f.payer == address
  {
    PaidAreFees(fees, address, Always);
  }

  /**
    Exactly when each fee of a transaction that the address paid is emitted once,
    and no other fee of it: its messages are of one class, for a group or without
    messages the address paid all the fees, or there are no fees. Otherwise fees are
    repeated or another payer's fees are emitted.
   */
  lemma ExactlyOnceIff(address: string, taxable: seq<Message>, taxableFees: seq<Fee>, id: nat)
    ensures Emitted(address, taxable, taxableFees, Always, id) == Paid(Due(taxable, taxableFees, id), address, Always)
       <==> || Due(taxable, taxableFees, id) == []
            || (if OfTx(taxable, id) != [] then OneClass(address, taxable, id)
                else forall f | f in FeesOf(taxableFees, id) :: f.payer == address)
  {
    if OfTx(taxable, id) != [] {
      OnceWithMessages(address, taxable, taxableFees, id);
    } else {
      OnceWithoutMessages(address, taxable, taxableFees, id);
      AllPaid(FeesOf(taxableFees, id), address);
    }
  }

  const SEND := "/cosmos.bank.v1beta1.MsgSend"
  const JOIN := "/osmosis.gamm.v1beta1.MsgJoinPool"

  /** One fee, of a transaction that sends coins and joins a pool. */
  function MixedFee(address: string): Fee {
    Fee(7, address, 1, 500)
  }

  function Mixed(address: string): seq<Message> {
    var tx := Tx(7, [MixedFee(address)]);
    [Message(1, tx, SEND), Message(2, tx, JOIN)]
  }

  lemma TwoOfTx(a: Message, b: Message, id: nat)
    requires a.tx.id == id && b.tx.id == id
    ensures OfTx([a, b], id) == [a, b]
  {
    OfTxOwn([a, b], id, id);
  }

  lemma TwoByKind(a: Message, b: Message, kinds: set<string>, kinds2: set<string>)
    ensures OfKinds([a, b], kinds) == (if a.kind in kinds then [a] else []) + (if b.kind in kinds then [b] else [])
    ensures Plain([a, b], kinds, kinds2)
         == (if a.kind in kinds || a.kind in kinds2 then [] else [a])
            + (if b.kind in kinds || b.kind in kinds2 then [] else [b])
  {
    assert [a, b][..1] == [a] && [a][..0] == [];
    assert OfKinds([a], kinds) == if a.kind in kinds then [a] else [];
    assert Plain([a], kinds, kinds2) == if a.kind in kinds || a.kind in kinds2 then [] else [a];
  }

  lemma SendIsPlain()
    ensures SEND !in PoolKinds() && SEND !in ConcentratedKinds()
  {
    assert |SEND| == 28;
    if SEND in PoolKinds() {
      PoolLength(SEND);
    }
    if SEND in ConcentratedKinds() {
      ConcentratedLength(SEND);
    }
  }

  lemma MixedClasses(address: string)
    ensures PlainOf(Mixed(address), 7) == [Mixed(address)[0]]
    ensures PoolOf(Mixed(address), 7) == [Mixed(address)[1]]
    ensures ConcentratedOf(Mixed(address), 7) == []
    ensures OfTx(Mixed(address), 7) == Mixed(address)
  {
    var a, b := Mixed(address)[0], Mixed(address)[1];
    TwoOfTx(a, b, 7);
    TwoByKind(a, b, PoolKinds(), ConcentratedKinds());
    TwoByKind(a, b, ConcentratedKinds(), PoolKinds());
    SendIsPlain();
    NotInBoth(JOIN);
  }

  /** The transaction's one fee comes out twice, although the address paid it once. */
  lemma MixedRepeatsFee(address: string)
    ensures Consistent(Mixed(address))
    ensures Paid(Due(Mixed(address), [], 7), address, Always) == [MixedFee(address)]
    ensures Emitted(address, Mixed(address), [], Always, 7) == [MixedFee(address), MixedFee(address)]
  {
    MixedClasses(address);
    PaidAreFees([MixedFee(address)], address, Always);
  }
}
