/**
  Indexing of begin- and end-block events: the text that identifies an event, the
  stable sort by its digest, the batches that commit separately, and the insertion
  loop that remembers the last chain and block instead of looking them up again.
 */
module BlockEvents {
  import opened Options
  import opened Decimal
  import opened Ledger
  import opened Tables
  import opened BlockData
  import opened Database

  const BATCH_SIZE: nat := 10000

  // ---------------------------------------------------------------- identity of an event

  /** The text whose SHA-256 digest identifies a payout. */
  function KeyText(address: string, height: int, amount: int, denom: string): string {
    address + Text(height) + " " + Text(amount) + denom
  }

  predicate SpaceFree(s: string) {
    ' ' !in s
  }

  lemma SpaceInside(x: string, r: string, y: string, q: string)
    requires x + (" " + r) == y + (" " + q) && |x| < |y|
    ensures !SpaceFree(y)
  {
    assert (x + (" " + r))[|x|] == ' ' && (y + (" " + q))[|x|] == y[|x|];
  }

  lemma FirstSpace(x: string, r: string, y: string, q: string)
    requires x + (" " + r) == y + (" " + q) && SpaceFree(x) && SpaceFree(y)
    ensures x == y && r == q
  {
    if |x| < |y| {
      SpaceInside(x, r, y, q);
    } else if |y| < |x| {
      SpaceInside(y, q, x, r);
    } else {
      SplitEqual(x, " " + r, y, " " + q);
      SplitEqual(" ", r, " ", q);
    }
  }

  lemma TextSpaceFree(i: int)
    ensures SpaceFree(Text(i))
  {
  }

  /**
    Exactly when two payouts have one text: their amounts and denominations are
    the same, and the address followed by the height reads the same.
   */
  lemma KeyTextSameIff(a: string, h: int, m: int, d: string, b: string, g: int, n: int, e: string)
    requires SpaceFree(a) && SpaceFree(b) && !StartsWithDigit(d) && !StartsWithDigit(e)
    ensures KeyText(a, h, m, d) == KeyText(b, g, n, e) <==> a + Text(h) == b + Text(g) && m == n && d == e
  {
    TextSpaceFree(h);
    TextSpaceFree(g);
    Regroup(a + Text(h), " ", Text(m) + d);
    Regroup(a + Text(h) + " ", Text(m), d);
    Regroup(b + Text(g), " ", Text(n) + e);
    Regroup(b + Text(g) + " ", Text(n), e);
    if KeyText(a, h, m, d) == KeyText(b, g, n, e) {
      FirstSpace(a + Text(h), Text(m) + d, b + Text(g), Text(n) + e);
      TextThenRest(m, d, n, e);
    }
  }

  /** One of the lengths is larger by more than a 64-bit height, which has at most 19 digits, can make up for. */
  predicate FarApart(a: string, b: string) {
    |a| >= |b| + 19 || |b| >= |a| + 19
  }

  predicate IsHeight(h: int) {
    0 <= h <= MAX_INT64
  }

  /**
    Addresses of one length; or without spaces, as bech32 has none, and either at
    one height or of lengths that are far apart.
   */
  predicate ToldApart(a: string, h: int, b: string, g: int) {
    || |a| == |b|
    || (SpaceFree(a) && SpaceFree(b) && (h == g || (IsHeight(h) && IsHeight(g) && FarApart(a, b))))
  }

  lemma LongerAddress(a: string, h: int, b: string, g: int)
    requires IsHeight(h) && |b| >= |a| + 19
    ensures a + Text(h) != b + Text(g)
  {
    TextLength(h);
    assert |a + Text(h)| == |a| + |Text(h)| && |b + Text(g)| == |b| + |Text(g)|;
  }

  lemma SameHeight(a: string, h: int, b: string)
    requires a + Text(h) == b + Text(h)
    ensures a == b
  {
    assert |a + Text(h)| == |a| + |Text(h)| && |b + Text(h)| == |b| + |Text(h)|;
    SplitEqual(a, Text(h), b, Text(h));
  }

  lemma KeyTextParts(a: string, h: int, m: int, d: string)
    ensures KeyText(a, h, m, d) == a + (Text(h) + (" " + (Text(m) + d)))
  {
    Regroup(a, Text(h), " " + (Text(m) + d));
    Regroup(a + Text(h), " ", Text(m) + d);
    Regroup(a + Text(h) + " ", Text(m), d);
  }

  lemma OneLength(a: string, h: int, m: int, d: string, b: string, g: int, n: int, e: string)
    requires |a| == |b| && !StartsWithDigit(d) && !StartsWithDigit(e)
    requires KeyText(a, h, m, d) == KeyText(b, g, n, e)
    ensures a == b && h == g && m == n && d == e
  {
    KeyTextParts(a, h, m, d);
    KeyTextParts(b, g, n, e);
    SplitEqual(a, Text(h) + (" " + (Text(m) + d)), b, Text(g) + (" " + (Text(n) + e)));
    TextThenRest(h, " " + (Text(m) + d), g, " " + (Text(n) + e));
    SplitEqual(" ", Text(m) + d, " ", Text(n) + e);
    TextThenRest(m, d, n, e);
  }

  /** The text determines all four parts, for addresses that can be told apart. */
  lemma KeyTextInjective(a: string, h: int, m: int, d: string, b: string, g: int, n: int, e: string)
    requires ToldApart(a, h, b, g) && !StartsWithDigit(d) && !StartsWithDigit(e)
    ensures KeyText(a, h, m, d) == KeyText(b, g, n, e) <==> a == b && h == g && m == n && d == e
  {
    if KeyText(a, h, m, d) == KeyText(b, g, n, e) {
      if |a| == |b| {
        OneLength(a, h, m, d, b, g, n, e);
      } else {
        KeyTextSameIff(a, h, m, d, b, g, n, e);
        if h == g {
          SameHeight(a, h, b);
        } else if |b| > |a| {
          LongerAddress(a, h, b, g);
        } else {
          LongerAddress(b, g, a, h);
        }
      }
    }
  }

  lemma Regroup(a: string, b: string, c: string)
    ensures a + b + c == a + (b + c)
  {
  }

  /** The condition on denominations is needed: else a digit of the amount could hide in the denomination. */
  lemma KeyTextAmbiguousDenom(a: string, h: int)
    ensures KeyText(a, h, 1, "2atom") == KeyText(a, h, 12, "atom")
  {
    assert Digits(12) == Digits(1) + [Digit(2)];
    assert Text(1) + "2atom" == Text(12) + "atom";
    assert KeyText(a, h, 1, "2atom") == a + Text(h) + " " + (Text(1) + "2atom");
    assert KeyText(a, h, 12, "atom") == a + Text(h) + " " + (Text(12) + "atom");
  }

  /** The condition on lengths is needed: else the end of an address could pass for the start of the height. */
  lemma KeyTextAmbiguousAddress(m: int, d: string)
    ensures KeyText("osmo1", 12, m, d) == KeyText("osmo", 112, m, d)
  {
    assert Digits(112) == Digits(11) + [Digit(2)] == Digits(1) + [Digit(1)] + [Digit(2)];
    assert Digits(12) == Digits(1) + [Digit(2)];
    assert "osmo1" + Text(12) == "osmo" + Text(112);
  }

  // ------------------------------------------------------------------------- stable sort

  datatype EventData = EventData(
    hash: nat, source: nat, amount: int, denom: Denom, address: string,
    chain: string, chainName: string, height: int, time: int)

  predicate Sorted(s: seq<EventData>) {
    forall i, j | 0 <= i < j < |s| :: s[i].hash <= s[j].hash
  }

  /** e goes behind the last event whose digest is not larger. */
  function Insert(s: seq<EventData>, e: EventData): seq<EventData> {
    if s == [] || s[|s| - 1].hash <= e.hash then s + [e]
    else Insert(s[..|s| - 1], e) + [s[|s| - 1]]
  }

  function StableSort(s: seq<EventData>): seq<EventData> {
    if s == [] then [] else Insert(StableSort(s[..|s| - 1]), s[|s| - 1])
  }

  function WithHash(s: seq<EventData>, h: nat): seq<EventData> {
    if s == [] then []
    else WithHash(s[..|s| - 1], h) + (if s[|s| - 1].hash == h then [s[|s| - 1]] else [])
  }

  lemma {:induction false} InsertKeeps(s: seq<EventData>, e: EventData)
    ensures multiset(Insert(s, e)) == multiset(s) + multiset{e}
  {
    if s != [] && s[|s| - 1].hash > e.hash {
      var init := s[..|s| - 1];
      InsertKeeps(init, e);
      assert s == init + [s[|s| - 1]];
    }
  }

  lemma {:induction false} InsertSorted(s: seq<EventData>, e: EventData)
    requires Sorted(s)
    ensures Sorted(Insert(s, e))
  {
    if s != [] && s[|s| - 1].hash > e.hash {
      var init, last := s[..|s| - 1], s[|s| - 1];
      InsertSorted(init, e);
      InsertKeeps(init, e);
      var inner := Insert(init, e);
      forall i | 0 <= i < |inner| ensures inner[i].hash <= last.hash {
        assert inner[i] in multiset(inner);
        assert inner[i] == e || inner[i] in init;
      }
    }
  }

  lemma OneMoreWithHash(s: seq<EventData>, e: EventData, h: nat)
    ensures WithHash(s + [e], h) == WithHash(s, h) + (if e.hash == h then [e] else [])
  {
    assert (s + [e])[..|s|] == s;
  }

  lemma {:induction false} InsertStable(s: seq<EventData>, e: EventData, h: nat)
    requires Sorted(s)
    ensures WithHash(Insert(s, e), h) == WithHash(s, h) + (if e.hash == h then [e] else [])
  {
    if s == [] || s[|s| - 1].hash <= e.hash {
      OneMoreWithHash(s, e, h);
    } else {
      var init, last := s[..|s| - 1], s[|s| - 1];
      InsertStable(init, e, h);
      OneMoreWithHash(Insert(init, e), last, h);
    }
  }

  /** The sort orders by digest, keeps all events, and keeps events of one digest in their order. */
  lemma {:induction false} StableSortCorrect(s: seq<EventData>)
    ensures Sorted(StableSort(s)) && multiset(StableSort(s)) == multiset(s)
    ensures forall h :: WithHash(StableSort(s), h) == WithHash(s, h)
  {
    if s != [] {
      var init, last := s[..|s| - 1], s[|s| - 1];
      assert s == init + [last];
      StableSortCorrect(init);
      InsertSorted(StableSort(init), last);
      InsertKeeps(StableSort(init), last);
      forall h ensures WithHash(StableSort(s), h) == WithHash(s, h) {
        InsertStable(StableSort(init), last, h);
      }
    }
  }

  // ------------------------------------------------------------------- insertion of a batch

  /**
    The block that event n is attached to. The insertion loop looks a block up only
    when its height differs from the height of the block it used last.
   */
  function Attached(events: seq<EventData>, n: nat): (string, int)
    requires n < |events|
    decreases n
  {
    if n > 0 && Attached(events, n - 1).1 == events[n].height then Attached(events, n - 1)
    else (events[n].chain, events[n].height)
  }

  lemma {:induction false} AttachedHeight(events: seq<EventData>, n: nat)
    requires n < |events|
    ensures Attached(events, n).1 == events[n].height
  {
  }

  predicate OwnBlocks(events: seq<EventData>) {
    forall n | 0 <= n < |events| :: Attached(events, n) == (events[n].chain, events[n].height)
  }

  predicate ChainsFollowHeights(events: seq<EventData>) {
    forall n | 0 < n < |events| && events[n].height == events[n - 1].height :: events[n].chain == events[n - 1].chain
  }

  /**
    Remembering the last block agrees with a lookup per event if and only if
    neighbouring events of one height are of one chain.
   */
  lemma RememberedBlockIsRight(events: seq<EventData>)
    ensures OwnBlocks(events) <==> ChainsFollowHeights(events)
  {
    if ChainsFollowHeights(events) {
      forall n | 0 <= n < |events| ensures Attached(events, n) == (events[n].chain, events[n].height) {
        RememberedUpTo(events, n);
      }
    }
    if OwnBlocks(events) {
      forall n | 0 < n < |events| && events[n].height == events[n - 1].height
        ensures events[n].chain == events[n - 1].chain
      {
        assert Attached(events, n - 1) == (events[n - 1].chain, events[n - 1].height);
        assert Attached(events, n) == (events[n].chain, events[n].height);
      }
    }
  }

  lemma {:induction false} RememberedUpTo(events: seq<EventData>, n: nat)
    requires n < |events| && ChainsFollowHeights(events)
    ensures Attached(events, n) == (events[n].chain, events[n].height)
  {
    if n > 0 {
      RememberedUpTo(events, n - 1);
    }
  }

  function EventValue(e: EventData, block: (string, int)): Val {
    EventV(e.source, e.amount, e.denom.id, Named(e.address), block.0, block.1)
  }

  /** Looking up chain, block and address of one event, and creating the event unless its digest is stored. */
  function EventOps(e: EventData, block: (string, int)): seq<Op> {
    [Ensure(ChainK(e.chain), ChainV(e.chainName))]
    + [Ensure(BlockK(block.0, block.1), BlockV(e.time, false))]
    + AddressOps(e.address)
    + [Ensure(EventK(e.hash), EventValue(e, block))]
  }

  function EventsOps(events: seq<EventData>, n: nat): seq<Op>
    requires n <= |events|
  {
    if n == 0 then [] else EventsOps(events, n - 1) + EventOps(events[n - 1], Attached(events, n - 1))
  }

  predicate GoodDenom(e: EventData) {
    e.denom.base != "" && e.denom.symbol != ""
  }

  /** The rows used last; the zero values match no chain and no height. */
  datatype Memo = Memo(chain: Id, chainId: string, chainName: string, block: Id, height: int)

  const NOTHING_YET := Memo(0, "", "", 0, 0)

  ghost predicate Remembers(t: Tables, m: Memo, events: seq<EventData>, n: nat)
    requires n <= |events|
  {
    if n == 0 then m == NOTHING_YET
    else
      var b := Attached(events, n - 1);
      && m.chainId == events[n - 1].chain && IsAt(t, ChainK(m.chainId), m.chain)
      && m.height == events[n - 1].height && IsAt(t, BlockK(b.0, b.1), m.block)
  }

  method RememberChain(db: Database, e: EventData, m: Memo) returns (m2: Memo)
    requires Valid(db.tables)
    requires m.chainId == e.chain ==> IsAt(db.tables, ChainK(e.chain), m.chain)
    modifies db
    ensures Wrote(old(db.tables), db.tables, [Ensure(ChainK(e.chain), ChainV(e.chainName))])
    ensures m2.chainId == e.chain && IsAt(db.tables, ChainK(e.chain), m2.chain)
    ensures m2.block == m.block && m2.height == m.height
  {
    m2 := m;
    if m.chainId != e.chain || m.chainName != e.chainName {
      var id := db.EnsureChain(e.chain, e.chainName);
      m2 := m.(chain := id, chainId := e.chain, chainName := db.tables.chains[id].name);
    } else {
      WroteFound(db.tables, ChainK(e.chain), m.chain, ChainV(e.chainName));
    }
  }

  method RememberBlock(db: Database, e: EventData, m: Memo, ghost block: (string, int)) returns (m2: Memo)
    requires Valid(db.tables) && IsAt(db.tables, ChainK(e.chain), m.chain)
    requires if m.height == e.height then IsAt(db.tables, BlockK(block.0, block.1), m.block)
             else block == (e.chain, e.height)
    modifies db
    ensures Wrote(old(db.tables), db.tables, [Ensure(BlockK(block.0, block.1), BlockV(e.time, false))])
    ensures m2.height == e.height && IsAt(db.tables, BlockK(block.0, block.1), m2.block)
    ensures m2.chain == m.chain && m2.chainId == m.chainId
  {
    m2 := m;
    if m.height != e.height {
      var id := db.EnsureBlock(m.chain, e.height, e.time);
      m2 := m.(block := id, height := e.height);
    } else {
      WroteFound(db.tables, BlockK(block.0, block.1), m.block, BlockV(e.time, false));
    }
  }

  lemma RememberedRows(t: Tables, m: Memo, events: seq<EventData>, n: nat)
    requires n < |events| && Remembers(t, m, events, n)
    requires events[n].height != 0 && events[n].chain != ""
    ensures m.chainId == events[n].chain ==> IsAt(t, ChainK(events[n].chain), m.chain)
    ensures var b := Attached(events, n);
            if m.height == events[n].height then IsAt(t, BlockK(b.0, b.1), m.block)
            else b == (events[n].chain, events[n].height)
  {
    if n > 0 {
      AttachedHeight(events, n - 1);
    }
  }

  /** The body of the insertion loop for event n; false when its denomination is not known. */
  method InsertEvent(db: Database, events: seq<EventData>, n: nat, m: Memo) returns (m2: Memo, ok: bool)
    requires Valid(db.tables) && n < |events| && Remembers(db.tables, m, events, n)
    requires events[n].height != 0 && events[n].chain != ""
    modifies db
    ensures ok <==> GoodDenom(events[n])
    ensures ok ==> Wrote(old(db.tables), db.tables, EventOps(events[n], Attached(events, n)))
    ensures ok ==> Remembers(db.tables, m2, events, n + 1)
  {
    var e := events[n];
    ghost var block := Attached(events, n);
    ghost var t := db.tables;
    ghost var bk := BlockK(block.0, block.1);
    RememberedRows(t, m, events, n);
    m2 := RememberChain(db, e, m);
    ghost var t1 := db.tables;
    if m.height == e.height {
      GrowsKey(t, t1, bk, m.block);
    }
    m2 := RememberBlock(db, e, m2, block);
    ghost var t2 := db.tables;
    ghost var ops1, ops2 := [Ensure(ChainK(e.chain), ChainV(e.chainName))], [Ensure(bk, BlockV(e.time, false))];
    WroteThen(t, t1, t2, ops1, ops2);
    var address := db.EnsureNamed(e.address);
    ghost var t3 := db.tables;
    WroteThen(t, t2, t3, ops1 + ops2, AddressOps(e.address));
    ok := GoodDenom(e);
    if ok {
      GrowsKey(t2, t3, bk, m2.block);
      AttachedRow(t3, block, m2.block);
      db.EnsureEvent(EventRow(e.hash, e.source, e.amount, e.denom.id, address, m2.block));
      WroteThen(t, t3, db.tables, ops1 + ops2 + AddressOps(e.address), [Ensure(EventK(e.hash), EventValue(e, block))]);
      GrowsThen(t1, t2, t3);
      GrowsThen(t1, t3, db.tables);
      GrowsKey(t1, db.tables, ChainK(e.chain), m2.chain);
      GrowsKey(t3, db.tables, bk, m2.block);
    }
  }

  lemma AttachedRow(t: Tables, block: (string, int), i: Id)
    requires IsAt(t, BlockK(block.0, block.1), i)
    ensures i in t.blocks && BlockChain(t, i) == block.0 && BlockHeight(t, i) == block.1
  {
  }

  /** Insert a batch of events in one transaction. */
  method CreateTaxableEvents(db: Database, events: seq<EventData>, outage: bool) returns (ok: bool)
    requires Valid(db.tables)
    requires forall e | e in events :: e.height != 0 && e.chain != ""
    modifies db
    ensures ok <==> events != [] && (forall e | e in events :: GoodDenom(e)) && !outage
    ensures ok ==> Wrote(old(db.tables), db.tables, EventsOps(events, |events|))
    ensures !ok ==> db.tables == old(db.tables)
  {
    if events == [] {
      return false;
    }
    var saved := db.tables;
    var m := NOTHING_YET;
    WroteNothing(saved);
    for n := 0 to |events|
      invariant forall i | 0 <= i < n :: GoodDenom(events[i])
      invariant Wrote(saved, db.tables, EventsOps(events, n))
      invariant Remembers(db.tables, m, events, n)
    {
      assert events[n] in events;
      ghost var t := db.tables;
      m, ok := InsertEvent(db, events, n, m);
      if !ok {
        db.tables := saved;
        return;
      }
      WroteThen(saved, t, db.tables, EventsOps(events, n), EventOps(events[n], Attached(events, n)));
    }
    ok := !outage;
    if outage {
      db.tables := saved;
    }
  }

  // --------------------------------------------------------------------- all of a block

  /** An event as the block processing found it. */
  datatype RelevantEvent = RelevantEvent(address: string, amount: int, denomination: string, source: nat)

  /** What the events of one block have in common, with the digest and the denomination lookup in force. */
  datatype Context = Context(
    chain: string, chainName: string, height: int, time: int, sha: string -> nat, denomOf: string -> Denom)

  function ToEvent(c: Context, e: RelevantEvent): EventData {
    EventData(c.sha(KeyText(e.address, c.height, e.amount, e.denomination)), e.source, e.amount,
              c.denomOf(e.denomination), e.address, c.chain, c.chainName, c.height, c.time)
  }

  function ToEvents(c: Context, events: seq<RelevantEvent>): seq<EventData> {
    seq(|events|, i requires 0 <= i < |events| => ToEvent(c, events[i]))
  }

  /** The operations of events that are each attached to their own block. */
  function OwnOps(events: seq<EventData>): seq<Op> {
    if events == [] then []
    else
      var e := events[|events| - 1];
      OwnOps(events[..|events| - 1]) + EventOps(e, (e.chain, e.height))
  }

  lemma {:induction false} OwnOpsConcat(a: seq<EventData>, b: seq<EventData>)
    ensures OwnOps(a + b) == OwnOps(a) + OwnOps(b)
  {
    if b == [] {
      assert a + b == a;
    } else {
      assert (a + b)[..|a + b| - 1] == a + b[..|b| - 1];
      OwnOpsConcat(a, b[..|b| - 1]);
    }
  }

  lemma {:induction false} EventsOpsAreOwn(events: seq<EventData>, n: nat)
    requires n <= |events| && OwnBlocks(events)
    ensures EventsOps(events, n) == OwnOps(events[..n])
  {
    if n > 0 {
      EventsOpsAreOwn(events, n - 1);
      assert events[..n][..n - 1] == events[..n - 1];
    }
  }

  predicate OneBlock(c: Context, events: seq<EventData>) {
    forall e | e in events :: e.chain == c.chain && e.height == c.height
  }

  /** The first m of the sorted events were inserted. */
  ghost predicate InsertedUpTo(t: Tables, t2: Tables, sorted: seq<EventData>, m: nat) {
    m <= |sorted| && Wrote(t, t2, OwnOps(sorted[..m]))
  }

  lemma BatchOps(c: Context, sorted: seq<EventData>, i: nat, j: nat)
    requires i <= j <= |sorted| && OneBlock(c, sorted)
    ensures OwnOps(sorted[..j]) == OwnOps(sorted[..i]) + EventsOps(sorted[i..j], |sorted[i..j]|)
  {
    var batch := sorted[i..j];
    assert forall e | e in batch :: e in sorted;
    OneBlockOwn(c, batch);
    EventsOpsAreOwn(batch, |batch|);
    assert batch[..|batch|] == batch;
    assert sorted[..j] == sorted[..i] + batch;
    OwnOpsConcat(sorted[..i], batch);
  }

  lemma NothingInserted(t: Tables, sorted: seq<EventData>)
    requires Valid(t)
    ensures InsertedUpTo(t, t, sorted, 0)
  {
    WroteNothing(t);
    assert OwnOps(sorted[..0]) == [];
  }

  lemma AllInserted(t: Tables, t2: Tables, c: Context, blockEvents: seq<RelevantEvent>)
    requires InsertedUpTo(t, t2, StableSort(ToEvents(c, blockEvents)), |StableSort(ToEvents(c, blockEvents))|)
    ensures AllIndexed(t, t2, c, blockEvents)
  {
    var sorted := StableSort(ToEvents(c, blockEvents));
    assert sorted[..|sorted|] == sorted;
    if Telling(c, blockEvents) {
      AllPayoutColumns(ViewOf(t), c, blockEvents);
    }
  }

  lemma BatchFits(c: Context, sorted: seq<EventData>, i: nat, j: nat)
    requires i <= j <= |sorted| && OneBlock(c, sorted) && c.height != 0 && c.chain != ""
    ensures forall e | e in sorted[i..j] :: e.height != 0 && e.chain != ""
  {
    forall e | e in sorted[i..j] ensures e.height != 0 && e.chain != "" {
      assert e in sorted;
    }
  }

  /** The batch from i on can be stored. */
  predicate BatchFine(sorted: seq<EventData>, i: nat, outage: bool)
    requires i < |sorted|
  {
    !outage && forall e | e in sorted[i..BatchEnd(sorted, i)] :: GoodDenom(e)
  }

  function BatchEnd(sorted: seq<EventData>, i: nat): nat {
    if i + BATCH_SIZE > |sorted| then |sorted| else i + BATCH_SIZE
  }

  /** The denomination of every event is known. */
  predicate DenomsKnown(c: Context, blockEvents: seq<RelevantEvent>) {
    forall e | e in blockEvents :: c.denomOf(e.denomination).base != "" && c.denomOf(e.denomination).symbol != ""
  }

  /** The database serves all batches of 10000 of the block. */
  ghost predicate Served(blockEvents: seq<RelevantEvent>, outage: nat -> bool) {
    forall b: nat | b * 10000 < |blockEvents| :: !outage(b)
  }

  lemma SortedMember(c: Context, blockEvents: seq<RelevantEvent>, e: EventData)
    ensures e in StableSort(ToEvents(c, blockEvents)) <==> exists i :: 0 <= i < |blockEvents| && ToEvent(c, blockEvents[i]) == e
  {
    var events, sorted := ToEvents(c, blockEvents), StableSort(ToEvents(c, blockEvents));
    StableSortCorrect(events);
    assert e in sorted <==> e in multiset(sorted);
    assert e in events <==> e in multiset(events);
    if i :| 0 <= i < |blockEvents| && ToEvent(c, blockEvents[i]) == e {
      assert events[i] == e;
    }
  }

  lemma GoodEvents(c: Context, blockEvents: seq<RelevantEvent>)
    ensures DenomsKnown(c, blockEvents) <==> forall e | e in StableSort(ToEvents(c, blockEvents)) :: GoodDenom(e)
  {
    var sorted := StableSort(ToEvents(c, blockEvents));
    forall e | DenomsKnown(c, blockEvents) && e in sorted ensures GoodDenom(e) {
      SortedMember(c, blockEvents, e);
      var i :| 0 <= i < |blockEvents| && ToEvent(c, blockEvents[i]) == e;
      assert blockEvents[i] in blockEvents;
    }
    if forall e | e in sorted :: GoodDenom(e) {
      forall e | e in blockEvents ensures c.denomOf(e.denomination).base != "" && c.denomOf(e.denomination).symbol != "" {
        var i :| 0 <= i < |blockEvents| && blockEvents[i] == e;
        SortedMember(c, blockEvents, ToEvent(c, e));
        assert GoodDenom(ToEvent(c, e));
      }
    }
  }

  /** How many events the first batches hold. */
  function Covered(sorted: seq<EventData>, batches: nat): nat {
    if batches * BATCH_SIZE < |sorted| then batches * BATCH_SIZE else |sorted|
  }

  ghost predicate BatchesFine(sorted: seq<EventData>, outage: nat -> bool, batches: nat) {
    && (forall b: nat | b < batches :: !outage(b))
    && (forall e | e in sorted[..Covered(sorted, batches)] :: GoodDenom(e))
  }

  lemma OneMoreBatch(sorted: seq<EventData>, outage: nat -> bool, batch: nat)
    requires batch * BATCH_SIZE < |sorted| && BatchesFine(sorted, outage, batch)
    ensures BatchFine(sorted, batch * BATCH_SIZE, outage(batch)) <==> BatchesFine(sorted, outage, batch + 1)
  {
    var i := batch * BATCH_SIZE;
    var end := BatchEnd(sorted, i);
    assert sorted[..end] == sorted[..i] + sorted[i..end];
    assert Covered(sorted, batch + 1) == end && Covered(sorted, batch) == i;
    forall e ensures e in sorted[..end] <==> e in sorted[..i] || e in sorted[i..end] {
    }
  }

  lemma LastBatch(c: Context, blockEvents: seq<RelevantEvent>, outage: nat -> bool, batches: nat)
    requires batches * BATCH_SIZE >= |blockEvents| && (batches > 0 ==> (batches - 1) * BATCH_SIZE < |blockEvents|)
    ensures BatchesFine(StableSort(ToEvents(c, blockEvents)), outage, batches)
       <==> DenomsKnown(c, blockEvents) && Served(blockEvents, outage)
  {
    var sorted := StableSort(ToEvents(c, blockEvents));
    SortedOneBlock(c, blockEvents);
    GoodEvents(c, blockEvents);
    assert sorted[..Covered(sorted, batches)] == sorted;
  }

  lemma BadBatch(c: Context, blockEvents: seq<RelevantEvent>, outage: nat -> bool, batch: nat)
    requires batch * BATCH_SIZE < |blockEvents|
    requires !BatchesFine(StableSort(ToEvents(c, blockEvents)), outage, batch + 1)
    ensures !(DenomsKnown(c, blockEvents) && Served(blockEvents, outage))
  {
    var sorted := StableSort(ToEvents(c, blockEvents));
    SortedOneBlock(c, blockEvents);
    GoodEvents(c, blockEvents);
  }

  /** What indexing all events comes to. */
  ghost predicate AllIndexed(t: Tables, t2: Tables, c: Context, blockEvents: seq<RelevantEvent>) {
    && Wrote(t, t2, OwnOps(StableSort(ToEvents(c, blockEvents))))
    && (Telling(c, blockEvents) ==> PayoutsStored(ViewOf(t), ViewOf(t2), c, blockEvents))
  }

  /** The first batches were inserted, as they could be. */
  ghost predicate BatchesInserted(t: Tables, t2: Tables, sorted: seq<EventData>, outage: nat -> bool, batches: nat) {
    InsertedUpTo(t, t2, sorted, Covered(sorted, batches)) && BatchesFine(sorted, outage, batches)
  }

  /** The next batch, committed or rolled back as a whole. */
  method InsertBatch(db: Database, c: Context, sorted: seq<EventData>, i: nat, outage: nat -> bool, batch: nat,
                     ghost t: Tables, ghost blockEvents: seq<RelevantEvent>)
    returns (ok: bool)
    requires sorted == StableSort(ToEvents(c, blockEvents)) && c.height != 0 && c.chain != ""
    requires i == batch * BATCH_SIZE < |sorted| && BatchesInserted(t, db.tables, sorted, outage, batch)
    modifies db
    ensures ok ==> BatchesInserted(t, db.tables, sorted, outage, batch + 1)
    ensures !ok ==> InsertedUpTo(t, db.tables, sorted, i) && !(DenomsKnown(c, blockEvents) && Served(blockEvents, outage))
  {
    ghost var t1 := db.tables;
    var end := BatchEnd(sorted, i);
    SortedOneBlock(c, blockEvents);
    BatchFits(c, sorted, i, end);
    OneMoreBatch(sorted, outage, batch);
    ok := CreateTaxableEvents(db, sorted[i..end], outage(batch));
    if ok {
      WroteThen(t, t1, db.tables, OwnOps(sorted[..i]), EventsOps(sorted[i..end], |sorted[i..end]|));
      BatchOps(c, sorted, i, end);
    } else {
      BadBatch(c, blockEvents, outage, batch);
    }
  }

  /**
    Index the events of a block: sort by digest, then insert in batches, each in its
    own transaction. It succeeds exactly when all denominations are known and no
    batch meets an outage; the rows are then those of the payouts.
   */
  method IndexBlockEvents(db: Database, dryRun: bool, c: Context, blockEvents: seq<RelevantEvent>, outage: nat -> bool)
    returns (ok: bool)
    requires Valid(db.tables) && c.height != 0 && c.chain != ""
    modifies db
    ensures dryRun ==> ok && db.tables == old(db.tables)
    ensures !dryRun ==> (ok <==> DenomsKnown(c, blockEvents) && Served(blockEvents, outage))
    ensures !dryRun && ok ==> AllIndexed(old(db.tables), db.tables, c, blockEvents)
    ensures !dryRun ==> exists m :: InsertedUpTo(old(db.tables), db.tables, StableSort(ToEvents(c, blockEvents)), m)
  {
    ghost var t := db.tables;
    var sorted := StableSort(ToEvents(c, blockEvents));
    SortedOneBlock(c, blockEvents);
    NothingInserted(t, sorted);
    var i, batch := 0, 0;
    while i < |sorted|
      invariant i == batch * BATCH_SIZE && (batch > 0 ==> (batch - 1) * BATCH_SIZE < |sorted|)
      invariant dryRun ==> db.tables == t
      invariant !dryRun ==> BatchesInserted(t, db.tables, sorted, outage, batch)
      decreases |sorted| - i
    {
      if !dryRun {
        ok := InsertBatch(db, c, sorted, i, outage, batch, t, blockEvents);
        if !ok {
          return;
        }
      }
      i, batch := i + BATCH_SIZE, batch + 1;
    }
    if !dryRun {
      LastBatch(c, blockEvents, outage, batch);
      AllInserted(t, db.tables, c, blockEvents);
    }
    ok := true;
  }

  lemma SortedOneBlock(c: Context, blockEvents: seq<RelevantEvent>)
    ensures OneBlock(c, StableSort(ToEvents(c, blockEvents)))
    ensures |StableSort(ToEvents(c, blockEvents))| == |blockEvents|
  {
    var events, sorted := ToEvents(c, blockEvents), StableSort(ToEvents(c, blockEvents));
    StableSortCorrect(events);
    forall e | e in sorted ensures e.chain == c.chain && e.height == c.height {
      assert e in multiset(sorted);
      assert e in events;
    }
    assert |sorted| == |multiset(sorted)| == |multiset(events)| == |events|;
  }

  lemma OneBlockOwn(c: Context, events: seq<EventData>)
    requires OneBlock(c, events)
    ensures OwnBlocks(events)
  {
    RememberedBlockIsRight(events);
  }

  // -------------------------------------------------------------------- main results

  lemma {:induction false} OwnOpsEnsure(events: seq<EventData>)
    ensures forall op | op in OwnOps(events) :: op.Ensure?
  {
    if events != [] {
      OwnOpsEnsure(events[..|events| - 1]);
    }
  }

  /** Batches committed before a failure do not show once a full attempt succeeds. */
  lemma RetryConverges(v: View, sorted: seq<EventData>, m: nat)
    requires m <= |sorted|
    ensures ApplyAll(ApplyAll(v, OwnOps(sorted[..m])), OwnOps(sorted)) == ApplyAll(v, OwnOps(sorted))
  {
    assert sorted == sorted[..m] + sorted[m..];
    OwnOpsConcat(sorted[..m], sorted[m..]);
    OwnOpsEnsure(sorted);
    ReplayAfterPrefix(v, OwnOps(sorted[..m]), OwnOps(sorted[m..]));
  }

  /** The writer's single reattempt: whichever batches failed first, success is one clean run. */
  method IndexEventsWithReattempt(db: Database, c: Context, blockEvents: seq<RelevantEvent>,
                                  outage1: nat -> bool, outage2: nat -> bool)
    returns (ok: bool)
    requires Valid(db.tables) && c.height != 0 && c.chain != ""
    modifies db
    ensures ok <==> DenomsKnown(c, blockEvents) && (Served(blockEvents, outage1) || Served(blockEvents, outage2))
    ensures ok ==> Valid(db.tables)
    ensures ok ==> ViewOf(db.tables) == ApplyAll(old(ViewOf(db.tables)), OwnOps(StableSort(ToEvents(c, blockEvents))))
  {
    ghost var t := db.tables;
    ghost var sorted := StableSort(ToEvents(c, blockEvents));
    ok := IndexBlockEvents(db, false, c, blockEvents, outage1);
    if !ok {
      ghost var m :| InsertedUpTo(t, db.tables, sorted, m);
      ok := IndexBlockEvents(db, false, c, blockEvents, outage2);
      RetryConverges(ViewOf(t), sorted, m);
    }
  }

  lemma {:induction false} FirstWithHash(x: Option<Val>, events: seq<EventData>, h: nat)
    ensures FoldAt(x, OwnOps(events), EventK(h))
         == if x.Some? || WithHash(events, h) == [] then x
            else var e := WithHash(events, h)[0]; Some(EventValue(e, (e.chain, e.height)))
  {
    if events != [] {
      var init, e := events[..|events| - 1], events[|events| - 1];
      FirstWithHash(x, init, h);
      FoldAtConcat(x, OwnOps(init), EventOps(e, (e.chain, e.height)), EventK(h));
      OneEvent(FoldAt(x, OwnOps(init), EventK(h)), e, h);
    }
  }

  lemma OneEvent(x: Option<Val>, e: EventData, h: nat)
    ensures FoldAt(x, EventOps(e, (e.chain, e.height)), EventK(h))
         == if x.None? && e.hash == h then Some(EventValue(e, (e.chain, e.height))) else x
  {
    var ops := EventOps(e, (e.chain, e.height));
    var rest := ops[..|ops| - 1];
    assert ops[|ops| - 1] == Ensure(EventK(e.hash), EventValue(e, (e.chain, e.height)));
    UntouchedStays(x, rest, EventK(h));
  }

  /**
    One row per digest: a stored event is kept, and a new row is the first event
    of its digest in the order the block listed them.
   */
  lemma FirstEventIsStored(v: View, c: Context, blockEvents: seq<RelevantEvent>, h: nat)
    ensures At(ApplyAll(v, OwnOps(StableSort(ToEvents(c, blockEvents)))), EventK(h))
         == if EventK(h) in v || WithHash(ToEvents(c, blockEvents), h) == [] then At(v, EventK(h))
            else var e := WithHash(ToEvents(c, blockEvents), h)[0]; Some(EventValue(e, (e.chain, e.height)))
  {
    var events := ToEvents(c, blockEvents);
    StableSortCorrect(events);
    Locality(v, OwnOps(StableSort(events)), EventK(h));
    FirstWithHash(At(v, EventK(h)), StableSort(events), h);
  }

  ghost predicate Injective(sha: string -> nat) {
    forall x, y :: sha(x) == sha(y) ==> x == y
  }

  /**
    With a collision-free digest only true duplicates share a row, within a block
    and across blocks: same address, height, amount and denomination.
   */
  lemma OnlyDuplicatesMerge(c: Context, e: RelevantEvent, c2: Context, f: RelevantEvent)
    requires Injective(c.sha) && c.sha == c2.sha
    requires ToldApart(e.address, c.height, f.address, c2.height)
    requires !StartsWithDigit(e.denomination) && !StartsWithDigit(f.denomination)
    ensures ToEvent(c, e).hash == ToEvent(c2, f).hash
       <==> e.address == f.address && c.height == c2.height && e.amount == f.amount && e.denomination == f.denomination
  {
    KeyTextInjective(e.address, c.height, e.amount, e.denomination, f.address, c2.height, f.amount, f.denomination);
  }

  predicate SamePayout(e: RelevantEvent, f: RelevantEvent) {
    e.address == f.address && e.amount == f.amount && e.denomination == f.denomination
  }

  predicate NoTwoAlike(blockEvents: seq<RelevantEvent>) {
    forall i, j | 0 <= i < j < |blockEvents| :: !SamePayout(blockEvents[i], blockEvents[j])
  }

  predicate OwnDigests(events: seq<EventData>) {
    forall i, j | 0 <= i < j < |events| :: events[i].hash != events[j].hash
  }

  predicate HasRow(v: View, e: EventData) {
    At(v, EventK(e.hash)) == Some(EventValue(e, (e.chain, e.height)))
  }

  /** Every event has a row to itself, and the row says what the event says. */
  predicate Conserved(v: View, events: seq<EventData>) {
    OwnDigests(events) && forall e | e in events :: HasRow(v, e)
  }

  lemma {:induction false} OnlyWithHash(events: seq<EventData>, i: nat)
    requires OwnDigests(events) && i < |events|
    ensures WithHash(events, events[i].hash) == [events[i]]
  {
    var init := events[..|events| - 1];
    if i < |init| {
      OnlyWithHash(init, i);
    } else {
      NoneWithHash(init, events[i].hash);
    }
  }

  lemma {:induction false} NoneWithHash(events: seq<EventData>, h: nat)
    requires forall e | e in events :: e.hash != h
    ensures WithHash(events, h) == []
  {
    if events != [] {
      assert events[|events| - 1] in events;
      NoneWithHash(events[..|events| - 1], h);
    }
  }

  lemma OwnDigestsIff(c: Context, blockEvents: seq<RelevantEvent>)
    requires Injective(c.sha)
    requires forall e | e in blockEvents :: SpaceFree(e.address) && !StartsWithDigit(e.denomination)
    ensures OwnDigests(ToEvents(c, blockEvents)) <==> NoTwoAlike(blockEvents)
  {
    var events := ToEvents(c, blockEvents);
    forall i, j | 0 <= i < j < |events|
      ensures events[i].hash == events[j].hash <==> SamePayout(blockEvents[i], blockEvents[j])
    {
      OnlyDuplicatesMerge(c, blockEvents[i], c, blockEvents[j]);
    }
    if OwnDigests(events) {
      forall i, j | 0 <= i < j < |blockEvents| ensures !SamePayout(blockEvents[i], blockEvents[j]) {
        assert events[i].hash != events[j].hash;
      }
    }
  }

  /**
    Exactly when storing a block's events loses no payout: no two of them agree in
    address, amount and denomination, and a row that was there under the digest of
    one of them is that event's row.
   */
  lemma PayoutsConservedIff(v: View, c: Context, blockEvents: seq<RelevantEvent>)
    requires Injective(c.sha)
    requires forall e | e in blockEvents :: SpaceFree(e.address) && !StartsWithDigit(e.denomination)
    ensures Conserved(ApplyAll(v, OwnOps(StableSort(ToEvents(c, blockEvents)))), ToEvents(c, blockEvents))
       <==> NoTwoAlike(blockEvents) && forall e | e in ToEvents(c, blockEvents) && EventK(e.hash) in v :: HasRow(v, e)
  {
    var events := ToEvents(c, blockEvents);
    var w := ApplyAll(v, OwnOps(StableSort(events)));
    OwnDigestsIff(c, blockEvents);
    if OwnDigests(events) {
      forall e | e in events ensures HasRow(w, e) <==> (EventK(e.hash) in v ==> HasRow(v, e)) {
        var i :| 0 <= i < |events| && events[i] == e;
        OnlyWithHash(events, i);
        FirstEventIsStored(v, c, blockEvents, e.hash);
      }
    }
  }

  /** No other event of the block is the same payout. */
  predicate NoRival(blockEvents: seq<RelevantEvent>, i: nat)
    requires i < |blockEvents|
  {
    forall j | 0 <= j < |blockEvents| && j != i ::
      !(blockEvents[j].address == blockEvents[i].address && blockEvents[j].amount == blockEvents[i].amount
        && blockEvents[j].denomination == blockEvents[i].denomination)
  }

  lemma {:induction false} OneWithHash(events: seq<EventData>, i: nat)
    requires i < |events| && forall j | 0 <= j < |events| && j != i :: events[j].hash != events[i].hash
    ensures WithHash(events, events[i].hash) == [events[i]]
  {
    var init := events[..|events| - 1];
    if i < |init| {
      OneWithHash(init, i);
    } else {
      NoneWithHash(init, events[i].hash);
    }
  }

  /**
    A payout without a rival in its block, and without an earlier row under its
    digest, is stored column by column, under the digest of its address, height,
    amount and denomination.
   */
  lemma PayoutColumns(v: View, c: Context, blockEvents: seq<RelevantEvent>, i: nat)
    requires Injective(c.sha)
    requires forall e | e in blockEvents :: SpaceFree(e.address) && !StartsWithDigit(e.denomination)
    requires i < |blockEvents| && NoRival(blockEvents, i)
    ensures var e := blockEvents[i];
            var k := EventK(c.sha(e.address + Text(c.height) + " " + Text(e.amount) + e.denomination));
            var row := EventV(e.source, e.amount, c.denomOf(e.denomination).id,
                              if e.address == "" then None else Some(e.address), c.chain, c.height);
            k !in v ==> At(ApplyAll(v, OwnOps(StableSort(ToEvents(c, blockEvents)))), k) == Some(row)
  {
    var events := ToEvents(c, blockEvents);
    OwnDigest(c, blockEvents, i);
    OneWithHash(events, i);
    FirstEventIsStored(v, c, blockEvents, events[i].hash);
  }

  lemma OwnDigest(c: Context, blockEvents: seq<RelevantEvent>, i: nat)
    requires Injective(c.sha)
    requires forall e | e in blockEvents :: SpaceFree(e.address) && !StartsWithDigit(e.denomination)
    requires i < |blockEvents| && NoRival(blockEvents, i)
    ensures var events := ToEvents(c, blockEvents);
            forall j | 0 <= j < |events| && j != i :: events[j].hash != events[i].hash
  {
    var events := ToEvents(c, blockEvents);
    forall j | 0 <= j < |events| && j != i ensures events[j].hash != events[i].hash {
      assert blockEvents[i] in blockEvents && blockEvents[j] in blockEvents;
      OnlyDuplicatesMerge(c, blockEvents[j], c, blockEvents[i]);
    }
  }

  /** Likewise for all payouts of a block at once. */
  ghost predicate PayoutsStored(v: View, w: View, c: Context, blockEvents: seq<RelevantEvent>) {
    forall i | 0 <= i < |blockEvents| && NoRival(blockEvents, i) ::
      var e := blockEvents[i];
      var k := EventK(c.sha(e.address + Text(c.height) + " " + Text(e.amount) + e.denomination));
      var row := EventV(e.source, e.amount, c.denomOf(e.denomination).id,
                        if e.address == "" then None else Some(e.address), c.chain, c.height);
      k !in v ==> At(w, k) == Some(row)
  }

  /** What the digests and texts are taken to be: no collisions, no spaces in addresses, no digits before denominations. */
  ghost predicate Telling(c: Context, blockEvents: seq<RelevantEvent>) {
    Injective(c.sha) && forall e | e in blockEvents :: SpaceFree(e.address) && !StartsWithDigit(e.denomination)
  }

  lemma AllPayoutColumns(v: View, c: Context, blockEvents: seq<RelevantEvent>)
    requires Telling(c, blockEvents)
    ensures PayoutsStored(v, ApplyAll(v, OwnOps(StableSort(ToEvents(c, blockEvents)))), c, blockEvents)
  {
    forall i | 0 <= i < |blockEvents| && NoRival(blockEvents, i)
      ensures var e := blockEvents[i];
              var k := EventK(c.sha(e.address + Text(c.height) + " " + Text(e.amount) + e.denomination));
              var row := EventV(e.source, e.amount, c.denomOf(e.denomination).id,
                                if e.address == "" then None else Some(e.address), c.chain, c.height);
              k !in v ==> At(ApplyAll(v, OwnOps(StableSort(ToEvents(c, blockEvents)))), k) == Some(row)
    {
      PayoutColumns(v, c, blockEvents, i);
    }
  }

  lemma {:induction false} OwnOpsAre(events: seq<EventData>, op: Op)
    ensures op in OwnOps(events) <==> exists e :: e in events && op in EventOps(e, (e.chain, e.height))
  {
    if events != [] {
      var init, e := events[..|events| - 1], events[|events| - 1];
      assert events == init + [e];
      OwnOpsAre(init, op);
    }
  }

  predicate IsEventOp(e: EventData, op: Op) {
    || op == Ensure(ChainK(e.chain), ChainV(e.chainName))
    || op == Ensure(BlockK(e.chain, e.height), BlockV(e.time, false))
    || (e.address != "" && op == Ensure(AddressK(e.address), Unit))
    || op == Ensure(EventK(e.hash), EventValue(e, (e.chain, e.height)))
  }

  lemma EventOpsAre(e: EventData, op: Op)
    ensures op in EventOps(e, (e.chain, e.height)) <==> IsEventOp(e, op)
  {
  }

  lemma EventsOp(c: Context, blockEvents: seq<RelevantEvent>, op: Op)
    ensures op in OwnOps(StableSort(ToEvents(c, blockEvents)))
       <==> exists i :: 0 <= i < |blockEvents| && IsEventOp(ToEvent(c, blockEvents[i]), op)
  {
    var sorted := StableSort(ToEvents(c, blockEvents));
    OwnOpsAre(sorted, op);
    if e :| e in sorted && op in EventOps(e, (e.chain, e.height)) {
      EventOpsAre(e, op);
      SortedMember(c, blockEvents, e);
      var i :| 0 <= i < |blockEvents| && ToEvent(c, blockEvents[i]) == e;
      assert IsEventOp(ToEvent(c, blockEvents[i]), op);
    }
    if i :| 0 <= i < |blockEvents| && IsEventOp(ToEvent(c, blockEvents[i]), op) {
      EventOpsAre(ToEvent(c, blockEvents[i]), op);
      SortedMember(c, blockEvents, ToEvent(c, blockEvents[i]));
    }
  }

  lemma OnlyOne(c: Context, blockEvents: seq<RelevantEvent>, k: Key, row: Val)
    requires forall e, op | IsEventOp(ToEvent(c, e), op) && op.k == k :: op == Ensure(k, row)
    ensures OnlyEnsures(OwnOps(StableSort(ToEvents(c, blockEvents))), k, row)
  {
    forall op | op in OwnOps(StableSort(ToEvents(c, blockEvents))) && op.k == k ensures op == Ensure(k, row) {
      EventsOp(c, blockEvents, op);
    }
  }

  lemma StoredBeside(v: View, c: Context, blockEvents: seq<RelevantEvent>, k: Key, row: Val)
    requires forall e, op | IsEventOp(ToEvent(c, e), op) && op.k == k :: op == Ensure(k, row)
    ensures At(ApplyAll(v, OwnOps(StableSort(ToEvents(c, blockEvents)))), k)
         == if k in v then Some(v[k])
            else if exists i :: 0 <= i < |blockEvents| && IsEventOp(ToEvent(c, blockEvents[i]), Ensure(k, row))
            then Some(row) else None
  {
    var ops := OwnOps(StableSort(ToEvents(c, blockEvents)));
    Locality(v, ops, k);
    OnlyOne(c, blockEvents, k, row);
    EventsOp(c, blockEvents, Ensure(k, row));
    if Touches(ops, k) {
      OnlyEnsuresSets(At(v, k), ops, k, row);
    } else {
      UntouchedStays(At(v, k), ops, k);
    }
  }

  /**
    Beside its payouts a block with events has rows for its chain, for itself, not
    indexed and with its time, and for the addresses that its payouts name; rows
    that were there stay.
   */
  lemma RowsBesidePayouts(v: View, c: Context, blockEvents: seq<RelevantEvent>, address: string)
    requires blockEvents != []
    ensures var w := ApplyAll(v, OwnOps(StableSort(ToEvents(c, blockEvents))));
            var chain, block := ChainK(c.chain), BlockK(c.chain, c.height);
            && At(w, chain) == Some(if chain in v then v[chain] else ChainV(c.chainName))
            && At(w, block) == Some(if block in v then v[block] else BlockV(c.time, false))
            && (AddressK(address) in w
                <==> AddressK(address) in v || (address != "" && exists e :: e in blockEvents && e.address == address))
  {
    BlockBeside(v, c, blockEvents);
    AddressBeside(v, c, blockEvents, address);
  }

  lemma BlockBeside(v: View, c: Context, blockEvents: seq<RelevantEvent>)
    requires blockEvents != []
    ensures var w := ApplyAll(v, OwnOps(StableSort(ToEvents(c, blockEvents))));
            var chain, block := ChainK(c.chain), BlockK(c.chain, c.height);
            && At(w, chain) == Some(if chain in v then v[chain] else ChainV(c.chainName))
            && At(w, block) == Some(if block in v then v[block] else BlockV(c.time, false))
  {
    var chain, block := ChainK(c.chain), BlockK(c.chain, c.height);
    assert IsEventOp(ToEvent(c, blockEvents[0]), Ensure(chain, ChainV(c.chainName)));
    assert IsEventOp(ToEvent(c, blockEvents[0]), Ensure(block, BlockV(c.time, false)));
    StoredBeside(v, c, blockEvents, chain, ChainV(c.chainName));
    StoredBeside(v, c, blockEvents, block, BlockV(c.time, false));
  }

  lemma AddressOpOf(c: Context, e: RelevantEvent, address: string)
    ensures IsEventOp(ToEvent(c, e), Ensure(AddressK(address), Unit)) <==> address != "" && e.address == address
  {
  }

  lemma AddressBeside(v: View, c: Context, blockEvents: seq<RelevantEvent>, address: string)
    ensures AddressK(address) in ApplyAll(v, OwnOps(StableSort(ToEvents(c, blockEvents))))
       <==> AddressK(address) in v || (address != "" && exists e :: e in blockEvents && e.address == address)
  {
    var op := Ensure(AddressK(address), Unit);
    StoredBeside(v, c, blockEvents, AddressK(address), Unit);
    if i :| 0 <= i < |blockEvents| && IsEventOp(ToEvent(c, blockEvents[i]), op) {
      AddressOpOf(c, blockEvents[i], address);
      assert blockEvents[i] in blockEvents;
    }
    if e :| e in blockEvents && e.address == address {
      AddressOpOf(c, e, address);
      var i :| 0 <= i < |blockEvents| && blockEvents[i] == e;
      assert address != "" ==> IsEventOp(ToEvent(c, blockEvents[i]), op);
    }
  }
}
