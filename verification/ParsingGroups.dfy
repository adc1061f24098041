/**
  Grouping the taxable messages of an address by transaction, and moving those
  that are parsed together into two groups: liquidity pools and concentrated
  liquidity. Maps are gone through in any order.
 */
module ParsingGroups {
  import opened Options

  datatype Fee = Fee(tx: nat, payer: string, denom: nat, amount: int)
  datatype Tx = Tx(id: nat, fees: seq<Fee>)

  /** A taxable message: its row, its transaction with the fees, and its message type. */
  datatype Message = Message(row: nat, tx: Tx, kind: string)

  type Lists = map<nat, seq<Message>>

  function PoolKinds(): set<string> {
    { "/osmosis.gamm.v1beta1.MsgJoinSwapExternAmountIn",
      "/osmosis.gamm.v1beta1.MsgJoinSwapShareAmountOut",
      "/osmosis.gamm.v1beta1.MsgJoinPool",
      "/osmosis.gamm.v1beta1.MsgExitSwapShareAmountIn",
      "/osmosis.gamm.v1beta1.MsgExitSwapExternAmountOut",
      "/osmosis.gamm.v1beta1.MsgExitPool" }
  }

  function ConcentratedKinds(): set<string> {
    { "/osmosis.concentratedliquidity.v1beta1.MsgAddToPosition",
      "/osmosis.concentratedliquidity.v1beta1.MsgWithdrawPosition",
      "/osmosis.concentratedliquidity.v1beta1.MsgCreatePosition",
      "/osmosis.concentratedliquidity.v1beta1.MsgTransferPositions" }
  }

  lemma PoolLength(kind: string)
    requires kind in PoolKinds()
    ensures 28 < |kind| < 50
  {
  }

  lemma ConcentratedLength(kind: string)
    requires kind in ConcentratedKinds()
    ensures |kind| > 50
  {
  }

  /** No message type is in both groups: the names of the one are all shorter than those of the other. */
  lemma NotInBoth(kind: string)
    ensures kind !in PoolKinds() || kind !in ConcentratedKinds()
  {
    if kind in PoolKinds() {
      PoolLength(kind);
    }
    if kind in ConcentratedKinds() {
      ConcentratedLength(kind);
    }
  }

  // ------------------------------------------------------------------ what the lists hold

  function ListAt(lists: Lists, id: nat): seq<Message> {
    if id in lists then lists[id] else []
  }

  /** The messages of one transaction, in order. */
  function OfTx(messages: seq<Message>, id: nat): seq<Message> {
    if messages == [] then []
    else
      var last := messages[|messages| - 1];
      OfTx(messages[..|messages| - 1], id) + if last.tx.id == id then [last] else []
  }

  function OfKinds(messages: seq<Message>, kinds: set<string>): seq<Message> {
    if messages == [] then []
    else
      var last := messages[|messages| - 1];
      OfKinds(messages[..|messages| - 1], kinds) + if last.kind in kinds then [last] else []
  }

  /** The messages of neither group. */
  function Plain(messages: seq<Message>, kinds: set<string>, kinds2: set<string>): seq<Message> {
    if messages == [] then []
    else
      var last := messages[|messages| - 1];
      Plain(messages[..|messages| - 1], kinds, kinds2)
      + if last.kind in kinds || last.kind in kinds2 then [] else [last]
  }

  /** Appending a message to the list of its transaction. */
  function Add(lists: Lists, m: Message): Lists {
    lists[m.tx.id := ListAt(lists, m.tx.id) + [m]]
  }

  function AddAll(lists: Lists, messages: seq<Message>, kinds: set<string>): Lists {
    if messages == [] then lists
    else
      var last := messages[|messages| - 1];
      var before := AddAll(lists, messages[..|messages| - 1], kinds);
      if last.kind in kinds then Add(before, last) else before
  }

  /** Lists are under their own transaction, and there are no empty ones. */
  predicate Tidy(lists: Lists) {
    forall id | id in lists :: lists[id] != [] && forall m | m in lists[id] :: m.tx.id == id
  }

  predicate AllOf(messages: seq<Message>, id: nat) {
    forall m | m in messages :: m.tx.id == id
  }

  lemma {:induction false} AddAllAt(lists: Lists, messages: seq<Message>, kinds: set<string>, id: nat, other: nat)
    requires AllOf(messages, id)
    ensures ListAt(AddAll(lists, messages, kinds), other)
         == ListAt(lists, other) + if other == id then OfKinds(messages, kinds) else []
  {
    if messages != [] {
      var n := |messages| - 1;
      assert messages[n] in messages;
      AddAllAt(lists, messages[..n], kinds, id, other);
    }
  }

  lemma {:induction false} AddAllTidy(lists: Lists, messages: seq<Message>, kinds: set<string>)
    requires Tidy(lists)
    ensures Tidy(AddAll(lists, messages, kinds))
  {
    if messages != [] {
      AddAllTidy(lists, messages[..|messages| - 1], kinds);
    }
  }

  // ---------------------------------------------------------------------- grouping by tx

  method MakeTXMap(taxable: seq<Message>) returns (txMap: Lists)
    ensures Tidy(txMap)
    ensures forall id :: ListAt(txMap, id) == OfTx(taxable, id)
  {
    txMap := map[];
    for n := 0 to |taxable|
      invariant Tidy(txMap)
      invariant forall id :: ListAt(txMap, id) == OfTx(taxable[..n], id)
    {
      var m := taxable[n];
      assert taxable[..n + 1][..n] == taxable[..n];
      if m.tx.id in txMap {
        var list := txMap[m.tx.id];
        list := list + [m];
        txMap := txMap[m.tx.id := list];
      } else {
        txMap := txMap[m.tx.id := [m]];
      }
    }
    assert taxable[..|taxable|] == taxable;
  }

  /** A map that is updated in place. */
  class TxMap {
    var lists: Lists

    constructor (initial: Lists)
      ensures lists == initial
    {
      lists := initial;
    }
  }

  /** An exported row: the message it is about, if any, and the fee it carries, if any. */
  datatype Row = Row(message: Option<Message>, fee: Option<Fee>)

  class ParsingGroup {
    const kinds: set<string>
    var grouped: Lists
    var rows: seq<Row>

    constructor (kinds: set<string>)
      ensures this.kinds == kinds && grouped == map[] && rows == []
    {
      this.kinds := kinds;
      grouped := map[];
      rows := [];
    }

    function BelongsToGroup(m: Message): bool {
      m.kind in kinds
    }

    method AddTxToGroup(m: Message)
      modifies this`grouped
      ensures grouped == Add(old(grouped), m)
    {
      if m.tx.id in grouped {
        grouped := grouped[m.tx.id := grouped[m.tx.id] + [m]];
      } else {
        var txGrouping: seq<Message> := [];
        txGrouping := txGrouping + [m];
        grouped := grouped[m.tx.id := txGrouping];
      }
    }
  }

  /** Moves the messages of one transaction that belong to a group; the rest remains. */
  method SeparateOne(messages: seq<Message>, pool: ParsingGroup, concentrated: ParsingGroup)
      returns (remaining: seq<Message>)
    requires pool != concentrated
    modifies pool`grouped, concentrated`grouped
    ensures remaining == Plain(messages, pool.kinds, concentrated.kinds)
    ensures pool.grouped == AddAll(old(pool.grouped), messages, pool.kinds)
    ensures concentrated.grouped == AddAll(old(concentrated.grouped), messages, concentrated.kinds)
  {
    remaining := [];
    for n := 0 to |messages|
      invariant remaining == Plain(messages[..n], pool.kinds, concentrated.kinds)
      invariant pool.grouped == AddAll(old(pool.grouped), messages[..n], pool.kinds)
      invariant concentrated.grouped == AddAll(old(concentrated.grouped), messages[..n], concentrated.kinds)
    {
      var m := messages[n];
      assert messages[..n + 1][..n] == messages[..n];
      var inGroup := false;
      if pool.BelongsToGroup(m) {
        pool.AddTxToGroup(m);
        inGroup := true;
      }
      if concentrated.BelongsToGroup(m) {
        concentrated.AddTxToGroup(m);
        inGroup := true;
      }
      if !inGroup {
        remaining := remaining + [m];
      }
    }
    assert messages[..|messages|] == messages;
  }

  /** What transaction id's messages have become, unless they are still to be done. */
  predicate SeparatedAt(txMap: Lists, pool: Lists, concentrated: Lists,
                        txMap2: Lists, pool2: Lists, concentrated2: Lists,
                        kinds: set<string>, kinds2: set<string>, id: nat, todo: set<nat>) {
    var messages := ListAt(txMap, id);
    var done := id !in todo;
    && ListAt(txMap2, id) == (if done then Plain(messages, kinds, kinds2) else messages)
    && ListAt(pool2, id) == ListAt(pool, id) + (if done then OfKinds(messages, kinds) else [])
    && ListAt(concentrated2, id) == ListAt(concentrated, id) + (if done then OfKinds(messages, kinds2) else [])
  }

  /** Whatever order the map is gone through in, each list is split by the kinds of its messages. */
  method SeparateParsingGroups(txMap: TxMap, pool: ParsingGroup, concentrated: ParsingGroup)
    requires pool != concentrated
    requires Tidy(txMap.lists) && Tidy(pool.grouped) && Tidy(concentrated.grouped)
    modifies txMap, pool`grouped, concentrated`grouped
    ensures Tidy(pool.grouped) && Tidy(concentrated.grouped)
    ensures txMap.lists.Keys == old(txMap.lists).Keys
    ensures forall id :: SeparatedAt(old(txMap.lists), old(pool.grouped), old(concentrated.grouped),
                                     txMap.lists, pool.grouped, concentrated.grouped,
                                     pool.kinds, concentrated.kinds, id, {})
  {
    var todo := txMap.lists.Keys;
    ghost var lists0, pool0, concentrated0 := txMap.lists, pool.grouped, concentrated.grouped;
    while todo != {}
      invariant todo <= txMap.lists.Keys == lists0.Keys
      invariant Tidy(pool.grouped) && Tidy(concentrated.grouped)
      invariant forall id :: SeparatedAt(lists0, pool0, concentrated0,
                                         txMap.lists, pool.grouped, concentrated.grouped,
                                         pool.kinds, concentrated.kinds, id, todo)
    {
      ghost var some := SomeElement(todo);
      var id :| id in todo;
      ghost var todo1 := todo;
      todo := todo - {id};
      var messages := txMap.lists[id];
      ghost var lists1, pool1, concentrated1 := txMap.lists, pool.grouped, concentrated.grouped;
      var remaining := SeparateOne(messages, pool, concentrated);
      txMap.lists := txMap.lists[id := remaining];
      AddAllTidy(pool1, messages, pool.kinds);
      assert AllOf(messages, id) by {
        assert SeparatedAt(lists0, pool0, concentrated0, lists1, pool1, concentrated1,
                           pool.kinds, concentrated.kinds, id, todo1);
      }
      AddAllTidy(concentrated1, messages, concentrated.kinds);
      forall other ensures SeparatedAt(lists0, pool0, concentrated0, txMap.lists, pool.grouped, concentrated.grouped,
                                       pool.kinds, concentrated.kinds, other, todo) {
        SeparateStep(lists0, pool0, concentrated0, lists1, pool1, concentrated1,
                     pool.kinds, concentrated.kinds, id, other, todo1);
      }
    }
  }

  lemma SeparateStep(txMap: Lists, pool: Lists, concentrated: Lists,
                     txMap1: Lists, pool1: Lists, concentrated1: Lists,
                     kinds: set<string>, kinds2: set<string>, id: nat, other: nat, todo: set<nat>)
    requires id in todo && id in txMap1 && AllOf(txMap1[id], id)
    requires SeparatedAt(txMap, pool, concentrated, txMap1, pool1, concentrated1, kinds, kinds2, id, todo)
    requires SeparatedAt(txMap, pool, concentrated, txMap1, pool1, concentrated1, kinds, kinds2, other, todo)
    ensures var messages := txMap1[id];
            SeparatedAt(txMap, pool, concentrated, txMap1[id := Plain(messages, kinds, kinds2)],
                        AddAll(pool1, messages, kinds), AddAll(concentrated1, messages, kinds2),
                        kinds, kinds2, other, todo - {id})
  {
    var messages := txMap1[id];
    var pool2, concentrated2 := AddAll(pool1, messages, kinds), AddAll(concentrated1, messages, kinds2);
    AddAllAt(pool1, messages, kinds, id, other);
    AddAllAt(concentrated1, messages, kinds2, id, other);
    if other == id {
      assert ListAt(pool2, id) == ListAt(pool, id) + OfKinds(messages, kinds);
      assert ListAt(concentrated2, id) == ListAt(concentrated, id) + OfKinds(messages, kinds2);
    } else {
      assert ListAt(pool2, other) == ListAt(pool1, other);
      assert ListAt(concentrated2, other) == ListAt(concentrated1, other);
      assert other in todo - {id} <==> other in todo;
    }
  }

  // ------------------------------------------------------------------------ main results

  lemma {:induction false} KindsKeep(messages: seq<Message>, kinds: set<string>, m: Message)
    ensures multiset(OfKinds(messages, kinds))[m] == if m.kind in kinds then multiset(messages)[m] else 0
  {
    if messages != [] {
      KindsKeep(messages[..|messages| - 1], kinds, m);
      assert messages == messages[..|messages| - 1] + [messages[|messages| - 1]];
    }
  }

  lemma {:induction false} PlainKeeps(messages: seq<Message>, kinds: set<string>, kinds2: set<string>, m: Message)
    ensures multiset(Plain(messages, kinds, kinds2))[m]
         == if m.kind in kinds || m.kind in kinds2 then 0 else multiset(messages)[m]
  {
    if messages != [] {
      PlainKeeps(messages[..|messages| - 1], kinds, kinds2, m);
      assert messages == messages[..|messages| - 1] + [messages[|messages| - 1]];
    }
  }

  lemma {:induction false} EachUnderItsTx(messages: seq<Message>, id: nat, m: Message)
    ensures multiset(OfTx(messages, id))[m] == if m.tx.id == id then multiset(messages)[m] else 0
  {
    if messages != [] {
      EachUnderItsTx(messages[..|messages| - 1], id, m);
      assert messages == messages[..|messages| - 1] + [messages[|messages| - 1]];
    }
  }

  /**
    Grouping conserves messages. After grouping by transaction and separating into
    fresh groups, every message is found as often as in the input in exactly one of
    the three places, under its own transaction, and nowhere else.
   */
  lemma GroupingConserves(taxable: seq<Message>, txMap: Lists, txMap2: Lists, pool: Lists, concentrated: Lists,
                          m: Message, id: nat)
    requires forall i :: ListAt(txMap, i) == OfTx(taxable, i)
    requires forall i :: SeparatedAt(txMap, map[], map[], txMap2, pool, concentrated,
                                     PoolKinds(), ConcentratedKinds(), i, {})
    ensures var n := if m.tx.id == id then multiset(taxable)[m] else 0;
            && multiset(ListAt(pool, id))[m] == (if m.kind in PoolKinds() then n else 0)
            && multiset(ListAt(concentrated, id))[m] == (if m.kind in ConcentratedKinds() then n else 0)
            && multiset(ListAt(txMap2, id))[m]
               == (if m.kind in PoolKinds() || m.kind in ConcentratedKinds() then 0 else n)
            && !(m.kind in PoolKinds() && m.kind in ConcentratedKinds())
  {
    NotInBoth(m.kind);
    EachUnderItsTx(taxable, id, m);
    KindsKeep(OfTx(taxable, id), PoolKinds(), m);
    KindsKeep(OfTx(taxable, id), ConcentratedKinds(), m);
    PlainKeeps(OfTx(taxable, id), PoolKinds(), ConcentratedKinds(), m);
    assert SeparatedAt(txMap, map[], map[], txMap2, pool, concentrated, PoolKinds(), ConcentratedKinds(), id, {});
  }
}
