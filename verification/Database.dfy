/**
  The database as the indexer writes it: one find-or-create, update or delete
  at a time, under ids that the database picks. Each method is proved to do to
  the natural-key view what the operation lists of BlockData say.
 */
module Database {
  import opened Options
  import opened Ledger
  import opened Tables
  import opened BlockData

  /** t2 is reached from t by the given operations; rows keep their ids, and no failed block is added. */
  ghost predicate Wrote(t: Tables, t2: Tables, ops: seq<Op>) {
    && Valid(t2)
    && Grows(t, t2)
    && (forall i | i in t2.failed :: i in t.failed && t2.failed[i] == t.failed[i])
    && ViewOf(t2) == ApplyAll(ViewOf(t), ops)
  }

  lemma WroteNothing(t: Tables)
    requires Valid(t)
    ensures Wrote(t, t, [])
  {
  }

  lemma GrowsThen(t: Tables, t1: Tables, t2: Tables)
    requires Grows(t, t1) && Grows(t1, t2)
    ensures Grows(t, t2)
  {
    forall table, i | RowIn(t, table, i) && table != Failed ensures SameKeyRow(t, t2, table, i) {
      assert SameKeyRow(t, t1, table, i);
      assert SameKeyRow(t1, t2, table, i);
    }
  }

  lemma WroteThen(t: Tables, t1: Tables, t2: Tables, a: seq<Op>, b: seq<Op>)
    requires Wrote(t, t1, a) && Wrote(t1, t2, b)
    ensures Wrote(t, t2, a + b)
  {
    ApplyAllConcat(ViewOf(t), a, b);
    GrowsThen(t, t1, t2);
  }

  lemma WroteOne(t: Tables, t2: Tables, op: Op)
    requires Valid(t2) && Grows(t, t2)
    requires forall i | i in t2.failed :: i in t.failed && t2.failed[i] == t.failed[i]
    requires ViewOf(t2) == Apply(ViewOf(t), op)
    ensures Wrote(t, t2, [op])
  {
    assert [op][..0] == [];
  }

  predicate Below(used: set<Id>, bound: Id) {
    forall i | i in used :: i < bound
  }

  lemma {:induction false} SomeIdIsFree(used: set<Id>) returns (bound: Id)
    ensures bound > 0 && Below(used, bound)
    decreases |used|
  {
    bound := 1;
    if used != {} {
      var x :| x in used;
      var b := SomeIdIsFree(used - {x});
      bound := if x < b then b else x + 1;
      assert forall i | i in used :: i == x || i in used - {x};
    }
  }

  /** An id that the database may assign to a new row: any unused positive one. */
  method FreshId(used: set<Id>) returns (id: Id)
    ensures id !in used && id > 0
  {
    ghost var bound := SomeIdIsFree(used);
    assert bound !in used && bound > 0;
    id :| id !in used && id > 0;
  }

  // ------------------------------------------------------------- what an inserted row is

  lemma AddedAddress(t: Tables, id: Id, a: string)
    requires id !in t.addresses
    ensures AddsRow(t, t.(addresses := t.addresses[id := a]), Addresses, id)
  {
  }

  lemma AddedType(t: Tables, id: Id, s: string)
    requires id !in t.types
    ensures AddsRow(t, t.(types := t.types[id := s]), Types, id)
  {
  }

  lemma AddedChain(t: Tables, id: Id, row: ChainRow)
    requires id !in t.chains
    ensures AddsRow(t, t.(chains := t.chains[id := row]), Chains, id)
  {
  }

  lemma AddedBlock(t: Tables, id: Id, row: BlockRow)
    requires id !in t.blocks && row.chain in t.chains
    ensures AddsRow(t, t.(blocks := t.blocks[id := row]), Blocks, id)
  {
  }

  lemma AddedFailed(t: Tables, id: Id, row: FailedRow)
    requires id !in t.failed && row.chain in t.chains
    ensures AddsRow(t, t.(failed := t.failed[id := row]), Failed, id)
  {
  }

  lemma AddedTx(t: Tables, id: Id, row: TxRow)
    requires id !in t.txs && row.block in t.blocks && Points(row.signer, t.addresses)
    ensures AddsRow(t, t.(txs := t.txs[id := row]), Txs, id)
  {
  }

  lemma AddedFee(t: Tables, id: Id, row: FeeRow)
    requires id !in t.fees && row.tx in t.txs && row.payer in t.addresses
    ensures AddsRow(t, t.(fees := t.fees[id := row]), Fees, id)
  {
  }

  lemma AddedMessage(t: Tables, id: Id, row: MessageRow)
    requires id !in t.messages && row.tx in t.txs && row.messageType in t.types
    ensures AddsRow(t, t.(messages := t.messages[id := row]), Messages, id)
  {
  }

  lemma AddedTaxable(t: Tables, id: Id, row: TaxableRow)
    requires id !in t.taxable && row.message in t.messages
    requires Points(row.sender, t.addresses) && Points(row.receiver, t.addresses)
    ensures AddsRow(t, t.(taxable := t.taxable[id := row]), Taxable, id)
  {
  }

  lemma AddedEvent(t: Tables, id: Id, row: EventRow)
    requires id !in t.events && row.block in t.blocks && Points(row.address, t.addresses)
    ensures AddsRow(t, t.(events := t.events[id := row]), Events, id)
  {
  }

  lemma WroteFound(t: Tables, k: Key, i: Id, v: Val)
    requires Valid(t) && IsAt(t, k, i)
    ensures Wrote(t, t, [Ensure(k, v)])
  {
    FoundView(t, k, i, v);
    ExtendsGrows(t, t);
    WroteOne(t, t, Ensure(k, v));
  }

  lemma WroteRow(t: Tables, t2: Tables, k: Key, i: Id)
    requires Valid(t) && !Stored(t, k) && t2.failed == t.failed
    requires AddsRow(t, t2, TableOf(k), i) && IsAt(t2, k, i)
    ensures Wrote(t, t2, [Ensure(k, ValAt(t2, k, i))])
    ensures Wrote(t, t2, [Put(k, ValAt(t2, k, i))])
  {
    InsertedView(t, t2, k, i);
    WroteOne(t, t2, Ensure(k, ValAt(t2, k, i)));
    WroteOne(t, t2, Put(k, ValAt(t2, k, i)));
  }

  lemma WroteColumns(t: Tables, t2: Tables, k: Key, i: Id)
    requires Valid(t) && IsAt(t, k, i) && ChangesRow(t, t2, TableOf(k), i) && t2.failed == t.failed
    ensures Wrote(t, t2, [Put(k, ValAt(t2, k, i))])
  {
    UpdatedView(t, t2, k, i);
    WroteOne(t, t2, Put(k, ValAt(t2, k, i)));
  }

  // The find of a find-or-create compares foreign keys by id; by uniqueness that decides the natural key.

  lemma NoFee(t: Tables, tx: Id, denom: nat)
    requires Valid(t) && tx in t.txs
    requires !exists i :: i in t.fees && t.fees[i].tx == tx && t.fees[i].denom == denom
    ensures !Stored(t, FeeK(t.txs[tx].hash, denom))
  {
    var k := FeeK(t.txs[tx].hash, denom);
    if j :| IsAt(t, k, j) {
      var xk := TxK(t.txs[tx].hash);
      assert IsAt(t, xk, tx) && IsAt(t, xk, t.fees[j].tx);
    }
  }

  lemma NoMessage(t: Tables, tx: Id, messageType: Id, index: int)
    requires Valid(t) && tx in t.txs && messageType in t.types
    requires !exists i :: i in t.messages && t.messages[i] == MessageRow(tx, messageType, index)
    ensures !Stored(t, MessageK(t.txs[tx].hash, t.types[messageType], index))
  {
    var k := MessageK(t.txs[tx].hash, t.types[messageType], index);
    if j :| IsAt(t, k, j) {
      var xk, sk := TxK(t.txs[tx].hash), TypeK(t.types[messageType]);
      assert IsAt(t, xk, tx) && IsAt(t, xk, t.messages[j].tx);
      assert IsAt(t, sk, messageType) && IsAt(t, sk, t.messages[j].messageType);
    }
  }

  predicate SameAmounts(a: TaxableRow, b: TaxableRow) {
    a.message == b.message && a.sent == b.sent && a.received == b.received
  }

  lemma NoTaxable(t: Tables, row: TaxableRow, hash: string, messageType: string, index: int)
    requires Valid(t) && MessageAt(t, hash, messageType, index, row.message)
    requires !exists i :: i in t.taxable && SameAmounts(t.taxable[i], row)
    ensures !Stored(t, TaxableK(hash, messageType, index, row.sent, row.received))
  {
    var k := TaxableK(hash, messageType, index, row.sent, row.received);
    if j :| IsAt(t, k, j) {
      var mk := MessageK(hash, messageType, index);
      assert IsAt(t, mk, row.message) && IsAt(t, mk, t.taxable[j].message);
    }
  }

  predicate SameBlock(row: BlockRow, chain: Id, height: int) {
    row.chain == chain && row.height == height
  }

  lemma NoBlock(t: Tables, chain: Id, height: int)
    requires Valid(t) && chain in t.chains
    requires !exists i :: i in t.blocks && SameBlock(t.blocks[i], chain, height)
    ensures !Stored(t, BlockK(t.chains[chain].chainId, height))
  {
    var k := BlockK(t.chains[chain].chainId, height);
    if j :| IsAt(t, k, j) {
      var ck := ChainK(t.chains[chain].chainId);
      assert IsAt(t, ck, chain) && IsAt(t, ck, t.blocks[j].chain);
    }
  }

  lemma NoFailed(t: Tables, chain: Id, height: int)
    requires Valid(t) && chain in t.chains
    requires !exists i :: i in t.failed && t.failed[i] == FailedRow(chain, height)
    ensures !Stored(t, FailedK(t.chains[chain].chainId, height))
  {
    var k := FailedK(t.chains[chain].chainId, height);
    if j :| IsAt(t, k, j) {
      var ck := ChainK(t.chains[chain].chainId);
      assert IsAt(t, ck, chain) && IsAt(t, ck, t.failed[j].chain);
    }
  }

  function Overwritten(found: TaxableRow, row: TaxableRow): TaxableRow {
    found.(denomSent := Pick(found.denomSent, row.denomSent),
           denomReceived := Pick(found.denomReceived, row.denomReceived),
           sender := Pick(found.sender, row.sender),
           receiver := Pick(found.receiver, row.receiver))
  }

  lemma OverwrittenChanges(t: Tables, i: Id, row: TaxableRow)
    requires ForeignKeys(t) && RowIn(t, Taxable, i)
    requires Points(row.sender, t.addresses) && Points(row.receiver, t.addresses)
    ensures ChangesRow(t, t.(taxable := t.taxable[i := Overwritten(t.taxable[i], row)]), Taxable, i)
  {
    assert Resolved(t, Taxable, i);
  }

  lemma MarkedChanges(t: Tables, i: Id, time: int)
    requires ForeignKeys(t) && RowIn(t, Blocks, i)
    ensures ChangesRow(t, t.(blocks := t.blocks[i := t.blocks[i].(time := time, indexed := true)]), Blocks, i)
  {
    assert Resolved(t, Blocks, i);
  }

  lemma OverwrittenRow(t: Tables, i: Id, row: TaxableRow, k: Key)
    requires Valid(t) && IsAt(t, k, i) && k.TaxableK?
    requires Points(row.sender, t.addresses) && Points(row.receiver, t.addresses)
    ensures var t2 := t.(taxable := t.taxable[i := Overwritten(t.taxable[i], row)]);
            Wrote(t, t2, [Patch(k, FieldsOf(t, row))])
  {
    var t2 := t.(taxable := t.taxable[i := Overwritten(t.taxable[i], row)]);
    KeyHasRow(t, k, i);
    OverwrittenChanges(t, i, row);
    UpdatedView(t, t2, k, i);
    ViewAt(t, k, i);
    assert FieldsOf(t2, t2.taxable[i]) == Overlay(FieldsOf(t, t.taxable[i]), FieldsOf(t, row));
    WroteOne(t, t2, Patch(k, FieldsOf(t, row)));
  }

  lemma CreatedTaxable(t: Tables, id: Id, row: TaxableRow, hash: string, messageType: string, index: int)
    requires Valid(t) && id !in t.taxable && MessageAt(t, hash, messageType, index, row.message)
    requires Points(row.sender, t.addresses) && Points(row.receiver, t.addresses)
    requires !exists i :: i in t.taxable && SameAmounts(t.taxable[i], row)
    ensures var k := TaxableK(hash, messageType, index, row.sent, row.received);
            Wrote(t, t.(taxable := t.taxable[id := row]), [Patch(k, FieldsOf(t, row))])
  {
    var k := TaxableK(hash, messageType, index, row.sent, row.received);
    var t2 := t.(taxable := t.taxable[id := row]);
    NoTaxable(t, row, hash, messageType, index);
    AddedTaxable(t, id, row);
    InsertedView(t, t2, k, id);
    NotInView(t, k);
    WroteOne(t, t2, Patch(k, FieldsOf(t, row)));
  }

  lemma MarkedBlock(t: Tables, i: Id, time: int, k: Key)
    requires Valid(t) && IsAt(t, k, i) && k.BlockK?
    ensures var t2 := t.(blocks := t.blocks[i := t.blocks[i].(time := time, indexed := true)]);
            Wrote(t, t2, [Put(k, BlockV(time, true))]) && IsAt(t2, k, i)
  {
    var t2 := t.(blocks := t.blocks[i := t.blocks[i].(time := time, indexed := true)]);
    KeyHasRow(t, k, i);
    MarkedChanges(t, i, time);
    WroteColumns(t, t2, k, i);
  }

  lemma CreatedBlock(t: Tables, id: Id, row: BlockRow)
    requires Valid(t) && id !in t.blocks && row.chain in t.chains
    requires !exists i :: i in t.blocks && SameBlock(t.blocks[i], row.chain, row.height)
    ensures var t2 := t.(blocks := t.blocks[id := row]);
            var k := BlockK(t.chains[row.chain].chainId, row.height);
            && Wrote(t, t2, [Put(k, BlockV(row.time, row.indexed))])
            && Wrote(t, t2, [Ensure(k, BlockV(row.time, row.indexed))])
            && IsAt(t2, k, id)
  {
    var t2 := t.(blocks := t.blocks[id := row]);
    NoBlock(t, row.chain, row.height);
    AddedBlock(t, id, row);
    WroteRow(t, t2, BlockK(t.chains[row.chain].chainId, row.height), id);
  }

  class Database {
    var tables: Tables

    constructor ()
      ensures tables == EMPTY && Valid(tables)
    {
      tables := EMPTY;
    }

    // ---------------------------------------------------------- single rows

    method EnsureAddress(address: string) returns (id: Id)
      requires Valid(tables)
      modifies this
      ensures Wrote(old(tables), tables, [Ensure(AddressK(address), Unit)])
      ensures IsAt(tables, AddressK(address), id)
    {
      ghost var t := tables;
      if i :| i in tables.addresses && tables.addresses[i] == address {
        id := i;
        WroteFound(t, AddressK(address), id, Unit);
      } else {
        id := FreshId(tables.addresses.Keys);
        tables := tables.(addresses := tables.addresses[id := address]);
        AddedAddress(t, id, address);
        WroteRow(t, tables, AddressK(address), id);
      }
    }

    method EnsureType(messageType: string) returns (id: Id)
      requires Valid(tables)
      modifies this
      ensures Wrote(old(tables), tables, [Ensure(TypeK(messageType), Unit)])
      ensures IsAt(tables, TypeK(messageType), id)
    {
      ghost var t := tables;
      if i :| i in tables.types && tables.types[i] == messageType {
        id := i;
        WroteFound(t, TypeK(messageType), id, Unit);
      } else {
        id := FreshId(tables.types.Keys);
        tables := tables.(types := tables.types[id := messageType]);
        AddedType(t, id, messageType);
        WroteRow(t, tables, TypeK(messageType), id);
      }
    }

    method EnsureChain(chainId: string, name: string) returns (id: Id)
      requires Valid(tables)
      modifies this
      ensures Wrote(old(tables), tables, [Ensure(ChainK(chainId), ChainV(name))])
      ensures IsAt(tables, ChainK(chainId), id)
    {
      ghost var t := tables;
      if i :| i in tables.chains && tables.chains[i].chainId == chainId {
        id := i;
        WroteFound(t, ChainK(chainId), id, ChainV(name));
      } else {
        id := FreshId(tables.chains.Keys);
        tables := tables.(chains := tables.chains[id := ChainRow(chainId, name)]);
        AddedChain(t, id, ChainRow(chainId, name));
        WroteRow(t, tables, ChainK(chainId), id);
      }
    }

    /** Find the transaction by its hash, or create it in the given block. */
    method EnsureTx(row: TxRow) returns (id: Id)
      requires Valid(tables) && row.block in tables.blocks && Points(row.signer, tables.addresses)
      modifies this
      ensures Wrote(old(tables), tables,
                [Ensure(TxK(row.hash), TxV(row.code, BlockChain(old(tables), row.block),
                                           BlockHeight(old(tables), row.block), AddressOption(old(tables), row.signer)))])
      ensures IsAt(tables, TxK(row.hash), id)
    {
      ghost var t := tables;
      ghost var v := TxV(row.code, BlockChain(t, row.block), BlockHeight(t, row.block), AddressOption(t, row.signer));
      if i :| i in tables.txs && tables.txs[i].hash == row.hash {
        id := i;
        WroteFound(t, TxK(row.hash), id, v);
      } else {
        id := FreshId(tables.txs.Keys);
        tables := tables.(txs := tables.txs[id := row]);
        AddedTx(t, id, row);
        WroteRow(t, tables, TxK(row.hash), id);
      }
    }

    method EnsureFee(row: FeeRow)
      requires Valid(tables) && row.tx in tables.txs && row.payer in tables.addresses
      modifies this
      ensures Wrote(old(tables), tables, [Ensure(FeeK(old(tables).txs[row.tx].hash, row.denom),
                                            FeeV(row.amount, old(tables).addresses[row.payer]))])
    {
      ghost var t := tables;
      ghost var k := FeeK(t.txs[row.tx].hash, row.denom);
      if i :| i in tables.fees && tables.fees[i].tx == row.tx && tables.fees[i].denom == row.denom {
        WroteFound(t, k, i, FeeV(row.amount, t.addresses[row.payer]));
      } else {
        NoFee(t, row.tx, row.denom);
        var id := FreshId(tables.fees.Keys);
        tables := tables.(fees := tables.fees[id := row]);
        AddedFee(t, id, row);
        WroteRow(t, tables, k, id);
      }
    }

    method EnsureMessage(row: MessageRow) returns (id: Id)
      requires Valid(tables) && row.tx in tables.txs && row.messageType in tables.types
      modifies this
      ensures Wrote(old(tables), tables,
                [Ensure(MessageK(old(tables).txs[row.tx].hash, old(tables).types[row.messageType], row.index), Unit)])
      ensures IsAt(tables, MessageK(old(tables).txs[row.tx].hash, old(tables).types[row.messageType], row.index), id)
    {
      ghost var t := tables;
      ghost var k := MessageK(t.txs[row.tx].hash, t.types[row.messageType], row.index);
      if i :| i in tables.messages && tables.messages[i] == row {
        id := i;
        WroteFound(t, k, id, Unit);
      } else {
        NoMessage(t, row.tx, row.messageType, row.index);
        id := FreshId(tables.messages.Keys);
        tables := tables.(messages := tables.messages[id := row]);
        AddedMessage(t, id, row);
        WroteRow(t, tables, k, id);
      }
    }

    /** Create the row for a message and its amounts, or overwrite the set columns of the one that exists. */
    method UpsertTaxable(row: TaxableRow, ghost hash: string, ghost messageType: string, ghost index: int)
      requires Valid(tables) && MessageAt(tables, hash, messageType, index, row.message)
      requires Points(row.sender, tables.addresses) && Points(row.receiver, tables.addresses)
      modifies this
      ensures Wrote(old(tables), tables,
                [Patch(TaxableK(hash, messageType, index, row.sent, row.received), FieldsOf(old(tables), row))])
    {
      ghost var t := tables;
      if i :| i in tables.taxable && SameAmounts(tables.taxable[i], row) {
        tables := tables.(taxable := tables.taxable[i := Overwritten(tables.taxable[i], row)]);
        OverwrittenRow(t, i, row, TaxableK(hash, messageType, index, row.sent, row.received));
      } else {
        var id := FreshId(tables.taxable.Keys);
        tables := tables.(taxable := tables.taxable[id := row]);
        CreatedTaxable(t, id, row, hash, messageType, index);
      }
    }

    /** The block row of the block that is being stored, marked indexed whether it is new or not. */
    method PutBlock(chain: Id, height: int, time: int) returns (id: Id)
      requires Valid(tables) && chain in tables.chains
      modifies this
      ensures Wrote(old(tables), tables,
                [Put(BlockK(old(tables).chains[chain].chainId, height), BlockV(time, true))])
      ensures IsAt(tables, BlockK(old(tables).chains[chain].chainId, height), id)
    {
      ghost var t := tables;
      ghost var k := BlockK(t.chains[chain].chainId, height);
      if i :| i in tables.blocks && SameBlock(tables.blocks[i], chain, height) {
        id := i;
        tables := tables.(blocks := tables.blocks[i := tables.blocks[i].(time := time, indexed := true)]);
        MarkedBlock(t, id, time, k);
      } else {
        id := FreshId(tables.blocks.Keys);
        tables := tables.(blocks := tables.blocks[id := BlockRow(chain, height, time, true)]);
        CreatedBlock(t, id, BlockRow(chain, height, time, true));
      }
    }

    /** The block row that an event points at: created unindexed when it is not there yet. */
    method EnsureBlock(chain: Id, height: int, time: int) returns (id: Id)
      requires Valid(tables) && chain in tables.chains
      modifies this
      ensures Wrote(old(tables), tables,
                [Ensure(BlockK(old(tables).chains[chain].chainId, height), BlockV(time, false))])
      ensures IsAt(tables, BlockK(old(tables).chains[chain].chainId, height), id)
    {
      ghost var t := tables;
      ghost var k := BlockK(t.chains[chain].chainId, height);
      if i :| i in tables.blocks && SameBlock(tables.blocks[i], chain, height) {
        id := i;
        WroteFound(t, k, id, BlockV(time, false));
      } else {
        id := FreshId(tables.blocks.Keys);
        tables := tables.(blocks := tables.blocks[id := BlockRow(chain, height, time, false)]);
        CreatedBlock(t, id, BlockRow(chain, height, time, false));
      }
    }

    method EnsureEvent(row: EventRow)
      requires Valid(tables) && row.block in tables.blocks && Points(row.address, tables.addresses)
      modifies this
      ensures Wrote(old(tables), tables,
                [Ensure(EventK(row.hash),
                        EventV(row.source, row.amount, row.denom, AddressOption(old(tables), row.address),
                               BlockChain(old(tables), row.block), BlockHeight(old(tables), row.block)))])
    {
      ghost var t := tables;
      ghost var v := EventV(row.source, row.amount, row.denom, AddressOption(t, row.address),
                            BlockChain(t, row.block), BlockHeight(t, row.block));
      if i :| i in tables.events && tables.events[i].hash == row.hash {
        WroteFound(t, EventK(row.hash), i, v);
      } else {
        var id := FreshId(tables.events.Keys);
        tables := tables.(events := tables.events[id := row]);
        AddedEvent(t, id, row);
        WroteRow(t, tables, EventK(row.hash), id);
      }
    }

    method DeleteFailed(chain: Id, height: int)
      requires Valid(tables) && chain in tables.chains
      modifies this
      ensures Wrote(old(tables), tables, [Remove(FailedK(old(tables).chains[chain].chainId, height))])
    {
      ghost var t := tables;
      tables := tables.(failed := map i | i in tables.failed && tables.failed[i] != FailedRow(chain, height)
                                      :: tables.failed[i]);
      RemovedView(t, tables, chain, height);
      WroteOne(t, tables, Remove(FailedK(t.chains[chain].chainId, height)));
    }

    /** A height that could not be processed gets a failed row, unless it has one. */
    method UpsertFailedBlock(chainId: string, name: string, height: int)
      requires Valid(tables)
      modifies this
      ensures Valid(tables) && Grows(old(tables), tables)
      ensures ViewOf(tables) == ApplyAll(old(ViewOf(tables)),
                [Ensure(ChainK(chainId), ChainV(name))] + [Ensure(FailedK(chainId, height), Unit)])
    {
      ghost var t0 := tables;
      var chain := EnsureChain(chainId, name);
      ghost var t := tables;
      ghost var k := FailedK(chainId, height);
      if i :| i in tables.failed && tables.failed[i] == FailedRow(chain, height) {
        WroteFound(t, k, i, Unit);
      } else {
        NoFailed(t, chain, height);
        var id := FreshId(tables.failed.Keys);
        tables := tables.(failed := tables.failed[id := FailedRow(chain, height)]);
        AddedFailed(t, id, FailedRow(chain, height));
        InsertedView(t, tables, k, id);
      }
      assert [Ensure(k, Unit)][..0] == [];
      assert ViewOf(tables) == ApplyAll(ViewOf(t), [Ensure(k, Unit)]);
      ApplyAllConcat(ViewOf(t0), [Ensure(ChainK(chainId), ChainV(name))], [Ensure(k, Unit)]);
      GrowsThen(t0, t, tables);
    }

    // ---------------------------------------------------------- one block

    /** The address row for a possibly empty address. */
    method EnsureNamed(address: string) returns (id: Option<Id>)
      requires Valid(tables)
      modifies this
      ensures Wrote(old(tables), tables, AddressOps(address))
      ensures Points(id, tables.addresses) && AddressOption(tables, id) == Named(address)
    {
      if address == "" {
        id := None;
        WroteNothing(tables);
      } else {
        var i := EnsureAddress(address);
        id := Some(i);
      }
    }

    method StoreFees(tx: Id, fees: seq<FeeData>) returns (verdict: Verdict)
      requires Valid(tables) && tx in tables.txs
      modifies this
      ensures verdict == if exists f :: f in fees && !GoodFee(f) then RolledBack else Committed
      ensures verdict == Committed ==> Wrote(old(tables), tables, FeeOps(old(tables).txs[tx].hash, fees))
    {
      ghost var t := tables;
      ghost var hash := t.txs[tx].hash;
      WroteNothing(t);
      for n := 0 to |fees|
        invariant forall f | f in fees[..n] :: GoodFee(f)
        invariant Wrote(t, tables, FeeOps(hash, fees[..n]))
      {
        var fee := fees[n];
        assert fee in fees;
        if fee.payer == "" {
          return RolledBack;
        }
        ghost var t1 := tables;
        var payer := EnsureAddress(fee.payer);
        if fee.denom.base == "" || fee.denom.symbol == "" {
          return RolledBack;
        }
        ghost var t2 := tables;
        KeptTx(t, t1, tx);
        KeptTx(t1, t2, tx);
        EnsureFee(FeeRow(tx, fee.denom.id, fee.amount, payer));
        WroteThen(t1, t2, tables, [Ensure(AddressK(fee.payer), Unit)],
                  [Ensure(FeeK(hash, fee.denom.id), FeeV(fee.amount, fee.payer))]);
        WroteThen(t, t1, tables, FeeOps(hash, fees[..n]), FeeRowOps(hash, fee));
        assert fees[..n + 1][..n] == fees[..n];
      }
      assert fees[..|fees|] == fees;
      return Committed;
    }

    method StoreTaxable(message: Id, rows: seq<TaxableData>,
                        ghost hash: string, ghost messageType: string, ghost index: int)
      requires Valid(tables) && MessageAt(tables, hash, messageType, index, message)
      modifies this
      ensures Wrote(old(tables), tables, TaxableOps(hash, messageType, index, rows))
    {
      ghost var t := tables;
      WroteNothing(t);
      for n := 0 to |rows|
        invariant Wrote(t, tables, TaxableOps(hash, messageType, index, rows[..n]))
      {
        ghost var t1 := tables;
        KeptMessage(t, t1, hash, messageType, index, message);
        StoreTaxableRow(message, rows[n], hash, messageType, index);
        WroteThen(t, t1, tables, TaxableOps(hash, messageType, index, rows[..n]),
                  TaxableRowOps(hash, messageType, index, rows[n]));
        assert rows[..n + 1][..n] == rows[..n];
      }
      assert rows[..|rows|] == rows;
    }

    method StoreTaxableRow(message: Id, row: TaxableData,
                           ghost hash: string, ghost messageType: string, ghost index: int)
      requires Valid(tables) && MessageAt(tables, hash, messageType, index, message)
      modifies this
      ensures Wrote(old(tables), tables, TaxableRowOps(hash, messageType, index, row))
    {
      ghost var t := tables;
      if TooLong(row) {
        WroteNothing(t);
        return;
      }
      var sender := EnsureNamed(row.sender);
      ghost var t1 := tables;
      var receiver := EnsureNamed(row.receiver);
      ghost var t2 := tables;
      KeptAddress(t1, t2, sender);
      WroteThen(t, t1, t2, AddressOps(row.sender), AddressOps(row.receiver));
      KeptMessage(t, t2, hash, messageType, index, message);
      UpsertTaxable(TaxableRow(message, row.sent, row.received, Known(row.denomSent), Known(row.denomReceived),
                               sender, receiver), hash, messageType, index);
      WroteThen(t, t2, tables, AddressOps(row.sender) + AddressOps(row.receiver),
                [Patch(TaxableK(hash, messageType, index, row.sent, row.received), Fields(row))]);
    }

    method StoreMessages(tx: Id, messages: seq<MessageData>) returns (verdict: Verdict)
      requires Valid(tables) && tx in tables.txs
      modifies this
      ensures verdict == if exists m :: m in messages && m.messageType == "" then Fatal else Committed
      ensures verdict == Committed ==> Wrote(old(tables), tables, MessageOps(old(tables).txs[tx].hash, messages))
    {
      ghost var t := tables;
      ghost var hash := t.txs[tx].hash;
      ghost var untyped := FirstUntyped(messages);
      WroteNothing(t);
      for n := 0 to |messages|
        invariant n <= untyped
        invariant Wrote(t, tables, MessageOps(hash, messages[..n]))
      {
        if messages[n].messageType == "" {
          return Fatal;
        }
        ghost var t1 := tables;
        KeptTx(t, t1, tx);
        StoreMessage(tx, messages[n]);
        WroteThen(t, t1, tables, MessageOps(hash, messages[..n]), MessageRowOps(hash, messages[n]));
        NextMessageOps(hash, messages, n);
      }
      assert messages[..|messages|] == messages;
      return Committed;
    }

    method StoreMessage(tx: Id, message: MessageData)
      requires Valid(tables) && tx in tables.txs
      modifies this
      ensures Wrote(old(tables), tables, MessageRowOps(old(tables).txs[tx].hash, message))
    {
      ghost var t := tables;
      ghost var hash := t.txs[tx].hash;
      var messageType := EnsureType(message.messageType);
      ghost var t1 := tables;
      KeptTx(t, t1, tx);
      var id := EnsureMessage(MessageRow(tx, messageType, message.index));
      ghost var t2 := tables;
      ghost var first := [Ensure(TypeK(message.messageType), Unit)];
      ghost var second := [Ensure(MessageK(hash, message.messageType, message.index), Unit)];
      WroteThen(t, t1, t2, first, second);
      StoreTaxable(id, message.taxable, hash, message.messageType, message.index);
      WroteThen(t, t2, tables, first + second,
                TaxableOps(hash, message.messageType, message.index, message.taxable));
    }

    method StoreTx(block: Id, tx: TxData) returns (verdict: Verdict)
      requires Valid(tables) && block in tables.blocks
      modifies this
      ensures verdict == TxVerdict(tx)
      ensures verdict == Committed ==>
                Wrote(old(tables), tables, TxOps(BlockChain(old(tables), block), BlockHeight(old(tables), block), tx))
    {
      ghost var t := tables;
      ghost var chain, height := BlockChain(t, block), BlockHeight(t, block);
      var signer := EnsureNamed(tx.signer);
      ghost var t1 := tables;
      KeptBlock(t, t1, block);
      var id := EnsureTx(TxRow(tx.hash, tx.code, block, signer));
      ghost var t2 := tables;
      ghost var row := [Ensure(TxK(tx.hash), TxV(tx.code, chain, height, Named(tx.signer)))];
      WroteThen(t, t1, t2, AddressOps(tx.signer), row);
      verdict := StoreFees(id, tx.fees);
      if verdict != Committed {
        return;
      }
      ghost var t3 := tables;
      KeptTx(t2, t3, id);
      WroteThen(t, t2, t3, AddressOps(tx.signer) + row, FeeOps(tx.hash, tx.fees));
      verdict := StoreMessages(id, tx.messages);
      if verdict == Committed {
        WroteThen(t, t3, tables, AddressOps(tx.signer) + row + FeeOps(tx.hash, tx.fees),
                  MessageOps(tx.hash, tx.messages));
      }
    }

    method StoreTxs(block: Id, txs: seq<TxData>) returns (verdict: Verdict)
      requires Valid(tables) && block in tables.blocks
      modifies this
      ensures verdict == BlockVerdict(txs)
      ensures verdict == Committed ==>
                Wrote(old(tables), tables, TxsOps(BlockChain(old(tables), block), BlockHeight(old(tables), block), txs))
    {
      ghost var t := tables;
      ghost var chain, height := BlockChain(t, block), BlockHeight(t, block);
      WroteNothing(t);
      for n := 0 to |txs|
        invariant BlockVerdict(txs[..n]) == Committed
        invariant Wrote(t, tables, TxsOps(chain, height, txs[..n]))
      {
        ghost var t1 := tables;
        KeptBlock(t, t1, block);
        verdict := StoreTx(block, txs[n]);
        assert txs[..n + 1][..n] == txs[..n];
        if verdict != Committed {
          FirstVerdict(txs, n + 1);
          return;
        }
        WroteThen(t, t1, tables, TxsOps(chain, height, txs[..n]), TxOps(chain, height, txs[n]));
      }
      assert txs[..|txs|] == txs;
      return Committed;
    }

    /**
      Store one block in one transaction: everything or, when a row is not fit to
      be stored or the database fails, nothing.
     */
    method IndexNewBlock(chain: Id, block: BlockData, outage: bool) returns (verdict: Verdict)
      requires Valid(tables) && chain in tables.chains
      modifies this
      ensures verdict == if BlockVerdict(block.txs) == Committed && outage then RolledBack else BlockVerdict(block.txs)
      ensures verdict == Committed ==>
                Wrote(old(tables), tables, BlockOps(old(tables).chains[chain].chainId, block))
      ensures verdict != Committed ==> tables == old(tables)
    {
      var saved := tables;
      ghost var t := tables;
      ghost var name := t.chains[chain].chainId;
      DeleteFailed(chain, block.height);
      ghost var t1 := tables;
      KeptChain(t, t1, chain);
      var id := PutBlock(chain, block.height, block.time);
      ghost var t2 := tables;
      ghost var first := [Remove(FailedK(name, block.height))];
      ghost var second := [Put(BlockK(name, block.height), BlockV(block.time, true))];
      WroteThen(t, t1, t2, first, second);
      verdict := StoreTxs(id, block.txs);
      if verdict == Committed {
        WroteThen(t, t2, tables, first + second, TxsOps(name, block.height, block.txs));
      }
      if verdict == Committed && outage {
        verdict := RolledBack;
      }
      if verdict != Committed {
        tables := saved;
      }
    }

    /**
      What the writer does with a block: on failure one further attempt, and after
      a second failure the process ends. Any committed outcome is one clean merge.
     */
    method IndexWithReattempt(chain: Id, block: BlockData, outages: seq<bool>) returns (stored: bool)
      requires Valid(tables) && chain in tables.chains && |outages| == 2
      modifies this
      ensures stored <==> BlockVerdict(block.txs) == Committed && !(outages[0] && outages[1])
      ensures stored ==> Wrote(old(tables), tables, BlockOps(old(tables).chains[chain].chainId, block))
      ensures !stored ==> tables == old(tables)
    {
      var verdict := IndexNewBlock(chain, block, outages[0]);
      if verdict == RolledBack {
        verdict := IndexNewBlock(chain, block, outages[1]);
      }
      stored := verdict == Committed;
    }
  }

  // ------------------------------------------------------- rows survive later writes

  lemma FirstUntyped(messages: seq<MessageData>) returns (n: nat)
    ensures n <= |messages|
    ensures n < |messages| ==> messages[n].messageType == ""
    ensures forall k | 0 <= k < n :: messages[k].messageType != ""
    ensures n == |messages| <==> !exists m :: m in messages && m.messageType == ""
  {
    n := 0;
    while n < |messages| && messages[n].messageType != ""
      invariant n <= |messages| && forall k | 0 <= k < n :: messages[k].messageType != ""
    {
      n := n + 1;
    }
  }

  lemma NextMessageOps(hash: string, messages: seq<MessageData>, n: nat)
    requires n < |messages|
    ensures MessageOps(hash, messages[..n + 1]) == MessageOps(hash, messages[..n]) + MessageRowOps(hash, messages[n])
  {
    assert messages[..n + 1][..n] == messages[..n];
  }

  lemma KeptTx(t: Tables, t2: Tables, tx: Id)
    requires Grows(t, t2) && tx in t.txs
    ensures tx in t2.txs && t2.txs[tx] == t.txs[tx]
  {
    assert RowIn(t, Txs, tx) && SameKeyRow(t, t2, Txs, tx);
  }

  lemma KeptChain(t: Tables, t2: Tables, chain: Id)
    requires Grows(t, t2) && chain in t.chains
    ensures chain in t2.chains && t2.chains[chain] == t.chains[chain]
  {
    assert RowIn(t, Chains, chain) && SameKeyRow(t, t2, Chains, chain);
  }

  lemma KeptAddress(t: Tables, t2: Tables, a: Option<Id>)
    requires Grows(t, t2) && Points(a, t.addresses)
    ensures Points(a, t2.addresses) && AddressOption(t2, a) == AddressOption(t, a)
  {
    if a.Some? {
      assert RowIn(t, Addresses, a.value) && SameKeyRow(t, t2, Addresses, a.value);
    }
  }

  lemma KeptBlock(t: Tables, t2: Tables, block: Id)
    requires Valid(t) && Grows(t, t2) && block in t.blocks
    ensures block in t2.blocks
    ensures BlockChain(t2, block) == BlockChain(t, block) && BlockHeight(t2, block) == BlockHeight(t, block)
  {
    assert RowIn(t, Blocks, block) && SameKeyRow(t, t2, Blocks, block) && Resolved(t, Blocks, block);
    KeptChain(t, t2, t.blocks[block].chain);
  }

  lemma KeptMessage(t: Tables, t2: Tables, hash: string, messageType: string, index: int, i: Id)
    requires Grows(t, t2) && MessageAt(t, hash, messageType, index, i)
    ensures MessageAt(t2, hash, messageType, index, i)
  {
    GrowsMessage(t, t2, i);
  }

  lemma {:induction false} FirstVerdict(txs: seq<TxData>, n: nat)
    requires n <= |txs| && BlockVerdict(txs[..n]) != Committed
    ensures BlockVerdict(txs) == BlockVerdict(txs[..n])
  {
    if n < |txs| {
      var init := txs[..|txs| - 1];
      assert init[..n] == txs[..n];
      FirstVerdict(init, n);
    } else {
      assert txs[..n] == txs;
    }
  }

  // ---------------------------------------------------------------- main results

  /**
    Storing a block that is already stored changes nothing in the tables: no row
    is created, and every id, key and column stays, whatever the tables were
    before the first time and whatever ids were handed out.
   */
  lemma StoringAgainChangesNothing(v: View, t: Tables, t2: Tables, chain: string, block: BlockData)
    requires Valid(t) && ViewOf(t) == ApplyAll(v, BlockOps(chain, block))
    requires Wrote(t, t2, BlockOps(chain, block))
    ensures t2 == t
  {
    StoringTwice(v, chain, block);
    SameViewSameTables(t, t2);
  }

  /** Two databases that stored the same two separate blocks in opposite orders show the same content. */
  lemma OrderDoesNotShow(t: Tables, a1: Tables, a2: Tables, b1: Tables, b2: Tables,
                         chain: string, a: BlockData, b: BlockData)
    requires a == b || Separate(a, b)
    requires Wrote(t, a1, BlockOps(chain, a)) && Wrote(a1, a2, BlockOps(chain, b))
    requires Wrote(t, b1, BlockOps(chain, b)) && Wrote(b1, b2, BlockOps(chain, a))
    ensures ViewOf(a2) == ViewOf(b2)
  {
    EitherOrder(ViewOf(t), chain, a, b);
  }
}
