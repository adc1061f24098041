/**
  The tables as the database stores them: rows under surrogate ids, pointing at
  each other by id. Valid says that every foreign key resolves and that every
  natural key is stored at most once; ViewOf forgets the ids.
 */
module Tables {
  import opened Options
  import opened Ledger

  type Id = nat

  datatype ChainRow = ChainRow(chainId: string, name: string)
  datatype BlockRow = BlockRow(chain: Id, height: int, time: int, indexed: bool)
  datatype FailedRow = FailedRow(chain: Id, height: int)
  datatype TxRow = TxRow(hash: string, code: int, block: Id, signer: Option<Id>)
  datatype FeeRow = FeeRow(tx: Id, denom: nat, amount: int, payer: Id)
  datatype MessageRow = MessageRow(tx: Id, messageType: Id, index: int)
  datatype TaxableRow = TaxableRow(
    message: Id, sent: int, received: int,
    denomSent: Option<nat>, denomReceived: Option<nat>, sender: Option<Id>, receiver: Option<Id>)
  datatype EventRow = EventRow(hash: nat, source: nat, amount: int, denom: nat, address: Option<Id>, block: Id)

  datatype Tables = Tables(
    chains: map<Id, ChainRow>,
    blocks: map<Id, BlockRow>,
    failed: map<Id, FailedRow>,
    addresses: map<Id, string>,
    types: map<Id, string>,
    txs: map<Id, TxRow>,
    fees: map<Id, FeeRow>,
    messages: map<Id, MessageRow>,
    taxable: map<Id, TaxableRow>,
    events: map<Id, EventRow>)

  const EMPTY := Tables(map[], map[], map[], map[], map[], map[], map[], map[], map[], map[])

  // ------------------------------------------------------ natural keys and values

  predicate ChainAt(t: Tables, chain: string, i: Id) {
    i in t.chains && t.chains[i].chainId == chain
  }

  predicate TxAt(t: Tables, hash: string, i: Id) {
    i in t.txs && t.txs[i].hash == hash
  }

  predicate MessageAt(t: Tables, hash: string, messageType: string, index: int, i: Id) {
    && i in t.messages && t.messages[i].index == index
    && TxAt(t, hash, t.messages[i].tx)
    && t.messages[i].messageType in t.types && t.types[t.messages[i].messageType] == messageType
  }

  /** Row i of the table that k belongs to carries the natural key k. */
  predicate IsAt(t: Tables, k: Key, i: Id) {
    match k
    case ChainK(c) => ChainAt(t, c, i)
    case BlockK(c, h) => i in t.blocks && t.blocks[i].height == h && ChainAt(t, c, t.blocks[i].chain)
    case FailedK(c, h) => i in t.failed && t.failed[i].height == h && ChainAt(t, c, t.failed[i].chain)
    case AddressK(a) => i in t.addresses && t.addresses[i] == a
    case TypeK(s) => i in t.types && t.types[i] == s
    case TxK(hash) => TxAt(t, hash, i)
    case FeeK(hash, d) => i in t.fees && t.fees[i].denom == d && TxAt(t, hash, t.fees[i].tx)
    case MessageK(hash, s, n) => MessageAt(t, hash, s, n, i)
    case TaxableK(hash, s, n, sent, received) =>
      && i in t.taxable && t.taxable[i].sent == sent && t.taxable[i].received == received
      && MessageAt(t, hash, s, n, t.taxable[i].message)
    case EventK(hash) => i in t.events && t.events[i].hash == hash
  }

  function ChainName(t: Tables, i: Id): string {
    if i in t.chains then t.chains[i].chainId else ""
  }

  function Address(t: Tables, i: Id): string {
    if i in t.addresses then t.addresses[i] else ""
  }

  function AddressOption(t: Tables, i: Option<Id>): Option<string> {
    if i.Some? then Some(Address(t, i.value)) else None
  }

  function Hash(t: Tables, i: Id): string {
    if i in t.txs then t.txs[i].hash else ""
  }

  function TypeName(t: Tables, i: Id): string {
    if i in t.types then t.types[i] else ""
  }

  function BlockChain(t: Tables, i: Id): string {
    if i in t.blocks then ChainName(t, t.blocks[i].chain) else ""
  }

  function BlockHeight(t: Tables, i: Id): int {
    if i in t.blocks then t.blocks[i].height else 0
  }

  function FieldsOf(t: Tables, row: TaxableRow): TaxableFields {
    TaxableFields(row.denomSent, row.denomReceived, AddressOption(t, row.sender), AddressOption(t, row.receiver))
  }

  /** What row i stores beside its natural key, with foreign keys replaced by what they point at. */
  function ValAt(t: Tables, k: Key, i: Id): Val {
    if !IsAt(t, k, i) then Unit else
    match k
    case ChainK(_) => ChainV(t.chains[i].name)
    case BlockK(_, _) => BlockV(t.blocks[i].time, t.blocks[i].indexed)
    case TxK(_) =>
      var row := t.txs[i];
      TxV(row.code, BlockChain(t, row.block), BlockHeight(t, row.block), AddressOption(t, row.signer))
    case FeeK(_, _) => FeeV(t.fees[i].amount, Address(t, t.fees[i].payer))
    case TaxableK(_, _, _, _, _) => TaxableV(FieldsOf(t, t.taxable[i]))
    case EventK(_) =>
      var row := t.events[i];
      EventV(row.source, row.amount, row.denom, AddressOption(t, row.address),
             BlockChain(t, row.block), BlockHeight(t, row.block))
    case _ => Unit
  }

  // ------------------------------------------------------------------- single rows

  datatype Table = Chains | Blocks | Failed | Addresses | Types | Txs | Fees | Messages | Taxable | Events

  function TableOf(k: Key): Table {
    match k
    case ChainK(_) => Chains
    case BlockK(_, _) => Blocks
    case FailedK(_, _) => Failed
    case AddressK(_) => Addresses
    case TypeK(_) => Types
    case TxK(_) => Txs
    case FeeK(_, _) => Fees
    case MessageK(_, _, _) => Messages
    case TaxableK(_, _, _, _, _) => Taxable
    case EventK(_) => Events
  }

  predicate RowIn(t: Tables, table: Table, i: Id) {
    match table
    case Chains => i in t.chains
    case Blocks => i in t.blocks
    case Failed => i in t.failed
    case Addresses => i in t.addresses
    case Types => i in t.types
    case Txs => i in t.txs
    case Fees => i in t.fees
    case Messages => i in t.messages
    case Taxable => i in t.taxable
    case Events => i in t.events
  }

  predicate Points(i: Option<Id>, addresses: map<Id, string>) {
    i.Some? ==> i.value in addresses
  }

  /** The foreign keys of row i point at rows. */
  predicate Resolved(t: Tables, table: Table, i: Id)
    requires RowIn(t, table, i)
  {
    match table
    case Blocks => t.blocks[i].chain in t.chains
    case Failed => t.failed[i].chain in t.chains
    case Txs => t.txs[i].block in t.blocks && Points(t.txs[i].signer, t.addresses)
    case Fees => t.fees[i].tx in t.txs && t.fees[i].payer in t.addresses
    case Messages => t.messages[i].tx in t.txs && t.messages[i].messageType in t.types
    case Taxable =>
      && t.taxable[i].message in t.messages
      && Points(t.taxable[i].sender, t.addresses) && Points(t.taxable[i].receiver, t.addresses)
    case Events => t.events[i].block in t.blocks && Points(t.events[i].address, t.addresses)
    case _ => true
  }

  /** Row i is in both, with the same content. */
  predicate SameRow(t: Tables, t2: Tables, table: Table, i: Id) {
    && RowIn(t, table, i) && RowIn(t2, table, i)
    && match table
       case Chains => t.chains[i] == t2.chains[i]
       case Blocks => t.blocks[i] == t2.blocks[i]
       case Failed => t.failed[i] == t2.failed[i]
       case Addresses => t.addresses[i] == t2.addresses[i]
       case Types => t.types[i] == t2.types[i]
       case Txs => t.txs[i] == t2.txs[i]
       case Fees => t.fees[i] == t2.fees[i]
       case Messages => t.messages[i] == t2.messages[i]
       case Taxable => t.taxable[i] == t2.taxable[i]
       case Events => t.events[i] == t2.events[i]
  }

  /** Row i is in both, with the same key and foreign keys; only a block's or a taxable row's columns may differ. */
  predicate SameKeyRow(t: Tables, t2: Tables, table: Table, i: Id) {
    match table
    case Blocks =>
      && i in t.blocks && i in t2.blocks
      && t.blocks[i].chain == t2.blocks[i].chain && t.blocks[i].height == t2.blocks[i].height
    case Taxable =>
      && i in t.taxable && i in t2.taxable && t.taxable[i].message == t2.taxable[i].message
      && t.taxable[i].sent == t2.taxable[i].sent && t.taxable[i].received == t2.taxable[i].received
    case _ => SameRow(t, t2, table, i)
  }

  // --------------------------------------------------------------------- validity

  ghost predicate ForeignKeys(t: Tables) {
    forall table, i | RowIn(t, table, i) :: Resolved(t, table, i)
  }

  ghost predicate UniqueKeys(t: Tables) {
    forall k, i, j :: IsAt(t, k, i) && IsAt(t, k, j) ==> i == j
  }

  /** Every foreign key resolves, and every natural key is stored at most once. */
  ghost predicate Valid(t: Tables) {
    ForeignKeys(t) && UniqueKeys(t)
  }

  /** No row disappears or changes its id, its key or its foreign keys (failed_blocks apart). */
  ghost predicate Grows(t: Tables, t2: Tables) {
    forall table, i | RowIn(t, table, i) && table != Failed :: SameKeyRow(t, t2, table, i)
  }

  /** No row of t changes at all. */
  ghost predicate Extends(t: Tables, t2: Tables) {
    forall table, i | RowIn(t, table, i) :: SameRow(t, t2, table, i)
  }

  ghost predicate Stored(t: Tables, k: Key) {
    exists i :: IsAt(t, k, i)
  }

  ghost function RowOf(t: Tables, k: Key): Id
    requires Stored(t, k)
  {
    var i :| IsAt(t, k, i); i
  }

  ghost function ViewOf(t: Tables): View {
    imap k | Stored(t, k) :: ValAt(t, k, RowOf(t, k))
  }

  lemma ViewAt(t: Tables, k: Key, i: Id)
    requires UniqueKeys(t) && IsAt(t, k, i)
    ensures At(ViewOf(t), k) == Some(ValAt(t, k, i))
  {
    assert IsAt(t, k, RowOf(t, k));
  }

  lemma NotInView(t: Tables, k: Key)
    requires !Stored(t, k)
    ensures At(ViewOf(t), k) == None
  {
  }

  lemma KeyHasRow(t: Tables, k: Key, i: Id)
    requires IsAt(t, k, i)
    ensures RowIn(t, TableOf(k), i)
  {
  }

  /** A row has one natural key. */
  lemma OneKey(t: Tables, k: Key, k2: Key, i: Id)
    requires IsAt(t, k, i) && IsAt(t, k2, i) && TableOf(k) == TableOf(k2)
    ensures k == k2
  {
  }

  /** The natural key of row i. */
  function KeyOf(t: Tables, table: Table, i: Id): Key
    requires RowIn(t, table, i)
  {
    match table
    case Chains => ChainK(t.chains[i].chainId)
    case Blocks => BlockK(ChainName(t, t.blocks[i].chain), t.blocks[i].height)
    case Failed => FailedK(ChainName(t, t.failed[i].chain), t.failed[i].height)
    case Addresses => AddressK(t.addresses[i])
    case Types => TypeK(t.types[i])
    case Txs => TxK(t.txs[i].hash)
    case Fees => FeeK(Hash(t, t.fees[i].tx), t.fees[i].denom)
    case Messages => MessageK(Hash(t, t.messages[i].tx), TypeName(t, t.messages[i].messageType), t.messages[i].index)
    case Taxable =>
      var row := t.taxable[i];
      if row.message !in t.messages then TypeK("") else
      var m := t.messages[row.message];
      TaxableK(Hash(t, m.tx), TypeName(t, m.messageType), m.index, row.sent, row.received)
    case Events => EventK(t.events[i].hash)
  }

  lemma KeyOfRow(t: Tables, table: Table, i: Id)
    requires ForeignKeys(t) && RowIn(t, table, i)
    ensures IsAt(t, KeyOf(t, table, i), i) && TableOf(KeyOf(t, table, i)) == table
  {
    assert Resolved(t, table, i);
    if table == Taxable {
      assert Resolved(t, Messages, t.taxable[i].message);
    }
  }

  /** Rows i and j agree in the columns that the schema, or the find-or-create code, keeps unique. */
  predicate SameColumns(t: Tables, table: Table, i: Id, j: Id)
    requires RowIn(t, table, i) && RowIn(t, table, j)
  {
    match table
    case Chains => t.chains[i].chainId == t.chains[j].chainId
    case Blocks => t.blocks[i].chain == t.blocks[j].chain && t.blocks[i].height == t.blocks[j].height
    case Failed => t.failed[i] == t.failed[j]
    case Addresses => t.addresses[i] == t.addresses[j]
    case Types => t.types[i] == t.types[j]
    case Txs => t.txs[i].hash == t.txs[j].hash
    case Fees => t.fees[i].tx == t.fees[j].tx && t.fees[i].denom == t.fees[j].denom
    case Messages => t.messages[i] == t.messages[j]
    case Taxable =>
      && t.taxable[i].message == t.taxable[j].message
      && t.taxable[i].sent == t.taxable[j].sent && t.taxable[i].received == t.taxable[j].received
    case Events => t.events[i].hash == t.events[j].hash
  }

  /** The unique indexes of the schema hold in every valid database. */
  lemma DeclaredIndexes(t: Tables, table: Table, i: Id, j: Id)
    requires Valid(t) && RowIn(t, table, i) && RowIn(t, table, j)
    requires SameColumns(t, table, i, j)
    ensures i == j
  {
    KeyOfRow(t, table, i);
    KeyOfRow(t, table, j);
    assert KeyOf(t, table, i) == KeyOf(t, table, j);
  }

  // ------------------------------------------------- growing tables keep keys and values

  lemma GrowsKey(t: Tables, t2: Tables, k: Key, i: Id)
    requires Grows(t, t2) && IsAt(t, k, i) && !k.FailedK?
    ensures IsAt(t2, k, i)
  {
    assert SameKeyRow(t, t2, TableOf(k), i);
    match k
    case BlockK(_, _) => assert SameKeyRow(t, t2, Chains, t.blocks[i].chain);
    case FeeK(_, _) => assert SameKeyRow(t, t2, Txs, t.fees[i].tx);
    case MessageK(_, _, _) => GrowsMessage(t, t2, i);
    case TaxableK(_, _, _, _, _) => GrowsMessage(t, t2, t.taxable[i].message);
    case _ =>
  }

  lemma GrowsMessage(t: Tables, t2: Tables, i: Id)
    requires Grows(t, t2) && i in t.messages && t.messages[i].tx in t.txs && t.messages[i].messageType in t.types
    ensures forall hash, s, n :: MessageAt(t, hash, s, n, i) ==> MessageAt(t2, hash, s, n, i)
  {
    assert SameKeyRow(t, t2, Messages, i);
    assert SameKeyRow(t, t2, Txs, t.messages[i].tx);
    assert SameKeyRow(t, t2, Types, t.messages[i].messageType);
  }

  lemma ExtendsGrows(t: Tables, t2: Tables)
    requires Extends(t, t2)
    ensures Grows(t, t2)
  {
    forall table, i | RowIn(t, table, i) && table != Failed ensures SameKeyRow(t, t2, table, i) {
      assert SameRow(t, t2, table, i);
    }
  }

  lemma ExtendsKey(t: Tables, t2: Tables, k: Key, i: Id)
    requires Extends(t, t2) && IsAt(t, k, i)
    ensures IsAt(t2, k, i)
  {
    if k.FailedK? {
      assert SameRow(t, t2, Failed, i) && SameRow(t, t2, Chains, t.failed[i].chain);
    } else {
      ExtendsGrows(t, t2);
      GrowsKey(t, t2, k, i);
    }
  }

  lemma ExtendsResolved(t: Tables, t2: Tables, table: Table, i: Id)
    requires Extends(t, t2) && ForeignKeys(t) && RowIn(t, table, i)
    ensures RowIn(t2, table, i) && Resolved(t2, table, i)
  {
    assert SameRow(t, t2, table, i) && Resolved(t, table, i);
    match table
    case Blocks => assert SameRow(t, t2, Chains, t.blocks[i].chain);
    case Failed => assert SameRow(t, t2, Chains, t.failed[i].chain);
    case Txs =>
      assert SameRow(t, t2, Blocks, t.txs[i].block);
      ExtendsPoints(t, t2, t.txs[i].signer);
    case Fees =>
      assert SameRow(t, t2, Txs, t.fees[i].tx) && SameRow(t, t2, Addresses, t.fees[i].payer);
    case Messages =>
      assert SameRow(t, t2, Txs, t.messages[i].tx) && SameRow(t, t2, Types, t.messages[i].messageType);
    case Taxable =>
      assert SameRow(t, t2, Messages, t.taxable[i].message);
      ExtendsPoints(t, t2, t.taxable[i].sender);
      ExtendsPoints(t, t2, t.taxable[i].receiver);
    case Events =>
      assert SameRow(t, t2, Blocks, t.events[i].block);
      ExtendsPoints(t, t2, t.events[i].address);
    case _ =>
  }

  lemma ExtendsPoints(t: Tables, t2: Tables, a: Option<Id>)
    requires Extends(t, t2) && Points(a, t.addresses)
    ensures Points(a, t2.addresses) && AddressOption(t2, a) == AddressOption(t, a)
  {
    if a.Some? {
      assert SameRow(t, t2, Addresses, a.value);
    }
  }

  lemma ExtendsBlock(t: Tables, t2: Tables, i: Id)
    requires Extends(t, t2) && ForeignKeys(t) && i in t.blocks
    ensures BlockChain(t2, i) == BlockChain(t, i) && BlockHeight(t2, i) == BlockHeight(t, i)
  {
    assert RowIn(t, Blocks, i) && Resolved(t, Blocks, i);
    assert SameRow(t, t2, Blocks, i) && SameRow(t, t2, Chains, t.blocks[i].chain);
  }

  lemma ExtendsVal(t: Tables, t2: Tables, k: Key, i: Id)
    requires Extends(t, t2) && ForeignKeys(t) && IsAt(t, k, i)
    ensures ValAt(t2, k, i) == ValAt(t, k, i)
  {
    ExtendsKey(t, t2, k, i);
    assert SameRow(t, t2, TableOf(k), i);
    assert Resolved(t, TableOf(k), i);
    match k
    case TxK(_) =>
      ExtendsBlock(t, t2, t.txs[i].block);
      ExtendsPoints(t, t2, t.txs[i].signer);
    case FeeK(_, _) => assert SameRow(t, t2, Addresses, t.fees[i].payer);
    case TaxableK(_, _, _, _, _) =>
      ExtendsPoints(t, t2, t.taxable[i].sender);
      ExtendsPoints(t, t2, t.taxable[i].receiver);
    case EventK(_) =>
      ExtendsBlock(t, t2, t.events[i].block);
      ExtendsPoints(t, t2, t.events[i].address);
    case _ =>
  }

  // -------------------------------------------------------- one write, seen in the view

  /** t2 is t plus row i0 of one table. */
  ghost predicate AddsRow(t: Tables, t2: Tables, table: Table, i0: Id) {
    && Extends(t, t2)
    && RowIn(t2, table, i0) && Resolved(t2, table, i0)
    && (forall b, i | RowIn(t2, b, i) :: RowIn(t, b, i) || (b == table && i == i0))
  }

  lemma AddsRowKeys(t: Tables, t2: Tables, k0: Key, i0: Id, k: Key, i: Id)
    requires ForeignKeys(t) && AddsRow(t, t2, TableOf(k0), i0) && IsAt(t2, k0, i0)
    requires IsAt(t2, k, i)
    ensures IsAt(t, k, i) || (k == k0 && i == i0)
  {
    KeyHasRow(t2, k, i);
    if RowIn(t, TableOf(k), i) {
      KeyOfRow(t, TableOf(k), i);
      var k2 := KeyOf(t, TableOf(k), i);
      ExtendsKey(t, t2, k2, i);
      OneKey(t2, k, k2, i);
    } else {
      OneKey(t2, k, k0, i);
    }
  }

  lemma AddsRowForeignKeys(t: Tables, t2: Tables, table: Table, i0: Id)
    requires ForeignKeys(t) && AddsRow(t, t2, table, i0)
    ensures ForeignKeys(t2)
  {
    forall b, i | RowIn(t2, b, i) ensures Resolved(t2, b, i) {
      if RowIn(t, b, i) {
        ExtendsResolved(t, t2, b, i);
      }
    }
  }

  lemma AddsRowUnique(t: Tables, t2: Tables, k0: Key, i0: Id)
    requires Valid(t) && !Stored(t, k0)
    requires AddsRow(t, t2, TableOf(k0), i0) && IsAt(t2, k0, i0)
    ensures UniqueKeys(t2)
  {
    forall k, i, j | IsAt(t2, k, i) && IsAt(t2, k, j) ensures i == j {
      AddsRowKeys(t, t2, k0, i0, k, i);
      AddsRowKeys(t, t2, k0, i0, k, j);
    }
  }

  /** A row added under a natural key that was not stored. */
  lemma InsertedView(t: Tables, t2: Tables, k0: Key, i0: Id)
    requires Valid(t) && !Stored(t, k0)
    requires AddsRow(t, t2, TableOf(k0), i0) && IsAt(t2, k0, i0)
    ensures Valid(t2) && Grows(t, t2)
    ensures ViewOf(t2) == Apply(ViewOf(t), Ensure(k0, ValAt(t2, k0, i0)))
    ensures ViewOf(t2) == Apply(ViewOf(t), Put(k0, ValAt(t2, k0, i0)))
  {
    AddsRowForeignKeys(t, t2, TableOf(k0), i0);
    AddsRowUnique(t, t2, k0, i0);
    ExtendsGrows(t, t2);
    var want := Apply(ViewOf(t), Put(k0, ValAt(t2, k0, i0)));
    NotInView(t, k0);
    forall k ensures At(ViewOf(t2), k) == At(want, k) {
      if k == k0 {
        ViewAt(t2, k0, i0);
      } else if Stored(t, k) {
        var i :| IsAt(t, k, i);
        ExtendsKey(t, t2, k, i);
        ExtendsVal(t, t2, k, i);
        ViewAt(t, k, i);
        ViewAt(t2, k, i);
      } else if Stored(t2, k) {
        var i :| IsAt(t2, k, i);
        AddsRowKeys(t, t2, k0, i0, k, i);
        assert false;
      }
    }
    SameAtEveryKey(ViewOf(t2), want);
  }

  /** t2 is t with the columns of row i0 changed, its key and foreign keys to parents kept. */
  ghost predicate ChangesRow(t: Tables, t2: Tables, table: Table, i0: Id) {
    && table in {Blocks, Taxable}
    && RowIn(t, table, i0) && SameKeyRow(t, t2, table, i0)
    && RowIn(t2, table, i0) && Resolved(t2, table, i0)
    && (forall b, i :: RowIn(t, b, i) <==> RowIn(t2, b, i))
    && (forall b, i | RowIn(t, b, i) && !(b == table && i == i0) :: SameRow(t, t2, b, i))
  }

  lemma ChangesGrows(t: Tables, t2: Tables, table: Table, i0: Id)
    requires ChangesRow(t, t2, table, i0)
    ensures Grows(t, t2) && Grows(t2, t)
  {
    forall b, i | RowIn(t, b, i) && b != Failed ensures SameKeyRow(t, t2, b, i) && SameKeyRow(t2, t, b, i) {
      assert (b == table && i == i0) || SameRow(t, t2, b, i);
    }
    forall b, i | RowIn(t2, b, i) && b != Failed ensures SameKeyRow(t2, t, b, i) {
      assert RowIn(t, b, i);
    }
  }

  lemma ChangesKey(t: Tables, t2: Tables, table: Table, i0: Id, k: Key, i: Id)
    requires ChangesRow(t, t2, table, i0)
    ensures IsAt(t, k, i) <==> IsAt(t2, k, i)
  {
    ChangesGrows(t, t2, table, i0);
    if k.FailedK? && (i in t.failed || i in t2.failed) {
      assert RowIn(t, Failed, i) <==> RowIn(t2, Failed, i);
      assert SameRow(t, t2, Failed, i);
      var c := t.failed[i].chain;
      assert RowIn(t, Chains, c) <==> RowIn(t2, Chains, c);
      assert RowIn(t, Chains, c) ==> SameRow(t, t2, Chains, c);
    } else if !k.FailedK? {
      if IsAt(t, k, i) {
        GrowsKey(t, t2, k, i);
      }
      if IsAt(t2, k, i) {
        GrowsKey(t2, t, k, i);
      }
    }
  }

  lemma ChangesParents(t: Tables, t2: Tables, table: Table, i0: Id, a: Option<Id>, b: Id)
    requires ChangesRow(t, t2, table, i0)
    requires ForeignKeys(t) && Points(a, t.addresses) && b in t.blocks
    ensures Points(a, t2.addresses) && AddressOption(t2, a) == AddressOption(t, a)
    ensures b in t2.blocks && BlockChain(t2, b) == BlockChain(t, b) && BlockHeight(t2, b) == BlockHeight(t, b)
  {
    ChangesGrows(t, t2, table, i0);
    if a.Some? {
      assert RowIn(t, Addresses, a.value) && SameKeyRow(t, t2, Addresses, a.value);
    }
    assert RowIn(t, Blocks, b) && SameKeyRow(t, t2, Blocks, b) && Resolved(t, Blocks, b);
    assert RowIn(t, Chains, t.blocks[b].chain) && SameKeyRow(t, t2, Chains, t.blocks[b].chain);
  }

  lemma ChangesAddress(t: Tables, t2: Tables, table: Table, i0: Id, a: Option<Id>)
    requires ChangesRow(t, t2, table, i0)
    requires Points(a, t.addresses)
    ensures Points(a, t2.addresses) && AddressOption(t2, a) == AddressOption(t, a)
  {
    if a.Some? {
      assert RowIn(t, Addresses, a.value) && SameRow(t, t2, Addresses, a.value);
    }
  }

  lemma ChangesVal(t: Tables, t2: Tables, table: Table, i0: Id, k: Key, i: Id)
    requires ForeignKeys(t) && ChangesRow(t, t2, table, i0) && IsAt(t, k, i)
    requires !(TableOf(k) == table && i == i0)
    ensures ValAt(t2, k, i) == ValAt(t, k, i)
  {
    ChangesKey(t, t2, table, i0, k, i);
    KeyHasRow(t, k, i);
    assert SameRow(t, t2, TableOf(k), i) && Resolved(t, TableOf(k), i);
    match k
    case TxK(_) => ChangesParents(t, t2, table, i0, t.txs[i].signer, t.txs[i].block);
    case FeeK(_, _) => ChangesAddress(t, t2, table, i0, Some(t.fees[i].payer));
    case TaxableK(_, _, _, _, _) =>
      ChangesAddress(t, t2, table, i0, t.taxable[i].sender);
      ChangesAddress(t, t2, table, i0, t.taxable[i].receiver);
    case EventK(_) => ChangesParents(t, t2, table, i0, t.events[i].address, t.events[i].block);
    case _ =>
  }

  lemma ChangesResolved(t: Tables, t2: Tables, table: Table, i0: Id, b: Table, i: Id)
    requires ForeignKeys(t) && ChangesRow(t, t2, table, i0) && RowIn(t2, b, i)
    ensures Resolved(t2, b, i)
  {
    if !(b == table && i == i0) {
      assert RowIn(t, b, i) && SameRow(t, t2, b, i) && Resolved(t, b, i);
      match b
      case Blocks => assert RowIn(t2, Chains, t2.blocks[i].chain) <==> RowIn(t, Chains, t2.blocks[i].chain);
      case Failed => assert RowIn(t2, Chains, t2.failed[i].chain) <==> RowIn(t, Chains, t2.failed[i].chain);
      case Txs => ChangesParents(t, t2, table, i0, t.txs[i].signer, t.txs[i].block);
      case Fees =>
        assert RowIn(t2, Txs, t2.fees[i].tx) <==> RowIn(t, Txs, t2.fees[i].tx);
        ChangesAddress(t, t2, table, i0, Some(t.fees[i].payer));
      case Messages =>
        assert RowIn(t2, Txs, t2.messages[i].tx) <==> RowIn(t, Txs, t2.messages[i].tx);
        assert RowIn(t2, Types, t2.messages[i].messageType) <==> RowIn(t, Types, t2.messages[i].messageType);
      case Taxable =>
        assert RowIn(t2, Messages, t2.taxable[i].message) <==> RowIn(t, Messages, t2.taxable[i].message);
        ChangesAddress(t, t2, table, i0, t.taxable[i].sender);
        ChangesAddress(t, t2, table, i0, t.taxable[i].receiver);
      case Events => ChangesParents(t, t2, table, i0, t.events[i].address, t.events[i].block);
      case _ =>
    }
  }

  /** A stored row whose columns changed. */
  lemma UpdatedView(t: Tables, t2: Tables, k0: Key, i0: Id)
    requires Valid(t) && IsAt(t, k0, i0) && ChangesRow(t, t2, TableOf(k0), i0)
    ensures Valid(t2) && Grows(t, t2)
    ensures ViewOf(t2) == Apply(ViewOf(t), Put(k0, ValAt(t2, k0, i0)))
  {
    ChangesGrows(t, t2, TableOf(k0), i0);
    forall k, i ensures IsAt(t, k, i) <==> IsAt(t2, k, i) {
      ChangesKey(t, t2, TableOf(k0), i0, k, i);
    }
    forall b, i | RowIn(t2, b, i) ensures Resolved(t2, b, i) {
      ChangesResolved(t, t2, TableOf(k0), i0, b, i);
    }
    var want := Apply(ViewOf(t), Put(k0, ValAt(t2, k0, i0)));
    forall k ensures At(ViewOf(t2), k) == At(want, k) {
      if k == k0 {
        ViewAt(t2, k0, i0);
      } else if Stored(t, k) {
        var i :| IsAt(t, k, i);
        if TableOf(k) == TableOf(k0) && i == i0 {
          OneKey(t, k, k0, i0);
        }
        ChangesVal(t, t2, TableOf(k0), i0, k, i);
        ViewAt(t, k, i);
        ViewAt(t2, k, i);
      } else {
        NotInView(t2, k);
      }
    }
    SameAtEveryKey(ViewOf(t2), want);
  }

  /** t2 is t without the failed rows of one chain and height; all other tables are the same. */
  ghost predicate DropsFailed(t: Tables, t2: Tables, chain: Id, height: int) {
    && t2 == t.(failed := t2.failed)
    && t2.failed == map i | i in t.failed && t.failed[i] != FailedRow(chain, height) :: t.failed[i]
  }

  lemma DropsKey(t: Tables, t2: Tables, chain: Id, height: int, k: Key, i: Id)
    requires Valid(t) && chain in t.chains && DropsFailed(t, t2, chain, height)
    ensures IsAt(t2, k, i) <==> IsAt(t, k, i) && k != FailedK(t.chains[chain].chainId, height)
    ensures IsAt(t2, k, i) ==> ValAt(t2, k, i) == ValAt(t, k, i)
  {
    if k == FailedK(t.chains[chain].chainId, height) && IsAt(t, k, i) {
      var ck := ChainK(t.chains[chain].chainId);
      assert IsAt(t, ck, chain) && IsAt(t, ck, t.failed[i].chain);
    }
  }

  lemma DropsValid(t: Tables, t2: Tables, chain: Id, height: int)
    requires Valid(t) && chain in t.chains && DropsFailed(t, t2, chain, height)
    ensures Valid(t2)
  {
    forall b, i | RowIn(t2, b, i) ensures Resolved(t2, b, i) {
      assert RowIn(t, b, i) && Resolved(t, b, i);
    }
    forall k, i, j | IsAt(t2, k, i) && IsAt(t2, k, j) ensures i == j {
      DropsKey(t, t2, chain, height, k, i);
      DropsKey(t, t2, chain, height, k, j);
    }
  }

  lemma DropsGrows(t: Tables, t2: Tables, chain: Id, height: int)
    requires DropsFailed(t, t2, chain, height)
    ensures Grows(t, t2)
  {
  }

  lemma DropsView(t: Tables, t2: Tables, chain: Id, height: int, k: Key)
    requires Valid(t) && Valid(t2) && chain in t.chains && DropsFailed(t, t2, chain, height)
    ensures At(ViewOf(t2), k)
         == if k == FailedK(t.chains[chain].chainId, height) then None else At(ViewOf(t), k)
  {
    if i :| IsAt(t2, k, i) {
      DropsKey(t, t2, chain, height, k, i);
      ViewAt(t, k, i);
      ViewAt(t2, k, i);
    } else if i :| IsAt(t, k, i) {
      DropsKey(t, t2, chain, height, k, i);
    }
  }

  /** The failed rows of one height deleted. */
  lemma RemovedView(t: Tables, t2: Tables, chain: Id, height: int)
    requires Valid(t) && chain in t.chains && DropsFailed(t, t2, chain, height)
    ensures Valid(t2) && Grows(t, t2)
    ensures ViewOf(t2) == Apply(ViewOf(t), Remove(FailedK(t.chains[chain].chainId, height)))
  {
    DropsValid(t, t2, chain, height);
    DropsGrows(t, t2, chain, height);
    var want := Apply(ViewOf(t), Remove(FailedK(t.chains[chain].chainId, height)));
    forall k ensures At(ViewOf(t2), k) == At(want, k) {
      DropsView(t, t2, chain, height, k);
    }
    SameAtEveryKey(ViewOf(t2), want);
  }

  lemma FoundView(t: Tables, k: Key, i: Id, v: Val)
    requires Valid(t) && IsAt(t, k, i)
    ensures Apply(ViewOf(t), Ensure(k, v)) == ViewOf(t)
  {
    ViewAt(t, k, i);
    SameAtEveryKey(Apply(ViewOf(t), Ensure(k, v)), ViewOf(t));
  }

  // --------------------------------------------------------------- ids are permanent

  ghost predicate SameContent(t: Tables, t2: Tables) {
    Valid(t) && Valid(t2) && Grows(t, t2) && ViewOf(t) == ViewOf(t2)
  }

  lemma SameIds(t: Tables, t2: Tables, table: Table, i: Id)
    requires SameContent(t, t2)
    requires RowIn(t2, table, i) && table != Failed
    ensures var k := KeyOf(t2, table, i); IsAt(t, k, i) && IsAt(t2, k, i) && ValAt(t, k, i) == ValAt(t2, k, i)
  {
    var k := KeyOf(t2, table, i);
    KeyOfRow(t2, table, i);
    ViewAt(t2, k, i);
    assert k in ViewOf(t);
    var j :| IsAt(t, k, j);
    GrowsKey(t, t2, k, j);
    ViewAt(t, k, j);
  }

  lemma SameReference(t: Tables, x: Option<Id>, y: Option<Id>)
    requires UniqueKeys(t) && Points(x, t.addresses) && Points(y, t.addresses)
    requires AddressOption(t, x) == AddressOption(t, y)
    ensures x == y
  {
    if x.Some? {
      var k := AddressK(Address(t, x.value));
      assert IsAt(t, k, x.value) && IsAt(t, k, y.value);
    }
  }

  lemma SameAddresses(t: Tables, t2: Tables)
    requires SameContent(t, t2)
    ensures t2.addresses == t.addresses
  {
    forall i | i in t2.addresses ensures i in t.addresses && t.addresses[i] == t2.addresses[i] {
      assert RowIn(t2, Addresses, i);
      SameIds(t, t2, Addresses, i);
    }
    forall i | i in t.addresses ensures i in t2.addresses {
      assert RowIn(t, Addresses, i) && SameKeyRow(t, t2, Addresses, i);
    }
  }

  lemma SameStoredRow(t: Tables, t2: Tables, table: Table, i: Id)
    requires SameContent(t, t2)
    requires RowIn(t2, table, i) && table != Failed
    ensures SameRow(t, t2, table, i)
  {
    var k := KeyOf(t2, table, i);
    KeyOfRow(t2, table, i);
    SameIds(t, t2, table, i);
    KeyHasRow(t, k, i);
    assert SameKeyRow(t, t2, table, i);
    if table == Taxable {
      assert Resolved(t, table, i) && Resolved(t2, table, i);
      SameAddresses(t, t2);
      SameReference(t, t.taxable[i].sender, t2.taxable[i].sender);
      SameReference(t, t.taxable[i].receiver, t2.taxable[i].receiver);
    }
  }

  lemma SameFailed(t: Tables, t2: Tables, i: Id)
    requires SameContent(t, t2)
    requires forall j | j in t2.failed :: j in t.failed && t2.failed[j] == t.failed[j]
    requires i in t.failed
    ensures SameRow(t, t2, Failed, i)
  {
    assert RowIn(t, Failed, i);
    var k := KeyOf(t, Failed, i);
    KeyOfRow(t, Failed, i);
    ViewAt(t, k, i);
    assert k in ViewOf(t2);
    var j :| IsAt(t2, k, j);
    assert RowIn(t2, Failed, j) && Resolved(t2, Failed, j) && Resolved(t, Failed, j);
    assert RowIn(t, Chains, t.failed[j].chain) && SameKeyRow(t, t2, Chains, t.failed[j].chain);
    assert IsAt(t, k, j);
  }

  /**
    Tables that grew without changing what they store did not change at all: no
    row was created, and no id, key or column differs.
   */
  lemma SameViewSameTables(t: Tables, t2: Tables)
    requires SameContent(t, t2)
    requires forall i | i in t2.failed :: i in t.failed && t2.failed[i] == t.failed[i]
    ensures t == t2
  {
    forall table, i ensures RowIn(t, table, i) || RowIn(t2, table, i) ==> SameRow(t, t2, table, i) {
      if table == Failed {
        if i in t.failed {
          SameFailed(t, t2, i);
        }
      } else if RowIn(t, table, i) || RowIn(t2, table, i) {
        assert RowIn(t, table, i) ==> SameKeyRow(t, t2, table, i);
        SameStoredRow(t, t2, table, i);
      }
    }
    SameRowsSameTables(t, t2);
  }

  predicate Agree<R(==)>(m: map<Id, R>, m2: map<Id, R>, i: Id) {
    i in m || i in m2 ==> i in m && i in m2 && m[i] == m2[i]
  }

  lemma SameMap<R>(m: map<Id, R>, m2: map<Id, R>)
    requires forall i :: Agree(m, m2, i)
    ensures m == m2
  {
    forall i ensures i in m <==> i in m2 {
      assert Agree(m, m2, i);
    }
    forall i | i in m ensures m[i] == m2[i] {
      assert Agree(m, m2, i);
    }
  }

  lemma AgreeIn(t: Tables, t2: Tables, table: Table, i: Id)
    requires RowIn(t, table, i) || RowIn(t2, table, i) ==> SameRow(t, t2, table, i)
    ensures match table
            case Chains => Agree(t.chains, t2.chains, i)
            case Blocks => Agree(t.blocks, t2.blocks, i)
            case Failed => Agree(t.failed, t2.failed, i)
            case Addresses => Agree(t.addresses, t2.addresses, i)
            case Types => Agree(t.types, t2.types, i)
            case Txs => Agree(t.txs, t2.txs, i)
            case Fees => Agree(t.fees, t2.fees, i)
            case Messages => Agree(t.messages, t2.messages, i)
            case Taxable => Agree(t.taxable, t2.taxable, i)
            case Events => Agree(t.events, t2.events, i)
  {
  }

  lemma SameRowsSameTables(t: Tables, t2: Tables)
    requires forall table, i :: RowIn(t, table, i) || RowIn(t2, table, i) ==> SameRow(t, t2, table, i)
    ensures t == t2
  {
    forall i ensures Agree(t.chains, t2.chains, i) { AgreeIn(t, t2, Chains, i); }
    SameMap(t.chains, t2.chains);
    forall i ensures Agree(t.blocks, t2.blocks, i) { AgreeIn(t, t2, Blocks, i); }
    SameMap(t.blocks, t2.blocks);
    forall i ensures Agree(t.failed, t2.failed, i) { AgreeIn(t, t2, Failed, i); }
    SameMap(t.failed, t2.failed);
    forall i ensures Agree(t.addresses, t2.addresses, i) { AgreeIn(t, t2, Addresses, i); }
    SameMap(t.addresses, t2.addresses);
    forall i ensures Agree(t.types, t2.types, i) { AgreeIn(t, t2, Types, i); }
    SameMap(t.types, t2.types);
    forall i ensures Agree(t.txs, t2.txs, i) { AgreeIn(t, t2, Txs, i); }
    SameMap(t.txs, t2.txs);
    forall i ensures Agree(t.fees, t2.fees, i) { AgreeIn(t, t2, Fees, i); }
    SameMap(t.fees, t2.fees);
    forall i ensures Agree(t.messages, t2.messages, i) { AgreeIn(t, t2, Messages, i); }
    SameMap(t.messages, t2.messages);
    forall i ensures Agree(t.taxable, t2.taxable, i) { AgreeIn(t, t2, Taxable, i); }
    SameMap(t.taxable, t2.taxable);
    forall i ensures Agree(t.events, t2.events, i) { AgreeIn(t, t2, Events, i); }
    SameMap(t.events, t2.events);
  }

  // --------------------------------------------------------- what the view says of rows

  lemma RowInView(t: Tables, k: Key) returns (i: Id)
    requires Valid(t) && k in ViewOf(t)
    ensures IsAt(t, k, i) && ViewOf(t)[k] == ValAt(t, k, i)
    ensures RowIn(t, TableOf(k), i) && Resolved(t, TableOf(k), i)
  {
    i := RowOf(t, k);
    ViewAt(t, k, i);
  }

  /** The address in an optional address column. */
  predicate Refers(t: Tables, i: Option<Id>, address: Option<string>) {
    if i.None? then address.None? else i.value in t.addresses && address == Some(t.addresses[i.value])
  }

  /** A block in the view is a row of the block table. */
  lemma BlockInTables(t: Tables, chain: string, height: int)
    requires Valid(t) && BlockK(chain, height) in ViewOf(t)
    ensures exists i | i in t.blocks ::
              var row, v := t.blocks[i], ViewOf(t)[BlockK(chain, height)];
              && row.chain in t.chains && t.chains[row.chain].chainId == chain && row.height == height
              && v == BlockV(row.time, row.indexed)
  {
    var i := RowInView(t, BlockK(chain, height));
  }

  /** A transaction in the view is a row with that hash, pointing at its block and its signer. */
  lemma TxInTables(t: Tables, hash: string)
    requires Valid(t) && TxK(hash) in ViewOf(t) && ViewOf(t)[TxK(hash)].TxV?
    ensures exists i | i in t.txs ::
              var row, v := t.txs[i], ViewOf(t)[TxK(hash)];
              && row.hash == hash && row.code == v.code && Refers(t, row.signer, v.signer)
              && row.block in t.blocks && t.blocks[row.block].height == v.height
              && t.blocks[row.block].chain in t.chains && t.chains[t.blocks[row.block].chain].chainId == v.chain
  {
    var i := RowInView(t, TxK(hash));
    assert RowIn(t, Blocks, t.txs[i].block) && Resolved(t, Blocks, t.txs[i].block);
  }

  /** A fee in the view is a row of its transaction and denomination, pointing at who paid it. */
  lemma FeeInTables(t: Tables, hash: string, denom: nat)
    requires Valid(t) && FeeK(hash, denom) in ViewOf(t) && ViewOf(t)[FeeK(hash, denom)].FeeV?
    ensures exists i | i in t.fees ::
              var row, v := t.fees[i], ViewOf(t)[FeeK(hash, denom)];
              && row.tx in t.txs && t.txs[row.tx].hash == hash && row.denom == denom
              && row.amount == v.amount && row.payer in t.addresses && t.addresses[row.payer] == v.payer
  {
    var i := RowInView(t, FeeK(hash, denom));
  }

  /** A message row: its transaction, its type and its index. */
  predicate IsMessageRow(t: Tables, i: Id, hash: string, messageType: string, index: int) {
    && i in t.messages && t.messages[i].index == index
    && t.messages[i].tx in t.txs && t.txs[t.messages[i].tx].hash == hash
    && t.messages[i].messageType in t.types && t.types[t.messages[i].messageType] == messageType
  }

  lemma MessageInTables(t: Tables, hash: string, messageType: string, index: int)
    requires Valid(t) && MessageK(hash, messageType, index) in ViewOf(t)
    ensures exists i :: IsMessageRow(t, i, hash, messageType, index)
  {
    var i := RowInView(t, MessageK(hash, messageType, index));
    assert IsMessageRow(t, i, hash, messageType, index);
  }

  /** A taxable amount in the view is a row of its message with each column in its place. */
  lemma TaxableInTables(t: Tables, hash: string, messageType: string, index: int, sent: int, received: int)
    requires var k := TaxableK(hash, messageType, index, sent, received);
             Valid(t) && k in ViewOf(t) && ViewOf(t)[k].TaxableV?
    ensures exists i | i in t.taxable ::
              var row, f := t.taxable[i], ViewOf(t)[TaxableK(hash, messageType, index, sent, received)].fields;
              && IsMessageRow(t, row.message, hash, messageType, index) && row.sent == sent && row.received == received
              && row.denomSent == f.denomSent && row.denomReceived == f.denomReceived
              && Refers(t, row.sender, f.sender) && Refers(t, row.receiver, f.receiver)
  {
    var i := RowInView(t, TaxableK(hash, messageType, index, sent, received));
  }

  /** A block event in the view is a row with that digest, pointing at its block and its address. */
  lemma EventInTables(t: Tables, hash: nat)
    requires Valid(t) && EventK(hash) in ViewOf(t) && ViewOf(t)[EventK(hash)].EventV?
    ensures exists i | i in t.events ::
              var row, v := t.events[i], ViewOf(t)[EventK(hash)];
              && row.hash == hash && row.source == v.source && row.amount == v.eventAmount && row.denom == v.denom
              && Refers(t, row.address, v.address)
              && row.block in t.blocks && t.blocks[row.block].height == v.eventHeight
              && t.blocks[row.block].chain in t.chains && t.chains[t.blocks[row.block].chain].chainId == v.eventChain
  {
    var i := RowInView(t, EventK(hash));
    assert RowIn(t, Blocks, t.events[i].block) && Resolved(t, Blocks, t.events[i].block);
  }
}
