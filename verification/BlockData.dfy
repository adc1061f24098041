/**
  What a worker hands to the writer for one block, and the operations on the
  natural-key view that storing it amounts to.
 */
module BlockData {
  import opened Options
  import opened Ledger

  const MAX_ADDRESS_LENGTH := 100

  /** A cached denomination; the zero id stands for an absent one. */
  datatype Denom = Denom(id: nat, base: string, symbol: string)
  datatype FeeData = FeeData(payer: string, denom: Denom, amount: int)
  datatype TaxableData = TaxableData(
    sent: int, received: int, denomSent: nat, denomReceived: nat, sender: string, receiver: string)
  datatype MessageData = MessageData(messageType: string, index: int, taxable: seq<TaxableData>)
  datatype TxData = TxData(hash: string, code: int, signer: string, fees: seq<FeeData>, messages: seq<MessageData>)
  datatype BlockData = BlockData(height: int, time: int, txs: seq<TxData>)

  /** Committed, returned an error (the transaction is rolled back), or ended the process. */
  datatype Verdict = Committed | RolledBack | Fatal

  predicate GoodFee(fee: FeeData) {
    fee.payer != "" && fee.denom.base != "" && fee.denom.symbol != ""
  }

  function TxVerdict(tx: TxData): Verdict {
    if exists f :: f in tx.fees && !GoodFee(f) then RolledBack
    else if exists m :: m in tx.messages && m.messageType == "" then Fatal
    else Committed
  }

  /** The first transaction that cannot be stored decides. */
  function BlockVerdict(txs: seq<TxData>): Verdict {
    if txs == [] then Committed
    else
      var before := BlockVerdict(txs[..|txs| - 1]);
      if before == Committed then TxVerdict(txs[|txs| - 1]) else before
  }

  function Named(address: string): Option<string> {
    if address == "" then None else Some(address)
  }

  function Known(denom: nat): Option<nat> {
    if denom == 0 then None else Some(denom)
  }

  function AddressOps(address: string): seq<Op> {
    if address == "" then [] else [Ensure(AddressK(address), Unit)]
  }

  predicate TooLong(row: TaxableData) {
    |row.sender| > MAX_ADDRESS_LENGTH || |row.receiver| > MAX_ADDRESS_LENGTH
  }

  function Fields(row: TaxableData): TaxableFields {
    TaxableFields(Known(row.denomSent), Known(row.denomReceived), Named(row.sender), Named(row.receiver))
  }

  function TaxableRowOps(hash: string, messageType: string, index: int, row: TaxableData): seq<Op> {
    if TooLong(row) then []
    else AddressOps(row.sender) + AddressOps(row.receiver)
         + [Patch(TaxableK(hash, messageType, index, row.sent, row.received), Fields(row))]
  }

  function TaxableOps(hash: string, messageType: string, index: int, rows: seq<TaxableData>): seq<Op> {
    if rows == [] then []
    else TaxableOps(hash, messageType, index, rows[..|rows| - 1])
         + TaxableRowOps(hash, messageType, index, rows[|rows| - 1])
  }

  function MessageRowOps(hash: string, message: MessageData): seq<Op> {
    [Ensure(TypeK(message.messageType), Unit)]
    + [Ensure(MessageK(hash, message.messageType, message.index), Unit)]
    + TaxableOps(hash, message.messageType, message.index, message.taxable)
  }

  function MessageOps(hash: string, messages: seq<MessageData>): seq<Op> {
    if messages == [] then []
    else MessageOps(hash, messages[..|messages| - 1]) + MessageRowOps(hash, messages[|messages| - 1])
  }

  function FeeRowOps(hash: string, fee: FeeData): seq<Op> {
    [Ensure(AddressK(fee.payer), Unit)] + [Ensure(FeeK(hash, fee.denom.id), FeeV(fee.amount, fee.payer))]
  }

  function FeeOps(hash: string, fees: seq<FeeData>): seq<Op> {
    if fees == [] then [] else FeeOps(hash, fees[..|fees| - 1]) + FeeRowOps(hash, fees[|fees| - 1])
  }

  function TxOps(chain: string, height: int, tx: TxData): seq<Op> {
    AddressOps(tx.signer)
    + [Ensure(TxK(tx.hash), TxV(tx.code, chain, height, Named(tx.signer)))]
    + FeeOps(tx.hash, tx.fees)
    + MessageOps(tx.hash, tx.messages)
  }

  function TxsOps(chain: string, height: int, txs: seq<TxData>): seq<Op> {
    if txs == [] then []
    else TxsOps(chain, height, txs[..|txs| - 1]) + TxOps(chain, height, txs[|txs| - 1])
  }

  /** Storing a block: clear its failed row, mark it indexed, merge its transactions. */
  function BlockOps(chain: string, block: BlockData): seq<Op> {
    [Remove(FailedK(chain, block.height))]
    + [Put(BlockK(chain, block.height), BlockV(block.time, true))]
    + TxsOps(chain, block.height, block.txs)
  }

  // ---------------------------------------------------- which rows a block writes

  predicate StoresFee(op: Op, hash: string, fee: FeeData) {
    op == Ensure(FeeK(hash, fee.denom.id), FeeV(fee.amount, fee.payer)) || op == Ensure(AddressK(fee.payer), Unit)
  }

  predicate StoresTaxable(op: Op, hash: string, message: MessageData, row: TaxableData) {
    && !TooLong(row)
    && (|| op == Patch(TaxableK(hash, message.messageType, message.index, row.sent, row.received), Fields(row))
        || (row.sender != "" && op == Ensure(AddressK(row.sender), Unit))
        || (row.receiver != "" && op == Ensure(AddressK(row.receiver), Unit)))
  }

  predicate StoresMessage(op: Op, hash: string, message: MessageData) {
    || op == Ensure(TypeK(message.messageType), Unit)
    || op == Ensure(MessageK(hash, message.messageType, message.index), Unit)
    || exists row :: row in message.taxable && StoresTaxable(op, hash, message, row)
  }

  /** op stores the transaction itself, its signer, one of its fees or one of its messages. */
  predicate StoresTx(op: Op, chain: string, height: int, tx: TxData) {
    || op == Ensure(TxK(tx.hash), TxV(tx.code, chain, height, Named(tx.signer)))
    || (tx.signer != "" && op == Ensure(AddressK(tx.signer), Unit))
    || (exists fee :: fee in tx.fees && StoresFee(op, tx.hash, fee))
    || (exists message :: message in tx.messages && StoresMessage(op, tx.hash, message))
  }

  predicate StoresBlock(op: Op, chain: string, block: BlockData) {
    || op == Remove(FailedK(chain, block.height))
    || op == Put(BlockK(chain, block.height), BlockV(block.time, true))
    || exists tx :: tx in block.txs && StoresTx(op, chain, block.height, tx)
  }

  lemma {:induction false} TaxableOpsAre(op: Op, hash: string, message: MessageData, rows: seq<TaxableData>)
    ensures op in TaxableOps(hash, message.messageType, message.index, rows)
       <==> exists row :: row in rows && StoresTaxable(op, hash, message, row)
  {
    if rows != [] {
      var last := rows[|rows| - 1];
      assert rows == rows[..|rows| - 1] + [last];
      TaxableOpsAre(op, hash, message, rows[..|rows| - 1]);
      assert op in TaxableRowOps(hash, message.messageType, message.index, last) <==> StoresTaxable(op, hash, message, last);
    }
  }

  lemma MessageRowOpsAre(op: Op, hash: string, message: MessageData)
    ensures op in MessageRowOps(hash, message) <==> StoresMessage(op, hash, message)
  {
    TaxableOpsAre(op, hash, message, message.taxable);
  }

  lemma {:induction false} MessageOpsAre(op: Op, hash: string, messages: seq<MessageData>)
    ensures op in MessageOps(hash, messages)
       <==> exists message :: message in messages && StoresMessage(op, hash, message)
  {
    if messages != [] {
      var last := messages[|messages| - 1];
      assert messages == messages[..|messages| - 1] + [last];
      MessageOpsAre(op, hash, messages[..|messages| - 1]);
      MessageRowOpsAre(op, hash, last);
    }
  }

  lemma {:induction false} FeeOpsAre(op: Op, hash: string, fees: seq<FeeData>)
    ensures op in FeeOps(hash, fees) <==> exists fee :: fee in fees && StoresFee(op, hash, fee)
  {
    if fees != [] {
      var last := fees[|fees| - 1];
      assert fees == fees[..|fees| - 1] + [last];
      FeeOpsAre(op, hash, fees[..|fees| - 1]);
      assert op in FeeRowOps(hash, last) <==> StoresFee(op, hash, last);
    }
  }

  lemma TxOpsAre(op: Op, chain: string, height: int, tx: TxData)
    ensures op in TxOps(chain, height, tx) <==> StoresTx(op, chain, height, tx)
  {
    FeeOpsAre(op, tx.hash, tx.fees);
    MessageOpsAre(op, tx.hash, tx.messages);
  }

  lemma {:induction false} TxsOpsAre(op: Op, chain: string, height: int, txs: seq<TxData>)
    ensures op in TxsOps(chain, height, txs) <==> exists tx :: tx in txs && StoresTx(op, chain, height, tx)
  {
    if txs != [] {
      var tx := txs[|txs| - 1];
      assert txs == txs[..|txs| - 1] + [tx];
      TxsOpsAre(op, chain, height, txs[..|txs| - 1]);
      TxOpsAre(op, chain, height, tx);
    }
  }

  /** The operations of a block are exactly the rows of its transactions, fees, messages and taxable amounts. */
  lemma BlockOpsAre(op: Op, chain: string, block: BlockData)
    ensures op in BlockOps(chain, block) <==> StoresBlock(op, chain, block)
  {
    TxsOpsAre(op, chain, block.height, block.txs);
  }

  function Hashes(block: BlockData): set<string> {
    set tx | tx in block.txs :: tx.hash
  }

  /** Only the block's own rows are overwritten or deleted; shared names are merely found or created. */
  predicate Mild(op: Op, chain: string, block: BlockData) {
    match op.k
    case FailedK(_, _) => op == Remove(FailedK(chain, block.height))
    case BlockK(_, _) => op == Put(BlockK(chain, block.height), BlockV(block.time, true))
    case AddressK(_) => op == Ensure(op.k, Unit)
    case TypeK(_) => op == Ensure(op.k, Unit)
    case TxK(h) => op.Ensure? && h in Hashes(block)
    case FeeK(h, _) => op.Ensure? && h in Hashes(block)
    case MessageK(h, _, _) => op.Ensure? && h in Hashes(block)
    case TaxableK(h, _, _, _, _) => op.Patch? && h in Hashes(block)
    case _ => false
  }

  lemma BlockOpsMild(chain: string, block: BlockData)
    ensures forall op | op in BlockOps(chain, block) :: Mild(op, chain, block)
  {
    forall op | op in BlockOps(chain, block) ensures Mild(op, chain, block) {
      BlockOpsAre(op, chain, block);
    }
  }

  lemma BlockUniform(chain: string, block: BlockData, k: Key)
    ensures UniformAt(BlockOps(chain, block), k)
  {
    BlockOpsMild(chain, block);
    var ops := BlockOps(chain, block);
    if k.BlockK? {
      assert AllPut(ops, k, BlockV(block.time, true)) by {
        forall op | op in ops && op.k == k ensures op == Put(k, BlockV(block.time, true)) {
          assert Mild(op, chain, block);
        }
      }
    } else if k.TaxableK? {
      assert AllPatch(ops, k) by {
        forall op | op in ops && op.k == k ensures op.Patch? { assert Mild(op, chain, block); }
      }
    } else if k.FailedK? {
      assert AllRemove(ops, k) by {
        forall op | op in ops && op.k == k ensures op.Remove? { assert Mild(op, chain, block); }
      }
    } else {
      assert AllEnsure(ops, k) by {
        forall op | op in ops && op.k == k ensures op.Ensure? { assert Mild(op, chain, block); }
      }
    }
  }

  /** Blocks of different heights without a common transaction hash. */
  predicate Separate(a: BlockData, b: BlockData) {
    a.height != b.height && Hashes(a) !! Hashes(b)
  }

  /** Keys that storing the block may write and that no separate block writes. */
  predicate Owns(chain: string, block: BlockData, k: Key) {
    match k
    case BlockK(c, h) => c == chain && h == block.height
    case FailedK(c, h) => c == chain && h == block.height
    case TxK(h) => h in Hashes(block)
    case FeeK(h, _) => h in Hashes(block)
    case MessageK(h, _, _) => h in Hashes(block)
    case TaxableK(h, _, _, _, _) => h in Hashes(block)
    case _ => false
  }

  predicate Shared(k: Key) {
    k.AddressK? || k.TypeK?
  }

  lemma TouchesOwnOrShared(chain: string, block: BlockData, k: Key)
    requires Touches(BlockOps(chain, block), k)
    ensures Shared(k) || Owns(chain, block, k)
  {
    BlockOpsMild(chain, block);
  }

  lemma SharedIsUnit(chain: string, block: BlockData, k: Key)
    requires Shared(k)
    ensures OnlyEnsures(BlockOps(chain, block), k, Unit)
  {
    BlockOpsMild(chain, block);
  }

  lemma OwnedApart(chain: string, a: BlockData, b: BlockData, k: Key)
    requires Separate(a, b)
    ensures !Owns(chain, a, k) || !Owns(chain, b, k)
  {
  }

  lemma OwnedOnce(chain: string, a: BlockData, b: BlockData, k: Key)
    requires Separate(a, b) && !Shared(k)
    ensures !Touches(BlockOps(chain, a), k) || !Touches(BlockOps(chain, b), k)
  {
    OwnedApart(chain, a, b, k);
    if Touches(BlockOps(chain, a), k) {
      TouchesOwnOrShared(chain, a, k);
    }
    if Touches(BlockOps(chain, b), k) {
      TouchesOwnOrShared(chain, b, k);
    }
  }

  lemma SeparateAgree(chain: string, a: BlockData, b: BlockData, k: Key)
    requires a == b || Separate(a, b)
    ensures AgreeAt(BlockOps(chain, a), BlockOps(chain, b), k)
  {
    if Shared(k) {
      SharedIsUnit(chain, a, k);
      SharedIsUnit(chain, b, k);
    } else if a != b {
      OwnedOnce(chain, a, b, k);
    }
  }

  // -------------------------------------------------------------------- main results

  /** Storing a block a second time leaves the view as it was. */
  lemma StoringTwice(v: View, chain: string, block: BlockData)
    ensures ApplyAll(ApplyAll(v, BlockOps(chain, block)), BlockOps(chain, block))
         == ApplyAll(v, BlockOps(chain, block))
  {
    forall k ensures UniformAt(BlockOps(chain, block), k) {
      BlockUniform(chain, block, k);
    }
    Replay(v, BlockOps(chain, block));
  }

  lemma BlocksConverge(chain: string, a: BlockData, b: BlockData, k: Key)
    requires a == b || Separate(a, b)
    ensures Convergent([BlockOps(chain, a), BlockOps(chain, b)], k)
  {
    BlockUniform(chain, a, k);
    BlockUniform(chain, b, k);
    SeparateAgree(chain, a, b, k);
    SeparateAgree(chain, b, a, k);
  }

  /** Blocks without common transactions may be stored in either order. */
  lemma EitherOrder(v: View, chain: string, a: BlockData, b: BlockData)
    requires a == b || Separate(a, b)
    ensures ApplyAll(ApplyAll(v, BlockOps(chain, a)), BlockOps(chain, b))
         == ApplyAll(ApplyAll(v, BlockOps(chain, b)), BlockOps(chain, a))
  {
    var oa, ob := BlockOps(chain, a), BlockOps(chain, b);
    forall k ensures Convergent([oa, ob], k) {
      BlocksConverge(chain, a, b, k);
    }
    Confluence(v, [oa, ob], [ob, oa]);
    assert RunAll(v, [oa]) == ApplyAll(v, oa) by {
      assert [oa][..0] == [];
    }
    assert RunAll(v, [ob]) == ApplyAll(v, ob) by {
      assert [ob][..0] == [];
    }
    assert [oa, ob][..1] == [oa] && [ob, oa][..1] == [ob];
  }

  /** Rows of other blocks' transactions, and other heights' block rows, are left alone. */
  lemma Frame(v: View, chain: string, block: BlockData, k: Key)
    requires !Shared(k) && !Owns(chain, block, k)
    ensures At(ApplyAll(v, BlockOps(chain, block)), k) == At(v, k)
  {
    Locality(v, BlockOps(chain, block), k);
    if Touches(BlockOps(chain, block), k) {
      TouchesOwnOrShared(chain, block, k);
    }
    UntouchedStays(At(v, k), BlockOps(chain, block), k);
  }

  /** Afterwards the block is marked indexed under its own time and is no longer failed. */
  lemma BlockIsIndexed(v: View, chain: string, block: BlockData)
    ensures At(ApplyAll(v, BlockOps(chain, block)), BlockK(chain, block.height)) == Some(BlockV(block.time, true))
    ensures At(ApplyAll(v, BlockOps(chain, block)), FailedK(chain, block.height)) == None
  {
    var ops := BlockOps(chain, block);
    var bk, fk := BlockK(chain, block.height), FailedK(chain, block.height);
    BlockOpsMild(chain, block);
    BlockOpsAre(Remove(fk), chain, block);
    BlockOpsAre(Put(bk, BlockV(block.time, true)), chain, block);
    Locality(v, ops, bk);
    Locality(v, ops, fk);
    PutSets(At(v, bk), ops, bk, BlockV(block.time, true));
    RemoveClears(At(v, fk), ops, fk);
  }

  /** No other transaction of the block has this hash. */
  predicate OnlyTx(block: BlockData, tx: TxData) {
    forall other | other in block.txs && other.hash == tx.hash :: other == tx
  }

  lemma TxOpsOnly(chain: string, block: BlockData, tx: TxData, op: Op)
    requires OnlyTx(block, tx)
    requires op in BlockOps(chain, block) && op.k == TxK(tx.hash)
    ensures op == Ensure(op.k, TxV(tx.code, chain, block.height, Named(tx.signer)))
  {
    BlockOpsAre(op, chain, block);
    var other :| other in block.txs && StoresTx(op, chain, block.height, other);
    assert other.hash == tx.hash;
  }

  /** A transaction already stored is kept; a new one is stored with its own code, block and signer. */
  lemma TxIsStored(v: View, chain: string, block: BlockData, tx: TxData)
    requires tx in block.txs
    ensures var k := TxK(tx.hash);
            var stored := At(ApplyAll(v, BlockOps(chain, block)), k);
            && stored.Some?
            && (k in v ==> stored == Some(v[k]))
            && (k !in v && OnlyTx(block, tx) ==> stored == Some(TxV(tx.code, chain, block.height, Named(tx.signer))))
  {
    var ops, k := BlockOps(chain, block), TxK(tx.hash);
    var row := TxV(tx.code, chain, block.height, Named(tx.signer));
    assert StoresTx(Ensure(k, row), chain, block.height, tx);
    BlockOpsAre(Ensure(k, row), chain, block);
    Locality(v, ops, k);
    EnsuresOnly(chain, block, k);
    EnsureKeeps(At(v, k), ops, k);
    if k !in v && OnlyTx(block, tx) {
      forall op | op in ops && op.k == k ensures op == Ensure(k, row) {
        TxOpsOnly(chain, block, tx, op);
      }
      OnlyEnsuresSets(None, ops, k, row);
    }
  }

  lemma EnsuresOnly(chain: string, block: BlockData, k: Key)
    requires k.TxK? || k.FeeK?
    ensures AllEnsure(BlockOps(chain, block), k)
  {
    forall op | op in BlockOps(chain, block) && op.k == k ensures op.Ensure? {
      BlockOpsMild(chain, block);
      assert Mild(op, chain, block);
    }
  }

  /** No other fee of the same transaction is in the same denomination. */
  predicate OnlyFee(block: BlockData, tx: TxData, fee: FeeData) {
    forall t2, f2 | t2 in block.txs && t2.hash == tx.hash && f2 in t2.fees && f2.denom.id == fee.denom.id :: f2 == fee
  }

  lemma FeeOpsOnly(chain: string, block: BlockData, tx: TxData, fee: FeeData, op: Op)
    requires OnlyFee(block, tx, fee)
    requires op in BlockOps(chain, block) && op.k == FeeK(tx.hash, fee.denom.id)
    ensures op == Ensure(op.k, FeeV(fee.amount, fee.payer))
  {
    BlockOpsAre(op, chain, block);
    var t2 :| t2 in block.txs && StoresTx(op, chain, block.height, t2);
    var f2 :| f2 in t2.fees && StoresFee(op, t2.hash, f2);
    assert f2 == fee;
  }

  /** A fee already stored is kept; a new one is stored with its amount and payer. */
  lemma FeeIsStored(v: View, chain: string, block: BlockData, tx: TxData, fee: FeeData)
    requires tx in block.txs && fee in tx.fees
    ensures var k := FeeK(tx.hash, fee.denom.id);
            var stored := At(ApplyAll(v, BlockOps(chain, block)), k);
            && stored.Some?
            && (k in v ==> stored == Some(v[k]))
            && (k !in v && OnlyFee(block, tx, fee) ==> stored == Some(FeeV(fee.amount, fee.payer)))
  {
    var ops, k := BlockOps(chain, block), FeeK(tx.hash, fee.denom.id);
    var row := FeeV(fee.amount, fee.payer);
    assert StoresFee(Ensure(k, row), tx.hash, fee) && StoresTx(Ensure(k, row), chain, block.height, tx);
    BlockOpsAre(Ensure(k, row), chain, block);
    Locality(v, ops, k);
    EnsuresOnly(chain, block, k);
    EnsureKeeps(At(v, k), ops, k);
    if k !in v && OnlyFee(block, tx, fee) {
      forall op | op in ops && op.k == k ensures op == Ensure(k, row) {
        FeeOpsOnly(chain, block, tx, fee, op);
      }
      OnlyEnsuresSets(None, ops, k, row);
    }
  }

  // ------------------------------------------------------------------- taxable rows

  function TaxableKey(hash: string, message: MessageData, row: TaxableData): Key {
    TaxableK(hash, message.messageType, message.index, row.sent, row.received)
  }

  /** A taxable row under the key it is stored at; rows with a too long address are not stored. */
  datatype Placed = Placed(k: Key, fields: TaxableFields)

  function PlacedRows(hash: string, message: MessageData, rows: seq<TaxableData>): seq<Placed> {
    if rows == [] then []
    else
      var last := rows[|rows| - 1];
      PlacedRows(hash, message, rows[..|rows| - 1])
      + if TooLong(last) then [] else [Placed(TaxableKey(hash, message, last), Fields(last))]
  }

  function PlacedMessages(hash: string, messages: seq<MessageData>): seq<Placed> {
    if messages == [] then []
    else
      var last := messages[|messages| - 1];
      PlacedMessages(hash, messages[..|messages| - 1]) + PlacedRows(hash, last, last.taxable)
  }

  /** The taxable rows of a block in the order in which they are stored. */
  function PlacedTxs(txs: seq<TxData>): seq<Placed> {
    if txs == [] then []
    else
      var last := txs[|txs| - 1];
      PlacedTxs(txs[..|txs| - 1]) + PlacedMessages(last.hash, last.messages)
  }

  const BLANK := TaxableFields(None, None, None, None)

  function Columns(x: Option<Val>): TaxableFields {
    if x.Some? && x.value.TaxableV? then x.value.fields else BLANK
  }

  /** The rows under one key laid over each other, so that each column has the value that was set last. */
  function Merged(rows: seq<Placed>, k: Key): TaxableFields {
    if rows == [] then BLANK
    else
      var before, last := Merged(rows[..|rows| - 1], k), rows[|rows| - 1];
      if last.k == k then Overlay(before, last.fields) else before
  }

  predicate IsPlaced(rows: seq<Placed>, k: Key) {
    exists p :: p in rows && p.k == k
  }

  /** What is at k after the rows have been stored on x. */
  function StoredAt(x: Option<Val>, rows: seq<Placed>, k: Key): Option<Val> {
    if IsPlaced(rows, k) then Some(TaxableV(Overlay(Columns(x), Merged(rows, k)))) else x
  }

  lemma {:induction false} MergedConcat(a: seq<Placed>, b: seq<Placed>, k: Key)
    ensures Merged(a + b, k) == Overlay(Merged(a, k), Merged(b, k))
    ensures IsPlaced(a + b, k) <==> IsPlaced(a, k) || IsPlaced(b, k)
  {
    if b == [] {
      assert a + b == a;
    } else {
      assert (a + b)[..|a + b| - 1] == a + b[..|b| - 1];
      MergedConcat(a, b[..|b| - 1], k);
    }
  }

  lemma {:induction false} UnplacedIsBlank(rows: seq<Placed>, k: Key)
    requires !IsPlaced(rows, k)
    ensures Merged(rows, k) == BLANK
  {
    if rows != [] {
      assert rows[|rows| - 1] in rows;
      UnplacedIsBlank(rows[..|rows| - 1], k);
    }
  }

  lemma StoredConcat(x: Option<Val>, a: seq<Placed>, b: seq<Placed>, k: Key)
    ensures StoredAt(StoredAt(x, a, k), b, k) == StoredAt(x, a + b, k)
  {
    MergedConcat(a, b, k);
    if !IsPlaced(a, k) {
      UnplacedIsBlank(a, k);
    }
    if !IsPlaced(b, k) {
      UnplacedIsBlank(b, k);
    }
  }

  lemma OnePlaced(x: Option<Val>, p: Placed, k: Key)
    ensures FoldAt(x, [Patch(p.k, p.fields)], k) == StoredAt(x, [p], k)
  {
    assert p in [p] && [p][..0] == [] && [Patch(p.k, p.fields)][..0] == [];
    assert Merged([], k) == BLANK && FoldAt(x, [], k) == x;
  }

  lemma AddressesApart(x: Option<Val>, row: TaxableData, k: Key)
    requires k.TaxableK?
    ensures FoldAt(x, AddressOps(row.sender) + AddressOps(row.receiver), k) == x
  {
    UntouchedStays(x, AddressOps(row.sender) + AddressOps(row.receiver), k);
  }

  lemma RowStored(x: Option<Val>, hash: string, message: MessageData, row: TaxableData, k: Key)
    requires k.TaxableK?
    ensures FoldAt(x, TaxableRowOps(hash, message.messageType, message.index, row), k)
         == StoredAt(x, if TooLong(row) then [] else [Placed(TaxableKey(hash, message, row), Fields(row))], k)
  {
    if !TooLong(row) {
      var addresses := AddressOps(row.sender) + AddressOps(row.receiver);
      var p := Placed(TaxableKey(hash, message, row), Fields(row));
      FoldAtConcat(x, addresses, [Patch(p.k, p.fields)], k);
      AddressesApart(x, row, k);
      OnePlaced(x, p, k);
    }
  }

  lemma {:induction false} RowsStored(x: Option<Val>, hash: string, message: MessageData, rows: seq<TaxableData>, k: Key)
    requires k.TaxableK?
    ensures FoldAt(x, TaxableOps(hash, message.messageType, message.index, rows), k)
         == StoredAt(x, PlacedRows(hash, message, rows), k)
  {
    if rows != [] {
      var init, last := rows[..|rows| - 1], rows[|rows| - 1];
      RowsStored(x, hash, message, init, k);
      FoldAtConcat(x, TaxableOps(hash, message.messageType, message.index, init),
                   TaxableRowOps(hash, message.messageType, message.index, last), k);
      RowStored(StoredAt(x, PlacedRows(hash, message, init), k), hash, message, last, k);
      StoredConcat(x, PlacedRows(hash, message, init),
                   if TooLong(last) then [] else [Placed(TaxableKey(hash, message, last), Fields(last))], k);
    }
  }

  lemma MessageStored(x: Option<Val>, hash: string, message: MessageData, k: Key)
    requires k.TaxableK?
    ensures FoldAt(x, MessageRowOps(hash, message), k) == StoredAt(x, PlacedRows(hash, message, message.taxable), k)
  {
    var names := [Ensure(TypeK(message.messageType), Unit)] + [Ensure(MessageK(hash, message.messageType, message.index), Unit)];
    FoldAtConcat(x, names, TaxableOps(hash, message.messageType, message.index, message.taxable), k);
    UntouchedStays(x, names, k);
    RowsStored(x, hash, message, message.taxable, k);
  }

  lemma {:induction false} MessagesStored(x: Option<Val>, hash: string, messages: seq<MessageData>, k: Key)
    requires k.TaxableK?
    ensures FoldAt(x, MessageOps(hash, messages), k) == StoredAt(x, PlacedMessages(hash, messages), k)
  {
    if messages != [] {
      var init, last := messages[..|messages| - 1], messages[|messages| - 1];
      MessagesStored(x, hash, init, k);
      FoldAtConcat(x, MessageOps(hash, init), MessageRowOps(hash, last), k);
      MessageStored(StoredAt(x, PlacedMessages(hash, init), k), hash, last, k);
      StoredConcat(x, PlacedMessages(hash, init), PlacedRows(hash, last, last.taxable), k);
    }
  }

  lemma TxStored(x: Option<Val>, chain: string, height: int, tx: TxData, k: Key)
    requires k.TaxableK?
    ensures FoldAt(x, TxOps(chain, height, tx), k) == StoredAt(x, PlacedMessages(tx.hash, tx.messages), k)
  {
    var before := AddressOps(tx.signer) + [Ensure(TxK(tx.hash), TxV(tx.code, chain, height, Named(tx.signer)))]
                  + FeeOps(tx.hash, tx.fees);
    forall op | op in before ensures op.k != k {
      FeeOpsAre(op, tx.hash, tx.fees);
    }
    FoldAtConcat(x, before, MessageOps(tx.hash, tx.messages), k);
    UntouchedStays(x, before, k);
    MessagesStored(x, tx.hash, tx.messages, k);
  }

  lemma {:induction false} TxsStored(x: Option<Val>, chain: string, height: int, txs: seq<TxData>, k: Key)
    requires k.TaxableK?
    ensures FoldAt(x, TxsOps(chain, height, txs), k) == StoredAt(x, PlacedTxs(txs), k)
  {
    if txs != [] {
      var init, last := txs[..|txs| - 1], txs[|txs| - 1];
      TxsStored(x, chain, height, init, k);
      FoldAtConcat(x, TxsOps(chain, height, init), TxOps(chain, height, last), k);
      TxStored(StoredAt(x, PlacedTxs(init), k), chain, height, last, k);
      StoredConcat(x, PlacedTxs(init), PlacedMessages(last.hash, last.messages), k);
    }
  }

  /**
    At every message and pair of amounts a block stores the rows it has for them laid
    over each other and over what was there: each column keeps the last value set.
   */
  lemma TaxableIsStored(v: View, chain: string, block: BlockData, k: Key)
    requires k.TaxableK?
    ensures At(ApplyAll(v, BlockOps(chain, block)), k) == StoredAt(At(v, k), PlacedTxs(block.txs), k)
  {
    var rows := [Remove(FailedK(chain, block.height))] + [Put(BlockK(chain, block.height), BlockV(block.time, true))];
    Locality(v, BlockOps(chain, block), k);
    FoldAtConcat(At(v, k), rows, TxsOps(chain, block.height, block.txs), k);
    UntouchedStays(At(v, k), rows, k);
    TxsStored(At(v, k), chain, block.height, block.txs, k);
  }

  /** Every column that is set in fields has that value in the row at k. */
  predicate Holds(v: View, k: Key, fields: TaxableFields) {
    k in v && v[k].TaxableV? && Overlay(v[k].fields, fields) == v[k].fields
  }

  /** No column is set in both to different values. */
  predicate Agree(f: TaxableFields, g: TaxableFields) {
    Overlay(f, g) == Overlay(g, f)
  }

  lemma LaidOver(first: TaxableFields, before: TaxableFields, f: TaxableFields, later: TaxableFields)
    ensures var stored := Overlay(first, Overlay(Overlay(before, f), later));
            Overlay(stored, f) == stored <==> Agree(f, later)
  {
  }

  lemma MergedAround(rows: seq<Placed>, i: nat)
    requires i < |rows|
    ensures var k := rows[i].k;
            Merged(rows, k) == Overlay(Overlay(Merged(rows[..i], k), rows[i].fields), Merged(rows[i + 1..], k))
  {
    MergedConcat(rows[..i + 1], rows[i + 1..], rows[i].k);
    assert rows == rows[..i + 1] + rows[i + 1..];
    assert rows[..i + 1][..i] == rows[..i];
  }

  /** Exactly when a row can be read back: what later rows of its key set agrees with it. */
  lemma TaxableSurvivesIff(v: View, chain: string, block: BlockData, i: nat)
    requires i < |PlacedTxs(block.txs)|
    ensures var p, later := PlacedTxs(block.txs)[i], PlacedTxs(block.txs)[i + 1..];
            Holds(ApplyAll(v, BlockOps(chain, block)), p.k, p.fields) <==> Agree(p.fields, Merged(later, p.k))
  {
    var rows := PlacedTxs(block.txs);
    var k := rows[i].k;
    PlacedAreTaxable(block.txs);
    assert rows[i] in rows;
    TaxableIsStored(v, chain, block, k);
    MergedAround(rows, i);
    LaidOver(Columns(At(v, k)), Merged(rows[..i], k), rows[i].fields, Merged(rows[i + 1..], k));
  }

  lemma {:induction false} PlacedRowsAre(p: Placed, hash: string, message: MessageData, rows: seq<TaxableData>)
    ensures p in PlacedRows(hash, message, rows)
       <==> exists row :: row in rows && !TooLong(row) && p == Placed(TaxableKey(hash, message, row), Fields(row))
  {
    if rows != [] {
      assert rows == rows[..|rows| - 1] + [rows[|rows| - 1]];
      PlacedRowsAre(p, hash, message, rows[..|rows| - 1]);
    }
  }

  lemma {:induction false} PlacedMessagesAre(p: Placed, hash: string, messages: seq<MessageData>)
    ensures p in PlacedMessages(hash, messages)
       <==> exists m, row :: m in messages && row in m.taxable && !TooLong(row)
                             && p == Placed(TaxableKey(hash, m, row), Fields(row))
  {
    if messages != [] {
      var last := messages[|messages| - 1];
      assert messages == messages[..|messages| - 1] + [last];
      PlacedMessagesAre(p, hash, messages[..|messages| - 1]);
      PlacedRowsAre(p, hash, last, last.taxable);
    }
  }

  /** The rows that are stored are those of the messages of the transactions. */
  lemma {:induction false} PlacedAre(p: Placed, txs: seq<TxData>)
    ensures p in PlacedTxs(txs)
       <==> exists tx, m, row :: tx in txs && m in tx.messages && row in m.taxable && !TooLong(row)
                                 && p == Placed(TaxableKey(tx.hash, m, row), Fields(row))
  {
    if txs != [] {
      var last := txs[|txs| - 1];
      assert txs == txs[..|txs| - 1] + [last];
      PlacedAre(p, txs[..|txs| - 1]);
      PlacedMessagesAre(p, last.hash, last.messages);
    }
  }

  lemma {:induction false} PlacedAreTaxable(txs: seq<TxData>)
    ensures forall p | p in PlacedTxs(txs) :: p.k.TaxableK?
  {
    if txs != [] {
      var last := txs[|txs| - 1];
      PlacedAreTaxable(txs[..|txs| - 1]);
      PlacedOfMessages(last.hash, last.messages);
    }
  }

  lemma {:induction false} PlacedOfMessages(hash: string, messages: seq<MessageData>)
    ensures forall p | p in PlacedMessages(hash, messages) :: p.k.TaxableK?
  {
    if messages != [] {
      var last := messages[|messages| - 1];
      PlacedOfMessages(hash, messages[..|messages| - 1]);
      forall p | p in PlacedRows(hash, last, last.taxable) ensures p.k.TaxableK? {
        PlacedRowsAre(p, hash, last, last.taxable);
      }
    }
  }

  /** No two rows of one message and the same amounts set a column to different values. */
  predicate RowsAgree(rows: seq<Placed>) {
    forall p, q | p in rows && q in rows && p.k == q.k :: Agree(p.fields, q.fields)
  }

  lemma {:induction false} AgreesWithMerged(p: Placed, rows: seq<Placed>)
    requires forall q | q in rows && q.k == p.k :: Agree(p.fields, q.fields)
    ensures Agree(p.fields, Merged(rows, p.k))
  {
    if rows != [] {
      assert rows[|rows| - 1] in rows;
      AgreesWithMerged(p, rows[..|rows| - 1]);
    }
  }

  /** Exactly when no taxable row of a block is overwritten, whatever was stored before. */
  lemma AllTaxablesSurviveIff(v: View, chain: string, block: BlockData)
    ensures (forall p | p in PlacedTxs(block.txs) :: Holds(ApplyAll(v, BlockOps(chain, block)), p.k, p.fields))
       <==> RowsAgree(PlacedTxs(block.txs))
  {
    var rows := PlacedTxs(block.txs);
    if RowsAgree(rows) {
      forall p | p in rows ensures Holds(ApplyAll(v, BlockOps(chain, block)), p.k, p.fields) {
        var i :| 0 <= i < |rows| && rows[i] == p;
        AgreesWithMerged(p, rows[i + 1..]);
        TaxableSurvivesIff(v, chain, block, i);
      }
    }
  }

  lemma {:induction false} MergedOne(rows: seq<Placed>, k: Key, fields: TaxableFields)
    requires forall p | p in rows && p.k == k :: p.fields == fields
    ensures Merged(rows, k) == if IsPlaced(rows, k) then fields else BLANK
  {
    if rows != [] {
      var n := |rows| - 1;
      assert rows == rows[..n] + [rows[n]];
      MergedOne(rows[..n], k, fields);
    }
  }

  /** No other taxable row of the same message has the same amounts. */
  predicate OnlyTaxable(block: BlockData, tx: TxData, message: MessageData, row: TaxableData) {
    forall t2, m2, r2 | t2 in block.txs && m2 in t2.messages && r2 in m2.taxable
        && TaxableK(t2.hash, m2.messageType, m2.index, r2.sent, r2.received)
           == TaxableK(tx.hash, message.messageType, message.index, row.sent, row.received) :: r2 == row
  }

  lemma OnlyOnePlaced(block: BlockData, tx: TxData, message: MessageData, row: TaxableData)
    requires tx in block.txs && message in tx.messages && row in message.taxable && OnlyTaxable(block, tx, message, row)
    ensures var k := TaxableKey(tx.hash, message, row);
            && (IsPlaced(PlacedTxs(block.txs), k) <==> !TooLong(row))
            && Merged(PlacedTxs(block.txs), k) == if TooLong(row) then BLANK else Fields(row)
  {
    var rows, k := PlacedTxs(block.txs), TaxableKey(tx.hash, message, row);
    forall p | p in rows && p.k == k ensures p.fields == Fields(row) && !TooLong(row) {
      PlacedAre(p, block.txs);
      var t2, m2, r2 :| t2 in block.txs && m2 in t2.messages && r2 in m2.taxable && !TooLong(r2)
                        && p == Placed(TaxableKey(t2.hash, m2, r2), Fields(r2));
      assert r2 == row;
    }
    PlacedAre(Placed(k, Fields(row)), block.txs);
    MergedOne(rows, k, Fields(row));
  }

  /**
    A taxable row without a rival is stored column by column: amounts under their
    message, denominations with an id, the sender and the receiver that are named,
    each in its own column. A column that the row leaves unset stays as it was. A
    row with an address of more than 100 characters is not stored.
   */
  lemma TaxableColumns(v: View, chain: string, block: BlockData, tx: TxData, message: MessageData, row: TaxableData)
    requires tx in block.txs && message in tx.messages && row in message.taxable && OnlyTaxable(block, tx, message, row)
    ensures var k := TaxableK(tx.hash, message.messageType, message.index, row.sent, row.received);
            var w := ApplyAll(v, BlockOps(chain, block));
            var before := if k in v && v[k].TaxableV? then v[k].fields else TaxableFields(None, None, None, None);
            if |row.sender| > 100 || |row.receiver| > 100 then At(w, k) == At(v, k)
            else
              && k in w && w[k].TaxableV?
              && w[k].fields.denomSent == (if row.denomSent != 0 then Some(row.denomSent) else before.denomSent)
              && w[k].fields.denomReceived == (if row.denomReceived != 0 then Some(row.denomReceived) else before.denomReceived)
              && w[k].fields.sender == (if row.sender != "" then Some(row.sender) else before.sender)
              && w[k].fields.receiver == (if row.receiver != "" then Some(row.receiver) else before.receiver)
  {
    var k := TaxableKey(tx.hash, message, row);
    TaxableIsStored(v, chain, block, k);
    OnlyOnePlaced(block, tx, message, row);
  }

  // ------------------------------------------------------------- messages and addresses

  /** Every message of the block has its row. */
  lemma MessageIsStored(v: View, chain: string, block: BlockData, tx: TxData, message: MessageData)
    requires tx in block.txs && message in tx.messages
    ensures var w := ApplyAll(v, BlockOps(chain, block));
            && MessageK(tx.hash, message.messageType, message.index) in w && TypeK(message.messageType) in w
  {
    var ops, k := BlockOps(chain, block), MessageK(tx.hash, message.messageType, message.index);
    var name := TypeK(message.messageType);
    assert StoresMessage(Ensure(k, Unit), tx.hash, message) && StoresMessage(Ensure(name, Unit), tx.hash, message);
    assert StoresTx(Ensure(k, Unit), chain, block.height, tx) && StoresTx(Ensure(name, Unit), chain, block.height, tx);
    BlockOpsAre(Ensure(k, Unit), chain, block);
    BlockOpsAre(Ensure(name, Unit), chain, block);
    StoredIfTouched(v, chain, block, k);
    StoredIfTouched(v, chain, block, name);
  }

  lemma StoredIfTouched(v: View, chain: string, block: BlockData, k: Key)
    requires k.MessageK? || k.TypeK? || k.AddressK?
    ensures k in ApplyAll(v, BlockOps(chain, block)) <==> k in v || Touches(BlockOps(chain, block), k)
  {
    var ops := BlockOps(chain, block);
    Locality(v, ops, k);
    if Touches(ops, k) {
      BlockOpsMild(chain, block);
      assert AllEnsure(ops, k) by {
        forall op | op in ops && op.k == k ensures op.Ensure? { assert Mild(op, chain, block); }
      }
      EnsureKeeps(At(v, k), ops, k);
    } else {
      UntouchedStays(At(v, k), ops, k);
    }
  }

  /** The address signed a transaction of the block, or pays a fee in it, or sends or receives by a row that is stored. */
  predicate Names(tx: TxData, address: string) {
    || (tx.signer == address && address != "")
    || (exists fee :: fee in tx.fees && fee.payer == address)
    || (exists m, row :: m in tx.messages && row in m.taxable && |row.sender| <= 100 && |row.receiver| <= 100
                         && address != "" && (row.sender == address || row.receiver == address))
  }

  lemma NamesIff(chain: string, height: int, tx: TxData, address: string)
    ensures Names(tx, address) <==> StoresTx(Ensure(AddressK(address), Unit), chain, height, tx)
  {
    var op := Ensure(AddressK(address), Unit);
    if Names(tx, address) {
      if fee :| fee in tx.fees && fee.payer == address {
        assert StoresFee(op, tx.hash, fee);
      } else if m, row :| m in tx.messages && row in m.taxable && |row.sender| <= 100 && |row.receiver| <= 100
                          && address != "" && (row.sender == address || row.receiver == address) {
        assert StoresTaxable(op, tx.hash, m, row);
        assert StoresMessage(op, tx.hash, m);
      }
    }
  }

  /** After a block is stored there is a row for an address exactly if there was one before or the block names it. */
  lemma AddressIsStoredIff(v: View, chain: string, block: BlockData, address: string)
    ensures AddressK(address) in ApplyAll(v, BlockOps(chain, block))
       <==> AddressK(address) in v || exists tx :: tx in block.txs && Names(tx, address)
  {
    var ops, k := BlockOps(chain, block), AddressK(address);
    StoredIfTouched(v, chain, block, k);
    if op :| op in ops && op.k == k {
      BlockOpsMild(chain, block);
      BlockOpsAre(op, chain, block);
      assert op == Ensure(k, Unit);
      var tx :| tx in block.txs && StoresTx(op, chain, block.height, tx);
      NamesIff(chain, block.height, tx, address);
    }
    if tx :| tx in block.txs && Names(tx, address) {
      NamesIff(chain, block.height, tx, address);
      BlockOpsAre(Ensure(k, Unit), chain, block);
    }
  }

  // ----------------------------------------------------------------- what can be stored

  /** The fees are paid by someone in known denominations, and the messages have a type. */
  predicate Storable(tx: TxData) {
    && (forall fee | fee in tx.fees :: fee.payer != "" && fee.denom.base != "" && fee.denom.symbol != "")
    && (forall m | m in tx.messages :: m.messageType != "")
  }

  /**
    A block commits exactly when all its transactions can be stored; of the first
    that cannot, a bad fee rolls the block back, and an untyped message with good
    fees ends the process.
   */
  lemma {:induction false} VerdictIs(txs: seq<TxData>)
    ensures BlockVerdict(txs) == Committed <==> forall tx | tx in txs :: Storable(tx)
    ensures BlockVerdict(txs) != Committed ==>
              exists n | 0 <= n < |txs| ::
                && (forall i | 0 <= i < n :: Storable(txs[i])) && !Storable(txs[n])
                && (BlockVerdict(txs) == Fatal <==>
                      forall fee | fee in txs[n].fees :: fee.payer != "" && fee.denom.base != "" && fee.denom.symbol != "")
  {
    if txs != [] {
      var n := |txs| - 1;
      var init, last := txs[..n], txs[n];
      assert txs == init + [last];
      VerdictIs(init);
      TxVerdictIs(last);
      if BlockVerdict(init) == Committed {
        forall i | 0 <= i < n ensures Storable(txs[i]) {
          assert init[i] in init;
        }
      }
    }
  }

  lemma TxVerdictIs(tx: TxData)
    ensures TxVerdict(tx) == Committed <==> Storable(tx)
    ensures TxVerdict(tx) == RolledBack
       <==> !(forall fee | fee in tx.fees :: fee.payer != "" && fee.denom.base != "" && fee.denom.symbol != "")
  {
  }

  /** The row that a pool join has for a coin when all coins have one amount and the shares split evenly. */
  datatype EvenJoin = EvenJoin(amount: int, part: int, shares: nat, user: string) {
    function Row(coin: nat): TaxableData {
      TaxableData(amount, part, coin, shares, user, user)
    }

    function Rows(coins: seq<nat>): seq<TaxableData> {
      seq(|coins|, i requires 0 <= i < |coins| => Row(coins[i]))
    }

    function PlacedAt(k: Key, coins: seq<nat>): seq<Placed> {
      seq(|coins|, i requires 0 <= i < |coins| => Placed(k, Fields(Row(coins[i]))))
    }
  }

  lemma {:induction false} JoinIsPlaced(hash: string, message: MessageData, join: EvenJoin, coins: seq<nat>, k: Key)
    requires |join.user| <= MAX_ADDRESS_LENGTH
    requires k == TaxableK(hash, message.messageType, message.index, join.amount, join.part)
    ensures PlacedRows(hash, message, join.Rows(coins)) == join.PlacedAt(k, coins)
  {
    if coins != [] {
      var init := coins[..|coins| - 1];
      JoinIsPlaced(hash, message, join, init, k);
      assert join.Rows(coins)[..|coins| - 1] == join.Rows(init);
      assert join.PlacedAt(k, coins) == join.PlacedAt(k, init) + [Placed(k, Fields(join.Row(coins[|coins| - 1])))];
    }
  }

  lemma {:induction false} LastCoinWins(join: EvenJoin, coins: seq<nat>, k: Key)
    requires coins != [] && forall j | 0 <= j < |coins| :: coins[j] > 0
    ensures Merged(join.PlacedAt(k, coins), k) == Fields(join.Row(coins[|coins| - 1]))
  {
    var init := coins[..|coins| - 1];
    assert join.PlacedAt(k, coins)[..|coins| - 1] == join.PlacedAt(k, init);
    if init != [] {
      LastCoinWins(join, init, k);
    }
  }

  lemma Within(before: seq<Placed>, own: seq<Placed>, after: seq<Placed>, i: nat)
    requires i < |own|
    ensures var rows := before + own + after;
            rows[|before| + i] == own[i] && rows[|before| + i + 1..] == own[i + 1..] + after
  {
  }

  lemma LaterCoins(join: EvenJoin, coins: seq<nat>, i: nat, after: seq<Placed>, k: Key)
    requires i < |coins| && forall j | 0 <= j < |coins| :: coins[j] > 0
    requires !IsPlaced(after, k)
    ensures Merged(join.PlacedAt(k, coins)[i + 1..] + after, k)
         == if i + 1 < |coins| then Fields(join.Row(coins[|coins| - 1])) else BLANK
  {
    var rest := join.PlacedAt(k, coins[i + 1..]);
    assert join.PlacedAt(k, coins)[i + 1..] == rest;
    MergedConcat(rest, after, k);
    UnplacedIsBlank(after, k);
    if i + 1 < |coins| {
      LastCoinWins(join, coins[i + 1..], k);
    }
  }

  lemma CoinsAgree(join: EvenJoin, coin: nat, other: nat)
    requires coin > 0 && other > 0
    ensures Agree(Fields(join.Row(coin)), Fields(join.Row(other))) <==> coin == other
    ensures Agree(Fields(join.Row(coin)), BLANK)
  {
  }

  /**
    A pool join of coins of one amount whose shares split evenly comes as rows that
    all have the same two amounts. Wherever it is in the block, each row is stored
    over the one before, so that only the last coin can be read back.
   */
  lemma EqualCoinsOverwrite(v: View, chain: string, block: BlockData, before: seq<Placed>, after: seq<Placed>,
                            hash: string, message: MessageData, join: EvenJoin, coins: seq<nat>, i: nat)
    requires PlacedTxs(block.txs) == before + PlacedRows(hash, message, join.Rows(coins)) + after
    requires |join.user| <= MAX_ADDRESS_LENGTH && i < |coins| && forall j | 0 <= j < |coins| :: coins[j] > 0
    requires !IsPlaced(after, TaxableKey(hash, message, join.Row(coins[i])))
    ensures var w, row := ApplyAll(v, BlockOps(chain, block)), join.Row(coins[i]);
            Holds(w, TaxableKey(hash, message, row), Fields(row)) <==> coins[i] == coins[|coins| - 1]
  {
    var k, rows := TaxableKey(hash, message, join.Row(coins[i])), PlacedTxs(block.txs);
    JoinIsPlaced(hash, message, join, coins, k);
    Within(before, join.PlacedAt(k, coins), after, i);
    TaxableSurvivesIff(v, chain, block, |before| + i);
    LaterCoins(join, coins, i, after, k);
    CoinsAgree(join, coins[i], coins[|coins| - 1]);
  }
}
