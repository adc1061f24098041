/**
  The natural-key view of the indexer's tables: what is stored, without the
  surrogate ids that the database hands out. Every write the indexer makes is
  one of four keyed operations on this view, so a whole transaction is a list of
  operations. The lemmas of this module show that such a list acts on every key
  separately; replaying, reordering and retrying are then decided key by key.
 */
module Ledger {
  import opened Options

  datatype Key =
    | ChainK(chain: string)
    | BlockK(chain: string, height: int)
    | FailedK(chain: string, height: int)
    | AddressK(address: string)
    | TypeK(messageType: string)
    | TxK(hash: string)
    | FeeK(hash: string, denom: nat)
    | MessageK(hash: string, messageType: string, index: int)
    | TaxableK(hash: string, messageType: string, index: int, sent: int, received: int)
    | EventK(eventHash: nat)

  /** The nullable columns of a taxable_tx row. */
  datatype TaxableFields = TaxableFields(
    denomSent: Option<nat>, denomReceived: Option<nat>, sender: Option<string>, receiver: Option<string>)

  datatype Val =
    | Unit
    | ChainV(name: string)
    | BlockV(time: int, indexed: bool)
    | TxV(code: int, chain: string, height: int, signer: Option<string>)
    | FeeV(amount: int, payer: string)
    | TaxableV(fields: TaxableFields)
    | EventV(source: nat, eventAmount: int, denom: nat, address: Option<string>, eventChain: string, eventHeight: int)

  type View = imap<Key, Val>

  /** Find-or-create, create-or-assign, create-or-update-set-fields, and delete. */
  datatype Op =
    | Ensure(k: Key, v: Val)
    | Put(k: Key, v: Val)
    | Patch(k: Key, fields: TaxableFields)
    | Remove(k: Key)

  function At(v: View, k: Key): Option<Val> {
    if k in v then Some(v[k]) else None
  }

  function Pick<T>(older: Option<T>, newer: Option<T>): Option<T> {
    if newer.Some? then newer else older
  }

  /** Columns that are set in newer replace those of older; unset ones are left alone. */
  function Overlay(older: TaxableFields, newer: TaxableFields): TaxableFields {
    TaxableFields(Pick(older.denomSent, newer.denomSent), Pick(older.denomReceived, newer.denomReceived),
                  Pick(older.sender, newer.sender), Pick(older.receiver, newer.receiver))
  }

  /** What op leaves at its own key when x was there before. */
  function StepAt(op: Op, x: Option<Val>): Option<Val> {
    match op
    case Ensure(_, v) => if x.Some? then x else Some(v)
    case Put(_, v) => Some(v)
    case Patch(_, f) =>
      if x.Some? && x.value.TaxableV? then Some(TaxableV(Overlay(x.value.fields, f))) else Some(TaxableV(f))
    case Remove(_) => None
  }

  function Apply(v: View, op: Op): View {
    match StepAt(op, At(v, op.k))
    case Some(y) => v[op.k := y]
    case None => v - {op.k}
  }

  function ApplyAll(v: View, ops: seq<Op>): View {
    if ops == [] then v else Apply(ApplyAll(v, ops[..|ops| - 1]), ops[|ops| - 1])
  }

  /** The effect of a list of operations on a single key. */
  function FoldAt(x: Option<Val>, ops: seq<Op>, k: Key): Option<Val> {
    if ops == [] then x
    else
      var y := FoldAt(x, ops[..|ops| - 1], k);
      var op := ops[|ops| - 1];
      if op.k == k then StepAt(op, y) else y
  }

  lemma {:induction false} ApplyAllConcat(v: View, a: seq<Op>, b: seq<Op>)
    ensures ApplyAll(v, a + b) == ApplyAll(ApplyAll(v, a), b)
  {
    if b == [] {
      assert a + b == a;
    } else {
      assert (a + b)[..|a + b| - 1] == a + b[..|b| - 1];
      ApplyAllConcat(v, a, b[..|b| - 1]);
    }
  }

  lemma {:induction false} FoldAtConcat(x: Option<Val>, a: seq<Op>, b: seq<Op>, k: Key)
    ensures FoldAt(x, a + b, k) == FoldAt(FoldAt(x, a, k), b, k)
  {
    if b == [] {
      assert a + b == a;
    } else {
      assert (a + b)[..|a + b| - 1] == a + b[..|b| - 1];
      FoldAtConcat(x, a, b[..|b| - 1], k);
    }
  }

  /** A list of operations acts on every key separately. */
  lemma {:induction false} Locality(v: View, ops: seq<Op>, k: Key)
    ensures At(ApplyAll(v, ops), k) == FoldAt(At(v, k), ops, k)
  {
    if ops != [] {
      Locality(v, ops[..|ops| - 1], k);
    }
  }

  lemma SameAtEveryKey(a: View, b: View)
    requires forall k :: At(a, k) == At(b, k)
    ensures a == b
  {
    forall k ensures k in a <==> k in b {
      assert At(a, k) == At(b, k);
    }
    forall k | k in a ensures a[k] == b[k] {
      assert At(a, k) == At(b, k);
    }
  }

  // ---------------------------------------------------------------- replay

  predicate Touches(ops: seq<Op>, k: Key) {
    exists op :: op in ops && op.k == k
  }

  predicate AllEnsure(ops: seq<Op>, k: Key) {
    forall op | op in ops && op.k == k :: op.Ensure?
  }

  predicate AllPut(ops: seq<Op>, k: Key, v: Val) {
    forall op | op in ops && op.k == k :: op == Put(k, v)
  }

  predicate AllPatch(ops: seq<Op>, k: Key) {
    forall op | op in ops && op.k == k :: op.Patch?
  }

  predicate AllRemove(ops: seq<Op>, k: Key) {
    forall op | op in ops && op.k == k :: op.Remove?
  }

  /** All operations on k are of one kind, and assignments agree. */
  ghost predicate UniformAt(ops: seq<Op>, k: Key) {
    AllEnsure(ops, k) || (exists v :: AllPut(ops, k, v)) || AllPatch(ops, k) || AllRemove(ops, k)
  }

  lemma {:induction false} UntouchedStays(x: Option<Val>, ops: seq<Op>, k: Key)
    requires !Touches(ops, k)
    ensures FoldAt(x, ops, k) == x
  {
    if ops != [] {
      assert ops[|ops| - 1] in ops;
      UntouchedStays(x, ops[..|ops| - 1], k);
    }
  }

  lemma {:induction false} EnsureKeeps(x: Option<Val>, ops: seq<Op>, k: Key)
    requires AllEnsure(ops, k)
    ensures x.Some? ==> FoldAt(x, ops, k) == x
    ensures Touches(ops, k) ==> FoldAt(x, ops, k).Some?
  {
    if ops != [] {
      assert ops[|ops| - 1] in ops;
      assert ops == ops[..|ops| - 1] + [ops[|ops| - 1]];
      EnsureKeeps(x, ops[..|ops| - 1], k);
    }
  }

  lemma {:induction false} PutSets(x: Option<Val>, ops: seq<Op>, k: Key, v: Val)
    requires AllPut(ops, k, v) && Touches(ops, k)
    ensures FoldAt(x, ops, k) == Some(v)
  {
    var op := ops[|ops| - 1];
    assert op in ops;
    if op.k != k {
      assert ops == ops[..|ops| - 1] + [op];
      PutSets(x, ops[..|ops| - 1], k, v);
    }
  }

  lemma {:induction false} RemoveClears(x: Option<Val>, ops: seq<Op>, k: Key)
    requires AllRemove(ops, k) && Touches(ops, k)
    ensures FoldAt(x, ops, k) == None
  {
    var op := ops[|ops| - 1];
    assert op in ops;
    if op.k != k {
      assert ops == ops[..|ops| - 1] + [op];
      RemoveClears(x, ops[..|ops| - 1], k);
    }
  }

  /** The update that a list of patches of k amounts to. */
  function Patches(ops: seq<Op>, k: Key): Option<TaxableFields>
    requires AllPatch(ops, k)
  {
    if ops == [] then None
    else
      var rest := ops[..|ops| - 1];
      var op := ops[|ops| - 1];
      assert op in ops;
      var p := Patches(rest, k);
      if op.k != k then p
      else if p.None? then Some(op.fields) else Some(Overlay(p.value, op.fields))
  }

  /** Where several taxable rows share a key, each column keeps the last value that was set. */
  lemma {:induction false} PatchesCompose(x: Option<Val>, ops: seq<Op>, k: Key)
    requires AllPatch(ops, k)
    ensures Touches(ops, k) <==> Patches(ops, k).Some?
    ensures Patches(ops, k).Some? ==> FoldAt(x, ops, k) == StepAt(Patch(k, Patches(ops, k).value), x)
  {
    if ops != [] {
      var op := ops[|ops| - 1];
      var rest := ops[..|ops| - 1];
      assert op in ops && ops == rest + [op];
      PatchesCompose(x, rest, k);
      if Patches(rest, k).None? {
        UntouchedStays(x, rest, k);
      }
    }
  }

  /** Running the same operations a second time changes nothing at k. */
  lemma ReplayAt(x: Option<Val>, ops: seq<Op>, k: Key)
    requires UniformAt(ops, k)
    ensures FoldAt(FoldAt(x, ops, k), ops, k) == FoldAt(x, ops, k)
  {
    var y := FoldAt(x, ops, k);
    if !Touches(ops, k) {
      UntouchedStays(x, ops, k);
    } else if AllEnsure(ops, k) {
      EnsureKeeps(x, ops, k);
      EnsureKeeps(y, ops, k);
    } else if AllPatch(ops, k) {
      PatchesCompose(x, ops, k);
      PatchesCompose(y, ops, k);
    } else if AllRemove(ops, k) {
      RemoveClears(x, ops, k);
      RemoveClears(y, ops, k);
    } else {
      var v :| AllPut(ops, k, v);
      PutSets(x, ops, k, v);
      PutSets(y, ops, k, v);
    }
  }

  lemma Replay(v: View, ops: seq<Op>)
    requires forall k :: UniformAt(ops, k)
    ensures ApplyAll(ApplyAll(v, ops), ops) == ApplyAll(v, ops)
  {
    var w := ApplyAll(v, ops);
    forall k ensures At(ApplyAll(w, ops), k) == At(w, k) {
      Locality(v, ops, k);
      Locality(w, ops, k);
      ReplayAt(At(v, k), ops, k);
    }
    SameAtEveryKey(ApplyAll(w, ops), w);
  }

  /** Find-or-create work that was partly committed and then redone from the start ends as one clean run. */
  lemma ReplayAfterPrefix(v: View, done: seq<Op>, rest: seq<Op>)
    requires forall op | op in done + rest :: op.Ensure?
    ensures ApplyAll(ApplyAll(v, done), done + rest) == ApplyAll(v, done + rest)
  {
    var w := ApplyAll(v, done);
    forall k ensures At(ApplyAll(w, done + rest), k) == At(ApplyAll(v, done + rest), k) {
      Locality(v, done, k);
      Locality(w, done + rest, k);
      Locality(v, done + rest, k);
      FoldAtConcat(At(w, k), done, rest, k);
      FoldAtConcat(At(v, k), done, rest, k);
      assert AllEnsure(done, k) by {
        assert forall op | op in done :: op in done + rest;
      }
      ReplayAt(At(v, k), done, k);
    }
    SameAtEveryKey(ApplyAll(w, done + rest), ApplyAll(v, done + rest));
  }

  // ------------------------------------------------------------- reordering

  /** Several transactions, one after the other. */
  function RunAll(v: View, lists: seq<seq<Op>>): View {
    if lists == [] then v else ApplyAll(RunAll(v, lists[..|lists| - 1]), lists[|lists| - 1])
  }

  function FoldRun(x: Option<Val>, lists: seq<seq<Op>>, k: Key): Option<Val> {
    if lists == [] then x else FoldAt(FoldRun(x, lists[..|lists| - 1], k), lists[|lists| - 1], k)
  }

  lemma {:induction false} RunLocality(v: View, lists: seq<seq<Op>>, k: Key)
    ensures At(RunAll(v, lists), k) == FoldRun(At(v, k), lists, k)
  {
    if lists != [] {
      RunLocality(v, lists[..|lists| - 1], k);
      Locality(RunAll(v, lists[..|lists| - 1]), lists[|lists| - 1], k);
    }
  }

  /** Two transactions that both write k are the same one, or both only find or create the same row. */
  ghost predicate AgreeAt(a: seq<Op>, b: seq<Op>, k: Key) {
    Touches(a, k) && Touches(b, k) ==> a == b || exists v :: OnlyEnsures(a, k, v) && OnlyEnsures(b, k, v)
  }

  predicate OnlyEnsures(ops: seq<Op>, k: Key, v: Val) {
    forall op | op in ops && op.k == k :: op == Ensure(k, v)
  }

  lemma {:induction false} OnlyEnsuresSets(x: Option<Val>, ops: seq<Op>, k: Key, v: Val)
    requires OnlyEnsures(ops, k, v) && Touches(ops, k)
    ensures FoldAt(x, ops, k) == if x.Some? then x else Some(v)
  {
    var op := ops[|ops| - 1];
    var rest := ops[..|ops| - 1];
    assert op in ops && ops == rest + [op];
    if Touches(rest, k) {
      OnlyEnsuresSets(x, rest, k, v);
    } else {
      UntouchedStays(x, rest, k);
    }
  }

  lemma AgreeingEffect(x: Option<Val>, a: seq<Op>, b: seq<Op>, k: Key)
    requires AgreeAt(a, b, k) && Touches(a, k) && Touches(b, k)
    ensures FoldAt(x, a, k) == FoldAt(x, b, k)
  {
    if a != b {
      var v :| OnlyEnsures(a, k, v) && OnlyEnsures(b, k, v);
      OnlyEnsuresSets(x, a, k, v);
      OnlyEnsuresSets(x, b, k, v);
    }
  }

  ghost predicate Compatible(lists: seq<seq<Op>>, k: Key) {
    && (forall a | a in lists :: UniformAt(a, k))
    && (forall a, b | a in lists && b in lists :: AgreeAt(a, b, k))
  }

  /** A run of compatible transactions acts on k as any single one of them that writes k. */
  lemma {:induction false} RunCollapses(x: Option<Val>, lists: seq<seq<Op>>, k: Key, a: seq<Op>)
    requires Compatible(lists, k)
    requires a in lists && Touches(a, k)
    ensures FoldRun(x, lists, k) == FoldAt(x, a, k)
  {
    var last := lists[|lists| - 1];
    var rest := lists[..|lists| - 1];
    assert last in lists && lists == rest + [last];
    if exists b :: b in rest && Touches(b, k) {
      var b :| b in rest && Touches(b, k);
      RunCollapses(x, rest, k, b);
      AgreeingEffect(x, a, b, k);
      if Touches(last, k) {
        AgreeingEffect(FoldAt(x, b, k), last, b, k);
        ReplayAt(x, b, k);
      } else {
        UntouchedStays(FoldRun(x, rest, k), last, k);
      }
    } else {
      RunUntouched(x, rest, k);
      assert a == last;
    }
  }

  lemma {:induction false} RunUntouched(x: Option<Val>, lists: seq<seq<Op>>, k: Key)
    requires forall a | a in lists :: !Touches(a, k)
    ensures FoldRun(x, lists, k) == x
  {
    if lists != [] {
      assert lists[|lists| - 1] in lists;
      RunUntouched(x, lists[..|lists| - 1], k);
      UntouchedStays(x, lists[|lists| - 1], k);
    }
  }

  /** Every transaction that writes k only finds or creates u there, or only assigns w. */
  predicate Layered(lists: seq<seq<Op>>, k: Key, u: Val, w: Val) {
    forall a | a in lists && Touches(a, k) :: OnlyEnsures(a, k, u) || AllPut(a, k, w)
  }

  predicate Assigns(lists: seq<seq<Op>>, k: Key, w: Val) {
    exists a :: a in lists && Touches(a, k) && AllPut(a, k, w)
  }

  predicate Written(lists: seq<seq<Op>>, k: Key) {
    exists a :: a in lists && Touches(a, k)
  }

  lemma LayeredLast(y: Option<Val>, last: seq<Op>, k: Key, u: Val, w: Val)
    requires Touches(last, k) ==> OnlyEnsures(last, k, u) || AllPut(last, k, w)
    ensures FoldAt(y, last, k)
         == if !Touches(last, k) then y else if AllPut(last, k, w) then Some(w) else if y.None? then Some(u) else y
  {
    if !Touches(last, k) {
      UntouchedStays(y, last, k);
    } else if AllPut(last, k, w) {
      PutSets(y, last, k, w);
    } else {
      OnlyEnsuresSets(y, last, k, u);
    }
  }

  lemma LayeredPrefix(lists: seq<seq<Op>>, k: Key, u: Val, w: Val)
    requires lists != [] && Layered(lists, k, u, w)
    ensures var rest, last := lists[..|lists| - 1], lists[|lists| - 1];
            && Layered(rest, k, u, w) && (Touches(last, k) ==> OnlyEnsures(last, k, u) || AllPut(last, k, w))
            && (Assigns(lists, k, w) <==> Assigns(rest, k, w) || (Touches(last, k) && AllPut(last, k, w)))
            && (Written(lists, k) <==> Written(rest, k) || Touches(last, k))
  {
    var rest, last := lists[..|lists| - 1], lists[|lists| - 1];
    assert last in lists && lists == rest + [last];
    assert forall a :: a in lists <==> a in rest || a == last;
  }

  /** An assignment wins whenever it comes; without one a row that was there stays. */
  lemma {:induction false} LayeredCollapses(x: Option<Val>, lists: seq<seq<Op>>, k: Key, u: Val, w: Val)
    requires Layered(lists, k, u, w)
    ensures FoldRun(x, lists, k)
         == if Assigns(lists, k, w) then Some(w) else if Written(lists, k) && x.None? then Some(u) else x
  {
    if lists != [] {
      var rest, last := lists[..|lists| - 1], lists[|lists| - 1];
      LayeredPrefix(lists, k, u, w);
      LayeredCollapses(x, rest, k, u, w);
      LayeredLast(FoldRun(x, rest, k), last, k, u, w);
    }
  }

  lemma CompatibleRuns(x: Option<Val>, xs: seq<seq<Op>>, ys: seq<seq<Op>>, k: Key)
    requires (forall a :: a in xs <==> a in ys) && Compatible(xs, k)
    ensures FoldRun(x, xs, k) == FoldRun(x, ys, k)
  {
    assert Compatible(ys, k);
    if a :| a in xs && Touches(a, k) {
      RunCollapses(x, xs, k, a);
      RunCollapses(x, ys, k, a);
    } else {
      RunUntouched(x, xs, k);
      RunUntouched(x, ys, k);
    }
  }

  lemma LayeredRuns(x: Option<Val>, xs: seq<seq<Op>>, ys: seq<seq<Op>>, k: Key, u: Val, w: Val)
    requires (forall a :: a in xs <==> a in ys) && Layered(xs, k, u, w)
    ensures FoldRun(x, xs, k) == FoldRun(x, ys, k)
  {
    LayeredCollapses(x, xs, k, u, w);
    LayeredCollapses(x, ys, k, u, w);
  }

  /** At every key the transactions are compatible, or assignments meet searches for a weaker row. */
  ghost predicate Convergent(lists: seq<seq<Op>>, k: Key) {
    Compatible(lists, k) || exists u, w :: Layered(lists, k, u, w)
  }

  /** Order and repetition of convergent transactions do not matter, only which ones ran. */
  lemma Confluence(v: View, xs: seq<seq<Op>>, ys: seq<seq<Op>>)
    requires forall a :: a in xs <==> a in ys
    requires forall k :: Convergent(xs, k)
    ensures RunAll(v, xs) == RunAll(v, ys)
  {
    forall k ensures At(RunAll(v, xs), k) == At(RunAll(v, ys), k) {
      RunLocality(v, xs, k);
      RunLocality(v, ys, k);
      assert Convergent(xs, k);
      if Compatible(xs, k) {
        CompatibleRuns(At(v, k), xs, ys, k);
      } else {
        var u, w :| Layered(xs, k, u, w);
        LayeredRuns(At(v, k), xs, ys, k, u, w);
      }
    }
    SameAtEveryKey(RunAll(v, xs), RunAll(v, ys));
  }
}
