/**
  What a worker makes of one block height: the node's answers decide whether the
  block is handed to the writer, reported as failed, or passed over in silence.
 */
module WorkerOutcome {
  import opened Options
  import opened BlockData
  import opened Pipeline

  datatype Reply<+T> = Error | Answer(value: T)

  /** The query for transactions by height; UnknownType is the error about an unresolvable type URL. */
  datatype TxsReply = QueryError | UnknownType | Txs(count: nat)

  /** The query for block results, which may also come back with neither a result nor an error. */
  datatype ResultsReply = ResultsError | Nothing | Results(count: nat)

  /** What the node answers and the two parsers make of it, for one height. */
  datatype Node = Node(
    txs: TxsReply, results: ResultsReply, blockTime: Reply<int>,
    parsedTxs: Reply<(seq<TxData>, int)>, parsedResults: Reply<seq<TxData>>)

  datatype Outcome = Sent(data: BlockData) | Failed | Dropped

  /** The step of the pipeline's worker that an outcome is. */
  function ActionOf(outcome: Outcome): WorkerAction {
    match outcome
    case Sent(_) => Succeed
    case Failed => Fail
    case Dropped => Drop
  }

  predicate FallsBack(node: Node) {
    node.txs == UnknownType || node.txs == Txs(0)
  }

  /** The fallback needs the block itself for its time, and the parser only if there are results. */
  predicate FallbackWorks(node: Node) {
    && node.results.Results? && node.blockTime.Answer?
    && (node.results.count > 0 ==> node.parsedResults.Answer?)
  }

  predicate DirectWorks(node: Node) {
    node.txs.Txs? && node.txs.count > 0 && node.parsedTxs.Answer?
  }

  /** The step of the pipeline's worker that the answers for a height come to. */
  function AnswersTo(node: Node): WorkerAction {
    if FallsBack(node) && node.results == Nothing then Drop
    else if DirectWorks(node) || (FallsBack(node) && FallbackWorks(node)) then Succeed
    else Fail
  }

  /**
    A height is sent exactly when one of the two ways works, dropped exactly when
    the fallback query returns neither result nor error, and failed otherwise. A
    block is sent without transactions from the fallback only if both queries found none.
   */
  method ProcessBlock(height: int, node: Node) returns (outcome: Outcome)
    ensures ActionOf(outcome) == AnswersTo(node)
    ensures outcome.Dropped? <==> (node.txs == UnknownType || node.txs == Txs(0)) && node.results == Nothing
    ensures outcome.Sent? <==>
              || (node.txs.Txs? && node.txs.count > 0 && node.parsedTxs.Answer?)
              || ((node.txs == UnknownType || node.txs == Txs(0)) && node.results.Results? && node.blockTime.Answer?
                  && (node.results.count == 0 || node.parsedResults.Answer?))
    ensures outcome.Sent? ==> outcome.data.height == height
    ensures outcome.Sent? && node.txs.Txs? && node.txs.count > 0 ==>
              (outcome.data.txs, outcome.data.time) == node.parsedTxs.value
    ensures outcome.Sent? && (node.txs == UnknownType || node.txs == Txs(0)) ==>
              && outcome.data.time == node.blockTime.value
              && outcome.data.txs == if node.results.count > 0 then node.parsedResults.value else []
  {
    var txs: seq<TxData> := [];
    var blockTime: Option<int> := None;
    if node.txs == QueryError {
      return Failed;
    }
    if node.txs == UnknownType || node.txs.count == 0 {
      if node.results == ResultsError {
        return Failed;
      }
      if node.results == Nothing {
        return Dropped;
      }
      if node.results.count > 0 {
        if node.blockTime.Error? {
          return Failed;
        }
        blockTime := Some(node.blockTime.value);
        if node.parsedResults.Error? {
          return Failed;
        }
        txs := node.parsedResults.value;
      }
    } else {
      if node.parsedTxs.Error? {
        return Failed;
      }
      txs := node.parsedTxs.value.0;
      blockTime := Some(node.parsedTxs.value.1);
    }
    if blockTime.None? {
      if node.blockTime.Error? {
        return Failed;
      }
      blockTime := Some(node.blockTime.value);
    }
    return Sent(BlockData(height, blockTime.value, txs));
  }
}
