/**
  How the shares of a liquidity pool are split over the rows of a join, an exit or
  a pool creation: one row for each pool coin, an equal part each, and the last
  row the rest. The rest is taken modulo the part, not modulo the number of coins.
 */
module PoolShares {
  import opened Options

  datatype Coin = Coin(denom: string, amount: nat)
  datatype Row = Row(sent: Option<Coin>, received: Option<Coin>, sender: string, receiver: string)

  /** Every part but the last, and the last one. */
  datatype Split = Split(nth: nat, last: nat)

  // ------------------------------------------------------------------------ the split

  function Part(total: nat, n: nat): nat
    requires n > 0
  {
    total / n
  }

  /** What the split loses of the total. */
  function Loss(total: nat, n: nat): nat
    requires 0 < n <= total
  {
    PartPositive(total, n);
    Part(total, n) * ((total % n) / Part(total, n))
  }

  lemma PartPositive(total: nat, n: nat)
    requires 0 < n <= total
    ensures Part(total, n) >= 1
  {
    assert total == total / n * n + total % n;
  }

  lemma AtLeastOnce(k: nat, q: nat)
    requires k >= 1
    ensures k * q >= q
  {
  }

  lemma QuotientUnique(d: nat, e: nat, m: nat, s: nat, q: nat)
    requires d * q + e == m * q + s && e < q && s < q
    ensures d == m && e == s
  {
    if d > m {
      assert (d - m) * q == d * q - m * q;
      AtLeastOnce(d - m, q);
    } else if d < m {
      assert (m - d) * q == m * q - d * q;
      AtLeastOnce(m - d, q);
    }
  }

  lemma ModOfSum(q: nat, n: nat, r: nat)
    requires q > 0
    ensures (n * q + r) % q == r % q
  {
    var m := n + r / q;
    assert n * q + r == m * q + r % q;
    ModUnique(m, q, r % q);
  }

  lemma ModUnique(m: nat, q: nat, s: nat)
    requires s < q
    ensures (m * q + s) % q == s && (m * q + s) / q == m
  {
    var x := m * q + s;
    assert x == x / q * q + x % q;
    QuotientUnique(x / q, x % q, m, s, q);
  }

  /** None where the division by the number of coins, or the one by the part, panics. */
  method CalcNthGams(total: nat, n: nat) returns (split: Option<Split>)
    ensures split.None? <==> n == 0 || total < n
    ensures split.Some? ==> split.value.nth == Part(total, n)
    ensures split.Some? ==> (n - 1) * split.value.nth + split.value.last == total - Loss(total, n)
    ensures split.Some? ==> split.value.nth <= split.value.last < 2 * split.value.nth
    ensures split.Some? ==> split.value.last == LastShare(total, n)
    ensures split.Some? ==> total / n > 0 && split.value.last == total / n + total % (total / n)
    ensures split.Some? ==> forall i | 0 <= i < n :: ShareAt(total, n, i) == if i < n - 1 then total / n else split.value.last
  {
    if n == 0 {
      return None;
    }
    var nth := total / n;
    if nth == 0 {
      assert total == nth * n + total % n;
      return None;
    }
    assert total >= n by {
      if total < n {
        ModUnique(0, n, total);
      }
    }
    var remainder := total % nth;
    remainder := nth + remainder;
    SharesAddUp(total, n);
    return Some(Split(nth, remainder));
  }

  function LastShare(total: nat, n: nat): nat
    requires 0 < n <= total
  {
    PartPositive(total, n);
    Part(total, n) + total % Part(total, n)
  }

  lemma SharesAddUp(total: nat, n: nat)
    requires 0 < n <= total
    ensures (n - 1) * Part(total, n) + LastShare(total, n) == total - Loss(total, n)
  {
    PartPositive(total, n);
    var q, r := Part(total, n), total % n;
    assert total == n * q + r;
    ModOfSum(q, n, r);
    assert r == q * (r / q) + r % q;
    assert (n - 1) * q + q == n * q;
  }

  /** At most the remainder of the plain division is lost, and something is exactly when the remainder reaches the part. */
  lemma LossBounds(total: nat, n: nat)
    requires 0 < n <= total
    ensures 0 <= Loss(total, n) <= total % n < n
    ensures Loss(total, n) == 0 <==> total % n < total / n
  {
    PartPositive(total, n);
    var q, r := Part(total, n), total % n;
    assert r == q * (r / q) + r % q;
    if r < q {
      ModUnique(0, q, r);
    } else {
      PartPositive(r, q);
      AtLeastOnce(r / q, q);
    }
  }

  lemma PartFromSquare(q: nat, r: nat, n: nat)
    requires n * n <= n * q + r && r < n
    ensures q >= n
  {
    if q < n {
      assert n * n - n * q == n * (n - q);
      AtLeastOnce(n - q, n);
    }
  }

  /** Nothing is lost of a total of at least n squared. */
  lemma ExactFromSquare(total: nat, n: nat)
    requires 0 < n && n * n <= total
    ensures n <= total && Loss(total, n) == 0
  {
    AtLeastOnce(n, n);
    assert total == n * (total / n) + total % n;
    PartFromSquare(total / n, total % n, n);
    LossBounds(total, n);
  }

  /** The bound is tight: of the total just below n squared, n - 1 is lost. */
  lemma InexactBelowSquare(n: nat)
    requires n >= 2
    ensures n <= n * n - 1 && Loss(n * n - 1, n) == n - 1
  {
    AtLeastOnce(n - 1, n);
    var total := (n - 1) * n + (n - 1);
    assert total == n * n - 1;
    ModUnique(n - 1, n, n - 1);
    ModUnique(1, n - 1, 0);
    assert Part(total, n) == n - 1 && total % n == n - 1;
  }

  // ------------------------------------------------------------------------- the rows

  function ShareAt(total: nat, n: nat, i: nat): nat
    requires 0 < n <= total
  {
    if i < n - 1 then Part(total, n) else LastShare(total, n)
  }

  /** One row for each pool coin, in order, sent when joining and received when leaving. */
  function PoolRows(coins: seq<Coin>, share: Coin, address: string, joining: bool): seq<Row>
    requires 0 < |coins| <= share.amount
  {
    seq(|coins|, i requires 0 <= i < |coins| =>
      var part := Some(Coin(share.denom, ShareAt(share.amount, |coins|, i)));
      if joining then Row(Some(coins[i]), part, address, address) else Row(part, Some(coins[i]), address, address))
  }

  function AmountIn(c: Option<Coin>, denom: string): nat {
    if c.Some? && c.value.denom == denom then c.value.amount else 0
  }

  /** How much of a denomination the rows send. */
  function SentOf(rows: seq<Row>, denom: string): nat {
    if rows == [] then 0
    else SentOf(rows[..|rows| - 1], denom) + AmountIn(rows[|rows| - 1].sent, denom)
  }

  function ReceivedOf(rows: seq<Row>, denom: string): nat {
    if rows == [] then 0
    else ReceivedOf(rows[..|rows| - 1], denom) + AmountIn(rows[|rows| - 1].received, denom)
  }

  function AmountOf(coins: seq<Coin>, denom: string): nat {
    if coins == [] then 0
    else AmountOf(coins[..|coins| - 1], denom) + AmountIn(Some(coins[|coins| - 1]), denom)
  }

  lemma {:induction false} SentOfConcat(a: seq<Row>, b: seq<Row>, denom: string)
    ensures SentOf(a + b, denom) == SentOf(a, denom) + SentOf(b, denom)
    ensures ReceivedOf(a + b, denom) == ReceivedOf(a, denom) + ReceivedOf(b, denom)
  {
    if b == [] {
      assert a + b == a;
    } else {
      assert (a + b)[..|a + b| - 1] == a + b[..|b| - 1];
      SentOfConcat(a, b[..|b| - 1], denom);
    }
  }

  /** The coins' side of the first m rows. */
  lemma {:induction false} CoinsSide(coins: seq<Coin>, share: Coin, address: string, joining: bool, m: nat, denom: string)
    requires 0 < |coins| <= share.amount && m <= |coins|
    ensures var rows := PoolRows(coins, share, address, joining)[..m];
            (if joining then SentOf(rows, denom) else ReceivedOf(rows, denom)) == AmountOf(coins[..m], denom)
  {
    var rows := PoolRows(coins, share, address, joining);
    if m > 0 {
      CoinsSide(coins, share, address, joining, m - 1, denom);
      assert rows[..m][..m - 1] == rows[..m - 1];
      assert coins[..m][..m - 1] == coins[..m - 1];
    }
  }

  lemma OneMoreTime(m: nat, part: nat)
    requires m > 0
    ensures m * part == (m - 1) * part + part
  {
  }

  /** The shares' side of the first m rows, before the last one. */
  lemma {:induction false} EqualParts(coins: seq<Coin>, share: Coin, address: string, joining: bool, m: nat, denom: string)
    requires 0 < |coins| <= share.amount && m < |coins|
    ensures var rows := PoolRows(coins, share, address, joining)[..m];
            (if joining then ReceivedOf(rows, denom) else SentOf(rows, denom))
            == if denom == share.denom then m * Part(share.amount, |coins|) else 0
  {
    var rows := PoolRows(coins, share, address, joining);
    if m == 0 {
      assert rows[..0] == [];
    } else {
      EqualParts(coins, share, address, joining, m - 1, denom);
      assert rows[..m][..m - 1] == rows[..m - 1];
      OneMoreTime(m, Part(share.amount, |coins|));
    }
  }

  /**
    The pool rows carry every pool coin's amount exactly once, denomination by
    denomination, and the share total but for the loss of the split.
   */
  lemma PoolRowsConserve(coins: seq<Coin>, share: Coin, address: string, joining: bool, denom: string)
    requires 0 < |coins| <= share.amount
    ensures var rows := PoolRows(coins, share, address, joining);
            var coinSide := if joining then SentOf(rows, denom) else ReceivedOf(rows, denom);
            var shareSide := if joining then ReceivedOf(rows, denom) else SentOf(rows, denom);
            && coinSide == AmountOf(coins, denom)
            && shareSide == if denom == share.denom then share.amount - Loss(share.amount, |coins|) else 0
  {
    var rows := PoolRows(coins, share, address, joining);
    var n := |coins|;
    CoinsSide(coins, share, address, joining, n, denom);
    EqualParts(coins, share, address, joining, n - 1, denom);
    SharesAddUp(share.amount, n);
    assert rows[..n] == rows && coins[..n] == coins;
    assert |rows| == n;
  }

  // ----------------------------------------------------------------------- joining a pool

  datatype Join = Join(tokensIn: seq<Coin>, tokenOut: Coin, address: string, claim: Option<Coin>)

  function JoinRows(join: Join): seq<Row>
    requires 0 < |join.tokensIn| <= join.tokenOut.amount
  {
    PoolRows(join.tokensIn, join.tokenOut, join.address, true)
    + if join.claim.Some? then [Row(None, join.claim, "", join.address)] else []
  }

  /** A row for each coin, which is sent, with its part of the shares, and one without sender for a claim. */
  method ParseJoin(join: Join) returns (data: Option<seq<Row>>)
    ensures data.None? <==> |join.tokensIn| == 0 || join.tokenOut.amount < |join.tokensIn|
    ensures data.Some? ==> data.value == JoinRows(join)
    ensures data.Some? ==> |data.value| == |join.tokensIn| + if join.claim.Some? then 1 else 0
    ensures data.Some? ==> forall i | 0 <= i < |join.tokensIn| ::
              var share := Coin(join.tokenOut.denom, ShareAt(join.tokenOut.amount, |join.tokensIn|, i));
              data.value[i] == Row(Some(join.tokensIn[i]), Some(share), join.address, join.address)
    ensures data.Some? && join.claim.Some? ==> data.value[|join.tokensIn|] == Row(None, join.claim, "", join.address)
  {
    var n := |join.tokensIn|;
    var rows := seq(n, _ => Row(None, None, "", ""));
    var split := CalcNthGams(join.tokenOut.amount, n);
    if split.None? {
      return None;
    }
    for i := 0 to n
      invariant |rows| == n
      invariant rows[..i] == PoolRows(join.tokensIn, join.tokenOut, join.address, true)[..i]
    {
      var v := join.tokensIn[i];
      if i != n - 1 {
        rows := rows[i := Row(Some(v), Some(Coin(join.tokenOut.denom, split.value.nth)), join.address, join.address)];
      } else {
        rows := rows[i := Row(Some(v), Some(Coin(join.tokenOut.denom, split.value.last)), join.address, join.address)];
      }
    }
    assert rows == rows[..n];
    if join.claim.Some? {
      rows := rows + [Row(None, join.claim, "", join.address)];
    }
    return Some(rows);
  }

  /** A join's rows send exactly the coins put in, and receive the shares but for the loss, and any claim. */
  lemma JoinConserves(join: Join, denom: string)
    requires 0 < |join.tokensIn| <= join.tokenOut.amount
    ensures SentOf(JoinRows(join), denom) == AmountOf(join.tokensIn, denom)
    ensures ReceivedOf(JoinRows(join), denom)
         == (if denom == join.tokenOut.denom then join.tokenOut.amount - Loss(join.tokenOut.amount, |join.tokensIn|) else 0)
            + AmountIn(join.claim, denom)
  {
    PoolRowsConserve(join.tokensIn, join.tokenOut, join.address, true, denom);
    if join.claim.Some? {
      var row := Row(None, join.claim, "", join.address);
      SentOfConcat(PoolRows(join.tokensIn, join.tokenOut, join.address, true), [row], denom);
      assert [row][..0] == [];
    } else {
      assert JoinRows(join) == PoolRows(join.tokensIn, join.tokenOut, join.address, true);
    }
  }

  // ----------------------------------------------------------------------- leaving a pool

  datatype Swap = Swap(tokenIn: Coin, tokenOut: Coin)
  datatype Exit = Exit(tokenIn: Coin, tokensOut: seq<Coin>, address: string, swaps: seq<Swap>)

  function SwapRows(swaps: seq<Swap>, address: string): seq<Row> {
    seq(|swaps|, i requires 0 <= i < |swaps| => Row(Some(swaps[i].tokenIn), Some(swaps[i].tokenOut), address, address))
  }

  function ExitRows(exit: Exit): seq<Row>
    requires 0 < |exit.tokensOut| <= exit.tokenIn.amount
  {
    PoolRows(exit.tokensOut, exit.tokenIn, exit.address, false) + SwapRows(exit.swaps, exit.address)
  }

  /** A plain exit has no swaps; an exit through swapped tokens lists them after the pool rows. */
  method ParseExit(exit: Exit) returns (data: Option<seq<Row>>)
    ensures data.None? <==> |exit.tokensOut| == 0 || exit.tokenIn.amount < |exit.tokensOut|
    ensures data.Some? ==> data.value == ExitRows(exit)
    ensures data.Some? ==> |data.value| == |exit.tokensOut| + |exit.swaps|
    ensures data.Some? ==> forall i | 0 <= i < |exit.tokensOut| ::
              var share := Coin(exit.tokenIn.denom, ShareAt(exit.tokenIn.amount, |exit.tokensOut|, i));
              data.value[i] == Row(Some(share), Some(exit.tokensOut[i]), exit.address, exit.address)
    ensures data.Some? ==> forall j | 0 <= j < |exit.swaps| ::
              data.value[|exit.tokensOut| + j]
              == Row(Some(exit.swaps[j].tokenIn), Some(exit.swaps[j].tokenOut), exit.address, exit.address)
  {
    var n := |exit.tokensOut|;
    var rows := seq(n, _ => Row(None, None, "", ""));
    var split := CalcNthGams(exit.tokenIn.amount, n);
    if split.None? {
      return None;
    }
    for i := 0 to n
      invariant |rows| == n
      invariant rows[..i] == PoolRows(exit.tokensOut, exit.tokenIn, exit.address, false)[..i]
    {
      var v := exit.tokensOut[i];
      if i != n - 1 {
        rows := rows[i := Row(Some(Coin(exit.tokenIn.denom, split.value.nth)), Some(v), exit.address, exit.address)];
      } else {
        rows := rows[i := Row(Some(Coin(exit.tokenIn.denom, split.value.last)), Some(v), exit.address, exit.address)];
      }
    }
    assert rows == rows[..n];
    ghost var pool := rows;
    for j := 0 to |exit.swaps|
      invariant rows == pool + SwapRows(exit.swaps, exit.address)[..j]
    {
      rows := rows + [Row(Some(exit.swaps[j].tokenIn), Some(exit.swaps[j].tokenOut), exit.address, exit.address)];
    }
    return Some(rows);
  }

  function SwappedIn(swaps: seq<Swap>): seq<Coin> {
    seq(|swaps|, i requires 0 <= i < |swaps| => swaps[i].tokenIn)
  }

  function SwappedOut(swaps: seq<Swap>): seq<Coin> {
    seq(|swaps|, i requires 0 <= i < |swaps| => swaps[i].tokenOut)
  }

  lemma {:induction false} SwapRowsConserve(swaps: seq<Swap>, address: string, denom: string)
    ensures SentOf(SwapRows(swaps, address), denom) == AmountOf(SwappedIn(swaps), denom)
    ensures ReceivedOf(SwapRows(swaps, address), denom) == AmountOf(SwappedOut(swaps), denom)
  {
    if swaps != [] {
      var init := swaps[..|swaps| - 1];
      SwapRowsConserve(init, address, denom);
      assert SwapRows(swaps, address)[..|swaps| - 1] == SwapRows(init, address);
      assert SwappedIn(swaps)[..|swaps| - 1] == SwappedIn(init);
      assert SwappedOut(swaps)[..|swaps| - 1] == SwappedOut(init);
    }
  }

  /** An exit's rows receive exactly the coins taken out and swapped for, and send the shares but for the loss. */
  lemma ExitConserves(exit: Exit, denom: string)
    requires 0 < |exit.tokensOut| <= exit.tokenIn.amount
    ensures ReceivedOf(ExitRows(exit), denom)
         == AmountOf(exit.tokensOut, denom) + AmountOf(SwappedOut(exit.swaps), denom)
    ensures SentOf(ExitRows(exit), denom)
         == (if denom == exit.tokenIn.denom then exit.tokenIn.amount - Loss(exit.tokenIn.amount, |exit.tokensOut|) else 0)
            + AmountOf(SwappedIn(exit.swaps), denom)
  {
    PoolRowsConserve(exit.tokensOut, exit.tokenIn, exit.address, false, denom);
    SwapRowsConserve(exit.swaps, exit.address, denom);
    SentOfConcat(PoolRows(exit.tokensOut, exit.tokenIn, exit.address, false), SwapRows(exit.swaps, exit.address), denom);
  }

  // ---------------------------------------------------------------------- creating a pool

  datatype Gift = Gift(sender: string, coin: Coin)
  datatype Creation = Creation(coinsSpent: seq<Coin>, shares: Coin, others: seq<Gift>, creator: string)

  function GiftRows(others: seq<Gift>, creator: string): seq<Row> {
    seq(|others|, i requires 0 <= i < |others| =>
      Row(Some(others[i].coin), Some(others[i].coin), others[i].sender, creator))
  }

  function CreationRows(creation: Creation): seq<Row>
    requires 0 < |creation.coinsSpent| <= creation.shares.amount
  {
    PoolRows(creation.coinsSpent, creation.shares, creation.creator, true) + GiftRows(creation.others, creation.creator)
  }

  /** A row for each coin spent, with its part of the shares, and one for each coin that another gave. */
  method ParseCreation(creation: Creation) returns (data: Option<seq<Row>>)
    ensures data.None? <==> |creation.coinsSpent| == 0 || creation.shares.amount < |creation.coinsSpent|
    ensures data.Some? ==> data.value == CreationRows(creation)
    ensures data.Some? ==> |data.value| == |creation.coinsSpent| + |creation.others|
    ensures data.Some? ==> forall i | 0 <= i < |creation.coinsSpent| ::
              var share := Coin(creation.shares.denom, ShareAt(creation.shares.amount, |creation.coinsSpent|, i));
              data.value[i] == Row(Some(creation.coinsSpent[i]), Some(share), creation.creator, creation.creator)
    ensures data.Some? ==> forall j | 0 <= j < |creation.others| ::
              var gift := creation.others[j];
              data.value[|creation.coinsSpent| + j] == Row(Some(gift.coin), Some(gift.coin), gift.sender, creation.creator)
  {
    var n := |creation.coinsSpent|;
    var rows := seq(n + |creation.others|, _ => Row(None, None, "", ""));
    var split := CalcNthGams(creation.shares.amount, n);
    if split.None? {
      return None;
    }
    ghost var target := CreationRows(creation);
    for k := 0 to n
      invariant |rows| == |target| && rows[..k] == target[..k]
    {
      var v := creation.coinsSpent[k];
      var part := if k != n - 1 then split.value.nth else split.value.last;
      rows := rows[k := Row(Some(v), Some(Coin(creation.shares.denom, part)), creation.creator, creation.creator)];
    }
    var i := n;
    for j := 0 to |creation.others|
      invariant i == n + j
      invariant |rows| == |target| && rows[..i] == target[..i]
    {
      var c := creation.others[j];
      rows := rows[i := Row(Some(c.coin), Some(c.coin), c.sender, creation.creator)];
      i := i + 1;
    }
    return Some(rows);
  }

  function GiftCoins(others: seq<Gift>): seq<Coin> {
    seq(|others|, i requires 0 <= i < |others| => others[i].coin)
  }

  lemma {:induction false} GiftRowsConserve(others: seq<Gift>, creator: string, denom: string)
    ensures SentOf(GiftRows(others, creator), denom) == AmountOf(GiftCoins(others), denom)
    ensures ReceivedOf(GiftRows(others, creator), denom) == AmountOf(GiftCoins(others), denom)
  {
    if others != [] {
      var init := others[..|others| - 1];
      GiftRowsConserve(init, creator, denom);
      assert GiftRows(others, creator)[..|others| - 1] == GiftRows(init, creator);
      assert GiftCoins(others)[..|others| - 1] == GiftCoins(init);
    }
  }

  /** A creation's rows send the coins spent and the gifts, and receive the gifts and the shares but for the loss. */
  lemma CreationConserves(creation: Creation, denom: string)
    requires 0 < |creation.coinsSpent| <= creation.shares.amount
    ensures SentOf(CreationRows(creation), denom)
         == AmountOf(creation.coinsSpent, denom) + AmountOf(GiftCoins(creation.others), denom)
    ensures ReceivedOf(CreationRows(creation), denom)
         == (if denom == creation.shares.denom
             then creation.shares.amount - Loss(creation.shares.amount, |creation.coinsSpent|) else 0)
            + AmountOf(GiftCoins(creation.others), denom)
  {
    PoolRowsConserve(creation.coinsSpent, creation.shares, creation.creator, true, denom);
    GiftRowsConserve(creation.others, creation.creator, denom);
    SentOfConcat(PoolRows(creation.coinsSpent, creation.shares, creation.creator, true),
                 GiftRows(creation.others, creation.creator), denom);
  }
}
