/**
  The koinly export's names for currencies that koinly does not know: each gets a
  name NULL1, NULL2 and so on when it is first met, and keeps it.
 */
module Koinly {
  import opened Decimal

  datatype Row = Row(received: string, sent: string)

  function UnsupportedCoins(): seq<string> {
    ["gamm"]
  }

  predicate OccursAt(s: string, part: string, i: int) {
    0 <= i <= |s| - |part| && s[i..i + |part|] == part
  }

  predicate Contains(s: string, part: string) {
    exists i | 0 <= i <= |s| - |part| :: OccursAt(s, part, i)
  }

  predicate Unsupported(currency: string) {
    exists part | part in UnsupportedCoins() :: Contains(currency, part)
  }

  function NullName(i: nat): string {
    "NULL" + Text(i)
  }

  lemma NullNamesDiffer(i: nat, j: nat)
    requires NullName(i) == NullName(j)
    ensures i == j
  {
    SplitEqual("NULL", Text(i), "NULL", Text(j));
    DigitsInjective(i, j);
  }

  lemma FirstLetter(s: string, part: string, i: int)
    requires OccursAt(s, part, i) && part != ""
    ensures s[i] == part[0]
  {
    assert s[i..i + |part|][0] == s[i];
  }

  lemma NoSmallLetter(i: nat, k: int)
    ensures 0 <= k < |NullName(i)| ==> NullName(i)[k] != 'g'
  {
    if 4 <= k < |NullName(i)| {
      assert IsDigit(Digits(i)[k - 4]);
      assert NullName(i)[k] == Digits(i)[k - 4];
    }
  }

  /** A replacement name is itself never replaced. */
  lemma NullNamesSupported(i: nat)
    ensures !Unsupported(NullName(i))
  {
    if Unsupported(NullName(i)) {
      var k :| OccursAt(NullName(i), "gamm", k);
      NoSmallLetter(i, k);
      FirstLetter(NullName(i), "gamm", k);
    }
  }

  /** The name in use for a currency. */
  function Replaced(replacements: map<string, string>, currency: string): string {
    if currency in replacements then replacements[currency] else currency
  }

  /** Entry i of the list, counted from 1, has the i-th name. */
  predicate NamedInOrder(replacements: map<string, string>, names: seq<string>) {
    forall i | 0 <= i < |names| :: names[i] in replacements && replacements[names[i]] == NullName(i + 1)
  }

  predicate OnlyListed(replacements: map<string, string>, names: seq<string>) {
    forall c | c in replacements :: c in names && Unsupported(c)
  }

  /** The i-th currency of the list, from 1, has the i-th name; no other currency has one. */
  predicate Named(replacements: map<string, string>, names: seq<string>) {
    |replacements| == |names| && NamedInOrder(replacements, names) && OnlyListed(replacements, names)
  }

  /** A new currency takes the next name. */
  function Assigned(names: seq<string>, currency: string): seq<string> {
    if currency in names || !Unsupported(currency) then names else names + [currency]
  }

  function AllAssigned(names: seq<string>, rows: seq<Row>): seq<string> {
    if rows == [] then names
    else
      var last := rows[|rows| - 1];
      Assigned(Assigned(AllAssigned(names, rows[..|rows| - 1]), last.received), last.sent)
  }

  lemma OnePart(currency: string, part: string)
    requires UnsupportedCoins() == [part]
    ensures Unsupported(currency) <==> Contains(currency, part)
  {
    assert part in UnsupportedCoins();
  }

  lemma AppendedAt(names: seq<string>, currency: string)
    ensures |names + [currency]| == |names| + 1 && (names + [currency])[|names|] == currency
    ensures forall i | 0 <= i < |names| :: (names + [currency])[i] == names[i]
    ensures forall c :: c in names + [currency] <==> c in names || c == currency
  {
  }

  lemma OneMoreInOrder(replacements: map<string, string>, names: seq<string>, currency: string, name: string)
    requires NamedInOrder(replacements, names) && currency !in replacements && name == NullName(|names| + 1)
    ensures NamedInOrder(replacements[currency := name], names + [currency])
  {
    AppendedAt(names, currency);
    var more, replacements2 := names + [currency], replacements[currency := name];
    forall i | 0 <= i < |more| ensures more[i] in replacements2 && replacements2[more[i]] == NullName(i + 1) {
      if i < |names| {
        assert names[i] in replacements;
      }
    }
  }

  lemma OneMoreListed(replacements: map<string, string>, names: seq<string>, currency: string, name: string)
    requires OnlyListed(replacements, names) && Unsupported(currency)
    ensures OnlyListed(replacements[currency := name], names + [currency])
  {
    AppendedAt(names, currency);
  }

  lemma OneMoreName(replacements: map<string, string>, names: seq<string>, currency: string)
    requires Named(replacements, names) && currency !in replacements && Unsupported(currency)
    ensures Named(replacements[currency := NullName(|replacements| + 1)], names + [currency])
    ensures currency !in names
  {
    var name := NullName(|replacements| + 1);
    assert replacements[currency := name].Keys == replacements.Keys + {currency};
    OneMoreInOrder(replacements, names, currency, name);
    OneMoreListed(replacements, names, currency, name);
  }

  class CoinReplacements {
    var replacements: map<string, string>
    ghost var names: seq<string>

    ghost predicate Valid()
      reads this
    {
      Named(replacements, names)
    }

    constructor ()
      ensures Valid() && replacements == map[] && names == []
    {
      replacements := map[];
      names := [];
    }

    method Assign(currency: string, part: string)
      requires Valid() && UnsupportedCoins() == [part]
      modifies this
      ensures Valid() && names == Assigned(old(names), currency)
    {
      var contains := Search(currency, part);
      OnePart(currency, part);
      if contains && currency !in replacements {
        OneMoreName(replacements, names, currency);
        replacements := replacements[currency := NullName(|replacements| + 1)];
        names := names + [currency];
      }
    }

    /** Every unsupported currency of the rows gets a name, in order of first appearance; names in use stay. */
    method MapUnsupportedCoins(rows: seq<Row>)
      requires Valid()
      modifies this
      ensures Valid() && names == AllAssigned(old(names), rows)
    {
      for n := 0 to |rows|
        invariant Valid() && names == AllAssigned(old(names), rows[..n])
      {
        assert rows[..n + 1][..n] == rows[..n];
        var coins := UnsupportedCoins();
        ghost var before := names;
        for u := 0 to |coins|
          invariant Valid()
          invariant names == if u == 0 then before else Assigned(Assigned(before, rows[n].received), rows[n].sent)
        {
          Assign(rows[n].received, coins[u]);
          Assign(rows[n].sent, coins[u]);
        }
      }
      assert rows[..|rows|] == rows;
    }

    /** The rows with replaced currencies. */
    method Replace(rows: seq<Row>) returns (out: seq<Row>)
      ensures |out| == |rows|
      ensures forall i | 0 <= i < |rows| ::
                out[i] == Row(Replaced(replacements, rows[i].received), Replaced(replacements, rows[i].sent))
    {
      out := rows;
      for i := 0 to |rows|
        invariant |out| == |rows|
        invariant forall k | 0 <= k < i ::
                    out[k] == Row(Replaced(replacements, rows[k].received), Replaced(replacements, rows[k].sent))
        invariant forall k | i <= k < |rows| :: out[k] == rows[k]
      {
        if out[i].received in replacements {
          out := out[i := out[i].(received := replacements[out[i].received])];
        }
        if out[i].sent in replacements {
          out := out[i := out[i].(sent := replacements[out[i].sent])];
        }
      }
    }
  }

  method Search(s: string, part: string) returns (found: bool)
    ensures found <==> Contains(s, part)
  {
    var i := 0;
    while i + |part| <= |s|
      invariant forall k | 0 <= k < i :: !OccursAt(s, part, k)
    {
      if s[i..i + |part|] == part {
        assert OccursAt(s, part, i);
        return true;
      }
      i := i + 1;
    }
    return false;
  }

  // ------------------------------------------------------------------------ main results

  /** A currency is unsupported exactly when its name has gamm in it, anywhere. */
  lemma UnsupportedIff(currency: string)
    ensures Unsupported(currency) <==> exists before, after :: currency == before + "gamm" + after
  {
    OnePart(currency, "gamm");
    if i :| OccursAt(currency, "gamm", i) {
      assert currency == currency[..i] + "gamm" + currency[i + 4..];
    }
    if before, after :| currency == before + "gamm" + after {
      assert OccursAt(currency, "gamm", |before|);
    }
  }

  lemma NamesDiffer(replacements: map<string, string>, names: seq<string>, c: string, d: string)
    requires Named(replacements, names) && c in replacements && d in replacements && replacements[c] == replacements[d]
    ensures c == d
  {
    var i :| 0 <= i < |names| && names[i] == c;
    var j :| 0 <= j < |names| && names[j] == d;
    NullNamesDiffer(i + 1, j + 1);
  }

  lemma NumberOf(replacements: map<string, string>, names: seq<string>, c: string) returns (n: nat)
    requires Named(replacements, names) && c in replacements
    ensures 1 <= n <= |replacements| && replacements[c] == NullName(n)
  {
    var i :| 0 <= i < |names| && names[i] == c;
    n := i + 1;
  }

  /** At every moment the names in use are a bijection onto NULL1 up to NULLn. */
  lemma NamesAreABijection(replacements: map<string, string>, names: seq<string>)
    requires Named(replacements, names)
    ensures forall c, d | c in replacements && d in replacements :: replacements[c] == replacements[d] ==> c == d
    ensures forall c | c in replacements :: exists i: nat :: 1 <= i <= |replacements| && replacements[c] == NullName(i)
    ensures forall i | 1 <= i <= |replacements| :: exists c :: c in replacements && replacements[c] == NullName(i)
  {
    forall c, d | c in replacements && d in replacements && replacements[c] == replacements[d] ensures c == d {
      NamesDiffer(replacements, names, c, d);
    }
    forall c | c in replacements ensures exists i: nat :: 1 <= i <= |replacements| && replacements[c] == NullName(i) {
      var n := NumberOf(replacements, names, c);
    }
    forall i | 1 <= i <= |replacements| ensures exists c :: c in replacements && replacements[c] == NullName(i) {
      assert names[i - 1] in replacements;
    }
  }

  /** Further rows, and further calls, only append to the names in use: none is ever reassigned. */
  lemma {:induction false} NamesOnlyGrow(names: seq<string>, rows: seq<Row>)
    ensures names <= AllAssigned(names, rows)
  {
    if rows != [] {
      NamesOnlyGrow(names, rows[..|rows| - 1]);
    }
  }

  lemma NameIsKept(replacements: map<string, string>, names: seq<string>,
                   replacements2: map<string, string>, rows: seq<Row>, currency: string)
    requires Named(replacements, names) && Named(replacements2, AllAssigned(names, rows))
    requires currency in replacements
    ensures currency in replacements2 && replacements2[currency] == replacements[currency]
  {
    NamesOnlyGrow(names, rows);
    var i :| 0 <= i < |names| && names[i] == currency;
    assert AllAssigned(names, rows)[i] == currency;
  }

  /** After a call, the currencies with a name are those that had one and the unsupported ones of the rows. */
  lemma {:induction false} NamedAre(names: seq<string>, rows: seq<Row>, currency: string)
    ensures currency in AllAssigned(names, rows)
       <==> currency in names || (Unsupported(currency) && exists r :: r in rows && (r.received == currency || r.sent == currency))
  {
    if rows != [] {
      var n := |rows| - 1;
      NamedAre(names, rows[..n], currency);
      assert rows == rows[..n] + [rows[n]];
    }
  }

  /**
    Exactly when two currencies come out the same: they were the same, or one of
    them was unsupported and the other literally the name it was given.
   */
  lemma SameReplacedIff(replacements: map<string, string>, names: seq<string>, c: string, d: string)
    requires Named(replacements, names)
    ensures Replaced(replacements, c) == Replaced(replacements, d)
       <==> || c == d
            || (c in replacements && d == replacements[c])
            || (d in replacements && c == replacements[d])
  {
    if c in replacements && d in replacements && replacements[c] == replacements[d] {
      NamesDiffer(replacements, names, c, d);
    }
    NamesSupported(replacements, names, c);
    NamesSupported(replacements, names, d);
  }

  /** A pool share and a currency that is really called NULL1 come out the same from one row. */
  lemma NullNameIsTaken()
    ensures var share, rows := "gamm/pool/1", [Row("gamm/pool/1", "NULL1")];
            var replacements := map[share := NullName(1)];
            && Named(replacements, AllAssigned([], rows))
            && share != "NULL1" && Replaced(replacements, share) == Replaced(replacements, "NULL1")
  {
    var share, rows := "gamm/pool/1", [Row("gamm/pool/1", "NULL1")];
    assert OccursAt(share, "gamm", 0);
    OnePart(share, "gamm");
    NullNamesSupported(1);
    assert NullName(1) == "NULL1";
    assert rows[..0] == [];
    assert AllAssigned([], rows) == [share];
  }

  lemma NamesSupported(replacements: map<string, string>, names: seq<string>, c: string)
    requires Named(replacements, names)
    ensures c in replacements ==> replacements[c] !in replacements
  {
    if c in replacements {
      var n := NumberOf(replacements, names, c);
      NullNamesSupported(n);
    }
  }

  /** Replacing what was already replaced changes nothing, also after more currencies got names. */
  lemma ReplacingTwice(replacements: map<string, string>, names: seq<string>,
                       replacements2: map<string, string>, rows: seq<Row>, c: string)
    requires Named(replacements, names) && Named(replacements2, AllAssigned(names, rows))
    requires c in replacements
    ensures Replaced(replacements2, Replaced(replacements, c)) == Replaced(replacements2, c)
  {
    NameIsKept(replacements, names, replacements2, rows, c);
    NamesSupported(replacements2, AllAssigned(names, rows), c);
  }
}
