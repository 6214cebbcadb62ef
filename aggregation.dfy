/** Balance arithmetic of utils.py: reading a query row into a dict,
    the affordability test, and merging two packages.

    A row is one line of the node's UTXO listing split on whitespace, with
    double quotes already removed: transaction hash, output index, then
    (quantity, unit) pairs, optionally followed by a datum marker. */
module Aggregation {
  import opened Outcomes
  import opened Text
  import opened Balances

  type Row = seq<string>

  /** The cell that opens the datum part of a row (utils.py:916). */
  const DatumHashSentinel := "TxOutDatumHash"

  /** The least change a transaction may leave besides paying the package. */
  const MinChange := 1000000

  /** The quantity cell of the pair at position k. */
  function QuantityCell(row: Row, k: nat): string
    requires 3 * k + 3 < |row|
  {
    row[3 * k + 2]
  }

  /** The unit cell of the pair at position k. */
  function UnitCell(row: Row, k: nat): string
    requires 3 * k + 3 < |row|
  {
    row[3 * k + 3]
  }

  /** The records add_utxo_to_dict adds, from pair k onwards. The pairs run
      while 3k + 3 < |row| (`range(0, len(utxo) - 3, 3)`), stop at the datum
      marker, and a quantity int() cannot read raises. */
  function AmountsFrom(row: Row, k: nat): Result<seq<Entry>>
    decreases |row| - 3 * k
  {
    if 3 * k + 3 >= |row| || QuantityCell(row, k) == DatumHashSentinel then Ok([])
    else match ParseInt(QuantityCell(row, k))
      case None => Err(Raised)
      case Some(q) =>
        match AmountsFrom(row, k + 1)
        case Err(e) => Err(e)
        case Ok(rest) => Ok([Entry(UnitCell(row, k), q)] + rest)
  }

  /** The records a whole row contributes. */
  function RowAmounts(row: Row): Result<seq<Entry>>
  {
    AmountsFrom(row, 0)
  }

  /** Records already added, in front of an outcome still to come. */
  function Prepend(done: seq<Entry>, rest: Result<seq<Entry>>): Result<seq<Entry>>
  {
    match rest
    case Err(e) => Err(e)
    case Ok(es) => Ok(done + es)
  }

  /** Record e is what pair k of the row reads as: a pair inside the row,
      before the marker, its quantity parsed and its unit copied. */
  predicate PairRead(row: Row, k: nat, e: Entry)
  {
    && 3 * k + 3 < |row|
    && QuantityCell(row, k) != DatumHashSentinel
    && ParseInt(QuantityCell(row, k)) == Some(e.quantity)
    && e.unit == UnitCell(row, k)
  }

  /** Every record read is one whole pair before the marker, quantity parsed
      and unit copied, and the reading stops exactly at the end of the row or
      at the marker. */
  lemma {:induction false} AmountsFromShape(row: Row, m: nat)
    requires AmountsFrom(row, m).Ok?
    ensures var es := AmountsFrom(row, m).value;
      3 * (m + |es|) + 3 >= |row| || QuantityCell(row, m + |es|) == DatumHashSentinel
    ensures forall k :: 0 <= k < |AmountsFrom(row, m).value| ==> PairRead(row, m + k, AmountsFrom(row, m).value[k])
    decreases |row| - 3 * m
  {
    if 3 * m + 3 < |row| && QuantityCell(row, m) != DatumHashSentinel {
      AmountsFromShape(row, m + 1);
      var es := AmountsFrom(row, m).value;
      var rest := AmountsFrom(row, m + 1).value;
      assert es == [Entry(UnitCell(row, m), ParseInt(QuantityCell(row, m)).value)] + rest;
      forall k | 0 <= k < |es|
        ensures PairRead(row, m + k, es[k])
      {
        if k > 0 {
          assert es[k] == rest[k - 1] && m + k == (m + 1) + (k - 1);
        }
      }
    }
  }

  /** A row is refused only for a pair before the marker whose quantity
      int() cannot read, and then with an exception. */
  lemma {:induction false} AmountsFromError(row: Row, m: nat)
    requires AmountsFrom(row, m).Err?
    ensures AmountsFrom(row, m).error == Raised
    ensures exists k: nat ::
      && m <= k && 3 * k + 3 < |row|
      && QuantityCell(row, k) != DatumHashSentinel
      && ParseInt(QuantityCell(row, k)).None?
      && forall j :: m <= j < k ==> QuantityCell(row, j) != DatumHashSentinel
    decreases |row| - 3 * m
  {
    if ParseInt(QuantityCell(row, m)).None? {
      assert m <= m && 3 * m + 3 < |row|;
    } else {
      AmountsFromError(row, m + 1);
      var k: nat :| m + 1 <= k && 3 * k + 3 < |row|
        && QuantityCell(row, k) != DatumHashSentinel
        && ParseInt(QuantityCell(row, k)).None?
        && forall j :: m + 1 <= j < k ==> QuantityCell(row, j) != DatumHashSentinel;
      assert m <= k;
    }
  }

  /** `add_utxo_to_dict(_dict, utxo)`: adds every (quantity, unit) pair of the
      row before the datum marker to the dict. */
  method AddUtxoToDict(d: Balance, row: Row) returns (r: Result<Balance>)
    requires Valid(d)
    ensures RowAmounts(row).Err? ==> r == Err(Raised)
    ensures RowAmounts(row).Ok? ==> r == Ok(AddAll(d, RowAmounts(row).value))
  {
    var cur := d;
    ghost var done: seq<Entry> := [];
    var k := 0;
    PrependNothing(RowAmounts(row));
    while 3 * k + 3 < |row|
      invariant Valid(cur) && cur == AddAll(d, done)
      invariant RowAmounts(row) == Prepend(done, AmountsFrom(row, k))
      decreases |row| - 3 * k
    {
      var unit := row[3 * k + 3];
      var quantity := row[3 * k + 2];
      if quantity == DatumHashSentinel {
        break;
      }
      var q := ParseInt(quantity);
      if q.None? {
        PairRaises(row, k, done);
        return Err(Raised);
      }
      PairTaken(d, row, k, done);
      cur := Add(cur, unit, q.value);
      done := done + [Entry(unit, q.value)];
      k := k + 1;
    }
    PairsEnd(row, k, done);
    return Ok(cur);
  }

  lemma PrependNothing(rest: Result<seq<Entry>>)
    ensures Prepend([], rest) == rest
  {
    if rest.Ok? {
      assert [] + rest.value == rest.value;
    }
  }

  lemma PrependStep(done: seq<Entry>, e: Entry, rest: Result<seq<Entry>>)
    ensures Prepend(done, Prepend([e], rest)) == Prepend(done + [e], rest)
  {
    if rest.Ok? {
      assert done + ([e] + rest.value) == (done + [e]) + rest.value;
    }
  }

  /** One pair read: its record goes in front of what the rest of the row gives. */
  lemma AmountsFromStep(row: Row, k: nat)
    requires 3 * k + 3 < |row| && QuantityCell(row, k) != DatumHashSentinel
    requires ParseInt(QuantityCell(row, k)).Some?
    ensures AmountsFrom(row, k) ==
      Prepend([Entry(UnitCell(row, k), ParseInt(QuantityCell(row, k)).value)], AmountsFrom(row, k + 1))
  {
  }

  /** The summing loop reads pair k: the row's outcome is its record
      appended to those already added, in front of the rest. */
  lemma PairTaken(d: Balance, row: Row, k: nat, done: seq<Entry>)
    requires Valid(d) && 3 * k + 3 < |row| && QuantityCell(row, k) != DatumHashSentinel
    requires ParseInt(QuantityCell(row, k)).Some?
    requires RowAmounts(row) == Prepend(done, AmountsFrom(row, k))
    ensures var e := Entry(UnitCell(row, k), ParseInt(QuantityCell(row, k)).value);
      && RowAmounts(row) == Prepend(done + [e], AmountsFrom(row, k + 1))
      && AddAll(d, done + [e]) == Add(AddAll(d, done), e.unit, e.quantity)
  {
    var e := Entry(UnitCell(row, k), ParseInt(QuantityCell(row, k)).value);
    AmountsFromStep(row, k);
    PrependStep(done, e, AmountsFrom(row, k + 1));
    AddAllSnoc(d, done, e);
  }

  /** The summing loop meets a quantity int() cannot read: the row raises. */
  lemma PairRaises(row: Row, k: nat, done: seq<Entry>)
    requires 3 * k + 3 < |row| && QuantityCell(row, k) != DatumHashSentinel
    requires ParseInt(QuantityCell(row, k)).None?
    requires RowAmounts(row) == Prepend(done, AmountsFrom(row, k))
    ensures RowAmounts(row).Err?
  {
    assert AmountsFrom(row, k).Err?;
  }

  /** The summing loop ends at the row's end or the marker: the row's
      records are those already added. */
  lemma PairsEnd(row: Row, k: nat, done: seq<Entry>)
    requires 3 * k + 3 >= |row| || QuantityCell(row, k) == DatumHashSentinel
    requires RowAmounts(row) == Prepend(done, AmountsFrom(row, k))
    ensures RowAmounts(row) == Ok(done)
  {
    assert AmountsFrom(row, k) == Ok([]);
    assert done + [] == done;
  }

  /** The lovelace of both dicts is known. */
  predicate LovelaceKnown(sender: Balance, package: Balance)
  {
    Lovelace in sender.qty && Lovelace in package.qty
  }

  /** The lovelace left over would be positive but under one ada. */
  predicate ThinChange(sender: Balance, package: Balance)
    requires LovelaceKnown(sender, package)
  {
    0 < sender.qty[Lovelace] - package.qty[Lovelace] < MinChange
  }

  /** The sender holds at least the package's quantity of unit u. */
  predicate CoversUnit(sender: Balance, package: Balance, u: string)
    requires u in package.qty
  {
    u in sender.qty && package.qty[u] <= sender.qty[u]
  }

  /** The sender holds every unit of the package, in at least its quantity. */
  predicate Covers(sender: Balance, package: Balance)
  {
    forall u :: u in package.qty ==> CoversUnit(sender, package, u)
  }

  /** The loop of check_enough_fund from the package's key at position i:
      a missing or larger key answers False, then the lovelace of both is
      read (a KeyError when either lacks it) and a positive difference under
      one ada answers False. */
  function EnoughFundFrom(sender: Balance, package: Balance, i: nat): Result<bool>
    requires Valid(package) && i <= |package.units|
    decreases |package.units| - i
  {
    if i == |package.units| then Ok(true)
    else
      var key := package.units[i];
      if !CoversUnit(sender, package, key) then Ok(false)
      else if !LovelaceKnown(sender, package) then Err(Raised)
      else if ThinChange(sender, package) then Ok(false)
      else EnoughFundFrom(sender, package, i + 1)
  }

  /** `check_enough_fund(sender_balance, package_balance)`. */
  function CheckEnoughFund(sender: Balance, package: Balance): Result<bool>
    requires Valid(package)
  {
    EnoughFundFrom(sender, package, 0)
  }

  lemma {:induction false} EnoughFundTail(sender: Balance, package: Balance, i: nat)
    requires Valid(package) && i <= |package.units| && LovelaceKnown(sender, package)
    ensures EnoughFundFrom(sender, package, i).Ok?
    ensures EnoughFundFrom(sender, package, i) == Ok(true) <==>
      i == |package.units| ||
      (!ThinChange(sender, package) &&
       forall j :: i <= j < |package.units| ==> CoversUnit(sender, package, package.units[j]))
    decreases |package.units| - i
  {
    if i < |package.units| {
      EnoughFundTail(sender, package, i + 1);
    }
  }

  /** check_enough_fund answers True exactly when the package is empty, or
      the sender covers every unit of it and the lovelace left over is zero,
      negative or at least one ada; it raises exactly when the first key is
      covered and either side has no lovelace. */
  lemma CheckEnoughFundSpec(sender: Balance, package: Balance)
    requires Valid(package)
    ensures CheckEnoughFund(sender, package) == Ok(true) <==>
      |package.units| == 0 ||
      (LovelaceKnown(sender, package) && Covers(sender, package) && !ThinChange(sender, package))
    ensures CheckEnoughFund(sender, package).Err? <==>
      |package.units| > 0 && CoversUnit(sender, package, package.units[0]) &&
      !LovelaceKnown(sender, package)
    ensures CheckEnoughFund(sender, package).Err? ==> CheckEnoughFund(sender, package).error == Raised
  {
    if |package.units| > 0 && LovelaceKnown(sender, package) {
      EnoughFundTail(sender, package, 0);
      if forall j :: 0 <= j < |package.units| ==> CoversUnit(sender, package, package.units[j]) {
        forall u | u in package.qty
          ensures CoversUnit(sender, package, u)
        {
          var j :| 0 <= j < |package.units| && package.units[j] == u;
        }
      }
    }
  }

  /** The keys of `units` that the dict does not have yet, in order. */
  function Missing(units: seq<string>, b: Balance): (r: seq<string>)
  {
    if units == [] then []
    else Missing(units[..|units| - 1], b) + (if units[|units| - 1] in b.qty then [] else [units[|units| - 1]])
  }

  lemma FreshKey(p1: Balance, i: nat)
    requires Valid(p1) && i < |p1.units|
    ensures p1.units[i] !in p1.units[..i]
    ensures forall u :: u in p1.units[..i + 1] <==> u in p1.units[..i] || u == p1.units[i]
  {
    assert p1.units[..i + 1] == p1.units[..i] + [p1.units[i]];
  }

  lemma MissingStep(units: seq<string>, i: nat, b: Balance)
    requires i < |units|
    ensures Missing(units[..i + 1], b) == Missing(units[..i], b) + (if units[i] in b.qty then [] else [units[i]])
  {
    assert units[..i + 1][..i] == units[..i];
  }

  /** One key of package_1 merged: the keys of the partial sum gain it. */
  lemma CombineStepKeys(p1: Balance, p2: Balance, b: Balance, i: nat)
    requires Valid(p1) && Valid(b) && i < |p1.units|
    requires forall u :: u in b.qty <==> u in p2.qty || u in p1.units[..i]
    ensures forall u :: u in Add(b, p1.units[i], p1.qty[p1.units[i]]).qty <==> u in p2.qty || u in p1.units[..i + 1]
  {
    FreshKey(p1, i);
  }

  /** One key of package_1 merged: its quantity is added, the rest stay. */
  lemma CombineStepGet(p1: Balance, p2: Balance, b: Balance, i: nat, u: string)
    requires Valid(p1) && Valid(b) && i < |p1.units|
    requires Get(b, u) == Get(p2, u) + (if u in p1.units[..i] then p1.qty[u] else 0)
    ensures Get(Add(b, p1.units[i], p1.qty[p1.units[i]]), u) ==
            Get(p2, u) + (if u in p1.units[..i + 1] then p1.qty[u] else 0)
  {
    FreshKey(p1, i);
  }

  /** One key of package_1 merged: it is appended exactly when package_2
      lacks it. */
  lemma CombineStepOrder(p1: Balance, p2: Balance, b: Balance, i: nat)
    requires Valid(p1) && Valid(b) && i < |p1.units|
    requires p1.units[i] in b.qty <==> p1.units[i] in p2.qty
    requires b.units == p2.units + Missing(p1.units[..i], p2)
    ensures Add(b, p1.units[i], p1.qty[p1.units[i]]).units == p2.units + Missing(p1.units[..i + 1], p2)
  {
    MissingStep(p1.units, i, p2);
  }

  /** `combine_dict_package(package_1, package_2)`: every unit gets the sum
      of its two quantities; package_2's keys keep their order and the keys
      only package_1 has follow in package_1's order. */
  method CombinePackages(p1: Balance, p2: Balance) returns (r: Balance)
    requires Valid(p1) && Valid(p2)
    ensures Valid(r)
    ensures forall u :: u in r.qty <==> u in p1.qty || u in p2.qty
    ensures forall u :: Get(r, u) == Get(p1, u) + Get(p2, u)
    ensures r.units == p2.units + Missing(p1.units, p2)
  {
    var b := p2;
    var i := 0;
    assert p1.units[..0] == [];
    while i < |p1.units|
      invariant 0 <= i <= |p1.units|
      invariant Valid(b)
      invariant forall u :: u in b.qty <==> u in p2.qty || u in p1.units[..i]
      invariant forall u :: Get(b, u) == Get(p2, u) + (if u in p1.units[..i] then p1.qty[u] else 0)
      invariant b.units == p2.units + Missing(p1.units[..i], p2)
    {
      var key := p1.units[i];
      FreshKey(p1, i);
      assert key in b.qty <==> key in p2.qty;
      CombineStepKeys(p1, p2, b, i);
      CombineStepOrder(p1, p2, b, i);
      forall u
        ensures Get(Add(b, key, p1.qty[key]), u) == Get(p2, u) + (if u in p1.units[..i + 1] then p1.qty[u] else 0)
      {
        CombineStepGet(p1, p2, b, i, u);
      }
      b := Add(b, key, p1.qty[key]);
      i := i + 1;
    }
    assert p1.units[..i] == p1.units;
    r := b;
  }
}
