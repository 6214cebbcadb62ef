/** The transaction planner, get_transaction_body (transactions.py:543-740):
    send a package of amounts to several recipients from the UTXOs of a
    sender's addresses. The package is summed per destination and in total,
    each recipient output is topped up to its min-UTXO value, and UTXOs are
    taken in listing order until the change left after the package and the
    fee can form an output of its own.

    The node's min-UTXO calculation and fee calculation are the parameters
    `minUtxo` and `fee`; the sender's address list and the rows of its
    UTXO listing, in query order, are given. */
module Planner {
  import opened Outcomes
  import opened Text
  import opened Balances
  import opened Aggregation

  /** One entry of the request's package: an address and the amounts sent to it. */
  datatype Destination = Destination(address: string, amount: seq<Amount>)

  /** A transaction output: an address and its records in the order written. */
  datatype TxOut = TxOut(address: string, amount: seq<Entry>)

  /** A transaction input, `txhash#index`. */
  datatype TxIn = TxIn(txHash: string, index: string)

  /** The input a row names, `txhash#index`. */
  function TxInOf(row: Row): TxIn
    requires |row| >= 2
  {
    TxIn(row[0], row[1])
  }

  /** The response: inputs, outputs (the recipients, then the change), fee. */
  datatype Plan = Plan(inputs: seq<TxIn>, outputs: seq<TxOut>, fee: int)

  /** A destination after summing, its amount list replaced by the merged
      dict (`p['amount'] = each_package`). */
  datatype Parcel = Parcel(address: string, amount: Balance)

  /** The package after summing: the merged destinations, and the total. */
  datatype Summary = Summary(parcels: seq<Parcel>, total: Balance)

  /** What the selection aims at: the package total (its lovelace replaced
      by what the recipient outputs need), the change address and the
      recipient outputs. */
  datatype Goal = Goal(package: Balance, sender: string, recipients: seq<TxOut>)

  /** A closed plan: the change output and the fee. */
  datatype Closing = Closing(change: TxOut, fee: int)

  // ---------------------------------------------------------------------
  // Summing the package (transactions.py:569-581)

  /** The first n amounts of a list read as records; a quantity int()
      cannot read raises. */
  function ReadAmounts(amount: seq<Amount>, n: nat): Result<seq<Entry>>
    requires n <= |amount|
  {
    if n == 0 then Ok([])
    else match ReadAmounts(amount, n - 1)
      case Err(e) => Err(e)
      case Ok(init) =>
        match ParseInt(amount[n - 1].quantity)
        case None => Err(Raised)
        case Some(q) => Ok(init + [Entry(amount[n - 1].unit, q)])
  }

  /** A quantity that raises makes every longer run of amounts raise. */
  lemma {:induction false} ReadAmountsStayErr(amount: seq<Amount>, j: nat, n: nat)
    requires j <= n <= |amount| && ReadAmounts(amount, j).Err?
    ensures ReadAmounts(amount, n).Err?
    decreases n
  {
    if n > j {
      ReadAmountsStayErr(amount, j, n - 1);
    }
  }

  /** One more amount: it raises, or appends its record. */
  lemma ReadAmountsStep(amount: seq<Amount>, j: nat)
    requires j < |amount| && ReadAmounts(amount, j).Ok?
    ensures ParseInt(amount[j].quantity).None? ==> ReadAmounts(amount, j + 1) == Err(Raised)
    ensures ParseInt(amount[j].quantity).Some? ==>
      ReadAmounts(amount, j + 1) == Ok(ReadAmounts(amount, j).value + [Entry(amount[j].unit, ParseInt(amount[j].quantity).value)])
  {
  }

  /** Every quantity of the destination's amounts is a number. */
  predicate Readable(d: Destination)
  {
    ReadAmounts(d.amount, |d.amount|).Ok?
  }

  /** A destination's amounts as records. */
  function Entries(d: Destination): seq<Entry>
    requires Readable(d)
  {
    ReadAmounts(d.amount, |d.amount|).value
  }

  /** The first n destinations are readable. */
  predicate PackageRead(package: seq<Destination>, n: nat)
    requires n <= |package|
  {
    forall k :: 0 <= k < n ==> Readable(package[k])
  }

  /** `each_package`: a destination's amounts with duplicate units merged. */
  function Merged(d: Destination): (b: Balance)
    requires Readable(d)
    ensures Valid(b)
  {
    AddAll(Empty, Entries(d))
  }

  /** The records of the first n destinations, one after the other. */
  function AllEntries(package: seq<Destination>, n: nat): seq<Entry>
    requires n <= |package| && PackageRead(package, n)
  {
    if n == 0 then [] else AllEntries(package, n - 1) + Entries(package[n - 1])
  }

  /** `package_balance` as first summed. */
  function PackageTotal(package: seq<Destination>): (b: Balance)
    requires PackageRead(package, |package|)
    ensures Valid(b)
  {
    AddAll(Empty, AllEntries(package, |package|))
  }

  /** The first n destinations with their amounts merged. */
  function Parcels(package: seq<Destination>, n: nat): (r: seq<Parcel>)
    requires n <= |package| && PackageRead(package, n)
    ensures |r| == n
  {
    if n == 0 then [] else Parcels(package, n - 1) + [Parcel(package[n - 1].address, Merged(package[n - 1]))]
  }

  /** Every merged amount is a well-formed dict. */
  ghost predicate ParcelsValid(parcels: seq<Parcel>)
  {
    forall k :: 0 <= k < |parcels| ==> Valid(parcels[k].amount)
  }

  /** Parcel k is destination k's address and merged amount. */
  lemma {:induction false} ParcelsAt(package: seq<Destination>, n: nat, k: nat)
    requires k < n <= |package| && PackageRead(package, n)
    ensures Parcels(package, n)[k] == Parcel(package[k].address, Merged(package[k]))
  {
    if k < n - 1 {
      ParcelsAt(package, n - 1, k);
    }
  }

  lemma ParcelsAreValid(package: seq<Destination>)
    requires PackageRead(package, |package|)
    ensures ParcelsValid(Parcels(package, |package|))
  {
    forall k | 0 <= k < |package|
      ensures Valid(Parcels(package, |package|)[k].amount)
    {
      ParcelsAt(package, |package|, k);
    }
  }

  /** Unit u summed over the parcels' amounts. */
  function ParcelSum(parcels: seq<Parcel>, u: string): int
  {
    if parcels == [] then 0 else ParcelSum(parcels[..|parcels| - 1], u) + Get(parcels[|parcels| - 1].amount, u)
  }

  lemma {:induction false} AllEntriesSum(package: seq<Destination>, n: nat, u: string)
    requires n <= |package| && PackageRead(package, n)
    ensures UnitSum(AllEntries(package, n), u) == ParcelSum(Parcels(package, n), u)
  {
    if n > 0 {
      AllEntriesSum(package, n - 1, u);
      UnitSumAppend(AllEntries(package, n - 1), Entries(package[n - 1]), u);
      AddAllGet(Empty, Entries(package[n - 1]), u);
      ParcelSumSnoc(Parcels(package, n - 1), Parcel(package[n - 1].address, Merged(package[n - 1])), u);
    }
  }

  /** One more parcel adds its amount of u. */
  lemma ParcelSumSnoc(parcels: seq<Parcel>, p: Parcel, u: string)
    ensures ParcelSum(parcels + [p], u) == ParcelSum(parcels, u) + Get(p.amount, u)
  {
    assert (parcels + [p])[..|parcels|] == parcels;
  }

  /** Every unit of the package total is that unit summed over the
      destinations, after each destination's duplicates are merged. */
  lemma PackageTotalSums(package: seq<Destination>, u: string)
    requires PackageRead(package, |package|)
    ensures Get(PackageTotal(package), u) == ParcelSum(Parcels(package, |package|), u)
  {
    AddAllGet(Empty, AllEntries(package, |package|), u);
    AllEntriesSum(package, |package|, u);
  }

  /** A merged amount lists each unit once, with the sum of that unit's
      quantities in the destination's amount list. */
  lemma MergedSums(d: Destination, u: string)
    requires Readable(d)
    ensures Get(Merged(d), u) == UnitSum(Entries(d), u)
    ensures u in Merged(d).qty <==> Mentions(Entries(d), u)
  {
    AddAllGet(Empty, Entries(d), u);
    AddAllKeys(Empty, Entries(d), u);
  }

  /** The inner summing loop over one destination's amounts, adding each
      quantity to a dict; a quantity int() cannot read raises. */
  method MergeInto(b: Balance, amount: seq<Amount>) returns (r: Result<Balance>)
    requires Valid(b)
    ensures r.Err? <==> ReadAmounts(amount, |amount|).Err?
    ensures r.Err? ==> r.error == Raised
    ensures r.Ok? ==> r.value == AddAll(b, ReadAmounts(amount, |amount|).value)
  {
    var sum := b;
    ghost var done: seq<Entry> := [];
    var j := 0;
    while j < |amount|
      invariant j <= |amount| && ReadAmounts(amount, j) == Ok(done)
      invariant sum == AddAll(b, done)
    {
      var a := amount[j];
      var q := ParseInt(a.quantity);
      ReadAmountsStep(amount, j);
      if q.None? {
        ReadAmountsStayErr(amount, j + 1, |amount|);
        return Err(Raised);
      }
      var e := Entry(a.unit, q.value);
      AddAllSnoc(b, done, e);
      sum := Add(sum, a.unit, q.value);
      done := done + [e];
      j := j + 1;
    }
    return Ok(sum);
  }

  /** The summing loops: a quantity int() cannot read raises; otherwise each
      destination's amounts are merged into its own dict and added to the
      running total. The model runs the inner loop once for each of the two
      dicts the source updates side by side. */
  method SummarizePackage(package: seq<Destination>) returns (r: Result<Summary>)
    ensures r.Err? <==> !PackageRead(package, |package|)
    ensures r.Err? ==> r.error == Raised
    ensures r.Ok? ==> r.value == Summary(Parcels(package, |package|), PackageTotal(package))
  {
    var parcels: seq<Parcel> := [];
    var total := Empty;
    var i := 0;
    while i < |package|
      invariant 0 <= i <= |package|
      invariant PackageRead(package, i)
      invariant parcels == Parcels(package, i)
      invariant total == AddAll(Empty, AllEntries(package, i))
    {
      var each := MergeInto(Empty, package[i].amount);
      if each.Err? {
        assert !Readable(package[i]);
        return Err(Raised);
      }
      var sum := MergeInto(total, package[i].amount);
      assert PackageRead(package, i + 1);
      AddAllAppend(Empty, AllEntries(package, i), Entries(package[i]));
      parcels := parcels + [Parcel(package[i].address, each.value)];
      total := sum.value;
      i := i + 1;
    }
    return Ok(Summary(parcels, total));
  }

  // ---------------------------------------------------------------------
  // Sender balance and affordability (transactions.py:588-614)

  /** The dict add_utxo_to_dict builds over the first n rows, starting from {}. */
  function Holdings(rows: seq<Row>, n: nat): (r: Result<Balance>)
    requires n <= |rows|
    ensures r.Ok? ==> Valid(r.value)
    ensures r.Err? ==> r.error == Raised
  {
    if n == 0 then Ok(Empty)
    else match Holdings(rows, n - 1)
      case Err(_) => Err(Raised)
      case Ok(b) =>
        match RowAmounts(rows[n - 1])
        case Err(_) => Err(Raised)
        case Ok(es) => Ok(AddAll(b, es))
  }

  /** A row that raises makes every longer run of rows raise. */
  lemma {:induction false} HoldingsStayErr(rows: seq<Row>, j: nat, n: nat)
    requires j <= n <= |rows| && Holdings(rows, j).Err?
    ensures Holdings(rows, n).Err?
    decreases n
  {
    if n > j {
      HoldingsStayErr(rows, j, n - 1);
    }
  }

  /** One more row read as add_utxo_to_dict reads it: either every run
      through the last row raises, or the holdings grow by that row. */
  lemma HoldingsNext(rows: seq<Row>, i: nat, next: Result<Balance>)
    requires i < |rows| && Holdings(rows, i).Ok?
    requires RowAmounts(rows[i]).Err? ==> next == Err(Raised)
    requires RowAmounts(rows[i]).Ok? ==> next == Ok(AddAll(Holdings(rows, i).value, RowAmounts(rows[i]).value))
    ensures next.Err? ==> Holdings(rows, |rows|) == Err(Raised)
    ensures next.Ok? ==> Holdings(rows, i + 1) == next
  {
    if next.Err? {
      HoldingsStayErr(rows, i + 1, |rows|);
    }
  }

  /** A run of rows that reads reads in every prefix. */
  lemma HoldingsPrefix(rows: seq<Row>, j: nat, n: nat)
    requires j <= n <= |rows| && Holdings(rows, n).Ok?
    ensures Holdings(rows, j).Ok?
  {
    if Holdings(rows, j).Err? {
      HoldingsStayErr(rows, j, n);
    }
  }

  /** `for utxo in utxo_list: sender_balance = add_utxo_to_dict(sender_balance, utxo)`. */
  method SenderBalance(rows: seq<Row>) returns (r: Result<Balance>)
    ensures r == Holdings(rows, |rows|)
  {
    var b := Empty;
    var i := 0;
    while i < |rows|
      invariant 0 <= i <= |rows|
      invariant Holdings(rows, i) == Ok(b)
    {
      var next := AddUtxoToDict(b, rows[i]);
      HoldingsNext(rows, i, next);
      if next.Err? {
        return Err(Raised);
      }
      b := next.value;
      i := i + 1;
    }
    return Ok(b);
  }

  /** The loop over the package's keys: False at the first key the sender
      lacks or holds less of. */
  method Affordable(sender: Balance, package: Balance) returns (ok: bool)
    requires Valid(package)
    ensures ok <==> Covers(sender, package)
  {
    var i := 0;
    while i < |package.units|
      invariant 0 <= i <= |package.units|
      invariant forall j :: 0 <= j < i ==> CoversUnit(sender, package, package.units[j])
    {
      var key := package.units[i];
      assert key in package.qty;
      if key !in sender.qty || package.qty[key] > sender.qty[key] {
        assert !CoversUnit(sender, package, key);
        return false;
      }
      i := i + 1;
    }
    forall u | u in package.qty
      ensures CoversUnit(sender, package, u)
    {
      var j :| 0 <= j < |package.units| && package.units[j] == u;
    }
    return true;
  }

  // ---------------------------------------------------------------------
  // Recipient outputs (transactions.py:616-653)

  /** What a recipient is sent: its merged amount, and when the min-UTXO
      value of that output exceeds one ada, that value added to its lovelace. */
  function TopUp(address: string, amount: Balance, minUtxo: TxOut -> int): (r: Balance)
    requires Valid(amount)
    ensures Valid(r)
  {
    var m := minUtxo(TxOut(address, Records(amount)));
    if m > MinChange then Add(amount, Lovelace, m) else amount
  }

  /** A top-up changes only lovelace: it adds the output's min-UTXO value
      when that value exceeds one ada, creating the key if need be. */
  lemma TopUpSpec(address: string, amount: Balance, minUtxo: TxOut -> int)
    requires Valid(amount)
    ensures var r := TopUp(address, amount, minUtxo);
      var m := minUtxo(TxOut(address, Records(amount)));
      && (forall u :: u != Lovelace ==> Get(r, u) == Get(amount, u))
      && (forall u :: u != Lovelace ==> (u in r.qty <==> u in amount.qty))
      && Get(r, Lovelace) == Get(amount, Lovelace) + (if m > MinChange then m else 0)
      && (Lovelace in r.qty <==> Lovelace in amount.qty || m > MinChange)
  {
  }

  /** The amount parcel k ends up with. */
  function Topped(parcels: seq<Parcel>, minUtxo: TxOut -> int, k: nat): (b: Balance)
    requires k < |parcels| && Valid(parcels[k].amount)
    ensures Valid(b)
  {
    TopUp(parcels[k].address, parcels[k].amount, minUtxo)
  }

  /** The outputs to the first n parcels all have a lovelace key to read. */
  predicate LovelaceListed(parcels: seq<Parcel>, minUtxo: TxOut -> int, n: nat)
    requires n <= |parcels| && ParcelsValid(parcels)
  {
    n == 0 || (LovelaceListed(parcels, minUtxo, n - 1) && Lovelace in Topped(parcels, minUtxo, n - 1).qty)
  }

  /** `package_lovelace_req` after the first n parcels. */
  function Needed(parcels: seq<Parcel>, minUtxo: TxOut -> int, n: nat): int
    requires n <= |parcels| && ParcelsValid(parcels)
  {
    if n == 0 then 0 else Needed(parcels, minUtxo, n - 1) + Get(Topped(parcels, minUtxo, n - 1), Lovelace)
  }

  /** The outputs to the first n parcels. */
  function Recipients(parcels: seq<Parcel>, minUtxo: TxOut -> int, n: nat): (r: seq<TxOut>)
    requires n <= |parcels| && ParcelsValid(parcels)
    ensures |r| == n
  {
    if n == 0 then []
    else Recipients(parcels, minUtxo, n - 1) + [TxOut(parcels[n - 1].address, Records(Topped(parcels, minUtxo, n - 1)))]
  }

  /** The top-up of one recipient output: when the min-UTXO value of the
      output exceeds one ada, that value is added to its lovelace. */
  method TopUpOutput(address: string, amount: Balance, minUtxo: TxOut -> int) returns (r: Balance)
    requires Valid(amount)
    ensures r == TopUp(address, amount, minUtxo)
  {
    r := amount;
    var m := minUtxo(TxOut(address, Records(amount)));
    if m > MinChange {
      r := Add(r, Lovelace, m);
    }
  }

  /** The loop over the parcels: each output is its merged amount topped
      up; a parcel left without a lovelace key raises. */
  method PlanRecipients(parcels: seq<Parcel>, minUtxo: TxOut -> int) returns (r: Result<(seq<TxOut>, int)>)
    requires ParcelsValid(parcels)
    ensures r.Err? <==> !LovelaceListed(parcels, minUtxo, |parcels|)
    ensures r.Err? ==> r.error == Raised
    ensures r.Ok? ==> r.value == (Recipients(parcels, minUtxo, |parcels|), Needed(parcels, minUtxo, |parcels|))
  {
    var outputs: seq<TxOut> := [];
    var needed := 0;
    var i := 0;
    while i < |parcels|
      invariant 0 <= i <= |parcels|
      invariant outputs == Recipients(parcels, minUtxo, i)
      invariant needed == Needed(parcels, minUtxo, i)
      invariant LovelaceListed(parcels, minUtxo, i)
    {
      var amount := TopUpOutput(parcels[i].address, parcels[i].amount, minUtxo);
      outputs := outputs + [TxOut(parcels[i].address, Records(amount))];
      if Lovelace !in amount.qty {
        ListedStaysFalse(parcels, minUtxo, i + 1, |parcels|);
        return Err(Raised);
      }
      assert Needed(parcels, minUtxo, i + 1) == needed + Get(amount, Lovelace);
      needed := needed + amount.qty[Lovelace];
      i := i + 1;
    }
    return Ok((outputs, needed));
  }

  /** An output without lovelace stays a failure for every longer run. */
  lemma {:induction false} ListedStaysFalse(parcels: seq<Parcel>, minUtxo: TxOut -> int, j: nat, n: nat)
    requires j <= n <= |parcels| && ParcelsValid(parcels) && !LovelaceListed(parcels, minUtxo, j)
    ensures !LovelaceListed(parcels, minUtxo, n)
    decreases n
  {
    if n > j {
      ListedStaysFalse(parcels, minUtxo, j, n - 1);
      assert !LovelaceListed(parcels, minUtxo, n - 1);
    }
  }

  lemma {:induction false} LovelaceListedEach(parcels: seq<Parcel>, minUtxo: TxOut -> int, n: nat, k: nat)
    requires k < n <= |parcels| && ParcelsValid(parcels) && LovelaceListed(parcels, minUtxo, n)
    ensures Lovelace in Topped(parcels, minUtxo, k).qty
  {
    if k < n - 1 {
      LovelaceListedEach(parcels, minUtxo, n - 1, k);
    }
  }

  lemma {:induction false} LovelaceListedWhenEach(parcels: seq<Parcel>, minUtxo: TxOut -> int, n: nat)
    requires n <= |parcels| && ParcelsValid(parcels)
    requires forall k :: 0 <= k < n ==> Lovelace in Topped(parcels, minUtxo, k).qty
    ensures LovelaceListed(parcels, minUtxo, n)
  {
    if n > 0 {
      LovelaceListedWhenEach(parcels, minUtxo, n - 1);
    }
  }

  /** The recursive test is the plain one: every output has lovelace. */
  lemma LovelaceListedAll(parcels: seq<Parcel>, minUtxo: TxOut -> int, n: nat)
    requires n <= |parcels| && ParcelsValid(parcels)
    ensures LovelaceListed(parcels, minUtxo, n) <==>
      forall k :: 0 <= k < n ==> Lovelace in Topped(parcels, minUtxo, k).qty
  {
    if LovelaceListed(parcels, minUtxo, n) {
      forall k | 0 <= k < n
        ensures Lovelace in Topped(parcels, minUtxo, k).qty
      {
        LovelaceListedEach(parcels, minUtxo, n, k);
      }
    } else if forall k :: 0 <= k < n ==> Lovelace in Topped(parcels, minUtxo, k).qty {
      LovelaceListedWhenEach(parcels, minUtxo, n);
    }
  }

  /** Unit u summed over a list of outputs. */
  function OutSum(outs: seq<TxOut>, u: string): int
  {
    if outs == [] then 0 else OutSum(outs[..|outs| - 1], u) + UnitSum(outs[|outs| - 1].amount, u)
  }

  /** The recipient outputs carry, per unit, the parcels' quantities, except
      that their lovelace is what `package_lovelace_req` sums. */
  lemma {:induction false} RecipientsSum(parcels: seq<Parcel>, minUtxo: TxOut -> int, n: nat, u: string)
    requires n <= |parcels| && ParcelsValid(parcels)
    ensures OutSum(Recipients(parcels, minUtxo, n), u) ==
      if u == Lovelace then Needed(parcels, minUtxo, n) else ParcelSum(parcels[..n], u)
  {
    if n > 0 {
      var outs := Recipients(parcels, minUtxo, n);
      assert outs[..n - 1] == Recipients(parcels, minUtxo, n - 1);
      assert parcels[..n][..n - 1] == parcels[..n - 1];
      RecipientsSum(parcels, minUtxo, n - 1, u);
      RecordsGet(Topped(parcels, minUtxo, n - 1), u);
    }
  }

  // ---------------------------------------------------------------------
  // Closing the plan with the UTXOs taken so far (transactions.py:673-726)

  /** `change_list` after the package is taken out of the selected amounts. */
  function Change(temp: Balance, package: Balance): (r: Balance)
    requires Valid(temp) && Valid(package)
    requires forall u :: u in package.qty ==> u in temp.qty
    ensures Valid(r) && r.units == temp.units
    ensures forall u :: u in r.qty <==> u in temp.qty
    ensures forall u :: Get(r, u) == Get(temp, u) - Get(package, u)
  {
    Balance(temp.units, map u | u in temp.qty :: temp.qty[u] - Get(package, u))
  }

  /** `change_list = temp.copy()`, then `change_list[key] -= package_balance[key]`
      for each package key. */
  method Deduct(temp: Balance, package: Balance) returns (change: Balance)
    requires Valid(temp) && Valid(package)
    requires forall u :: u in package.qty ==> u in temp.qty
    ensures change == Change(temp, package)
  {
    change := temp;
    var i := 0;
    assert package.units[..0] == [];
    while i < |package.units|
      invariant 0 <= i <= |package.units|
      invariant Valid(change) && change.units == temp.units
      invariant forall u :: u in change.qty <==> u in temp.qty
      invariant forall u :: u in temp.qty ==>
        change.qty[u] == temp.qty[u] - (if u in package.units[..i] then package.qty[u] else 0)
    {
      var key := package.units[i];
      FreshKey(package, i);
      change := Put(change, key, change.qty[key] - package.qty[key]);
      i := i + 1;
    }
    assert package.units[..i] == package.units;
    assert change.qty == Change(temp, package).qty;
  }

  /** The loop that writes the change records: the positive entries, in order. */
  method PositiveRecords(b: Balance) returns (r: seq<Entry>)
    requires Valid(b)
    ensures r == Keep(Records(b))
  {
    r := [];
    var k := 0;
    while k < |b.units|
      invariant 0 <= k <= |b.units|
      invariant r == Keep(RecordsUpTo(b, k))
    {
      var key := b.units[k];
      assert RecordsUpTo(b, k + 1) == RecordsUpTo(b, k) + [Entry(key, b.qty[key])];
      KeepSnoc(RecordsUpTo(b, k), Entry(key, b.qty[key]));
      if b.qty[key] > 0 {
        r := r + [Entry(key, b.qty[key])];
      }
      k := k + 1;
    }
  }

  ghost predicate GoalOk(g: Goal)
  {
    Valid(g.package) && Lovelace in g.package.qty
  }

  /** The min-UTXO value of the change output: that of its positive
      records, 0 when there are none. */
  function ChangeMin(change: Balance, sender: string, minUtxo: TxOut -> int): int
    requires Valid(change)
  {
    var records := Keep(Records(change));
    if |records| > 0 then minUtxo(TxOut(sender, records)) else 0
  }

  /** The fee taken from the change's lovelace, when what is left is still
      at least the min-UTXO value m; the change output then lists the
      positive records after the fee. */
  function Paid(change: Balance, sender: string, f: int, m: int): Option<Closing>
    requires Valid(change) && Lovelace in change.qty
  {
    if change.qty[Lovelace] - f >= m then
      Some(Closing(TxOut(sender, Keep(Records(Balance(change.units, change.qty[Lovelace := change.qty[Lovelace] - f])))), f))
    else None
  }

  /** From the change dict on: the plan closes when the change's min-UTXO
      value is positive and at most its lovelace, and the fee leaves enough. */
  function Settled(change: Balance, g: Goal, inputs: seq<TxIn>, minUtxo: TxOut -> int,
                   fee: (seq<TxIn>, seq<TxOut>) -> int): Option<Closing>
    requires Valid(change) && Lovelace in change.qty
  {
    var m := ChangeMin(change, g.sender, minUtxo);
    if 0 < m <= change.qty[Lovelace] then Paid(change, g.sender, fee(inputs, g.recipients), m) else None
  }

  /** The body of the selection loop once `temp` holds the UTXOs taken and
      `inputs` lists them: nothing yet while check_enough_fund is False,
      else the package is taken out and the change settled. */
  function TryClose(temp: Balance, g: Goal, inputs: seq<TxIn>, minUtxo: TxOut -> int,
                    fee: (seq<TxIn>, seq<TxOut>) -> int): (r: Result<Option<Closing>>)
    requires Valid(temp) && GoalOk(g)
    ensures r.Err? ==> r.error == Raised
  {
    CheckEnoughFundSpec(temp, g.package);
    var enough :- CheckEnoughFund(temp, g.package);
    if !enough then Ok(None)
    else Ok(Settled(Change(temp, g.package), g, inputs, minUtxo, fee))
  }

  /** The fee block: the change output rewritten after the fee, when it
      still holds its min-UTXO lovelace. */
  method PayFee(change: Balance, sender: string, f: int, m: int) returns (r: Option<Closing>)
    requires Valid(change) && Lovelace in change.qty
    ensures r == Paid(change, sender, f, m)
  {
    if change.qty[Lovelace] - f >= m {
      var paid := Balance(change.units, change.qty[Lovelace := change.qty[Lovelace] - f]);
      var records := PositiveRecords(paid);
      r := Some(Closing(TxOut(sender, records), f));
    } else {
      r := None;
    }
  }

  /** The change block: the min-UTXO test of the change records, then the fee. */
  method Settle(change: Balance, g: Goal, inputs: seq<TxIn>, minUtxo: TxOut -> int,
                fee: (seq<TxIn>, seq<TxOut>) -> int) returns (r: Option<Closing>)
    requires Valid(change) && Lovelace in change.qty
    ensures r == Settled(change, g, inputs, minUtxo, fee)
  {
    var records := PositiveRecords(change);
    var m := if |records| > 0 then minUtxo(TxOut(g.sender, records)) else 0;
    assert m == ChangeMin(change, g.sender, minUtxo);
    if 0 < m <= change.qty[Lovelace] {
      var f := fee(inputs, g.recipients);
      r := PayFee(change, g.sender, f, m);
    } else {
      r := None;
    }
  }

  /** The check-and-close block of the selection loop. */
  method Close(temp: Balance, g: Goal, inputs: seq<TxIn>, minUtxo: TxOut -> int,
               fee: (seq<TxIn>, seq<TxOut>) -> int) returns (r: Result<Option<Closing>>)
    requires Valid(temp) && GoalOk(g)
    ensures r == TryClose(temp, g, inputs, minUtxo, fee)
  {
    var enough := CheckEnoughFund(temp, g.package);
    if enough.Err? {
      return Err(enough.error);
    }
    if !enough.value {
      return Ok(None);
    }
    CheckEnoughFundSpec(temp, g.package);
    var change := Deduct(temp, g.package);
    var c := Settle(change, g, inputs, minUtxo, fee);
    return Ok(c);
  }

  /** A settled change goes to the sender with positive records only and at
      least its min-UTXO lovelace, the fee is the fee of the inputs and the
      recipient outputs, and the records carry every unit of the change,
      lovelace less the fee. */
  lemma SettledConserves(change: Balance, g: Goal, inputs: seq<TxIn>, minUtxo: TxOut -> int,
                         fee: (seq<TxIn>, seq<TxOut>) -> int)
    requires Valid(change) && Lovelace in change.qty
    requires forall u :: Get(change, u) >= 0
    requires Settled(change, g, inputs, minUtxo, fee).Some?
    ensures var c := Settled(change, g, inputs, minUtxo, fee).value;
      && c.fee == fee(inputs, g.recipients)
      && c.change.address == g.sender
      && (forall k :: 0 <= k < |c.change.amount| ==> c.change.amount[k].quantity > 0)
      && UnitSum(c.change.amount, Lovelace) >= ChangeMin(change, g.sender, minUtxo) > 0
      && forall u :: UnitSum(c.change.amount, u) == Get(change, u) - (if u == Lovelace then c.fee else 0)
  {
    var m := ChangeMin(change, g.sender, minUtxo);
    var f := fee(inputs, g.recipients);
    assert 0 < m <= change.qty[Lovelace] - f;
    var paid := Balance(change.units, change.qty[Lovelace := change.qty[Lovelace] - f]);
    assert Valid(paid);
    forall u
      ensures Get(paid, u) >= 0
    {
      if u != Lovelace {
        assert Get(paid, u) == Get(change, u);
      }
    }
    RecordsUnsigned(paid);
    KeepPositive(Records(paid));
    forall u
      ensures UnitSum(Keep(Records(paid)), u) == Get(paid, u)
    {
      KeepSum(Records(paid), u);
      RecordsGet(paid, u);
    }
  }

  /** Taking a covered package out of unsigned holdings leaves no unit negative. */
  lemma ChangeUnsigned(temp: Balance, package: Balance)
    requires Valid(temp) && Valid(package) && Covers(temp, package)
    requires forall u :: Get(temp, u) >= 0
    ensures forall u :: u in package.qty ==> u in temp.qty
    ensures forall u :: Get(Change(temp, package), u) >= 0
  {
    forall u
      ensures Get(Change(temp, package), u) >= 0
    {
      if u in package.qty {
        assert CoversUnit(temp, package, u);
      }
    }
  }

  /** A closed plan covers the package, sends the change to the sender with
      positive records only and at least its min-UTXO lovelace, charges the
      fee of the inputs and the recipient outputs, and splits every unit of
      the selected UTXOs into the package's, the change's, and for lovelace
      also the fee. */
  lemma CloseConserves(temp: Balance, g: Goal, inputs: seq<TxIn>, minUtxo: TxOut -> int,
                       fee: (seq<TxIn>, seq<TxOut>) -> int)
    requires Valid(temp) && GoalOk(g)
    requires forall u :: Get(temp, u) >= 0
    requires TryClose(temp, g, inputs, minUtxo, fee).Ok? && TryClose(temp, g, inputs, minUtxo, fee).value.Some?
    ensures Covers(temp, g.package)
    ensures var c := TryClose(temp, g, inputs, minUtxo, fee).value.value;
      && c.fee == fee(inputs, g.recipients)
      && c.change.address == g.sender
      && (forall k :: 0 <= k < |c.change.amount| ==> c.change.amount[k].quantity > 0)
      && UnitSum(c.change.amount, Lovelace) >= ChangeMin(Change(temp, g.package), g.sender, minUtxo) > 0
      && forall u :: Get(temp, u) == Get(g.package, u) + UnitSum(c.change.amount, u) + (if u == Lovelace then c.fee else 0)
  {
    CheckEnoughFundSpec(temp, g.package);
    ChangeUnsigned(temp, g.package);
    SettledConserves(Change(temp, g.package), g, inputs, minUtxo, fee);
  }

  // ---------------------------------------------------------------------
  // Selecting UTXOs in listing order (transactions.py:660-728)

  /** The first n rows have the two cells of a transaction input. */
  predicate Wide(rows: seq<Row>, n: nat)
    requires n <= |rows|
  {
    forall k :: 0 <= k < n ==> |rows[k]| >= 2
  }

  /** `txin_list` and `response['input']` after the first n rows. */
  function InputsOf(rows: seq<Row>, n: nat): (r: seq<TxIn>)
    requires n <= |rows| && Wide(rows, n)
    ensures |r| == n
    ensures forall k :: 0 <= k < n ==> r[k] == TxInOf(rows[k])
  {
    if n == 0 then [] else InputsOf(rows, n - 1) + [TxInOf(rows[n - 1])]
  }

  /** The selection loop from row i on: take the row, close if possible,
      and fail with NotEnoughForFees after the last row. */
  function SelectFrom(rows: seq<Row>, g: Goal, minUtxo: TxOut -> int,
                      fee: (seq<TxIn>, seq<TxOut>) -> int, i: nat): Result<Plan>
    requires i < |rows| && GoalOk(g)
    decreases |rows| - i
  {
    var temp :- Holdings(rows, i + 1);
    if !Wide(rows, i + 1) then Err(Raised)
    else
      var inputs := InputsOf(rows, i + 1);
      var c :- TryClose(temp, g, inputs, minUtxo, fee);
      if c.Some? then Ok(Plan(inputs, g.recipients + [c.value.change], c.value.fee))
      else if i == |rows| - 1 then Err(NotEnoughForFees)
      else SelectFrom(rows, g, minUtxo, fee, i + 1)
  }

  /** The whole selection; with no rows the loop does not run and the plan
      has no inputs and fee 0. */
  function Select(rows: seq<Row>, g: Goal, minUtxo: TxOut -> int,
                  fee: (seq<TxIn>, seq<TxOut>) -> int): Result<Plan>
    requires GoalOk(g)
  {
    if rows == [] then Ok(Plan([], g.recipients, 0)) else SelectFrom(rows, g, minUtxo, fee, 0)
  }

  /** The selection loop, leaving by return at the closing row or with the
      error at the last one. */
  method SelectInputs(rows: seq<Row>, g: Goal, minUtxo: TxOut -> int,
                      fee: (seq<TxIn>, seq<TxOut>) -> int) returns (r: Result<Plan>)
    requires GoalOk(g)
    ensures r == Select(rows, g, minUtxo, fee)
  {
    var temp := Empty;
    var txins: seq<TxIn> := [];
    var i := 0;
    while i < |rows|
      invariant 0 <= i <= |rows|
      invariant Holdings(rows, i) == Ok(temp) && Wide(rows, i) && txins == InputsOf(rows, i)
      invariant i < |rows| ==> Select(rows, g, minUtxo, fee) == SelectFrom(rows, g, minUtxo, fee, i)
      invariant i == |rows| ==> rows == []
    {
      var next := AddUtxoToDict(temp, rows[i]);
      if next.Err? {
        return Err(Raised);
      }
      temp := next.value;
      if |rows[i]| < 2 {
        return Err(Raised);
      }
      txins := txins + [TxInOf(rows[i])];
      var c := Close(temp, g, txins, minUtxo, fee);
      if c.Err? {
        return Err(c.error);
      }
      if c.value.Some? {
        return Ok(Plan(txins, g.recipients + [c.value.value.change], c.value.value.fee));
      }
      if i == |rows| - 1 {
        return Err(NotEnoughForFees);
      }
      i := i + 1;
    }
    return Ok(Plan(txins, g.recipients, 0));
  }

  /** The first j rows read, have input cells, and do not close the plan. */
  predicate Stuck(rows: seq<Row>, g: Goal, minUtxo: TxOut -> int, fee: (seq<TxIn>, seq<TxOut>) -> int, j: nat)
    requires j <= |rows| && GoalOk(g)
  {
    Holdings(rows, j).Ok? && Wide(rows, j) &&
    TryClose(Holdings(rows, j).value, g, InputsOf(rows, j), minUtxo, fee) == Ok(None)
  }

  /** The plan is the one the first |inputs| rows close: they read and have
      input cells, the inputs list them in order, and the outputs are the
      recipient outputs followed by the change TryClose gives with the fee. */
  predicate ClosedAt(rows: seq<Row>, g: Goal, minUtxo: TxOut -> int, fee: (seq<TxIn>, seq<TxOut>) -> int, plan: Plan)
    requires GoalOk(g)
  {
    var k := |plan.inputs|;
    && 0 < k <= |rows| && Holdings(rows, k).Ok? && Wide(rows, k)
    && plan.inputs == InputsOf(rows, k)
    && |plan.outputs| == |g.recipients| + 1
    && plan.outputs[..|g.recipients|] == g.recipients
    && TryClose(Holdings(rows, k).value, g, plan.inputs, minUtxo, fee) ==
       Ok(Some(Closing(plan.outputs[|g.recipients|], plan.fee)))
  }

  /** A selection from row i that succeeds closes at some prefix past i,
      and no shorter prefix from row i on closed. */
  lemma {:induction false} SelectFromOk(rows: seq<Row>, g: Goal, minUtxo: TxOut -> int,
                                        fee: (seq<TxIn>, seq<TxOut>) -> int, i: nat)
    requires i < |rows| && GoalOk(g)
    requires SelectFrom(rows, g, minUtxo, fee, i).Ok?
    ensures var plan := SelectFrom(rows, g, minUtxo, fee, i).value;
      && i < |plan.inputs|
      && ClosedAt(rows, g, minUtxo, fee, plan)
      && forall j :: i < j < |plan.inputs| ==> Stuck(rows, g, minUtxo, fee, j)
    decreases |rows| - i
  {
    if Stuck(rows, g, minUtxo, fee, i + 1) {
      SelectFromOk(rows, g, minUtxo, fee, i + 1);
      assert SelectFrom(rows, g, minUtxo, fee, i) == SelectFrom(rows, g, minUtxo, fee, i + 1);
      var plan := SelectFrom(rows, g, minUtxo, fee, i + 1).value;
      forall j | i < j < |plan.inputs|
        ensures Stuck(rows, g, minUtxo, fee, j)
      {
        if j > i + 1 {
          assert i + 1 < j < |plan.inputs|;
        }
      }
    } else {
      var plan := SelectFrom(rows, g, minUtxo, fee, i).value;
      assert plan.outputs[..|g.recipients|] == g.recipients;
    }
  }

  /** The selection runs out of UTXOs exactly when every prefix from row i
      on reads, has input cells, and does not close. */
  lemma {:induction false} SelectFromFees(rows: seq<Row>, g: Goal, minUtxo: TxOut -> int,
                                          fee: (seq<TxIn>, seq<TxOut>) -> int, i: nat)
    requires i < |rows| && GoalOk(g)
    ensures SelectFrom(rows, g, minUtxo, fee, i) == Err(NotEnoughForFees) <==>
      forall j :: i < j <= |rows| ==> Stuck(rows, g, minUtxo, fee, j)
    decreases |rows| - i
  {
    if !Stuck(rows, g, minUtxo, fee, i + 1) {
      assert SelectFrom(rows, g, minUtxo, fee, i) != Err(NotEnoughForFees);
    } else if i + 1 < |rows| {
      SelectFromFees(rows, g, minUtxo, fee, i + 1);
      assert SelectFrom(rows, g, minUtxo, fee, i) == SelectFrom(rows, g, minUtxo, fee, i + 1);
      assert (forall j :: i < j <= |rows| ==> Stuck(rows, g, minUtxo, fee, j)) <==>
             (forall j :: i + 1 < j <= |rows| ==> Stuck(rows, g, minUtxo, fee, j));
    }
  }

  /** The selection fails only by an exception or by running out of UTXOs. */
  lemma {:induction false} SelectFromErrors(rows: seq<Row>, g: Goal, minUtxo: TxOut -> int,
                                            fee: (seq<TxIn>, seq<TxOut>) -> int, i: nat)
    requires i < |rows| && GoalOk(g)
    requires SelectFrom(rows, g, minUtxo, fee, i).Err?
    ensures SelectFrom(rows, g, minUtxo, fee, i).error in {Raised, NotEnoughForFees}
    decreases |rows| - i
  {
    var h := Holdings(rows, i + 1);
    if h.Ok? && Wide(rows, i + 1) {
      var c := TryClose(h.value, g, InputsOf(rows, i + 1), minUtxo, fee);
      if c.Ok? && c.value.None? && i < |rows| - 1 {
        SelectFromErrors(rows, g, minUtxo, fee, i + 1);
      }
    }
  }

  // ---------------------------------------------------------------------
  // The whole planner

  /** What the selection aims at once the recipient outputs are planned:
      the package total with its lovelace replaced by what the recipient
      outputs need, the first sender address for the change, and the
      recipient outputs. */
  function Target(sender: string, package: seq<Destination>, minUtxo: TxOut -> int): (g: Goal)
    requires PackageRead(package, |package|)
    ensures GoalOk(g)
  {
    ParcelsAreValid(package);
    var parcels := Parcels(package, |package|);
    Goal(Put(PackageTotal(package), Lovelace, Needed(parcels, minUtxo, |parcels|)), sender,
         Recipients(parcels, minUtxo, |parcels|))
  }

  /** get_transaction_body: sum the package, read the sender's UTXOs,
      refuse what the sender cannot afford, plan the recipient outputs,
      refuse when the sender's lovelace is below what they need, then select. */
  function TransactionBody(senderAddresses: seq<string>, rows: seq<Row>, package: seq<Destination>,
                           minUtxo: TxOut -> int, fee: (seq<TxIn>, seq<TxOut>) -> int): Result<Plan>
  {
    if !PackageRead(package, |package|) then Err(Raised)
    else if senderAddresses == [] then Err(Raised)
    else
      var sender :- Holdings(rows, |rows|);
      var total := PackageTotal(package);
      var parcels := Parcels(package, |package|);
      ParcelsAreValid(package);
      if !Covers(sender, total) then Err(CannotAfford)
      else if !LovelaceListed(parcels, minUtxo, |parcels|) then Err(Raised)
      else
        var needed := Needed(parcels, minUtxo, |parcels|);
        if Lovelace !in sender.qty then Err(Raised)
        else if sender.qty[Lovelace] < needed then Err(NotEnoughLovelace)
        else
          Select(rows, Target(senderAddresses[0], package, minUtxo), minUtxo, fee)
  }

  /** `get_transaction_body(sender_stake_address, package)`, with the
      stake address's addresses and their UTXO rows resolved. */
  method GetTransactionBody(senderAddresses: seq<string>, rows: seq<Row>, package: seq<Destination>,
                            minUtxo: TxOut -> int, fee: (seq<TxIn>, seq<TxOut>) -> int)
    returns (r: Result<Plan>)
    ensures r == TransactionBody(senderAddresses, rows, package, minUtxo, fee)
  {
    var summary := SummarizePackage(package);
    if summary.Err? {
      return Err(Raised);
    }
    if |senderAddresses| == 0 {
      return Err(Raised);
    }
    var senderAddress := senderAddresses[0];
    var balance := SenderBalance(rows);
    if balance.Err? {
      return Err(Raised);
    }
    var affordable := Affordable(balance.value, summary.value.total);
    if !affordable {
      return Err(CannotAfford);
    }
    ParcelsAreValid(package);
    var recipients := PlanRecipients(summary.value.parcels, minUtxo);
    if recipients.Err? {
      return Err(Raised);
    }
    var needed := recipients.value.1;
    var packageBalance := Put(summary.value.total, Lovelace, needed);
    if Lovelace !in balance.value.qty {
      return Err(Raised);
    }
    if balance.value.qty[Lovelace] < needed {
      return Err(NotEnoughLovelace);
    }
    r := SelectInputs(rows, Goal(packageBalance, senderAddress, recipients.value.0), minUtxo, fee);
  }

  // ---------------------------------------------------------------------
  // What a plan promises

  /** The records of each row are none of them negative, as the node
      prints them. */
  predicate UnsignedRows(rows: seq<Row>)
  {
    forall i :: 0 <= i < |rows| && RowAmounts(rows[i]).Ok? ==>
      forall k :: 0 <= k < |RowAmounts(rows[i]).value| ==> RowAmounts(rows[i]).value[k].quantity >= 0
  }

  /** Unit u summed over the first n rows, each row read by add_utxo_to_dict. */
  function InputSum(rows: seq<Row>, n: nat, u: string): int
    requires n <= |rows|
  {
    if n == 0 then 0
    else InputSum(rows, n - 1, u) + (if RowAmounts(rows[n - 1]).Ok? then UnitSum(RowAmounts(rows[n - 1]).value, u) else 0)
  }

  /** The dict built over the first n rows holds, per unit, the sum of the
      rows' quantities, and none is negative when no row's is. */
  lemma {:induction false} HoldingsSum(rows: seq<Row>, n: nat, u: string)
    requires n <= |rows| && Holdings(rows, n).Ok?
    ensures Get(Holdings(rows, n).value, u) == InputSum(rows, n, u)
    ensures UnsignedRows(rows) ==> Get(Holdings(rows, n).value, u) >= 0
  {
    if n > 0 {
      HoldingsPrefix(rows, n - 1, n);
      HoldingsSum(rows, n - 1, u);
      var es := RowAmounts(rows[n - 1]).value;
      AddAllGet(Holdings(rows, n - 1).value, es, u);
      if UnsignedRows(rows) {
        UnitSumUnsigned(es, u);
      }
    }
  }

  lemma OutSumSnoc(outs: seq<TxOut>, o: TxOut, u: string)
    ensures OutSum(outs + [o], u) == OutSum(outs, u) + UnitSum(o.amount, u)
  {
    assert (outs + [o])[..|outs|] == outs;
  }

  /** The recipient outputs carry, per unit, what the goal's package asks. */
  lemma TargetRecipients(sender: string, package: seq<Destination>, minUtxo: TxOut -> int, u: string)
    requires PackageRead(package, |package|)
    ensures |Target(sender, package, minUtxo).recipients| == |package|
    ensures OutSum(Target(sender, package, minUtxo).recipients, u) == Get(Target(sender, package, minUtxo).package, u)
  {
    ParcelsAreValid(package);
    var parcels := Parcels(package, |package|);
    RecipientsSum(parcels, minUtxo, |parcels|, u);
    PackageTotalSums(package, u);
    assert parcels[..|parcels|] == parcels;
  }

  /** A successful planner run over some rows is the selection towards its target. */
  lemma TransactionBodySelects(senderAddresses: seq<string>, rows: seq<Row>, package: seq<Destination>,
                               minUtxo: TxOut -> int, fee: (seq<TxIn>, seq<TxOut>) -> int)
    requires rows != [] && TransactionBody(senderAddresses, rows, package, minUtxo, fee).Ok?
    ensures PackageRead(package, |package|) && senderAddresses != []
    ensures TransactionBody(senderAddresses, rows, package, minUtxo, fee) ==
            SelectFrom(rows, Target(senderAddresses[0], package, minUtxo), minUtxo, fee, 0)
  {
    assert PackageRead(package, |package|) && senderAddresses != [];
    var g := Target(senderAddresses[0], package, minUtxo);
    assert Select(rows, g, minUtxo, fee) == SelectFrom(rows, g, minUtxo, fee, 0);
  }

  /** A selection that closes spends, per unit, what the recipient outputs
      and the change carry, plus the fee on lovelace. */
  lemma SelectConserves(rows: seq<Row>, g: Goal, minUtxo: TxOut -> int, fee: (seq<TxIn>, seq<TxOut>) -> int)
    requires rows != [] && GoalOk(g) && UnsignedRows(rows)
    requires SelectFrom(rows, g, minUtxo, fee, 0).Ok?
    ensures var plan := SelectFrom(rows, g, minUtxo, fee, 0).value;
      && ClosedAt(rows, g, minUtxo, fee, plan)
      && (forall j :: 0 < j < |plan.inputs| ==> Stuck(rows, g, minUtxo, fee, j))
      && plan.fee == fee(plan.inputs, g.recipients)
      && plan.outputs[|g.recipients|].address == g.sender
      && (forall k :: 0 <= k < |plan.outputs[|g.recipients|].amount| ==> plan.outputs[|g.recipients|].amount[k].quantity > 0)
      && forall u :: InputSum(rows, |plan.inputs|, u) ==
           Get(g.package, u) + UnitSum(plan.outputs[|g.recipients|].amount, u) + (if u == Lovelace then plan.fee else 0)
  {
    var plan := SelectFrom(rows, g, minUtxo, fee, 0).value;
    SelectFromOk(rows, g, minUtxo, fee, 0);
    var k := |plan.inputs|;
    var temp := Holdings(rows, k).value;
    forall u
      ensures Get(temp, u) >= 0
    {
      HoldingsSum(rows, k, u);
    }
    CloseConserves(temp, g, plan.inputs, minUtxo, fee);
    forall u
      ensures InputSum(rows, k, u) == Get(temp, u)
    {
      HoldingsSum(rows, k, u);
    }
  }

  /** get_transaction_body's success path: the inputs are the first k
      UTXOs in query order, for the first k that closes the plan (no
      shorter run did); the outputs are one per destination and then the
      change to the first sender address, whose quantities are all
      positive; and per unit the inputs carry exactly what the outputs
      carry, plus the fee on lovelace. */
  lemma TransactionBodyConserves(senderAddresses: seq<string>, rows: seq<Row>, package: seq<Destination>,
                                 minUtxo: TxOut -> int, fee: (seq<TxIn>, seq<TxOut>) -> int)
    requires UnsignedRows(rows) && rows != []
    requires TransactionBody(senderAddresses, rows, package, minUtxo, fee).Ok?
    ensures PackageRead(package, |package|) && senderAddresses != []
    ensures var plan := TransactionBody(senderAddresses, rows, package, minUtxo, fee).value;
      var g := Target(senderAddresses[0], package, minUtxo);
      && ClosedAt(rows, g, minUtxo, fee, plan)
      && (forall j :: 0 < j < |plan.inputs| ==> Stuck(rows, g, minUtxo, fee, j))
      && |plan.outputs| == |package| + 1
      && plan.outputs[|package|].address == senderAddresses[0]
      && (forall k :: 0 <= k < |plan.outputs[|package|].amount| ==> plan.outputs[|package|].amount[k].quantity > 0)
      && plan.fee == fee(plan.inputs, g.recipients)
      && forall u :: InputSum(rows, |plan.inputs|, u) == OutSum(plan.outputs, u) + (if u == Lovelace then plan.fee else 0)
  {
    TransactionBodySelects(senderAddresses, rows, package, minUtxo, fee);
    var g := Target(senderAddresses[0], package, minUtxo);
    SelectConserves(rows, g, minUtxo, fee);
    TargetRecipients(senderAddresses[0], package, minUtxo, "");
    PlanSums(SelectFrom(rows, g, minUtxo, fee, 0).value, rows, senderAddresses[0], package, minUtxo);
  }

  lemma PlanSums(plan: Plan, rows: seq<Row>, sender: string, package: seq<Destination>, minUtxo: TxOut -> int)
    requires PackageRead(package, |package|)
    requires |plan.outputs| == |package| + 1
    requires plan.outputs[..|package|] == Target(sender, package, minUtxo).recipients
    requires |plan.inputs| <= |rows|
    requires forall u :: InputSum(rows, |plan.inputs|, u) ==
                         Get(Target(sender, package, minUtxo).package, u) + UnitSum(plan.outputs[|package|].amount, u) + (if u == Lovelace then plan.fee else 0)
    ensures forall u :: InputSum(rows, |plan.inputs|, u) == OutSum(plan.outputs, u) + (if u == Lovelace then plan.fee else 0)
  {
    forall u
      ensures InputSum(rows, |plan.inputs|, u) == OutSum(plan.outputs, u) + (if u == Lovelace then plan.fee else 0)
    {
      PlanSumAt(plan, rows, sender, package, minUtxo, u);
    }
  }

  /** PlanSums for one unit. */
  lemma PlanSumAt(plan: Plan, rows: seq<Row>, sender: string, package: seq<Destination>, minUtxo: TxOut -> int, u: string)
    requires PackageRead(package, |package|)
    requires |plan.outputs| == |package| + 1
    requires plan.outputs[..|package|] == Target(sender, package, minUtxo).recipients
    requires |plan.inputs| <= |rows|
    requires InputSum(rows, |plan.inputs|, u) ==
             Get(Target(sender, package, minUtxo).package, u) + UnitSum(plan.outputs[|package|].amount, u) + (if u == Lovelace then plan.fee else 0)
    ensures InputSum(rows, |plan.inputs|, u) == OutSum(plan.outputs, u) + (if u == Lovelace then plan.fee else 0)
  {
    var n := |package|;
    var g := Target(sender, package, minUtxo);
    assert plan.outputs == g.recipients + [plan.outputs[n]];
    TargetRecipients(sender, package, minUtxo, u);
    OutSumSnoc(g.recipients, plan.outputs[n], u);
  }

  /** The planner refuses, before taking any UTXO, a package that some unit
      of the sender's aggregated balance does not cover, and a package
      whose recipient outputs need more lovelace than the sender holds. */
  lemma TransactionBodyRefuses(senderAddresses: seq<string>, rows: seq<Row>, package: seq<Destination>,
                               minUtxo: TxOut -> int, fee: (seq<TxIn>, seq<TxOut>) -> int)
    requires PackageRead(package, |package|) && senderAddresses != [] && Holdings(rows, |rows|).Ok?
    ensures !Covers(Holdings(rows, |rows|).value, PackageTotal(package)) ==>
      TransactionBody(senderAddresses, rows, package, minUtxo, fee) == Err(CannotAfford)
    ensures ParcelsValid(Parcels(package, |package|))
    ensures var parcels := Parcels(package, |package|);
      var sender := Holdings(rows, |rows|).value;
      (Covers(sender, PackageTotal(package)) && LovelaceListed(parcels, minUtxo, |parcels|)
       && Lovelace in sender.qty && sender.qty[Lovelace] < Needed(parcels, minUtxo, |parcels|)) ==>
      TransactionBody(senderAddresses, rows, package, minUtxo, fee) == Err(NotEnoughLovelace)
  {
    ParcelsAreValid(package);
  }

  /** An address with no UTXOs gets no plan. */
  lemma NoUtxosNoPlan(senderAddresses: seq<string>, package: seq<Destination>,
                      minUtxo: TxOut -> int, fee: (seq<TxIn>, seq<TxOut>) -> int)
    ensures TransactionBody(senderAddresses, [], package, minUtxo, fee).Err?
  {
    if PackageRead(package, |package|) && senderAddresses != [] {
      var total := PackageTotal(package);
      if |total.units| > 0 {
        assert total.units[0] in total.qty;
        assert !CoversUnit(Empty, total, total.units[0]);
      }
    }
  }

  /** A plan either closes or its error says why: an exception, a package
      the sender cannot afford, too little lovelace for the recipients, or
      the UTXOs running out before the fee is paid. */
  lemma TransactionBodyErrors(senderAddresses: seq<string>, rows: seq<Row>, package: seq<Destination>,
                              minUtxo: TxOut -> int, fee: (seq<TxIn>, seq<TxOut>) -> int)
    requires TransactionBody(senderAddresses, rows, package, minUtxo, fee).Err?
    ensures TransactionBody(senderAddresses, rows, package, minUtxo, fee).error in
      {Raised, CannotAfford, NotEnoughLovelace, NotEnoughForFees}
  {
    if PackageRead(package, |package|) && senderAddresses != [] && rows != [] {
      var g := Target(senderAddresses[0], package, minUtxo);
      if SelectFrom(rows, g, minUtxo, fee, 0).Err? {
        SelectFromErrors(rows, g, minUtxo, fee, 0);
      }
    }
  }
}
