/** The refund transactions of transactions.py: return_all_utxos and
    return_all_registered_utxos send every chosen UTXO back to the address
    that funded it, except one ADA-only UTXO of at least 2 ADA that is kept
    back so that its funder, as change address, pays the network fee.

    A transaction is described by what is handed to `cardano-cli
    transaction build`: the inputs, the outputs with their amounts as the
    row's text, and the change address. The node builds, signs and submits
    it; that part is not modelled. */
module Refunds {
  import opened Outcomes
  import opened Text
  import opened Balances
  import opened Aggregation
  import opened Planner
  import opened Matching

  /** A `--tx-out address+amounts` argument: the amounts keep the row's
      quantity text; the node reads them. */
  datatype Payout = Payout(address: string, amount: seq<Amount>)

  /** The transaction handed to the node: inputs, outputs and the change
      address (`--change-address`), None when no change address is given. */
  datatype Draft = Draft(inputs: seq<TxIn>, outputs: seq<Payout>, change: Option<string>)

  /** The least lovelace of the UTXO kept back to pay the network fee. */
  const CoverLovelace := 2000000

  /** The output refunding a row: its lovelace cell, and for a row of more
      than six cells also the quantity and unit of its first asset. */
  function RefundOf(address: string, row: Row): Payout
    requires |row| >= 3
  {
    if |row| <= 6 then Payout(address, [Amount(Lovelace, row[2])])
    else Payout(address, [Amount(Lovelace, row[2]), Amount(row[6], row[5])])
  }

  /** The row can pay the fee: ADA-only (at most six cells) with at least
      2 ADA. */
  predicate IsCover(row: Row)
  {
    3 <= |row| <= 6 && ParseInt(row[2]).Some? && ParseInt(row[2]).value >= CoverLovelace
  }

  /** The refund loops read a chosen row without an exception: it has its
      input cells, and an ADA-only row a lovelace cell that int() reads. */
  predicate RowReadable(row: Row)
  {
    |row| >= 3 && (|row| <= 6 ==> ParseInt(row[2]).Some?)
  }

  /** Every chosen row among the first n is readable. */
  predicate ChosenReadable(rows: seq<Row>, sel: seq<bool>, n: nat)
    requires |sel| == |rows| && n <= |rows|
  {
    forall i :: 0 <= i < n && sel[i] ==> RowReadable(rows[i])
  }

  /** How many of the first n flags are set. */
  function Count(sel: seq<bool>, n: nat): nat
    requires n <= |sel|
  {
    if n == 0 then 0 else Count(sel, n - 1) + (if sel[n - 1] then 1 else 0)
  }

  /** The tx-in arguments for the chosen rows among the first n, in order. */
  function ChosenInputs(rows: seq<Row>, sel: seq<bool>, n: nat): (r: seq<TxIn>)
    requires |sel| == |rows| && n <= |rows|
    requires forall i :: 0 <= i < n && sel[i] ==> |rows[i]| >= 2
    ensures |r| == Count(sel, n)
  {
    if n == 0 then []
    else ChosenInputs(rows, sel, n - 1) + (if sel[n - 1] then [TxInOf(rows[n - 1])] else [])
  }

  /** The tx-out loop over the first n rows, as written: a chosen cover row
      met while `cover_utxo_address` is still "" gives no output and sets
      it to the row's funding address; every other chosen row is refunded
      to its funding address. */
  function Payouts(rows: seq<Row>, sel: seq<bool>, from: seq<string>, n: nat): (r: (seq<Payout>, string))
    requires |sel| == |rows| && |from| == |rows| && n <= |rows|
    requires ChosenReadable(rows, sel, n)
  {
    if n == 0 then ([], "")
    else
      var prev := Payouts(rows, sel, from, n - 1);
      if !sel[n - 1] then prev
      else if IsCover(rows[n - 1]) && prev.1 == "" then (prev.0, from[n - 1])
      else (prev.0 + [RefundOf(from[n - 1], rows[n - 1])], prev.1)
  }

  /** The whole refund: an exception when a chosen row is unreadable; no
      transaction (`return []`) when no cover row set the change address;
      otherwise every chosen row as input, the refunds as outputs, and the
      cover row's funder as change address. */
  function ReturnPlan(rows: seq<Row>, sel: seq<bool>, from: seq<string>): Result<Option<Draft>>
    requires |sel| == |rows| && |from| == |rows|
  {
    if !ChosenReadable(rows, sel, |rows|) then Err(Raised)
    else
      var p := Payouts(rows, sel, from, |rows|);
      if p.1 == "" then Ok(None)
      else Ok(Some(Draft(ChosenInputs(rows, sel, |rows|), p.0, Some(p.1))))
  }

  /** The first chosen cover row among the first n, -1 when there is none. */
  function FirstCover(rows: seq<Row>, sel: seq<bool>, n: nat): (c: int)
    requires |sel| == |rows| && n <= |rows|
    ensures -1 <= c < n
    ensures c >= 0 ==> sel[c] && IsCover(rows[c])
    ensures forall j :: 0 <= j < n && (c < 0 || j < c) ==> !(sel[j] && IsCover(rows[j]))
  {
    if n == 0 then -1
    else
      var c := FirstCover(rows, sel, n - 1);
      if c >= 0 then c else if sel[n - 1] && IsCover(rows[n - 1]) then n - 1 else -1
  }

  /** The refunds of the chosen rows among the first n, row `skip` left out. */
  function Repayments(rows: seq<Row>, sel: seq<bool>, from: seq<string>, skip: int, n: nat): seq<Payout>
    requires |sel| == |rows| && |from| == |rows| && n <= |rows|
    requires forall i :: 0 <= i < n && sel[i] ==> |rows[i]| >= 3
  {
    if n == 0 then []
    else Repayments(rows, sel, from, skip, n - 1) +
         (if sel[n - 1] && n - 1 != skip then [RefundOf(from[n - 1], rows[n - 1])] else [])
  }

  /** The chosen rows' funding addresses are real addresses, never "". */
  predicate Funded(sel: seq<bool>, from: seq<string>)
    requires |sel| == |from|
  {
    forall i :: 0 <= i < |sel| && sel[i] ==> from[i] != ""
  }

  /** With real funding addresses the loop keeps back exactly the first
      chosen cover row, and refunds every other chosen row. */
  lemma {:induction false} PayoutsKeepFirstCover(rows: seq<Row>, sel: seq<bool>, from: seq<string>, n: nat)
    requires |sel| == |rows| && |from| == |rows| && n <= |rows|
    requires ChosenReadable(rows, sel, n) && Funded(sel, from)
    ensures var c := FirstCover(rows, sel, n);
      && Payouts(rows, sel, from, n).1 == (if c >= 0 then from[c] else "")
      && Payouts(rows, sel, from, n).0 == Repayments(rows, sel, from, c, n)
  {
    if n > 0 {
      PayoutsKeepFirstCover(rows, sel, from, n - 1);
      var c := FirstCover(rows, sel, n - 1);
      if c >= 0 {
        RepaymentsSkipLater(rows, sel, from, c, n, n - 1);
      } else {
        RepaymentsSkipLater(rows, sel, from, -1, n - 1, n - 1);
        RepaymentsSkipLater(rows, sel, from, n - 1, n - 1, n - 1);
      }
    }
  }

  /** Leaving out a row that is not among the first n changes nothing. */
  lemma {:induction false} RepaymentsSkipLater(rows: seq<Row>, sel: seq<bool>, from: seq<string>, skip: int, n: nat, m: nat)
    requires |sel| == |rows| && |from| == |rows| && n <= |rows| && m <= n
    requires forall i :: 0 <= i < n && sel[i] ==> |rows[i]| >= 3
    ensures forall s :: (s < 0 || s >= m) ==> Repayments(rows, sel, from, s, m) == Repayments(rows, sel, from, -1, m)
  {
    if m > 0 {
      RepaymentsSkipLater(rows, sel, from, skip, n, m - 1);
    }
  }

  /** Each chosen row other than `skip` is refunded to its funding address,
      every output is such a refund, and there is one per such row. */
  lemma {:induction false} RepaymentsMembers(rows: seq<Row>, sel: seq<bool>, from: seq<string>, skip: int, n: nat)
    requires |sel| == |rows| && |from| == |rows| && n <= |rows|
    requires forall i :: 0 <= i < n && sel[i] ==> |rows[i]| >= 3
    ensures forall i :: 0 <= i < n && sel[i] && i != skip ==> RefundOf(from[i], rows[i]) in Repayments(rows, sel, from, skip, n)
    ensures forall o :: o in Repayments(rows, sel, from, skip, n) ==>
      exists i :: 0 <= i < n && sel[i] && i != skip && o == RefundOf(from[i], rows[i])
    ensures |Repayments(rows, sel, from, skip, n)| == Count(sel, n) - (if 0 <= skip < n && sel[skip] then 1 else 0)
  {
    if n > 0 {
      RepaymentsMembers(rows, sel, from, skip, n - 1);
    }
  }

  /** Each chosen row is an input, every input is a chosen row's. */
  lemma {:induction false} ChosenInputsMembers(rows: seq<Row>, sel: seq<bool>, n: nat)
    requires |sel| == |rows| && n <= |rows|
    requires forall i :: 0 <= i < n && sel[i] ==> |rows[i]| >= 2
    ensures forall i :: 0 <= i < n && sel[i] ==> TxInOf(rows[i]) in ChosenInputs(rows, sel, n)
    ensures forall x :: x in ChosenInputs(rows, sel, n) ==> exists i :: 0 <= i < n && sel[i] && x == TxInOf(rows[i])
  {
    if n > 0 {
      ChosenInputsMembers(rows, sel, n - 1);
    }
  }

  /** What a refund promises, when the chosen rows' funding addresses are
      real: it fails only on an unreadable chosen row; it builds nothing
      exactly when no chosen row is ADA-only with at least 2 ADA; otherwise
      every chosen row is an input, the first such cover row gets no output
      and its funder is the change address, and every other chosen row gets
      one output, to its own funding address. */
  lemma ReturnPlanSpec(rows: seq<Row>, sel: seq<bool>, from: seq<string>)
    requires |sel| == |rows| && |from| == |rows| && Funded(sel, from)
    ensures ReturnPlan(rows, sel, from).Err? <==> !ChosenReadable(rows, sel, |rows|)
    ensures ReturnPlan(rows, sel, from) == Ok(None) <==>
      ChosenReadable(rows, sel, |rows|) && forall i :: 0 <= i < |rows| && sel[i] ==> !IsCover(rows[i])
    ensures ReturnPlan(rows, sel, from).Ok? && ReturnPlan(rows, sel, from).value.Some? ==>
      var d := ReturnPlan(rows, sel, from).value.value;
      var c := FirstCover(rows, sel, |rows|);
      && 0 <= c && d.change == Some(from[c])
      && (forall j :: 0 <= j < c ==> !(sel[j] && IsCover(rows[j])))
      && |d.inputs| == Count(sel, |rows|)
      && (forall i :: 0 <= i < |rows| && sel[i] ==> TxInOf(rows[i]) in d.inputs)
      && (forall x :: x in d.inputs ==> exists i :: 0 <= i < |rows| && sel[i] && x == TxInOf(rows[i]))
      && |d.outputs| == Count(sel, |rows|) - 1
      && (forall i :: 0 <= i < |rows| && sel[i] && i != c ==> RefundOf(from[i], rows[i]) in d.outputs)
      && (forall o :: o in d.outputs ==> exists i :: 0 <= i < |rows| && sel[i] && i != c && o == RefundOf(from[i], rows[i]))
  {
    if ChosenReadable(rows, sel, |rows|) {
      PayoutsKeepFirstCover(rows, sel, from, |rows|);
      var c := FirstCover(rows, sel, |rows|);
      if c >= 0 {
        assert from[c] != "";
        RepaymentsMembers(rows, sel, from, c, |rows|);
        ChosenInputsMembers(rows, sel, |rows|);
      }
    }
  }

  // ---------------------------------------------------------------------
  // Where the value goes

  /** The node's usual rows: the lovelace pair first, and at most one asset
      pair before the datum part, all quantities readable. */
  predicate Standard(row: Row)
  {
    && 4 <= |row| && row[3] == Lovelace && ParseInt(row[2]).Some?
    && (|row| > 6 ==> |row| <= 9 && row[5] != DatumHashSentinel)
    && RowAmounts(row).Ok?
  }

  /** Unit u in a row, as add_utxo_to_dict reads it. */
  function RowValue(row: Row, u: string): int
  {
    if RowAmounts(row).Ok? then UnitSum(RowAmounts(row).value, u) else 0
  }

  /** Unit u in an output, as the node reads its amounts. */
  function PayoutValue(o: Payout, u: string): int
  {
    if ReadAmounts(o.amount, |o.amount|).Ok? then UnitSum(ReadAmounts(o.amount, |o.amount|).value, u) else 0
  }

  /** Unit u summed over outputs. */
  function PayoutsValue(outs: seq<Payout>, u: string): int
  {
    if outs == [] then 0 else PayoutsValue(outs[..|outs| - 1], u) + PayoutValue(outs[|outs| - 1], u)
  }

  /** Unit u summed over the chosen rows among the first n. */
  function ChosenValue(rows: seq<Row>, sel: seq<bool>, n: nat, u: string): int
    requires |sel| == |rows| && n <= |rows|
  {
    if n == 0 then 0 else ChosenValue(rows, sel, n - 1, u) + (if sel[n - 1] then RowValue(rows[n - 1], u) else 0)
  }

  /** The refund of a usual row carries exactly what the row holds. */
  lemma RefundCarriesRow(address: string, row: Row)
    requires Standard(row)
    ensures ReadAmounts(RefundOf(address, row).amount, |RefundOf(address, row).amount|) == RowAmounts(row)
  {
    var q := ParseInt(row[2]).value;
    assert ParseInt(DatumHashSentinel).None?;
    var a := RefundOf(address, row).amount;
    assert ReadAmounts(a, 0) == Ok([]);
    assert ReadAmounts(a, 1).Ok? && ReadAmounts(a, 1).value == [Entry(Lovelace, q)];
    if |row| <= 6 {
      assert AmountsFrom(row, 1) == Ok([]);
      assert AmountsFrom(row, 0).Ok? && AmountsFrom(row, 0).value == [Entry(row[3], q)];
    } else {
      assert AmountsFrom(row, 1).Ok?;
      var q5 := ParseInt(row[5]).value;
      assert AmountsFrom(row, 2) == Ok([]);
      assert AmountsFrom(row, 1).value == [Entry(row[6], q5)];
      assert AmountsFrom(row, 0).Ok? && AmountsFrom(row, 0).value == [Entry(row[3], q), Entry(row[6], q5)];
      assert ReadAmounts(a, 2).Ok? && ReadAmounts(a, 2).value == [Entry(Lovelace, q), Entry(row[6], q5)];
    }
  }

  /** Per unit, the refund of a usual row is worth the row. */
  lemma RefundValue(address: string, row: Row, u: string)
    requires Standard(row)
    ensures PayoutValue(RefundOf(address, row), u) == RowValue(row, u)
  {
    RefundCarriesRow(address, row);
  }

  lemma PayoutsValueSnoc(outs: seq<Payout>, o: Payout, u: string)
    ensures PayoutsValue(outs + [o], u) == PayoutsValue(outs, u) + PayoutValue(o, u)
  {
    assert (outs + [o])[..|outs|] == outs;
  }

  /** Over usual rows, the refunds carry, per unit, what the chosen rows
      hold except the row left out. */
  lemma {:induction false} RepaymentsValue(rows: seq<Row>, sel: seq<bool>, from: seq<string>, skip: int, n: nat, u: string)
    requires |sel| == |rows| && |from| == |rows| && n <= |rows|
    requires forall i :: 0 <= i < n && sel[i] ==> |rows[i]| >= 3 && Standard(rows[i])
    ensures ChosenValue(rows, sel, n, u) ==
      PayoutsValue(Repayments(rows, sel, from, skip, n), u) + (if 0 <= skip < n && sel[skip] then RowValue(rows[skip], u) else 0)
  {
    if n > 0 {
      RepaymentsValue(rows, sel, from, skip, n - 1, u);
      var prev := Repayments(rows, sel, from, skip, n - 1);
      var row := rows[n - 1];
      if sel[n - 1] && n - 1 != skip {
        var o := RefundOf(from[n - 1], row);
        assert Repayments(rows, sel, from, skip, n) == prev + [o];
        PayoutsValueSnoc(prev, o, u);
        RefundValue(from[n - 1], row, u);
      } else {
        assert Repayments(rows, sel, from, skip, n) == prev + [] == prev;
      }
    }
  }

  /** When every chosen row is a usual one, the refund outputs carry, per
      unit, exactly what the chosen rows hold less the cover row, whose
      value goes to the change address with the fee taken out. */
  lemma ReturnPlanValue(rows: seq<Row>, sel: seq<bool>, from: seq<string>, u: string)
    requires |sel| == |rows| && |from| == |rows| && Funded(sel, from)
    requires forall i :: 0 <= i < |rows| && sel[i] ==> Standard(rows[i])
    requires ReturnPlan(rows, sel, from).Ok? && ReturnPlan(rows, sel, from).value.Some?
    ensures var c := FirstCover(rows, sel, |rows|);
      && 0 <= c
      && ChosenValue(rows, sel, |rows|, u) ==
         PayoutsValue(ReturnPlan(rows, sel, from).value.value.outputs, u) + RowValue(rows[c], u)
  {
    PayoutsKeepFirstCover(rows, sel, from, |rows|);
    RepaymentsValue(rows, sel, from, FirstCover(rows, sel, |rows|), |rows|, u);
  }

  /** A UTXO with two assets is refunded with its first asset only: the
      second one is left to the change address. */
  lemma RefundDropsSecondAsset()
    ensures var row := ["h", "0", "8", Lovelace, "+", "5", "p.a", "+", "7", "p.b", "+", "TxOutDatumNone"];
      && RowAmounts(row).Ok?
      && RowAmounts(row).value == [Entry(Lovelace, 8), Entry("p.a", 5), Entry("p.b", 7)]
      && ReadAmounts(RefundOf("addr", row).amount, 2).Ok?
      && ReadAmounts(RefundOf("addr", row).amount, 2).value == [Entry(Lovelace, 8), Entry("p.a", 5)]
  {
    var row := ["h", "0", "8", Lovelace, "+", "5", "p.a", "+", "7", "p.b", "+", "TxOutDatumNone"];
    assert ParseInt("7") == Some(7);
    assert ParseInt("5") == Some(5);
    assert ParseInt("8") == Some(8);
    assert AmountsFrom(row, 3) == Ok([]);
    assert AmountsFrom(row, 2).Ok? && AmountsFrom(row, 2).value == [Entry("p.b", 7)];
    assert AmountsFrom(row, 1).Ok? && AmountsFrom(row, 1).value == [Entry("p.a", 5), Entry("p.b", 7)];
    var a := RefundOf("addr", row).amount;
    assert ReadAmounts(a, 0) == Ok([]);
    assert ReadAmounts(a, 1).Ok? && ReadAmounts(a, 1).value == [Entry(Lovelace, 8)];
  }

  // ---------------------------------------------------------------------
  // The loops

  /** The tx-in loop: `txhash#index` of every chosen row, in order; a
      chosen row without an index cell raises. */
  method ChosenTxIns(rows: seq<Row>, sel: seq<bool>) returns (r: Result<seq<TxIn>>)
    requires |sel| == |rows|
    ensures r.Err? <==> exists i :: 0 <= i < |rows| && sel[i] && |rows[i]| < 2
    ensures r.Err? ==> r.error == Raised
    ensures r.Ok? ==> r.value == ChosenInputs(rows, sel, |rows|)
  {
    var inputs: seq<TxIn> := [];
    var i := 0;
    while i < |rows|
      invariant 0 <= i <= |rows|
      invariant forall j :: 0 <= j < i && sel[j] ==> |rows[j]| >= 2
      invariant inputs == ChosenInputs(rows, sel, i)
    {
      if sel[i] {
        if |rows[i]| < 2 {
          return Err(Raised);
        }
        inputs := inputs + [TxInOf(rows[i])];
      }
      i := i + 1;
    }
    return Ok(inputs);
  }

  /** The tx-out loop with the cover search: the refund outputs and
      `cover_utxo_address`. */
  method RefundOutputs(rows: seq<Row>, sel: seq<bool>, from: seq<string>) returns (r: Result<(seq<Payout>, string)>)
    requires |sel| == |rows| && |from| == |rows|
    ensures r.Err? <==> !ChosenReadable(rows, sel, |rows|)
    ensures r.Err? ==> r.error == Raised
    ensures r.Ok? ==> r.value == Payouts(rows, sel, from, |rows|)
  {
    var outputs: seq<Payout> := [];
    var coverAddress := "";
    var i := 0;
    while i < |rows|
      invariant 0 <= i <= |rows|
      invariant ChosenReadable(rows, sel, i)
      invariant (outputs, coverAddress) == Payouts(rows, sel, from, i)
    {
      if sel[i] {
        var utxo := rows[i];
        if |utxo| <= 6 {
          if |utxo| < 3 {
            return Err(Raised);
          }
          var q := ParseInt(utxo[2]);
          if q.None? {
            return Err(Raised);
          }
          if q.value >= CoverLovelace && coverAddress == "" {
            coverAddress := from[i];
            i := i + 1;
            continue;
          }
        }
        outputs := outputs + [RefundOf(from[i], utxo)];
      }
      i := i + 1;
    }
    return Ok((outputs, coverAddress));
  }

  /** The two loops over the chosen rows, then the `return []` exit when no
      cover row was found. */
  method PlanReturn(rows: seq<Row>, sel: seq<bool>, from: seq<string>) returns (r: Result<Option<Draft>>)
    requires |sel| == |rows| && |from| == |rows|
    ensures r == ReturnPlan(rows, sel, from)
  {
    var inputs := ChosenTxIns(rows, sel);
    if inputs.Err? {
      return Err(Raised);
    }
    var outs := RefundOutputs(rows, sel, from);
    if outs.Err? {
      return Err(Raised);
    }
    var (outputs, coverAddress) := outs.value;
    if coverAddress == "" {
      return Ok(None);
    }
    return Ok(Some(Draft(inputs.value, outputs, Some(coverAddress))));
  }

  /** Every row chosen. */
  function AllChosen(n: nat): (sel: seq<bool>)
    ensures |sel| == n && forall i :: 0 <= i < n ==> sel[i]
  {
    seq(n, _ => true)
  }

  /** The funding address of every row: the first input address of the
      transaction that created it. */
  function Fundings(rows: seq<Row>, chain: Ledger): (r: seq<string>)
    ensures |r| == |rows| && forall i :: 0 <= i < |rows| ==> r[i] == chain.fundingOf(TxHash(rows[i]))
  {
    seq(|rows|, i requires 0 <= i < |rows| => chain.fundingOf(TxHash(rows[i])))
  }

  /** `return_all_utxos(payment_address, signing_key_path)`, with the
      address's rows given: every row is refunded to its funding address
      but the cover row. */
  method ReturnAllUtxos(rows: seq<Row>, chain: Ledger) returns (r: Result<Option<Draft>>)
    ensures r == ReturnPlan(rows, AllChosen(|rows|), Fundings(rows, chain))
  {
    var from := seq(|rows|, _ => "");
    var i := 0;
    while i < |rows|
      invariant 0 <= i <= |rows| && |from| == |rows|
      invariant forall j :: 0 <= j < i ==> |rows[j]| > 0 && from[j] == chain.fundingOf(TxHash(rows[j]))
    {
      if |rows[i]| == 0 {
        assert !RowReadable(rows[i]);
        return Err(Raised);
      }
      from := from[i := chain.fundingOf(rows[i][0])];
      i := i + 1;
    }
    assert from == Fundings(rows, chain);
    r := PlanReturn(rows, AllChosen(|rows|), from);
  }

  /** The rows whose funding address's stake address is in the list. */
  function Registry(rows: seq<Row>, stakes: seq<string>, chain: Ledger): (sel: seq<bool>)
    ensures |sel| == |rows|
    ensures forall i :: 0 <= i < |rows| ==> sel[i] == (chain.stakeOf(chain.fundingOf(TxHash(rows[i]))) in stakes)
  {
    seq(|rows|, i requires 0 <= i < |rows| => chain.stakeOf(chain.fundingOf(TxHash(rows[i]))) in stakes)
  }

  /** from_address: the funding address of a registered row, "" for the others. */
  function RegisteredFrom(rows: seq<Row>, stakes: seq<string>, chain: Ledger): (r: seq<string>)
    ensures |r| == |rows|
    ensures forall i :: 0 <= i < |rows| ==>
      r[i] == if Registry(rows, stakes, chain)[i] then chain.fundingOf(TxHash(rows[i])) else ""
  {
    seq(|rows|, i requires 0 <= i < |rows| =>
      if chain.stakeOf(chain.fundingOf(TxHash(rows[i]))) in stakes then chain.fundingOf(TxHash(rows[i])) else "")
  }

  /** `return_all_registered_utxos(payment_address, signing_key_path,
      stake_list)`: the same refund over the rows funded from a listed
      stake address; the lookup loop reads the hash of every row. */
  method ReturnAllRegisteredUtxos(rows: seq<Row>, stakes: seq<string>, chain: Ledger) returns (r: Result<Option<Draft>>)
    ensures r == if exists i :: 0 <= i < |rows| && |rows[i]| == 0 then Err(Raised)
                 else ReturnPlan(rows, Registry(rows, stakes, chain), RegisteredFrom(rows, stakes, chain))
  {
    var marks := seq(|rows|, _ => false);
    var from := seq(|rows|, _ => "");
    var i := 0;
    while i < |rows|
      invariant 0 <= i <= |rows| && |marks| == |rows| && |from| == |rows|
      invariant forall j :: 0 <= j < i ==> |rows[j]| > 0
      invariant forall j :: 0 <= j < |rows| ==> marks[j] == (j < i && Registry(rows, stakes, chain)[j])
      invariant forall j :: 0 <= j < |rows| ==> from[j] == if j < i then RegisteredFrom(rows, stakes, chain)[j] else ""
    {
      if |rows[i]| == 0 {
        return Err(Raised);
      }
      var sender := chain.fundingOf(rows[i][0]);
      if chain.stakeOf(sender) in stakes {
        marks := marks[i := true];
        from := from[i := sender];
      }
      i := i + 1;
    }
    assert marks == Registry(rows, stakes, chain);
    assert from == RegisteredFrom(rows, stakes, chain);
    r := PlanReturn(rows, marks, from);
  }
}
