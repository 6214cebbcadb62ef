/** The handlers of rest-api.py built on the core: the two UTXO listings
    with their datum hashes, the trade refund, the two trade
    finalizers, the transaction-body request with its unit rewriting, and
    the search for a confirmed outgoing transaction. The request's JSON,
    the signing-key files and the node are outside the model: each handler
    takes the query's rows and the ledger lookups, and returns the
    transaction it hands to the node. */
module Handlers {
  import opened Outcomes
  import opened Text
  import opened Balances
  import opened Aggregation
  import opened Planner
  import opened Matching
  import opened Refunds
  import opened Transfers

  // ---------------------------------------------------------------------
  // Listing the UTXOs of an address or a stake address

  /** One UTXO as the listing handlers answer it: transaction hash and index,
      the amounts with their quantities as text, and the datum hash when the
      row carries one. */
  datatype UtxoView = UtxoView(txHash: string, txIndex: string, amount: seq<Amount>, datumHash: Option<string>)

  /** The datum hash the scan from pair k onwards meets: the row's last cell
      with its quotes stripped, once a pair's quantity cell is the marker. */
  function DatumFrom(row: Row, k: nat): Option<string>
    decreases |row| - 3 * k
  {
    if 3 * k + 3 >= |row| then None
    else if QuantityCell(row, k) == DatumHashSentinel then Some(StripQuotes(row[|row| - 1]))
    else DatumFrom(row, k + 1)
  }

  /** Records as JSON amounts, each quantity written with str(). */
  function Shown(es: seq<Entry>): seq<Amount>
  {
    if es == [] then []
    else Shown(es[..|es| - 1]) + [Amount(es[|es| - 1].unit, ShowInt(es[|es| - 1].quantity))]
  }

  /** What a listing handler answers for one row: indexing the hash and the
      index cells raises on a row shorter than two cells, and the amounts
      are the dict the handler's own copy of add_utxo_to_dict builds from
      `{}`, listed in key order. */
  function ViewOf(row: Row): Result<UtxoView>
  {
    if |row| < 2 then Err(Raised)
    else match RowAmounts(row)
      case Err(_) => Err(Raised)
      case Ok(es) => Ok(UtxoView(row[0], row[1], Shown(Records(AddAll(Empty, es))), DatumFrom(row, 0)))
  }

  /** One row of `query_utxo_handler`: the pairs are summed into a dict,
      which is then written out key by key. */
  method ViewRow(row: Row) returns (r: Result<UtxoView>)
    ensures r == ViewOf(row)
  {
    if |row| < 2 {
      return Err(Raised);
    }
    var d, datumHash := SumPairs(row);
    if d.Err? {
      return Err(d.error);
    }
    var amount := ShowAll(d.value);
    return Ok(UtxoView(row[0], row[1], amount, datumHash));
  }

  /** The handler's inline copy of add_utxo_to_dict, from `{}`: the pairs are
      summed until the datum marker, where the datum hash is taken from the
      row's last cell. */
  method SumPairs(row: Row) returns (r: Result<Balance>, datumHash: Option<string>)
    ensures RowAmounts(row).Err? ==> r == Err(Raised)
    ensures RowAmounts(row).Ok? ==> r == Ok(AddAll(Empty, RowAmounts(row).value))
    ensures RowAmounts(row).Ok? ==> datumHash == DatumFrom(row, 0)
  {
    var cur := Empty;
    datumHash := None;
    ghost var done: seq<Entry> := [];
    var k := 0;
    PrependNothing(RowAmounts(row));
    while 3 * k + 3 < |row|
      invariant Valid(cur) && cur == AddAll(Empty, done)
      invariant RowAmounts(row) == Prepend(done, AmountsFrom(row, k))
      invariant DatumFrom(row, 0) == DatumFrom(row, k)
      invariant datumHash == None
      decreases |row| - 3 * k
    {
      var unit := row[3 * k + 3];
      var quantity := row[3 * k + 2];
      if quantity == DatumHashSentinel {
        datumHash := Some(StripQuotes(row[|row| - 1]));
        break;
      }
      var q := ParseInt(quantity);
      if q.None? {
        PairRaises(row, k, done);
        return Err(Raised), None;
      }
      PairTaken(Empty, row, k, done);
      cur := Add(cur, unit, q.value);
      done := done + [Entry(unit, q.value)];
      k := k + 1;
    }
    PairsEnd(row, k, done);
    r := Ok(cur);
  }

  /** `for key in _dict: amount.append({'unit': key, 'quantity': str(_dict[key])})` */
  method ShowAll(b: Balance) returns (amount: seq<Amount>)
    requires Valid(b)
    ensures amount == Shown(Records(b))
  {
    amount := [];
    var i := 0;
    while i < |b.units|
      invariant 0 <= i <= |b.units|
      invariant amount == Shown(RecordsUpTo(b, i))
    {
      var key := b.units[i];
      ghost var prev := RecordsUpTo(b, i);
      assert RecordsUpTo(b, i + 1) == prev + [Entry(key, b.qty[key])];
      assert (prev + [Entry(key, b.qty[key])])[..|prev|] == prev;
      amount := amount + [Amount(key, ShowInt(b.qty[key]))];
      i := i + 1;
    }
  }

  /** `query_utxo_handler` and `query_utxo_by_stake_address_handler`: one
      view per row of the query, in the query's order; a row that raises
      fails the whole request. */
  method ListUtxos(rows: seq<Row>) returns (r: Result<seq<UtxoView>>)
    ensures r.Err? <==> exists i :: 0 <= i < |rows| && ViewOf(rows[i]).Err?
    ensures r.Ok? ==> |r.value| == |rows| && forall i :: 0 <= i < |rows| ==> ViewOf(rows[i]) == Ok(r.value[i])
  {
    var views: seq<UtxoView> := [];
    var i := 0;
    while i < |rows|
      invariant 0 <= i <= |rows| && |views| == i
      invariant forall j :: 0 <= j < i ==> ViewOf(rows[j]) == Ok(views[j])
    {
      var v := ViewRow(rows[i]);
      if v.Err? {
        return Err(v.error);
      }
      views := views + [v.value];
      i := i + 1;
    }
    return Ok(views);
  }

  /** The amounts a view lists read back, through int(), as the records of
      the dict, each key once, with the dict's own quantities. */
  lemma ViewReadsBack(row: Row)
    requires ViewOf(row).Ok?
    ensures var b := AddAll(Empty, RowAmounts(row).value);
      ReadAmounts(ViewOf(row).value.amount, |ViewOf(row).value.amount|) == Ok(Records(b))
  {
    var es := Records(AddAll(Empty, RowAmounts(row).value));
    ReadShown(es, |es|);
    assert es[..|es|] == es;
  }

  /** The first n shown amounts read back as the first n records. */
  lemma {:induction false} ReadShown(es: seq<Entry>, n: nat)
    requires n <= |es|
    ensures |Shown(es)| == |es|
    ensures ReadAmounts(Shown(es), n) == Ok(es[..n])
  {
    ShownLength(es);
    if n > 0 {
      ReadShown(es, n - 1);
      ShownAt(es, n - 1);
      var e := es[n - 1];
      ParseShowInt(e.quantity);
      assert ReadAmounts(Shown(es), n) == Ok(es[..n - 1] + [Entry(e.unit, e.quantity)]);
      assert es[..n] == es[..n - 1] + [e];
    }
  }

  lemma {:induction false} ShownLength(es: seq<Entry>)
    ensures |Shown(es)| == |es|
  {
    if es != [] {
      ShownLength(es[..|es| - 1]);
    }
  }

  /** Amount i of Shown is record i, unit copied and quantity written. */
  lemma {:induction false} ShownAt(es: seq<Entry>, i: nat)
    requires i < |es|
    ensures |Shown(es)| == |es|
    ensures Shown(es)[i] == Amount(es[i].unit, ShowInt(es[i].quantity))
  {
    ShownLength(es);
    if i < |es| - 1 {
      var init := es[..|es| - 1];
      ShownLength(init);
      ShownAt(init, i);
      assert es[i] == init[i];
    }
  }

  /** A view carries a datum hash exactly when the reading of its amounts
      stopped at the marker rather than at the end of the row, and the hash
      then has no quote at either end. */
  lemma ViewDatum(row: Row)
    requires ViewOf(row).Ok?
    ensures var n := |RowAmounts(row).value|;
      ViewOf(row).value.datumHash.Some? <==> 3 * n + 3 < |row| && QuantityCell(row, n) == DatumHashSentinel
    ensures ViewOf(row).value.datumHash.Some? ==>
      ViewOf(row).value.datumHash == Some(StripQuotes(row[|row| - 1]))
  {
    DatumStops(row, 0);
  }

  lemma {:induction false} DatumStops(row: Row, m: nat)
    requires AmountsFrom(row, m).Ok?
    ensures var n := m + |AmountsFrom(row, m).value|;
      DatumFrom(row, m).Some? <==> 3 * n + 3 < |row| && QuantityCell(row, n) == DatumHashSentinel
    ensures DatumFrom(row, m).Some? ==> DatumFrom(row, m) == Some(StripQuotes(row[|row| - 1]))
    decreases |row| - 3 * m
  {
    if 3 * m + 3 < |row| && QuantityCell(row, m) != DatumHashSentinel {
      DatumStops(row, m + 1);
      assert |AmountsFrom(row, m).value| == 1 + |AmountsFrom(row, m + 1).value|;
    }
  }

  // ---------------------------------------------------------------------
  // What the matcher returns

  /** check_buyer_and_seller raises on one of the rows. */
  predicate MatcherRaises(rows: seq<Row>, buyerStakes: Option<seq<string>>, chain: Ledger)
  {
    exists i :: 0 <= i < |rows| && CliRowFails(rows[i], buyerStakes, chain)
  }

  /** What check_buyer_and_seller returns when it does not raise. */
  function Registration(rows: seq<Row>, buyerStakes: seq<string>, sellerStakes: seq<string>,
                        buy: Listing, sell: Listing, chain: Ledger): (reg: Registered)
    ensures |reg.marks| == |rows| && |reg.fromAddress| == |rows|
  {
    Registered(
      PartiesOf(Hashes(rows), CliBuyerFlags(rows, Some(buyerStakes), CliForm(buy), chain),
                CliSellerFlags(rows, Some(sellerStakes), CliForm(sell), chain), chain),
      MarksUpTo(Hashes(rows), |rows|, buyerStakes, sellerStakes, chain),
      FromUpTo(Hashes(rows), |rows|, buyerStakes, sellerStakes, chain))
  }

  /** The parties check_buyer_and_seller_without_stake_address finds. */
  function Attribution(rows: seq<Row>, buy: Listing, sell: Listing, chain: Ledger): Parties
  {
    PartiesOf(Hashes(rows), CliBuyerFlags(rows, None, CliForm(buy), chain),
              CliSellerFlags(rows, None, CliForm(sell), chain), chain)
  }

  // ---------------------------------------------------------------------
  // trade_return_all_utxos_handler

  /** The registered rows the buyer-only refund pays back: all but those
      of the buyer's payment transaction. */
  function Returned(rows: seq<Row>, sel: seq<bool>, adaTx: string): (r: seq<bool>)
    requires |sel| == |rows|
    ensures |r| == |rows|
    ensures forall i :: 0 <= i < |rows| ==> r[i] == (sel[i] && TxHash(rows[i]) != adaTx)
  {
    seq(|rows|, i requires 0 <= i < |rows| => sel[i] && TxHash(rows[i]) != adaTx)
  }

  /** The trade refund once the matcher has run: the registered rows are
      the inputs, and no transaction is built without one. When only the
      buyer's payment was found, every other registered row goes back to
      its funder and the buyer, as change address, gets the payment less
      the fee; when neither side was found, the rows go back as in
      return_all_registered_utxos; once the seller's delivery is found the
      handler gives no outputs and no change address. */
  function TradeReturnPlan(rows: seq<Row>, reg: Registered): Result<Option<Draft>>
    requires |reg.marks| == |rows| && |reg.fromAddress| == |rows|
    requires forall i :: 0 <= i < |rows| ==> |rows[i]| > 0
  {
    var sel := reg.marks;
    var p := reg.parties;
    if exists i :: 0 <= i < |rows| && sel[i] && |rows[i]| < 2 then Err(Raised)
    else if Count(sel, |rows|) == 0 then Ok(None)
    else if p.buyerAddress != "" && p.sellerAddress == "" then
      var back := Returned(rows, sel, p.adaTx);
      if exists i :: 0 <= i < |rows| && back[i] && |rows[i]| < 3 then Err(Raised)
      else Ok(Some(Draft(ChosenInputs(rows, sel, |rows|), Repayments(rows, back, reg.fromAddress, -1, |rows|),
                         Some(p.buyerAddress))))
    else if p.buyerAddress == "" && p.sellerAddress == "" then ReturnPlan(rows, sel, reg.fromAddress)
    else Ok(Some(Draft(ChosenInputs(rows, sel, |rows|), [], None)))
  }

  /** The buyer-only tx-out loop: rows of the payment transaction are
      skipped, every other registered row is refunded to its funder. */
  method BuyerRefunds(rows: seq<Row>, sel: seq<bool>, from: seq<string>, adaTx: string) returns (r: Result<seq<Payout>>)
    requires |sel| == |rows| && |from| == |rows|
    requires forall i :: 0 <= i < |rows| ==> |rows[i]| > 0
    ensures r.Err? <==> exists i :: 0 <= i < |rows| && Returned(rows, sel, adaTx)[i] && |rows[i]| < 3
    ensures r.Err? ==> r.error == Raised
    ensures r.Ok? ==> (forall i :: 0 <= i < |rows| && Returned(rows, sel, adaTx)[i] ==> |rows[i]| >= 3)
                      && r.value == Repayments(rows, Returned(rows, sel, adaTx), from, -1, |rows|)
  {
    ghost var back := Returned(rows, sel, adaTx);
    var outputs: seq<Payout> := [];
    var i := 0;
    while i < |rows|
      invariant 0 <= i <= |rows|
      invariant forall j :: 0 <= j < i && back[j] ==> |rows[j]| >= 3
      invariant outputs == Repayments(rows, back, from, -1, i)
    {
      var utxo := rows[i];
      if utxo[0] == adaTx {
        i := i + 1;
        continue;
      }
      if sel[i] {
        if |utxo| < 3 {
          return Err(Raised);
        }
        outputs := outputs + [RefundOf(from[i], utxo)];
      }
      i := i + 1;
    }
    return Ok(outputs);
  }

  /** The trade refund after the matcher: the tx-in loop, the exit without
      inputs, and the branch on which sides were found. */
  method PlanTradeReturn(rows: seq<Row>, reg: Registered) returns (r: Result<Option<Draft>>)
    requires |reg.marks| == |rows| && |reg.fromAddress| == |rows|
    requires forall i :: 0 <= i < |rows| ==> |rows[i]| > 0
    ensures r == TradeReturnPlan(rows, reg)
  {
    var p := reg.parties;
    var buyerCheck := p.buyerAddress != "";
    var sellerCheck := p.sellerAddress != "";
    var inputs := ChosenTxIns(rows, reg.marks);
    if inputs.Err? {
      return Err(Raised);
    }
    if |inputs.value| == 0 {
      return Ok(None);
    }
    if buyerCheck && !sellerCheck {
      var outputs := BuyerRefunds(rows, reg.marks, reg.fromAddress, p.adaTx);
      if outputs.Err? {
        return Err(Raised);
      }
      return Ok(Some(Draft(inputs.value, outputs.value, Some(p.buyerAddress))));
    } else if !buyerCheck && !sellerCheck {
      var outs := RefundOutputs(rows, reg.marks, reg.fromAddress);
      if outs.Err? {
        return Err(Raised);
      }
      var (outputs, coverAddress) := outs.value;
      if coverAddress == "" {
        return Ok(None);
      }
      return Ok(Some(Draft(inputs.value, outputs, Some(coverAddress))));
    }
    return Ok(Some(Draft(inputs.value, [], None)));
  }

  /** `trade_return_all_utxos_handler`, with the middle wallet's rows, the
      two stake lists and the two listings given. */
  method TradeReturnAllUtxos(rows: seq<Row>, buyerStakes: seq<string>, sellerStakes: seq<string>,
                             buy: Listing, sell: Listing, chain: Ledger) returns (r: Result<Option<Draft>>)
    ensures r == if MatcherRaises(rows, Some(buyerStakes), chain) then Err(Raised)
                 else TradeReturnPlan(rows, Registration(rows, buyerStakes, sellerStakes, buy, sell, chain))
  {
    var m := CheckBuyerAndSeller(rows, buyerStakes, sellerStakes, buy, sell, chain);
    if m.Err? {
      return Err(Raised);
    }
    assert m.value == Registration(rows, buyerStakes, sellerStakes, buy, sell, chain);
    r := PlanTradeReturn(rows, m.value);
  }

  /** When only the buyer's payment was found, the refund spends every
      registered row, pays each registered row back to its funder except
      the rows of the payment transaction, and leaves the rest, the
      payment less the fee, to the buyer. */
  lemma BuyerOnlyRefund(rows: seq<Row>, reg: Registered)
    requires |reg.marks| == |rows| && |reg.fromAddress| == |rows|
    requires forall i :: 0 <= i < |rows| ==> |rows[i]| > 0
    requires reg.parties.buyerAddress != "" && reg.parties.sellerAddress == ""
    requires TradeReturnPlan(rows, reg).Ok? && Count(reg.marks, |rows|) > 0
    ensures TradeReturnPlan(rows, reg).value.Some?
    ensures var d := TradeReturnPlan(rows, reg).value.value;
      var p := reg.parties;
      && d.change == Some(p.buyerAddress)
      && |d.inputs| == Count(reg.marks, |rows|)
      && (forall i :: 0 <= i < |rows| && reg.marks[i] ==> TxInOf(rows[i]) in d.inputs)
      && (forall i :: 0 <= i < |rows| && reg.marks[i] && TxHash(rows[i]) != p.adaTx ==>
            RefundOf(reg.fromAddress[i], rows[i]) in d.outputs)
      && (forall o :: o in d.outputs ==>
            exists i :: 0 <= i < |rows| && reg.marks[i] && TxHash(rows[i]) != p.adaTx && o == RefundOf(reg.fromAddress[i], rows[i]))
      && |d.outputs| == Count(Returned(rows, reg.marks, p.adaTx), |rows|)
  {
    var back := Returned(rows, reg.marks, reg.parties.adaTx);
    RepaymentsMembers(rows, back, reg.fromAddress, -1, |rows|);
    ChosenInputsMembers(rows, reg.marks, |rows|);
  }

  /** Once the seller's delivery is found the refund has registered inputs
      but neither outputs nor a change address. */
  lemma SellerFoundRefund(rows: seq<Row>, reg: Registered)
    requires |reg.marks| == |rows| && |reg.fromAddress| == |rows|
    requires forall i :: 0 <= i < |rows| ==> |rows[i]| > 0
    requires reg.parties.sellerAddress != ""
    requires TradeReturnPlan(rows, reg).Ok? && Count(reg.marks, |rows|) > 0
    ensures TradeReturnPlan(rows, reg).value.Some?
    ensures var d := TradeReturnPlan(rows, reg).value.value;
      && d.outputs == [] && d.change.None? && |d.inputs| == Count(reg.marks, |rows|)
      && forall i :: 0 <= i < |rows| && reg.marks[i] ==> TxInOf(rows[i]) in d.inputs
  {
    ChosenInputsMembers(rows, reg.marks, |rows|);
  }

  // ---------------------------------------------------------------------
  // The service fee

  type Positive = n: int | n > 0 witness 1

  /** `service_rate` as the exact fraction num / den. */
  datatype Rate = Rate(num: int, den: Positive)

  /** The least service fee, one ada. */
  const ServiceFloor := 1000000

  /** Listings up to 20 ada pay no service fee. */
  const FreeListing := 20000000

  /** Python's round() on num / den: the nearest integer, a tie going to
      the even neighbour. */
  function RoundHalfEven(num: int, den: Positive): (r: int)
    ensures 2 * (den * r - num) <= den && 2 * (num - den * r) <= den
    ensures (2 * (den * r - num) == den || 2 * (num - den * r) == den) ==> r % 2 == 0
  {
    var q := num / den;
    var rem := num % den;
    assert den * q == num - rem;
    assert den * (q + 1) == num - rem + den;
    if 2 * rem < den then q
    else if 2 * rem > den then q + 1
    else if q % 2 == 0 then q
    else q + 1
  }

  /** Scaling by a positive factor keeps the order. */
  lemma ScaleBelow(d: Positive, a: int, b: int)
    requires a <= b
    ensures d * a <= d * b
  {
    var k := b - a;
    assert d * b == d * a + d * k;
  }

  /** `max(int(round(price * rate)), 1000000)`. */
  function ServiceFee(price: int, rate: Rate): (fee: int)
    ensures fee >= ServiceFloor
    ensures fee == ServiceFloor || 2 * (rate.den * fee - price * rate.num) <= rate.den
    ensures fee == ServiceFloor || 2 * (price * rate.num - rate.den * fee) <= rate.den
    ensures 2 * (price * rate.num - rate.den * ServiceFloor) > rate.den ==> fee > ServiceFloor
  {
    var rounded := RoundHalfEven(price * rate.num, rate.den);
    if rounded > ServiceFloor then rounded
    else
      ScaleBelow(rate.den, rounded, ServiceFloor);
      ServiceFloor
  }

  /** No service output: the listing is 20 ada or less, or the rate is not
      positive. */
  predicate Waived(price: int, rate: Rate)
  {
    price <= FreeListing || rate.num <= 0
  }

  /** The market's output, present unless the fee is waived. */
  function ServiceOutputs(market: string, price: int, rate: Rate): seq<Payout>
  {
    if Waived(price, rate) then [] else [LovelaceOut(market, ServiceFee(price, rate))]
  }

  // ---------------------------------------------------------------------
  // trade_finalize_handler and v1_trade_finalize_handler

  /** The response's status and the transaction handed to the node, if any. */
  datatype Settlement = Settlement(success: bool, draft: Option<Draft>)

  /** The rows that get an output when a trade settles: every row of the
      seller's delivery transaction, and every chosen row outside the
      buyer's payment transaction. */
  function Routed(rows: seq<Row>, sel: seq<bool>, p: Parties): (r: seq<bool>)
    requires |sel| == |rows|
    ensures |r| == |rows|
    ensures forall i :: 0 <= i < |rows| ==>
      r[i] == (TxHash(rows[i]) == p.assetTx || (TxHash(rows[i]) != p.adaTx && sel[i]))
  {
    seq(|rows|, i requires 0 <= i < |rows| => TxHash(rows[i]) == p.assetTx || (TxHash(rows[i]) != p.adaTx && sel[i]))
  }

  /** Where a routed row goes: the delivery to the buyer, any other row
      back to its funder. */
  function RouteTo(rows: seq<Row>, from: seq<string>, p: Parties): (r: seq<string>)
    requires |from| == |rows|
    ensures |r| == |rows|
    ensures forall i :: 0 <= i < |rows| ==> r[i] == if TxHash(rows[i]) == p.assetTx then p.buyerAddress else from[i]
  {
    seq(|rows|, i requires 0 <= i < |rows| => if TxHash(rows[i]) == p.assetTx then p.buyerAddress else from[i])
  }

  /** The tx-out loop reads every routed row: a delivery row has its asset
      cells, any other routed row its lovelace cell. */
  predicate Routable(rows: seq<Row>, sel: seq<bool>, p: Parties)
    requires |sel| == |rows|
  {
    forall i :: 0 <= i < |rows| ==>
      && (TxHash(rows[i]) == p.assetTx ==> |rows[i]| >= 7)
      && (Routed(rows, sel, p)[i] ==> |rows[i]| >= 3)
  }

  /** A trade's settlement once the matcher has run: success exactly when
      both the payment and the delivery were found; the chosen rows are the
      inputs, and without one, or without success, nothing is built; the
      outputs are the routed rows in order, then the market's fee unless
      waived; the seller, as change address, gets the rest: the payment
      less the service fee and the network fee. */
  function FinalizePlan(rows: seq<Row>, sel: seq<bool>, from: seq<string>, p: Parties,
                        market: string, price: int, rate: Rate): Result<Settlement>
    requires |sel| == |rows| && |from| == |rows|
  {
    var success := p.buyerAddress != "" && p.sellerAddress != "";
    if exists i :: 0 <= i < |rows| && sel[i] && |rows[i]| < 2 then Err(Raised)
    else if Count(sel, |rows|) == 0 || !success then Ok(Settlement(success, None))
    else if !Routable(rows, sel, p) then Err(Raised)
    else Ok(Settlement(true, Some(Draft(
      ChosenInputs(rows, sel, |rows|),
      Repayments(rows, Routed(rows, sel, p), RouteTo(rows, from, p), -1, |rows|) + ServiceOutputs(market, price, rate),
      Some(p.sellerAddress)))))
  }

  /** The settlement's tx-out loop: the delivery rows to the buyer, the
      payment rows skipped, the other chosen rows back to their funders. */
  method SettlementOutputs(rows: seq<Row>, sel: seq<bool>, from: seq<string>, p: Parties) returns (r: Result<seq<Payout>>)
    requires |sel| == |rows| && |from| == |rows|
    requires forall i :: 0 <= i < |rows| ==> |rows[i]| > 0
    ensures r.Err? <==> !Routable(rows, sel, p)
    ensures r.Err? ==> r.error == Raised
    ensures r.Ok? ==> r.value == Repayments(rows, Routed(rows, sel, p), RouteTo(rows, from, p), -1, |rows|)
  {
    ghost var routed := Routed(rows, sel, p);
    ghost var to := RouteTo(rows, from, p);
    var outputs: seq<Payout> := [];
    var i := 0;
    while i < |rows|
      invariant 0 <= i <= |rows|
      invariant forall j :: 0 <= j < i ==> (TxHash(rows[j]) == p.assetTx ==> |rows[j]| >= 7) && (routed[j] ==> |rows[j]| >= 3)
      invariant outputs == Repayments(rows, routed, to, -1, i)
    {
      var utxo := rows[i];
      if utxo[0] == p.assetTx {
        if |utxo| < 7 {
          return Err(Raised);
        }
        outputs := outputs + [RefundOf(p.buyerAddress, utxo)];
      } else if utxo[0] == p.adaTx {
      } else if sel[i] {
        if |utxo| < 3 {
          return Err(Raised);
        }
        outputs := outputs + [RefundOf(from[i], utxo)];
      }
      i := i + 1;
    }
    return Ok(outputs);
  }

  /** The part both finalizers share once the matcher has run: the fee,
      the tx-in loop, the exits, the tx-out loop and the market's output. */
  method PlanSettlement(rows: seq<Row>, sel: seq<bool>, from: seq<string>, p: Parties,
                        market: string, price: int, rate: Rate) returns (r: Result<Settlement>)
    requires |sel| == |rows| && |from| == |rows|
    requires forall i :: 0 <= i < |rows| ==> |rows[i]| > 0
    ensures r == FinalizePlan(rows, sel, from, p, market, price, rate)
  {
    var success := p.buyerAddress != "" && p.sellerAddress != "";
    var serviceFee := RoundHalfEven(price * rate.num, rate.den);
    if serviceFee < ServiceFloor {
      serviceFee := ServiceFloor;
    }
    assert serviceFee == ServiceFee(price, rate);
    var inputs := ChosenTxIns(rows, sel);
    if inputs.Err? {
      return Err(Raised);
    }
    if |inputs.value| == 0 || !success {
      return Ok(Settlement(success, None));
    }
    var outputs := SettlementOutputs(rows, sel, from, p);
    if outputs.Err? {
      return Err(Raised);
    }
    var outs := outputs.value;
    if !Waived(price, rate) {
      outs := outs + [LovelaceOut(market, serviceFee)];
    }
    assert outs == outputs.value + ServiceOutputs(market, price, rate);
    assert FinalizePlan(rows, sel, from, p, market, price, rate) == Ok(Settlement(true, Some(Draft(inputs.value, outs, Some(p.sellerAddress)))));
    return Ok(Settlement(true, Some(Draft(inputs.value, outs, Some(p.sellerAddress)))));
  }

  /** `trade_finalize_handler`: the registered rows only. */
  method TradeFinalize(rows: seq<Row>, buyerStakes: seq<string>, sellerStakes: seq<string>,
                       buy: Listing, sell: Listing, market: string, rate: Rate, chain: Ledger)
    returns (r: Result<Settlement>)
    ensures r == if MatcherRaises(rows, Some(buyerStakes), chain) then Err(Raised)
                 else var reg := Registration(rows, buyerStakes, sellerStakes, buy, sell, chain);
                   FinalizePlan(rows, reg.marks, reg.fromAddress, reg.parties, market, buy.quantity, rate)
  {
    var m := CheckBuyerAndSeller(rows, buyerStakes, sellerStakes, buy, sell, chain);
    if m.Err? {
      return Err(Raised);
    }
    var reg := m.value;
    r := PlanSettlement(rows, reg.marks, reg.fromAddress, reg.parties, market, buy.quantity, rate);
  }

  /** `v1_trade_finalize_handler`: every row, whatever its funder. */
  method V1TradeFinalize(rows: seq<Row>, buy: Listing, sell: Listing, market: string, rate: Rate, chain: Ledger)
    returns (r: Result<Settlement>)
    ensures r == if MatcherRaises(rows, None, chain) then Err(Raised)
                 else FinalizePlan(rows, AllChosen(|rows|), Fundings(rows, chain), Attribution(rows, buy, sell, chain),
                                   market, buy.quantity, rate)
  {
    var m := CheckBuyerAndSellerWithoutStake(rows, buy, sell, chain);
    if m.Err? {
      return Err(Raised);
    }
    assert m.value.fromAddress == Fundings(rows, chain);
    r := PlanSettlement(rows, AllChosen(|rows|), m.value.fromAddress, m.value.parties, market, buy.quantity, rate);
  }

  /** What a settlement promises: success exactly when both sides were
      found, and a transaction exactly when it succeeded with chosen rows.
      That transaction spends every chosen row, sends each row of the
      delivery to the buyer and every other chosen row outside the payment
      back to its funder, creates no output for the payment itself, adds
      the market's fee unless waived, and leaves the seller the change. */
  lemma FinalizeSpec(rows: seq<Row>, sel: seq<bool>, from: seq<string>, p: Parties,
                     market: string, price: int, rate: Rate)
    requires |sel| == |rows| && |from| == |rows|
    requires FinalizePlan(rows, sel, from, p, market, price, rate).Ok?
    ensures var s := FinalizePlan(rows, sel, from, p, market, price, rate).value;
      && s.success == (p.buyerAddress != "" && p.sellerAddress != "")
      && (s.draft.Some? <==> s.success && Count(sel, |rows|) > 0)
    ensures var s := FinalizePlan(rows, sel, from, p, market, price, rate).value;
      s.draft.Some? ==>
        var d := s.draft.value;
        var routed := Routed(rows, sel, p);
        var n := Count(routed, |rows|);
        && d.change == Some(p.sellerAddress)
        && |d.inputs| == Count(sel, |rows|)
        && (forall i :: 0 <= i < |rows| && sel[i] ==> TxInOf(rows[i]) in d.inputs)
        && (forall i :: 0 <= i < |rows| && TxHash(rows[i]) == p.assetTx ==> RefundOf(p.buyerAddress, rows[i]) in d.outputs)
        && (forall i :: 0 <= i < |rows| && sel[i] && TxHash(rows[i]) != p.assetTx && TxHash(rows[i]) != p.adaTx ==>
              RefundOf(from[i], rows[i]) in d.outputs)
        && |d.outputs| == n + (if Waived(price, rate) then 0 else 1)
        && (forall o :: o in d.outputs[..n] ==>
              exists i :: (0 <= i < |rows| && routed[i] && (TxHash(rows[i]) == p.assetTx || TxHash(rows[i]) != p.adaTx)
                           && o == RefundOf(RouteTo(rows, from, p)[i], rows[i])))
        && (!Waived(price, rate) ==> d.outputs[n] == LovelaceOut(market, ServiceFee(price, rate)))
  {
    var s := FinalizePlan(rows, sel, from, p, market, price, rate).value;
    if s.draft.Some? {
      var refunds := Repayments(rows, Routed(rows, sel, p), RouteTo(rows, from, p), -1, |rows|);
      RoutedRefunds(rows, sel, from, p);
      ChosenInputsMembers(rows, sel, |rows|);
      var d := s.draft.value;
      assert d.outputs == refunds + ServiceOutputs(market, price, rate);
      assert d.outputs[..|refunds|] == refunds;
    }
  }

  /** The settlement's refunds: one per routed row, each row going to
      where RouteTo sends it, and nothing else. */
  lemma RoutedRefunds(rows: seq<Row>, sel: seq<bool>, from: seq<string>, p: Parties)
    requires |sel| == |rows| && |from| == |rows| && Routable(rows, sel, p)
    ensures var refunds := Repayments(rows, Routed(rows, sel, p), RouteTo(rows, from, p), -1, |rows|);
      && |refunds| == Count(Routed(rows, sel, p), |rows|)
      && (forall i :: 0 <= i < |rows| && TxHash(rows[i]) == p.assetTx ==> RefundOf(p.buyerAddress, rows[i]) in refunds)
      && (forall i :: 0 <= i < |rows| && sel[i] && TxHash(rows[i]) != p.assetTx && TxHash(rows[i]) != p.adaTx ==>
            RefundOf(from[i], rows[i]) in refunds)
      && (forall o :: o in refunds ==>
            exists i :: (0 <= i < |rows| && (TxHash(rows[i]) == p.assetTx || (sel[i] && TxHash(rows[i]) != p.adaTx))
                         && o == RefundOf(if TxHash(rows[i]) == p.assetTx then p.buyerAddress else from[i], rows[i])))
  {
    var routed := Routed(rows, sel, p);
    var to := RouteTo(rows, from, p);
    RepaymentsMembers(rows, routed, to, -1, |rows|);
  }

  // ---------------------------------------------------------------------
  // transaction_body_handler

  /** The request's amounts with every unit longer than 56 characters
      written in query form, `policy.name`. */
  function SplitAmounts(amount: seq<Amount>): (r: seq<Amount>)
    ensures |r| == |amount|
    ensures forall k :: 0 <= k < |amount| ==> r[k] == Amount(SplitUnit(amount[k].unit), amount[k].quantity)
  {
    seq(|amount|, k requires 0 <= k < |amount| => Amount(SplitUnit(amount[k].unit), amount[k].quantity))
  }

  /** An output's units written back without the dot. */
  function JoinOut(o: TxOut): (r: TxOut)
    ensures r.address == o.address && |r.amount| == |o.amount|
    ensures forall k :: 0 <= k < |o.amount| ==> r.amount[k] == Entry(JoinUnit(o.amount[k].unit), o.amount[k].quantity)
  {
    TxOut(o.address, seq(|o.amount|, k requires 0 <= k < |o.amount| => Entry(JoinUnit(o.amount[k].unit), o.amount[k].quantity)))
  }

  /** The response with every output's units joined. */
  function JoinPlan(plan: Plan): (r: Plan)
    ensures r.inputs == plan.inputs && r.fee == plan.fee && |r.outputs| == |plan.outputs|
    ensures forall i :: 0 <= i < |plan.outputs| ==> r.outputs[i] == JoinOut(plan.outputs[i])
  {
    Plan(plan.inputs, seq(|plan.outputs|, i requires 0 <= i < |plan.outputs| => JoinOut(plan.outputs[i])), plan.fee)
  }

  /** The request loop: every unit longer than 56 characters gets a dot
      after its policy id. */
  method SplitRequest(amount: seq<Amount>) returns (request: seq<Amount>)
    ensures request == SplitAmounts(amount)
  {
    request := amount;
    var k := 0;
    while k < |request|
      invariant 0 <= k <= |request| && |request| == |amount|
      invariant forall j :: 0 <= j < k ==> request[j] == SplitAmounts(amount)[j]
      invariant forall j :: k <= j < |amount| ==> request[j] == amount[j]
    {
      if |request[k].unit| > PolicyIdLength {
        var assetId := request[k].unit;
        request := request[k := Amount(assetId[..PolicyIdLength] + "." + assetId[PolicyIdLength..], request[k].quantity)];
      }
      k := k + 1;
    }
  }

  /** The inner response loop: the dot after the policy id dropped from
      every unit longer than 56 characters of one output. */
  method JoinOutput(o: TxOut) returns (r: TxOut)
    ensures r == JoinOut(o)
  {
    var out := o.amount;
    var a := 0;
    while a < |out|
      invariant 0 <= a <= |out| && |out| == |o.amount|
      invariant forall j :: 0 <= j < a ==> out[j] == JoinOut(o).amount[j]
      invariant forall j :: a <= j < |out| ==> out[j] == o.amount[j]
    {
      if |out[a].unit| > PolicyIdLength {
        var asset := out[a].unit;
        out := out[a := Entry(asset[..PolicyIdLength] + asset[PolicyIdLength + 1..], out[a].quantity)];
      }
      a := a + 1;
    }
    r := TxOut(o.address, out);
  }

  /** The outer response loop: every output of the plan joined. */
  method JoinResponse(plan: Plan) returns (r: Plan)
    ensures r == JoinPlan(plan)
  {
    var outputs := plan.outputs;
    var i := 0;
    while i < |outputs|
      invariant 0 <= i <= |outputs| && |outputs| == |plan.outputs|
      invariant forall j :: 0 <= j < i ==> outputs[j] == JoinOut(plan.outputs[j])
      invariant forall j :: i <= j < |outputs| ==> outputs[j] == plan.outputs[j]
    {
      var joined := JoinOutput(outputs[i]);
      outputs := outputs[i := joined];
      i := i + 1;
    }
    r := Plan(plan.inputs, outputs, plan.fee);
    assert r == JoinPlan(plan);
  }

  /** `transaction_body_handler`: split the request's long units, plan one
      destination, and join the units of every output of the response. */
  method TransactionBodyRequest(senderAddresses: seq<string>, rows: seq<Row>, receiver: string, amount: seq<Amount>,
                                minUtxo: TxOut -> int, fee: (seq<TxIn>, seq<TxOut>) -> int)
    returns (r: Result<Plan>)
    ensures r == match TransactionBody(senderAddresses, rows, [Destination(receiver, SplitAmounts(amount))], minUtxo, fee)
                 case Err(e) => Err(e)
                 case Ok(plan) => Ok(JoinPlan(plan))
  {
    var request := SplitRequest(amount);
    var response := GetTransactionBody(senderAddresses, rows, [Destination(receiver, request)], minUtxo, fee);
    if response.Err? {
      return Err(response.error);
    }
    var joined := JoinResponse(response.value);
    return Ok(joined);
  }

  /** The records read from the first n amounts keep their units. */
  lemma {:induction false} ReadAmountsUnits(amount: seq<Amount>, n: nat)
    requires n <= |amount| && ReadAmounts(amount, n).Ok?
    ensures |ReadAmounts(amount, n).value| == n
    ensures forall k :: 0 <= k < n ==> ReadAmounts(amount, n).value[k].unit == amount[k].unit
  {
    if n > 0 {
      ReadAmountsUnits(amount, n - 1);
    }
  }

  /** A one-destination plan has two outputs, the first being the
      destination's merged amount, topped up, at its address. */
  lemma SingleDestinationOutput(senderAddresses: seq<string>, rows: seq<Row>, d: Destination,
                                minUtxo: TxOut -> int, fee: (seq<TxIn>, seq<TxOut>) -> int)
    requires TransactionBody(senderAddresses, rows, [d], minUtxo, fee).Ok?
    ensures Readable(d)
    ensures var plan := TransactionBody(senderAddresses, rows, [d], minUtxo, fee).value;
      && |plan.outputs| == 2
      && plan.outputs[0] == TxOut(d.address, Records(TopUp(d.address, Merged(d), minUtxo)))
  {
    if rows == [] {
      NoUtxosNoPlan(senderAddresses, [d], minUtxo, fee);
    }
    TransactionBodySelects(senderAddresses, rows, [d], minUtxo, fee);
    var g := Target(senderAddresses[0], [d], minUtxo);
    SelectFromOk(rows, g, minUtxo, fee, 0);
    var plan := TransactionBody(senderAddresses, rows, [d], minUtxo, fee).value;
    ParcelsAreValid([d]);
    assert Parcels([d], 1) == [Parcel(d.address, Merged(d))];
    assert g.recipients == [TxOut(d.address, Records(TopUp(d.address, Merged(d), minUtxo)))];
    assert plan.outputs[0] == plan.outputs[..1][0];
  }

  /** The topped-up amount of a destination holds a key for each of its
      units, and besides lovelace no other key. */
  lemma ToppedUnits(d: Destination, minUtxo: TxOut -> int)
    requires Readable(d)
    ensures var b := TopUp(d.address, Merged(d), minUtxo);
      && (forall u :: u in b.units ==> u == Lovelace || exists j :: 0 <= j < |d.amount| && d.amount[j].unit == u)
      && (forall j :: 0 <= j < |d.amount| ==> d.amount[j].unit in b.units)
  {
    var b := TopUp(d.address, Merged(d), minUtxo);
    TopUpSpec(d.address, Merged(d), minUtxo);
    ReadAmountsUnits(d.amount, |d.amount|);
    var es := Entries(d);
    forall u | u in b.units
      ensures u == Lovelace || exists j :: 0 <= j < |d.amount| && d.amount[j].unit == u
    {
      if u != Lovelace {
        MergedSums(d, u);
        var j :| 0 <= j < |es| && es[j].unit == u;
      }
    }
    forall j | 0 <= j < |d.amount|
      ensures d.amount[j].unit in b.units
    {
      MergedSums(d, es[j].unit);
    }
  }

  /** The output to the receiver carries exactly the requested units, in the
      form the request wrote them, and lovelace. */
  lemma TransactionBodyRequestUnits(senderAddresses: seq<string>, rows: seq<Row>, receiver: string, amount: seq<Amount>,
                                    minUtxo: TxOut -> int, fee: (seq<TxIn>, seq<TxOut>) -> int)
    requires TransactionBody(senderAddresses, rows, [Destination(receiver, SplitAmounts(amount))], minUtxo, fee).Ok?
    ensures var plan := TransactionBody(senderAddresses, rows, [Destination(receiver, SplitAmounts(amount))], minUtxo, fee).value;
      && |plan.outputs| == 2
      && var o := JoinOut(plan.outputs[0]);
      && o.address == receiver
      && (forall k :: 0 <= k < |o.amount| ==>
            o.amount[k].unit == Lovelace || exists j :: 0 <= j < |amount| && amount[j].unit == o.amount[k].unit)
      && (forall j :: 0 <= j < |amount| ==> exists k :: 0 <= k < |o.amount| && o.amount[k].unit == amount[j].unit)
  {
    var d := Destination(receiver, SplitAmounts(amount));
    SingleDestinationOutput(senderAddresses, rows, d, minUtxo, fee);
    ToppedUnits(d, minUtxo);
    var plan := TransactionBody(senderAddresses, rows, [d], minUtxo, fee).value;
    JoinedRecordUnits(amount, TopUp(receiver, Merged(d), minUtxo), JoinOut(plan.outputs[0]));
  }

  /** Joining the records of a balance whose keys are lovelace and the
      split request units gives back the request units as written. */
  lemma JoinedRecordUnits(amount: seq<Amount>, b: Balance, o: TxOut)
    requires Valid(b) && o == JoinOut(TxOut(o.address, Records(b)))
    requires forall u :: u in b.units ==> u == Lovelace || exists j :: 0 <= j < |amount| && SplitAmounts(amount)[j].unit == u
    requires forall j :: 0 <= j < |amount| ==> SplitAmounts(amount)[j].unit in b.units
    ensures (forall k :: 0 <= k < |o.amount| ==>
            o.amount[k].unit == Lovelace || exists j :: 0 <= j < |amount| && amount[j].unit == o.amount[k].unit)
      && (forall j :: 0 <= j < |amount| ==> exists k :: 0 <= k < |o.amount| && o.amount[k].unit == amount[j].unit)
  {
    assert |o.amount| == |b.units|;
    forall k | 0 <= k < |o.amount|
      ensures o.amount[k].unit == Lovelace || exists j :: 0 <= j < |amount| && amount[j].unit == o.amount[k].unit
    {
      RecordsAt(b, |b.units|, k);
      var u := b.units[k];
      assert u in b.units;
      assert o.amount[k].unit == JoinUnit(u);
      if u != Lovelace {
        var j :| 0 <= j < |amount| && SplitAmounts(amount)[j].unit == u;
        JoinSplitUnit(amount[j].unit);
        assert o.amount[k].unit == amount[j].unit;
      }
    }
    forall j | 0 <= j < |amount|
      ensures exists k :: 0 <= k < |o.amount| && o.amount[k].unit == amount[j].unit
    {
      JoinedRecordHas(amount, b, o, j);
    }
    assert forall j :: 0 <= j < |amount| ==> exists k :: 0 <= k < |o.amount| && o.amount[k].unit == amount[j].unit;
    assert |amount| > 0 ==> exists k :: 0 <= k < |o.amount| && o.amount[k].unit == amount[0].unit;
  }

  /** Request unit j comes back, as written, among the joined records. */
  lemma JoinedRecordHas(amount: seq<Amount>, b: Balance, o: TxOut, j: int)
    requires Valid(b) && o == JoinOut(TxOut(o.address, Records(b))) && 0 <= j < |amount|
    requires SplitAmounts(amount)[j].unit in b.units
    ensures exists k :: 0 <= k < |o.amount| && o.amount[k].unit == amount[j].unit
  {
    var u := SplitAmounts(amount)[j].unit;
    var at :| 0 <= at < |b.units| && b.units[at] == u;
    RecordsAt(b, |b.units|, at);
    JoinSplitUnit(amount[j].unit);
    assert o.amount[at].unit == amount[j].unit;
  }

  // ---------------------------------------------------------------------
  // confirm_outgoing_transaction_handler

  /** An entry of the address's transaction history. */
  datatype HistoryEntry = HistoryEntry(txHash: string, blockHeight: int)

  /** The handler's response. */
  datatype Confirmation = Failed | Confirmed(txid: string, blockHeight: int)

  /** A transaction of the history sent from the address to stake
      addresses of the list only. `outputsOf` gives the addresses of a
      transaction's outputs; the ledger's funding address is the address of
      its first input. */
  predicate Outgoing(e: HistoryEntry, address: string, stakes: seq<string>, chain: Ledger,
                     outputsOf: string -> seq<string>)
  {
    && chain.fundingOf(e.txHash) == address
    && forall k :: 0 <= k < |outputsOf(e.txHash)| ==> chain.stakeOf(outputsOf(e.txHash)[k]) in stakes
  }

  /** Entry i comes before entry j once the history is sorted by
      descending block height, a stable sort keeping ties in history order. */
  predicate Ahead(history: seq<HistoryEntry>, i: nat, j: nat)
    requires i < |history| && j < |history|
  {
    history[i].blockHeight > history[j].blockHeight || (history[i].blockHeight == history[j].blockHeight && i < j)
  }

  /** The inner loop: every output pays a listed stake address. */
  method PaysListedOnly(outputs: seq<string>, stakes: seq<string>, chain: Ledger) returns (check: bool)
    ensures check <==> forall k :: 0 <= k < |outputs| ==> chain.stakeOf(outputs[k]) in stakes
  {
    check := true;
    var k := 0;
    while k < |outputs|
      invariant 0 <= k <= |outputs|
      invariant forall j :: 0 <= j < k ==> chain.stakeOf(outputs[j]) in stakes
    {
      if chain.stakeOf(outputs[k]) !in stakes {
        return false;
      }
      k := k + 1;
    }
  }

  /** `confirm_outgoing_transaction_handler`: the outgoing transaction that
      comes first in the history sorted by descending block height, or
      failure when there is none. The sort and the first-match search are
      one pass keeping the best-ranked match. */
  method ConfirmOutgoing(history: seq<HistoryEntry>, address: string, stakes: seq<string>, chain: Ledger,
                         outputsOf: string -> seq<string>) returns (c: Confirmation)
    ensures c == Failed <==> forall i :: 0 <= i < |history| ==> !Outgoing(history[i], address, stakes, chain, outputsOf)
    ensures c.Confirmed? ==>
      exists i :: (0 <= i < |history|
        && Outgoing(history[i], address, stakes, chain, outputsOf)
        && c == Confirmed(history[i].txHash, history[i].blockHeight)
        && forall j :: 0 <= j < |history| && j != i && Outgoing(history[j], address, stakes, chain, outputsOf) ==>
             Ahead(history, i, j))
  {
    var best := -1;
    var i := 0;
    while i < |history|
      invariant 0 <= i <= |history| && -1 <= best < i
      invariant best < 0 ==> forall j :: 0 <= j < i ==> !Outgoing(history[j], address, stakes, chain, outputsOf)
      invariant best >= 0 ==> Outgoing(history[best], address, stakes, chain, outputsOf)
      invariant best >= 0 ==> forall j :: 0 <= j < i && j != best && Outgoing(history[j], address, stakes, chain, outputsOf) ==>
                  Ahead(history, best, j)
    {
      var tx := history[i].txHash;
      if chain.fundingOf(tx) == address {
        var check := PaysListedOnly(outputsOf(tx), stakes, chain);
        if check && (best < 0 || history[i].blockHeight > history[best].blockHeight) {
          best := i;
        }
      }
      i := i + 1;
    }
    if best < 0 {
      return Failed;
    }
    return Confirmed(history[best].txHash, history[best].blockHeight);
  }
}
