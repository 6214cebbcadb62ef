/** The trade matcher of utils.py (check_buyer_and_seller and its three
    variants): which UTXOs at the escrow address came from a registered
    buyer or seller, and which of them proves that the buyer paid or the
    seller delivered.

    The chain lookups are parameters: `fundingOf` gives the address of the
    first input of a transaction, `stakeOf` the stake address of an
    address. */
module Matching {
  import opened Outcomes
  import opened Text
  import opened Balances
  import opened Aggregation

  /** What one side of a trade must send: a unit and a quantity, the
      request's quantity taken as a JSON integer. */
  datatype Listing = Listing(unit: string, quantity: int)

  /** A listing as the text the matcher compares cells with. */
  datatype Wanted = Wanted(unit: string, quantity: string)

  /** The CLI variants compare with the unit in query form and str(quantity). */
  function CliForm(l: Listing): Wanted
  {
    Wanted(SplitUnit(l.unit), ShowInt(l.quantity))
  }

  /** The Blockfrost variants compare with the unit as given and str(quantity). */
  function BfForm(l: Listing): Wanted
  {
    Wanted(l.unit, ShowInt(l.quantity))
  }

  /** The chain lookups the matcher makes for each UTXO. */
  datatype Ledger = Ledger(fundingOf: string -> string, stakeOf: string -> string)

  /** Who paid and who delivered: the funding address and the transaction
      of the proving UTXO, or "" when no UTXO proves it. */
  datatype Parties = Parties(buyerAddress: string, adaTx: string, sellerAddress: string, assetTx: string)

  /** The result of the variants that check stake addresses: the parties,
      and per UTXO whether it is registered and its funding address. */
  datatype Registered = Registered(parties: Parties, marks: seq<bool>, fromAddress: seq<string>)

  /** The result of the variants that do not: the parties and every UTXO's
      funding address. */
  datatype Attributed = Attributed(parties: Parties, fromAddress: seq<string>)

  /** A UTXO as Blockfrost lists it. */
  datatype BfUtxo = BfUtxo(txHash: string, amount: seq<Amount>)

  /** The index of the last true flag, -1 when there is none. */
  function LastMatch(flags: seq<bool>): (r: int)
    ensures -1 <= r < |flags|
    ensures r >= 0 ==> flags[r]
    ensures forall j :: r < j < |flags| ==> !flags[j]
  {
    if flags == [] then -1
    else if flags[|flags| - 1] then |flags| - 1
    else LastMatch(flags[..|flags| - 1])
  }

  /** The last true flag is the only index with a true flag and no true
      flag after it. */
  lemma {:induction false} LastMatchUnique(flags: seq<bool>, b: int)
    requires -1 <= b < |flags|
    requires b >= 0 ==> flags[b]
    requires forall j :: b < j < |flags| ==> !flags[j]
    ensures LastMatch(flags) == b
  {
    if flags != [] && b < |flags| - 1 {
      LastMatchUnique(flags[..|flags| - 1], b);
    }
  }

  /** The transaction hash of a CLI row, "" for an empty row. */
  function TxHash(row: Row): string
  {
    if |row| == 0 then "" else row[0]
  }

  function Hashes(rows: seq<Row>): (r: seq<string>)
    ensures |r| == |rows|
    ensures forall i :: 0 <= i < |rows| ==> r[i] == TxHash(rows[i])
  {
    seq(|rows|, i requires 0 <= i < |rows| => TxHash(rows[i]))
  }

  function BfHashes(utxos: seq<BfUtxo>): (r: seq<string>)
    ensures |r| == |utxos|
    ensures forall i :: 0 <= i < |utxos| ==> r[i] == utxos[i].txHash
  {
    seq(|utxos|, i requires 0 <= i < |utxos| => utxos[i].txHash)
  }

  /** Whether the UTXO created by transaction `hash` was funded from one of
      the stake addresses; with no list (the variants without stake
      addresses) every UTXO qualifies. */
  predicate Eligible(hash: string, stakes: Option<seq<string>>, chain: Ledger)
  {
    stakes.None? || chain.stakeOf(chain.fundingOf(hash)) in stakes.value
  }

  /** A registered UTXO: funded from a buyer or a seller stake address. */
  predicate IsRegistered(hash: string, buyerStakes: seq<string>, sellerStakes: seq<string>, chain: Ledger)
  {
    Eligible(hash, Some(buyerStakes), chain) || Eligible(hash, Some(sellerStakes), chain)
  }

  /** The CLI row proves the buyer's payment: an ADA-only row (at most six
      cells) whose first unit and quantity cells are the wanted text. */
  predicate CliPaid(row: Row, w: Wanted)
  {
    3 < |row| <= 6 && row[3] == w.unit && row[2] == w.quantity
  }

  /** The CLI row proves the seller's delivery: a row of exactly nine cells
      (lovelace and one asset) whose asset unit and quantity cells are the
      wanted text. */
  predicate CliDelivered(row: Row, w: Wanted)
  {
    |row| == 9 && row[6] == w.unit && row[5] == w.quantity
  }

  /** A CLI row that raises: an empty row has no hash to look up, and a
      short row read as a buyer candidate has no cell 3. With no stake list
      every row is a buyer candidate. */
  predicate CliRowFails(row: Row, buyerStakes: Option<seq<string>>, chain: Ledger)
  {
    |row| == 0 || (Eligible(TxHash(row), buyerStakes, chain) && |row| <= 3)
  }

  function CliBuyerFlags(rows: seq<Row>, stakes: Option<seq<string>>, w: Wanted, chain: Ledger): (r: seq<bool>)
    ensures |r| == |rows|
    ensures forall i :: 0 <= i < |rows| ==> r[i] == (Eligible(TxHash(rows[i]), stakes, chain) && CliPaid(rows[i], w))
  {
    seq(|rows|, i requires 0 <= i < |rows| => Eligible(TxHash(rows[i]), stakes, chain) && CliPaid(rows[i], w))
  }

  function CliSellerFlags(rows: seq<Row>, stakes: Option<seq<string>>, w: Wanted, chain: Ledger): (r: seq<bool>)
    ensures |r| == |rows|
    ensures forall i :: 0 <= i < |rows| ==> r[i] == (Eligible(TxHash(rows[i]), stakes, chain) && CliDelivered(rows[i], w))
  {
    seq(|rows|, i requires 0 <= i < |rows| => Eligible(TxHash(rows[i]), stakes, chain) && CliDelivered(rows[i], w))
  }

  /** The parties proved by the UTXOs at positions b and s, -1 for none. */
  function Winners(hashes: seq<string>, b: int, s: int, chain: Ledger): Parties
    requires -1 <= b < |hashes| && -1 <= s < |hashes|
  {
    Parties(
      if b < 0 then "" else chain.fundingOf(hashes[b]),
      if b < 0 then "" else hashes[b],
      if s < 0 then "" else chain.fundingOf(hashes[s]),
      if s < 0 then "" else hashes[s])
  }

  /** The parties the flags name: the last flagged UTXO on each side. */
  function PartiesOf(hashes: seq<string>, paid: seq<bool>, delivered: seq<bool>, chain: Ledger): Parties
    requires |paid| <= |hashes| && |delivered| <= |hashes|
  {
    Winners(hashes, LastMatch(paid), LastMatch(delivered), chain)
  }

  /** utxo_mark after the first i UTXOs: true for a registered one, false
      for the others and for those not reached yet. */
  function MarksUpTo(hashes: seq<string>, i: int, buyerStakes: seq<string>, sellerStakes: seq<string>,
                     chain: Ledger): (r: seq<bool>)
    ensures |r| == |hashes|
    ensures forall j :: 0 <= j < |hashes| ==> r[j] == (j < i && IsRegistered(hashes[j], buyerStakes, sellerStakes, chain))
  {
    seq(|hashes|, j requires 0 <= j < |hashes| => j < i && IsRegistered(hashes[j], buyerStakes, sellerStakes, chain))
  }

  /** from_address after the first i UTXOs: the funding address of a
      registered one, "" otherwise. */
  function FromUpTo(hashes: seq<string>, i: int, buyerStakes: seq<string>, sellerStakes: seq<string>,
                    chain: Ledger): (r: seq<string>)
    ensures |r| == |hashes|
    ensures forall j :: 0 <= j < |hashes| ==>
      r[j] == if j < i && IsRegistered(hashes[j], buyerStakes, sellerStakes, chain) then chain.fundingOf(hashes[j]) else ""
  {
    seq(|hashes|, j requires 0 <= j < |hashes| =>
      if j < i && IsRegistered(hashes[j], buyerStakes, sellerStakes, chain) then chain.fundingOf(hashes[j]) else "")
  }

  /** What the loop body learns about one UTXO: its funding address,
      whether it came from the buyer's or the seller's side, and whether it
      proves the payment or the delivery. */
  datatype Visit = Visit(sender: string, buyerSide: bool, sellerSide: bool, paid: bool, delivered: bool)

  /** The matcher's variables after some UTXOs: the parties found so far,
      utxo_mark and from_address. */
  datatype Scan = Scan(parties: Parties, marks: seq<bool>, fromAddress: seq<string>)

  /** The variables before the loop over n UTXOs. */
  function Start(n: nat): (st: Scan)
    ensures |st.marks| == n && |st.fromAddress| == n
  {
    Scan(Parties("", "", "", ""), seq(n, _ => false), seq(n, _ => ""))
  }

  /** The effect of visiting UTXO i, created by transaction `hash`: a
      buyer-side UTXO is marked, its address recorded and, when it pays,
      it names the buyer; then the same for the seller side. */
  function Record(st: Scan, i: nat, hash: string, v: Visit): (r: Scan)
    requires i < |st.marks| && i < |st.fromAddress|
    ensures |r.marks| == |st.marks| && |r.fromAddress| == |st.fromAddress|
  {
    var p := st.parties;
    var afterBuyer :=
      if v.buyerSide then
        Scan(if v.paid then p.(buyerAddress := v.sender, adaTx := hash) else p,
             st.marks[i := true], st.fromAddress[i := v.sender])
      else st;
    var q := afterBuyer.parties;
    if v.sellerSide then
      Scan(if v.delivered then q.(sellerAddress := v.sender, assetTx := hash) else q,
           afterBuyer.marks[i := true], afterBuyer.fromAddress[i := v.sender])
    else afterBuyer
  }

  /** Visiting UTXO i touches only entry i of utxo_mark and from_address. */
  lemma RecordMarks(st: Scan, i: nat, hash: string, v: Visit)
    requires i < |st.marks| && i < |st.fromAddress|
    ensures forall j :: 0 <= j < |st.marks| ==>
      Record(st, i, hash, v).marks[j] == if j == i && (v.buyerSide || v.sellerSide) then true else st.marks[j]
    ensures forall j :: 0 <= j < |st.fromAddress| ==>
      Record(st, i, hash, v).fromAddress[j] == if j == i && (v.buyerSide || v.sellerSide) then v.sender else st.fromAddress[j]
  {
  }

  /** The variables after visiting the first n UTXOs in order. */
  function ScanUpTo(hashes: seq<string>, visits: seq<Visit>, n: nat): (st: Scan)
    requires |visits| == |hashes| && n <= |hashes|
    ensures |st.marks| == |hashes| && |st.fromAddress| == |hashes|
  {
    if n == 0 then Start(|hashes|)
    else Record(ScanUpTo(hashes, visits, n - 1), n - 1, hashes[n - 1], visits[n - 1])
  }

  /** A visit only names a party from its own side. */
  predicate Sided(visits: seq<Visit>)
  {
    forall j :: 0 <= j < |visits| ==> (visits[j].paid ==> visits[j].buyerSide) && (visits[j].delivered ==> visits[j].sellerSide)
  }

  /** After n visits a UTXO is marked, with its funding address, exactly
      when it was reached and came from either side. */
  lemma {:induction false} ScanMarks(hashes: seq<string>, visits: seq<Visit>, n: nat)
    requires |visits| == |hashes| && n <= |hashes|
    ensures forall j :: 0 <= j < |hashes| ==>
      ScanUpTo(hashes, visits, n).marks[j] == (j < n && (visits[j].buyerSide || visits[j].sellerSide))
    ensures forall j :: 0 <= j < |hashes| ==>
      ScanUpTo(hashes, visits, n).fromAddress[j] ==
        if j < n && (visits[j].buyerSide || visits[j].sellerSide) then visits[j].sender else ""
  {
    if n > 0 {
      ScanMarks(hashes, visits, n - 1);
      RecordMarks(ScanUpTo(hashes, visits, n - 1), n - 1, hashes[n - 1], visits[n - 1]);
    }
  }

  /** The last of the first n visits that pays, -1 when none does. */
  function LastPaid(visits: seq<Visit>, n: nat): (r: int)
    requires n <= |visits|
    ensures -1 <= r < n
    ensures r >= 0 ==> visits[r].paid
    ensures forall j :: r < j < n ==> !visits[j].paid
  {
    if n == 0 then -1 else if visits[n - 1].paid then n - 1 else LastPaid(visits, n - 1)
  }

  /** The last of the first n visits that delivers, -1 when none does. */
  function LastDelivered(visits: seq<Visit>, n: nat): (r: int)
    requires n <= |visits|
    ensures -1 <= r < n
    ensures r >= 0 ==> visits[r].delivered
    ensures forall j :: r < j < n ==> !visits[j].delivered
  {
    if n == 0 then -1 else if visits[n - 1].delivered then n - 1 else LastDelivered(visits, n - 1)
  }

  /** The parties named by the visits at positions b and s. */
  function Chosen(hashes: seq<string>, visits: seq<Visit>, b: int, s: int): Parties
    requires |visits| == |hashes| && -1 <= b < |hashes| && -1 <= s < |hashes|
  {
    Parties(if b < 0 then "" else visits[b].sender, if b < 0 then "" else hashes[b],
            if s < 0 then "" else visits[s].sender, if s < 0 then "" else hashes[s])
  }

  /** After n visits the parties are those of the last paying and the last
      delivering UTXO among them. */
  lemma {:induction false} ScanParties(hashes: seq<string>, visits: seq<Visit>, n: nat)
    requires |visits| == |hashes| && n <= |hashes| && Sided(visits)
    ensures ScanUpTo(hashes, visits, n).parties == Chosen(hashes, visits, LastPaid(visits, n), LastDelivered(visits, n))
  {
    if n > 0 {
      ScanParties(hashes, visits, n - 1);
    }
  }

  /** When the visits agree with the flags and the lookups, the parties
      they choose are the ones the flags name. */
  lemma ChosenWinners(hashes: seq<string>, visits: seq<Visit>, paid: seq<bool>, delivered: seq<bool>, chain: Ledger)
    requires |visits| == |hashes| && |paid| == |hashes| && |delivered| == |hashes|
    requires forall j :: 0 <= j < |visits| ==>
      visits[j].paid == paid[j] && visits[j].delivered == delivered[j] && visits[j].sender == chain.fundingOf(hashes[j])
    ensures Chosen(hashes, visits, LastPaid(visits, |visits|), LastDelivered(visits, |visits|)) == PartiesOf(hashes, paid, delivered, chain)
  {
    LastMatchUnique(paid, LastPaid(visits, |visits|));
    LastMatchUnique(delivered, LastDelivered(visits, |visits|));
  }

  /** What the loop body of the CLI variants learns from a row that does
      not raise. */
  function CliVisitOf(row: Row, buyerStakes: Option<seq<string>>, sellerStakes: Option<seq<string>>,
                      buy: Wanted, sell: Wanted, chain: Ledger): Visit
  {
    var h := TxHash(row);
    Visit(chain.fundingOf(h), Eligible(h, buyerStakes, chain), Eligible(h, sellerStakes, chain),
          Eligible(h, buyerStakes, chain) && CliPaid(row, buy), Eligible(h, sellerStakes, chain) && CliDelivered(row, sell))
  }

  function CliVisits(rows: seq<Row>, buyerStakes: Option<seq<string>>, sellerStakes: Option<seq<string>>,
                     buy: Wanted, sell: Wanted, chain: Ledger): (r: seq<Visit>)
    ensures |r| == |rows|
    ensures forall j :: 0 <= j < |rows| ==> r[j] == CliVisitOf(rows[j], buyerStakes, sellerStakes, buy, sell, chain)
  {
    seq(|rows|, j requires 0 <= j < |rows| => CliVisitOf(rows[j], buyerStakes, sellerStakes, buy, sell, chain))
  }

  /** The variables after the loop body has visited the first n CLI rows. */
  function CliScanUpTo(rows: seq<Row>, buyerStakes: Option<seq<string>>, sellerStakes: Option<seq<string>>,
                       buy: Wanted, sell: Wanted, chain: Ledger, n: nat): (st: Scan)
    requires n <= |rows|
    ensures |st.marks| == |rows| && |st.fromAddress| == |rows|
  {
    if n == 0 then Start(|rows|)
    else Record(CliScanUpTo(rows, buyerStakes, sellerStakes, buy, sell, chain, n - 1), n - 1,
                TxHash(rows[n - 1]), CliVisitOf(rows[n - 1], buyerStakes, sellerStakes, buy, sell, chain))
  }

  lemma {:induction false} CliScanAgrees(rows: seq<Row>, buyerStakes: Option<seq<string>>, sellerStakes: Option<seq<string>>,
                                         buy: Wanted, sell: Wanted, chain: Ledger, n: nat)
    requires n <= |rows|
    ensures CliScanUpTo(rows, buyerStakes, sellerStakes, buy, sell, chain, n) ==
            ScanUpTo(Hashes(rows), CliVisits(rows, buyerStakes, sellerStakes, buy, sell, chain), n)
  {
    if n > 0 {
      CliScanAgrees(rows, buyerStakes, sellerStakes, buy, sell, chain, n - 1);
    }
  }

  /** The loop over all CLI rows names the last paying and the last
      delivering row. */
  lemma CliScanParties(rows: seq<Row>, buyerStakes: Option<seq<string>>, sellerStakes: Option<seq<string>>,
                       buy: Wanted, sell: Wanted, chain: Ledger)
    ensures CliScanUpTo(rows, buyerStakes, sellerStakes, buy, sell, chain, |rows|).parties ==
            PartiesOf(Hashes(rows), CliBuyerFlags(rows, buyerStakes, buy, chain), CliSellerFlags(rows, sellerStakes, sell, chain), chain)
  {
    var visits := CliVisits(rows, buyerStakes, sellerStakes, buy, sell, chain);
    CliScanAgrees(rows, buyerStakes, sellerStakes, buy, sell, chain, |rows|);
    ScanParties(Hashes(rows), visits, |rows|);
    var paid := CliBuyerFlags(rows, buyerStakes, buy, chain);
    var delivered := CliSellerFlags(rows, sellerStakes, sell, chain);
    var hashes := Hashes(rows);
    forall j | 0 <= j < |rows|
      ensures visits[j].paid == paid[j] && visits[j].delivered == delivered[j] && visits[j].sender == chain.fundingOf(hashes[j])
    {
    }
    ChosenWinners(hashes, visits, paid, delivered, chain);
  }

  /** The loop over all CLI rows marks exactly the registered rows. */
  lemma CliScanMarks(rows: seq<Row>, buyerStakes: seq<string>, sellerStakes: seq<string>,
                     buy: Wanted, sell: Wanted, chain: Ledger)
    ensures CliScanUpTo(rows, Some(buyerStakes), Some(sellerStakes), buy, sell, chain, |rows|).marks ==
            MarksUpTo(Hashes(rows), |rows|, buyerStakes, sellerStakes, chain)
    ensures CliScanUpTo(rows, Some(buyerStakes), Some(sellerStakes), buy, sell, chain, |rows|).fromAddress ==
            FromUpTo(Hashes(rows), |rows|, buyerStakes, sellerStakes, chain)
  {
    CliScanAgrees(rows, Some(buyerStakes), Some(sellerStakes), buy, sell, chain, |rows|);
    ScanMarks(Hashes(rows), CliVisits(rows, Some(buyerStakes), Some(sellerStakes), buy, sell, chain), |rows|);
  }

  /** The body of the loop over CLI rows: the two lookups, then the buyer
      test (which reads cell 3 of any ADA-only row from a buyer) and the
      seller test. */
  method VisitCliRow(utxo: Row, buyerStakes: Option<seq<string>>, sellerStakes: Option<seq<string>>,
                     buy: Wanted, sell: Wanted, chain: Ledger) returns (v: Result<Visit>)
    ensures v.Err? <==> CliRowFails(utxo, buyerStakes, chain)
    ensures v.Err? ==> v.error == Raised
    ensures v.Ok? ==> v.value == CliVisitOf(utxo, buyerStakes, sellerStakes, buy, sell, chain)
  {
    if |utxo| == 0 {
      return Err(Raised);
    }
    var senderAddress := chain.fundingOf(utxo[0]);
    var senderStake := chain.stakeOf(senderAddress);
    var buyerSide := buyerStakes.None? || senderStake in buyerStakes.value;
    var sellerSide := sellerStakes.None? || senderStake in sellerStakes.value;
    var paid, delivered := false, false;
    if buyerSide && |utxo| <= 6 {
      if |utxo| <= 3 {
        return Err(Raised);
      }
      paid := utxo[3] == buy.unit && utxo[2] == buy.quantity;
    }
    if sellerSide {
      delivered := |utxo| == 9 && utxo[6] == sell.unit && utxo[5] == sell.quantity;
    }
    return Ok(Visit(senderAddress, buyerSide, sellerSide, paid, delivered));
  }

  /** `check_buyer_and_seller`: marks the registered UTXOs, records their
      funding addresses and finds the last row that proves each side; the
      units are compared in query form. */
  method CheckBuyerAndSeller(rows: seq<Row>, buyerStakes: seq<string>, sellerStakes: seq<string>,
                             buy: Listing, sell: Listing, chain: Ledger)
    returns (r: Result<Registered>)
    ensures r.Err? <==> exists i :: 0 <= i < |rows| && CliRowFails(rows[i], Some(buyerStakes), chain)
    ensures r.Err? ==> r.error == Raised
    ensures r.Ok? ==>
      && r.value.marks == MarksUpTo(Hashes(rows), |rows|, buyerStakes, sellerStakes, chain)
      && r.value.fromAddress == FromUpTo(Hashes(rows), |rows|, buyerStakes, sellerStakes, chain)
      && r.value.parties == PartiesOf(Hashes(rows),
                                      CliBuyerFlags(rows, Some(buyerStakes), CliForm(buy), chain),
                                      CliSellerFlags(rows, Some(sellerStakes), CliForm(sell), chain), chain)
  {
    var buyWanted := CliForm(buy);
    var sellWanted := CliForm(sell);
    var buyerAddress, adaTx, sellerAddress, assetTx := "", "", "", "";
    var marks := seq(|rows|, _ => false);
    var fromAddress := seq(|rows|, _ => "");
    var i := 0;
    while i < |rows|
      invariant 0 <= i <= |rows|
      invariant forall j :: 0 <= j < i ==> !CliRowFails(rows[j], Some(buyerStakes), chain)
      invariant Scan(Parties(buyerAddress, adaTx, sellerAddress, assetTx), marks, fromAddress) ==
                CliScanUpTo(rows, Some(buyerStakes), Some(sellerStakes), buyWanted, sellWanted, chain, i)
    {
      var v := VisitCliRow(rows[i], Some(buyerStakes), Some(sellerStakes), buyWanted, sellWanted, chain);
      if v.Err? {
        return Err(Raised);
      }
      var utxo := rows[i];
      ghost var before := Scan(Parties(buyerAddress, adaTx, sellerAddress, assetTx), marks, fromAddress);
      if v.value.buyerSide {
        marks := marks[i := true];
        fromAddress := fromAddress[i := v.value.sender];
        if v.value.paid {
          buyerAddress := v.value.sender;
          adaTx := utxo[0];
        }
      }
      if v.value.sellerSide {
        marks := marks[i := true];
        fromAddress := fromAddress[i := v.value.sender];
        if v.value.delivered {
          sellerAddress := v.value.sender;
          assetTx := utxo[0];
        }
      }
      assert Scan(Parties(buyerAddress, adaTx, sellerAddress, assetTx), marks, fromAddress) == Record(before, i, utxo[0], v.value);
      i := i + 1;
    }
    assert Scan(Parties(buyerAddress, adaTx, sellerAddress, assetTx), marks, fromAddress) ==
           CliScanUpTo(rows, Some(buyerStakes), Some(sellerStakes), buyWanted, sellWanted, chain, |rows|);
    CliScanMarks(rows, buyerStakes, sellerStakes, buyWanted, sellWanted, chain);
    CliScanParties(rows, Some(buyerStakes), Some(sellerStakes), buyWanted, sellWanted, chain);
    return Ok(Registered(Parties(buyerAddress, adaTx, sellerAddress, assetTx), marks, fromAddress));
  }

  /** `check_buyer_and_seller_without_stake_address`: the same search over
      every UTXO, with no stake address check. */
  method CheckBuyerAndSellerWithoutStake(rows: seq<Row>, buy: Listing, sell: Listing, chain: Ledger)
    returns (r: Result<Attributed>)
    ensures r.Err? <==> exists i :: 0 <= i < |rows| && CliRowFails(rows[i], None, chain)
    ensures r.Err? ==> r.error == Raised
    ensures r.Ok? ==>
      && |r.value.fromAddress| == |rows|
      && (forall i :: 0 <= i < |rows| ==> r.value.fromAddress[i] == chain.fundingOf(rows[i][0]))
      && r.value.parties == PartiesOf(Hashes(rows),
                                      CliBuyerFlags(rows, None, CliForm(buy), chain),
                                      CliSellerFlags(rows, None, CliForm(sell), chain), chain)
  {
    var buyWanted := CliForm(buy);
    var sellWanted := CliForm(sell);
    var buyerAddress, adaTx, sellerAddress, assetTx := "", "", "", "";
    var fromAddress := seq(|rows|, _ => "");
    var i := 0;
    while i < |rows|
      invariant 0 <= i <= |rows|
      invariant forall j :: 0 <= j < i ==> !CliRowFails(rows[j], None, chain)
      invariant |fromAddress| == |rows|
      invariant forall j :: 0 <= j < i ==> fromAddress[j] == chain.fundingOf(rows[j][0])
      invariant Parties(buyerAddress, adaTx, sellerAddress, assetTx) ==
                CliScanUpTo(rows, None, None, buyWanted, sellWanted, chain, i).parties
    {
      var v := VisitCliRow(rows[i], None, None, buyWanted, sellWanted, chain);
      if v.Err? {
        return Err(Raised);
      }
      var utxo := rows[i];
      fromAddress := fromAddress[i := v.value.sender];
      if v.value.paid {
        buyerAddress := v.value.sender;
        adaTx := utxo[0];
      }
      if v.value.delivered {
        sellerAddress := v.value.sender;
        assetTx := utxo[0];
      }
      i := i + 1;
    }
    assert Parties(buyerAddress, adaTx, sellerAddress, assetTx) ==
           CliScanUpTo(rows, None, None, buyWanted, sellWanted, chain, |rows|).parties;
    CliScanParties(rows, None, None, buyWanted, sellWanted, chain);
    return Ok(Attributed(Parties(buyerAddress, adaTx, sellerAddress, assetTx), fromAddress));
  }

  /** The first amount that is not lovelace, or ("", "") when there is none. */
  function FirstToken(amount: seq<Amount>): (t: Amount)
    ensures t == Amount("", "") || exists k :: 0 <= k < |amount| && amount[k] == t && t.unit != Lovelace
  {
    if amount == [] then Amount("", "")
    else if amount[0].unit != Lovelace then amount[0]
    else FirstToken(amount[1..])
  }

  /** The Blockfrost UTXO proves the buyer's payment: a single amount equal
      to the wanted unit and quantity text. */
  predicate BfPaid(utxo: BfUtxo, w: Wanted)
  {
    |utxo.amount| == 1 && utxo.amount[0].unit == w.unit && utxo.amount[0].quantity == w.quantity
  }

  /** The Blockfrost UTXO proves the seller's delivery: two amounts, the
      first non-lovelace one equal to the wanted unit and quantity text. */
  predicate BfDelivered(utxo: BfUtxo, w: Wanted)
  {
    |utxo.amount| == 2 && FirstToken(utxo.amount) == Amount(w.unit, w.quantity)
  }

  function BfBuyerFlags(utxos: seq<BfUtxo>, stakes: Option<seq<string>>, w: Wanted, chain: Ledger): (r: seq<bool>)
    ensures |r| == |utxos|
    ensures forall i :: 0 <= i < |utxos| ==> r[i] == (Eligible(utxos[i].txHash, stakes, chain) && BfPaid(utxos[i], w))
  {
    seq(|utxos|, i requires 0 <= i < |utxos| => Eligible(utxos[i].txHash, stakes, chain) && BfPaid(utxos[i], w))
  }

  function BfSellerFlags(utxos: seq<BfUtxo>, stakes: Option<seq<string>>, w: Wanted, chain: Ledger): (r: seq<bool>)
    ensures |r| == |utxos|
    ensures forall i :: 0 <= i < |utxos| ==> r[i] == (Eligible(utxos[i].txHash, stakes, chain) && BfDelivered(utxos[i], w))
  {
    seq(|utxos|, i requires 0 <= i < |utxos| => Eligible(utxos[i].txHash, stakes, chain) && BfDelivered(utxos[i], w))
  }

  /** The inner `for a in utxo['amount']` loop with its `break`. */
  method FindToken(amount: seq<Amount>) returns (t: Amount)
    ensures t == FirstToken(amount)
  {
    var unit, quantity := "", "";
    var j := 0;
    while j < |amount|
      invariant 0 <= j <= |amount|
      invariant FirstToken(amount) == FirstToken(amount[j..])
      invariant unit == "" && quantity == ""
    {
      if amount[j].unit != Lovelace {
        unit, quantity := amount[j].unit, amount[j].quantity;
        break;
      }
      assert amount[j..][1..] == amount[j + 1..];
      j := j + 1;
    }
    return Amount(unit, quantity);
  }

  /** What the loop body of the Blockfrost variants learns from a UTXO. */
  function BfVisitOf(utxo: BfUtxo, buyerStakes: Option<seq<string>>, sellerStakes: Option<seq<string>>,
                     buy: Wanted, sell: Wanted, chain: Ledger): Visit
  {
    var h := utxo.txHash;
    Visit(chain.fundingOf(h), Eligible(h, buyerStakes, chain), Eligible(h, sellerStakes, chain),
          Eligible(h, buyerStakes, chain) && BfPaid(utxo, buy), Eligible(h, sellerStakes, chain) && BfDelivered(utxo, sell))
  }

  function BfVisits(utxos: seq<BfUtxo>, buyerStakes: Option<seq<string>>, sellerStakes: Option<seq<string>>,
                    buy: Wanted, sell: Wanted, chain: Ledger): (r: seq<Visit>)
    ensures |r| == |utxos|
    ensures forall j :: 0 <= j < |utxos| ==> r[j] == BfVisitOf(utxos[j], buyerStakes, sellerStakes, buy, sell, chain)
  {
    seq(|utxos|, j requires 0 <= j < |utxos| => BfVisitOf(utxos[j], buyerStakes, sellerStakes, buy, sell, chain))
  }

  /** The variables after the loop body has visited the first n Blockfrost UTXOs. */
  function BfScanUpTo(utxos: seq<BfUtxo>, buyerStakes: Option<seq<string>>, sellerStakes: Option<seq<string>>,
                      buy: Wanted, sell: Wanted, chain: Ledger, n: nat): (st: Scan)
    requires n <= |utxos|
    ensures |st.marks| == |utxos| && |st.fromAddress| == |utxos|
  {
    if n == 0 then Start(|utxos|)
    else Record(BfScanUpTo(utxos, buyerStakes, sellerStakes, buy, sell, chain, n - 1), n - 1,
                utxos[n - 1].txHash, BfVisitOf(utxos[n - 1], buyerStakes, sellerStakes, buy, sell, chain))
  }

  lemma {:induction false} BfScanAgrees(utxos: seq<BfUtxo>, buyerStakes: Option<seq<string>>, sellerStakes: Option<seq<string>>,
                                        buy: Wanted, sell: Wanted, chain: Ledger, n: nat)
    requires n <= |utxos|
    ensures BfScanUpTo(utxos, buyerStakes, sellerStakes, buy, sell, chain, n) ==
            ScanUpTo(BfHashes(utxos), BfVisits(utxos, buyerStakes, sellerStakes, buy, sell, chain), n)
  {
    if n > 0 {
      BfScanAgrees(utxos, buyerStakes, sellerStakes, buy, sell, chain, n - 1);
    }
  }

  /** The loop over all Blockfrost UTXOs names the last paying and the
      last delivering UTXO. */
  lemma BfScanParties(utxos: seq<BfUtxo>, buyerStakes: Option<seq<string>>, sellerStakes: Option<seq<string>>,
                      buy: Wanted, sell: Wanted, chain: Ledger)
    ensures BfScanUpTo(utxos, buyerStakes, sellerStakes, buy, sell, chain, |utxos|).parties ==
            PartiesOf(BfHashes(utxos), BfBuyerFlags(utxos, buyerStakes, buy, chain), BfSellerFlags(utxos, sellerStakes, sell, chain), chain)
  {
    var visits := BfVisits(utxos, buyerStakes, sellerStakes, buy, sell, chain);
    BfScanAgrees(utxos, buyerStakes, sellerStakes, buy, sell, chain, |utxos|);
    ScanParties(BfHashes(utxos), visits, |utxos|);
    var paid := BfBuyerFlags(utxos, buyerStakes, buy, chain);
    var delivered := BfSellerFlags(utxos, sellerStakes, sell, chain);
    var hashes := BfHashes(utxos);
    forall j | 0 <= j < |utxos|
      ensures visits[j].paid == paid[j] && visits[j].delivered == delivered[j] && visits[j].sender == chain.fundingOf(hashes[j])
    {
    }
    ChosenWinners(hashes, visits, paid, delivered, chain);
  }

  /** The loop over all Blockfrost UTXOs marks exactly the registered ones. */
  lemma BfScanMarks(utxos: seq<BfUtxo>, buyerStakes: seq<string>, sellerStakes: seq<string>,
                    buy: Wanted, sell: Wanted, chain: Ledger)
    ensures BfScanUpTo(utxos, Some(buyerStakes), Some(sellerStakes), buy, sell, chain, |utxos|).marks ==
            MarksUpTo(BfHashes(utxos), |utxos|, buyerStakes, sellerStakes, chain)
    ensures BfScanUpTo(utxos, Some(buyerStakes), Some(sellerStakes), buy, sell, chain, |utxos|).fromAddress ==
            FromUpTo(BfHashes(utxos), |utxos|, buyerStakes, sellerStakes, chain)
  {
    BfScanAgrees(utxos, Some(buyerStakes), Some(sellerStakes), buy, sell, chain, |utxos|);
    ScanMarks(BfHashes(utxos), BfVisits(utxos, Some(buyerStakes), Some(sellerStakes), buy, sell, chain), |utxos|);
  }

  /** The body of the loop over Blockfrost UTXOs: the two lookups, the
      buyer test on single-amount UTXOs and the seller test on two-amount
      UTXOs. */
  method VisitBfUtxo(utxo: BfUtxo, buyerStakes: Option<seq<string>>, sellerStakes: Option<seq<string>>,
                     buy: Wanted, sell: Wanted, chain: Ledger) returns (v: Visit)
    ensures v == BfVisitOf(utxo, buyerStakes, sellerStakes, buy, sell, chain)
  {
    var senderAddress := chain.fundingOf(utxo.txHash);
    var senderStake := chain.stakeOf(senderAddress);
    var buyerSide := buyerStakes.None? || senderStake in buyerStakes.value;
    var sellerSide := sellerStakes.None? || senderStake in sellerStakes.value;
    var paid, delivered := false, false;
    if buyerSide && |utxo.amount| == 1 {
      paid := utxo.amount[0].unit == buy.unit && utxo.amount[0].quantity == buy.quantity;
    }
    if sellerSide && |utxo.amount| == 2 {
      var token := FindToken(utxo.amount);
      delivered := token.unit == sell.unit && token.quantity == sell.quantity;
    }
    return Visit(senderAddress, buyerSide, sellerSide, paid, delivered);
  }

  /** `check_buyer_and_seller_blockfrost`: the search over Blockfrost UTXOs,
      with stake address checks and the units compared as given. */
  method CheckBuyerAndSellerBlockfrost(utxos: seq<BfUtxo>, buyerStakes: seq<string>, sellerStakes: seq<string>,
                                       buy: Listing, sell: Listing, chain: Ledger)
    returns (r: Registered)
    ensures r.marks == MarksUpTo(BfHashes(utxos), |utxos|, buyerStakes, sellerStakes, chain)
    ensures r.fromAddress == FromUpTo(BfHashes(utxos), |utxos|, buyerStakes, sellerStakes, chain)
    ensures r.parties == PartiesOf(BfHashes(utxos),
                                   BfBuyerFlags(utxos, Some(buyerStakes), BfForm(buy), chain),
                                   BfSellerFlags(utxos, Some(sellerStakes), BfForm(sell), chain), chain)
  {
    var buyWanted := BfForm(buy);
    var sellWanted := BfForm(sell);
    var buyerAddress, adaTx, sellerAddress, assetTx := "", "", "", "";
    var marks := seq(|utxos|, _ => false);
    var fromAddress := seq(|utxos|, _ => "");
    var i := 0;
    while i < |utxos|
      invariant 0 <= i <= |utxos|
      invariant Scan(Parties(buyerAddress, adaTx, sellerAddress, assetTx), marks, fromAddress) ==
                BfScanUpTo(utxos, Some(buyerStakes), Some(sellerStakes), buyWanted, sellWanted, chain, i)
    {
      var v := VisitBfUtxo(utxos[i], Some(buyerStakes), Some(sellerStakes), buyWanted, sellWanted, chain);
      ghost var before := Scan(Parties(buyerAddress, adaTx, sellerAddress, assetTx), marks, fromAddress);
      if v.buyerSide {
        marks := marks[i := true];
        fromAddress := fromAddress[i := v.sender];
        if v.paid {
          buyerAddress := v.sender;
          adaTx := utxos[i].txHash;
        }
      }
      if v.sellerSide {
        marks := marks[i := true];
        fromAddress := fromAddress[i := v.sender];
        if v.delivered {
          sellerAddress := v.sender;
          assetTx := utxos[i].txHash;
        }
      }
      assert Scan(Parties(buyerAddress, adaTx, sellerAddress, assetTx), marks, fromAddress) == Record(before, i, utxos[i].txHash, v);
      i := i + 1;
    }
    assert Scan(Parties(buyerAddress, adaTx, sellerAddress, assetTx), marks, fromAddress) ==
           BfScanUpTo(utxos, Some(buyerStakes), Some(sellerStakes), buyWanted, sellWanted, chain, |utxos|);
    BfScanMarks(utxos, buyerStakes, sellerStakes, buyWanted, sellWanted, chain);
    BfScanParties(utxos, Some(buyerStakes), Some(sellerStakes), buyWanted, sellWanted, chain);
    return Registered(Parties(buyerAddress, adaTx, sellerAddress, assetTx), marks, fromAddress);
  }

  /** `check_buyer_and_seller_blockfrost_without_stake_address`. */
  method CheckBuyerAndSellerBlockfrostWithoutStake(utxos: seq<BfUtxo>, buy: Listing, sell: Listing, chain: Ledger)
    returns (r: Attributed)
    ensures |r.fromAddress| == |utxos|
    ensures forall i :: 0 <= i < |utxos| ==> r.fromAddress[i] == chain.fundingOf(utxos[i].txHash)
    ensures r.parties == PartiesOf(BfHashes(utxos),
                                   BfBuyerFlags(utxos, None, BfForm(buy), chain),
                                   BfSellerFlags(utxos, None, BfForm(sell), chain), chain)
  {
    var buyWanted := BfForm(buy);
    var sellWanted := BfForm(sell);
    var buyerAddress, adaTx, sellerAddress, assetTx := "", "", "", "";
    var fromAddress := seq(|utxos|, _ => "");
    var i := 0;
    while i < |utxos|
      invariant 0 <= i <= |utxos|
      invariant |fromAddress| == |utxos|
      invariant forall j :: 0 <= j < i ==> fromAddress[j] == chain.fundingOf(utxos[j].txHash)
      invariant Parties(buyerAddress, adaTx, sellerAddress, assetTx) ==
                BfScanUpTo(utxos, None, None, buyWanted, sellWanted, chain, i).parties
    {
      var v := VisitBfUtxo(utxos[i], None, None, buyWanted, sellWanted, chain);
      fromAddress := fromAddress[i := v.sender];
      if v.paid {
        buyerAddress := v.sender;
        adaTx := utxos[i].txHash;
      }
      if v.delivered {
        sellerAddress := v.sender;
        assetTx := utxos[i].txHash;
      }
      i := i + 1;
    }
    assert Parties(buyerAddress, adaTx, sellerAddress, assetTx) ==
           BfScanUpTo(utxos, None, None, buyWanted, sellWanted, chain, |utxos|).parties;
    BfScanParties(utxos, None, None, buyWanted, sellWanted, chain);
    return Attributed(Parties(buyerAddress, adaTx, sellerAddress, assetTx), fromAddress);
  }

  /** No CLI row proves both sides: a payment row has at most six cells, a
      delivery row exactly nine. So when both sides are proved, they are
      proved by different rows. */
  lemma CliWinnersDiffer(rows: seq<Row>, buyerStakes: Option<seq<string>>, sellerStakes: Option<seq<string>>,
                         buy: Wanted, sell: Wanted, chain: Ledger)
    ensures var b := LastMatch(CliBuyerFlags(rows, buyerStakes, buy, chain));
            var s := LastMatch(CliSellerFlags(rows, sellerStakes, sell, chain));
            b >= 0 ==> b != s
  {
  }

  /** The same for Blockfrost UTXOs: one amount against two. */
  lemma BfWinnersDiffer(utxos: seq<BfUtxo>, buyerStakes: Option<seq<string>>, sellerStakes: Option<seq<string>>,
                        buy: Wanted, sell: Wanted, chain: Ledger)
    ensures var b := LastMatch(BfBuyerFlags(utxos, buyerStakes, buy, chain));
            var s := LastMatch(BfSellerFlags(utxos, sellerStakes, sell, chain));
            b >= 0 ==> b != s
  {
  }

  /** The parties' meaning: the buyer address and ada_tx are "" exactly
      when no flagged UTXO exists; otherwise they come from a flagged UTXO
      after which no UTXO is flagged (the last match wins). */
  lemma PartiesMeaning(hashes: seq<string>, paid: seq<bool>, delivered: seq<bool>, chain: Ledger)
    requires |paid| == |hashes| && |delivered| == |hashes|
    requires forall i :: 0 <= i < |hashes| ==> hashes[i] != ""
    ensures var p := PartiesOf(hashes, paid, delivered, chain);
      && (p.adaTx == "" <==> forall i :: 0 <= i < |paid| ==> !paid[i])
      && (p.adaTx != "" ==> exists b :: 0 <= b < |paid| && paid[b] && p.adaTx == hashes[b]
                              && p.buyerAddress == chain.fundingOf(hashes[b])
                              && forall j :: b < j < |paid| ==> !paid[j])
      && (p.assetTx == "" <==> forall i :: 0 <= i < |delivered| ==> !delivered[i])
      && (p.assetTx != "" ==> exists s :: 0 <= s < |delivered| && delivered[s] && p.assetTx == hashes[s]
                               && p.sellerAddress == chain.fundingOf(hashes[s])
                               && forall j :: s < j < |delivered| ==> !delivered[j])
  {
    var b := LastMatch(paid);
    var s := LastMatch(delivered);
    if b >= 0 {
      assert paid[b];
    }
    if s >= 0 {
      assert delivered[s];
    }
  }
}
