/** The plain ADA transfers of transactions.py: send_lovelace,
    send_all_remaining_lovelace and refund_all_ada_utxos. Each reads the
    rows of `cardano-cli query utxo` after its two header lines, chooses
    inputs, and hands a transaction to the node, described as a Draft. */
module Transfers {
  import opened Outcomes
  import opened Text
  import opened Balances
  import opened Aggregation
  import opened Planner
  import opened Matching
  import opened Refunds

  /** A row without a token: at most six cells. */
  predicate AdaOnly(row: Row)
  {
    |row| <= 6
  }

  /** The lovelace of a readable row. */
  function LovelaceOf(row: Row): int
  {
    if |row| >= 3 && ParseInt(row[2]).Some? then ParseInt(row[2]).value else 0
  }

  /** `cells[:3]`: hash, index and lovelace. */
  function Head(row: Row): Row
  {
    if |row| >= 3 then row[..3] else row
  }

  /** Every ADA-only row among the first n is readable. */
  predicate AdaReadable(rows: seq<Row>, n: nat)
    requires n <= |rows|
  {
    forall i :: 0 <= i < n && AdaOnly(rows[i]) ==> RowReadable(rows[i])
  }

  /** Lovelace of the ADA-only rows among the first n. */
  function AdaSum(rows: seq<Row>, n: nat): int
    requires n <= |rows|
  {
    if n == 0 then 0 else AdaSum(rows, n - 1) + (if AdaOnly(rows[n - 1]) then LovelaceOf(rows[n - 1]) else 0)
  }

  /** `cells[:3]` of the ADA-only rows among the first n, in order. */
  function AdaPicks(rows: seq<Row>, n: nat): seq<Row>
    requires n <= |rows|
  {
    if n == 0 then [] else AdaPicks(rows, n - 1) + (if AdaOnly(rows[n - 1]) then [Head(rows[n - 1])] else [])
  }

  /** send_lovelace's loop runs through the first n rows: no ADA-only row
      among them raises, and none brings the running sum to `lovelace`. */
  predicate Continues(rows: seq<Row>, lovelace: int, n: nat)
    requires n <= |rows|
  {
    && AdaReadable(rows, n)
    && forall m :: 0 < m <= n && AdaOnly(rows[m - 1]) ==> AdaSum(rows, m) < lovelace
  }

  /** The loop stops after row n - 1, or runs out of rows at n. */
  predicate StopsAt(rows: seq<Row>, lovelace: int, n: nat)
    requires n <= |rows|
  {
    || (n == |rows| && Continues(rows, lovelace, n))
    || (0 < n && Continues(rows, lovelace, n - 1) && AdaOnly(rows[n - 1]) && RowReadable(rows[n - 1])
        && AdaSum(rows, n) >= lovelace)
  }

  /** send_lovelace's selection loop: token rows are skipped, ADA-only rows
      are taken in order until their lovelace reaches `lovelace`; a lovelace
      cell int() cannot read raises. `stop` is where the loop ends. */
  method GatherLovelace(rows: seq<Row>, lovelace: int) returns (r: Result<(seq<Row>, int)>, stop: nat)
    ensures stop <= |rows|
    ensures r.Ok? ==> StopsAt(rows, lovelace, stop) && r.value == (AdaPicks(rows, stop), AdaSum(rows, stop))
    ensures r.Err? ==> r == Err(Raised) && stop < |rows| && Continues(rows, lovelace, stop)
                       && AdaOnly(rows[stop]) && !RowReadable(rows[stop])
  {
    var picked: seq<Row> := [];
    var sum := 0;
    var x := 0;
    while x < |rows|
      invariant 0 <= x <= |rows|
      invariant Continues(rows, lovelace, x)
      invariant picked == AdaPicks(rows, x) && sum == AdaSum(rows, x)
    {
      var cells := rows[x];
      if |cells| > 6 {
        x := x + 1;
        continue;
      }
      picked := picked + [Head(cells)];
      if |cells| < 3 || ParseInt(cells[2]).None? {
        return Err(Raised), x;
      }
      sum := sum + ParseInt(cells[2]).value;
      if sum >= lovelace {
        return Ok((picked, sum)), x + 1;
      }
      x := x + 1;
    }
    return Ok((picked, sum)), x;
  }

  /** The inputs the picked `cells[:3]` name, in order. */
  function PickInputs(picks: seq<Row>): (r: seq<TxIn>)
    requires forall k :: 0 <= k < |picks| ==> |picks[k]| >= 2
    ensures |r| == |picks|
    ensures forall k :: 0 <= k < |picks| ==> r[k] == TxIn(picks[k][0], picks[k][1])
  {
    seq(|picks|, k requires 0 <= k < |picks| => TxInOf(picks[k]))
  }

  /** Each row the loop picks among readable rows is a whole `cells[:3]`. */
  lemma {:induction false} AdaPicksWide(rows: seq<Row>, n: nat)
    requires n <= |rows| && AdaReadable(rows, n)
    ensures forall k :: 0 <= k < |AdaPicks(rows, n)| ==> |AdaPicks(rows, n)[k]| == 3
  {
    if n > 0 {
      AdaPicksWide(rows, n - 1);
    }
  }

  /** The lovelace output `address+quantity`. */
  function LovelaceOut(address: string, quantity: int): Payout
  {
    Payout(address, [Amount(Lovelace, ShowInt(quantity))])
  }

  /** `send_lovelace(sender, key, recipient, lovelace, sender_cover_fee)`:
      inputs are the rows the loop took; when the sender covers the fee the
      recipient gets `lovelace` and the sender the change, otherwise the
      sender gets back what the inputs hold beyond `lovelace` and the
      recipient the change, so the fee is taken from the recipient's part. */
  method SendLovelace(rows: seq<Row>, sender: string, recipient: string, lovelace: int, senderCoversFee: bool)
    returns (r: Result<Draft>, ghost stop: nat)
    ensures stop <= |rows|
    ensures r == Err(EmptyAddress) <==> forall i :: 0 <= i < |rows| ==> !AdaOnly(rows[i])
    ensures r.Err? ==> r == Err(EmptyAddress) || r == Err(Raised)
    ensures r == Err(Raised) ==> Continues(rows, lovelace, stop) && stop < |rows| && !RowReadable(rows[stop])
    ensures r.Ok? ==>
      && StopsAt(rows, lovelace, stop)
      && (forall k :: 0 <= k < |AdaPicks(rows, stop)| ==> |AdaPicks(rows, stop)[k]| == 3)
      && r.value.inputs == PickInputs(AdaPicks(rows, stop))
      && r.value.inputs != []
      && r.value == Draft(r.value.inputs,
           [if senderCoversFee then LovelaceOut(recipient, lovelace) else LovelaceOut(sender, AdaSum(rows, stop) - lovelace)],
           Some(if senderCoversFee then sender else recipient))
  {
    var gathered;
    gathered, stop := GatherLovelace(rows, lovelace);
    if gathered.Err? {
      return Err(gathered.error), stop;
    }
    var (picked, sum) := gathered.value;
    AdaPicksEmpty(rows, stop);
    assert AdaReadable(rows, stop);
    AdaPicksWide(rows, stop);
    if |picked| == 0 {
      assert stop == |rows|;
      return Err(EmptyAddress), stop;
    }
    var inputs: seq<TxIn> := [];
    var k := 0;
    while k < |picked|
      invariant 0 <= k <= |picked|
      invariant inputs == seq(k, j requires 0 <= j < k => TxInOf(picked[j]))
    {
      inputs := inputs + [TxInOf(picked[k])];
      k := k + 1;
    }
    if senderCoversFee {
      r := Ok(Draft(inputs, [LovelaceOut(recipient, lovelace)], Some(sender)));
    } else {
      r := Ok(Draft(inputs, [LovelaceOut(sender, sum - lovelace)], Some(recipient)));
    }
  }

  /** No row is picked exactly when none of the first n is ADA-only. */
  lemma {:induction false} AdaPicksEmpty(rows: seq<Row>, n: nat)
    requires n <= |rows|
    ensures AdaPicks(rows, n) == [] <==> forall i :: 0 <= i < n ==> !AdaOnly(rows[i])
  {
    if n > 0 {
      AdaPicksEmpty(rows, n - 1);
    }
  }

  /** The quantities of send_lovelace's output read back as numbers: the
      recipient's `lovelace` when the sender covers the fee, otherwise the
      inputs' lovelace less `lovelace` for the sender. */
  lemma SendLovelaceAmounts(address: string, quantity: int)
    ensures ReadAmounts(LovelaceOut(address, quantity).amount, 1).Ok?
    ensures ReadAmounts(LovelaceOut(address, quantity).amount, 1).value == [Entry(Lovelace, quantity)]
  {
    ParseShowInt(quantity);
    assert ReadAmounts(LovelaceOut(address, quantity).amount, 0) == Ok([]);
  }

  /** The lovelace the loop took before its last row stays below the amount:
      no input could have been left out. */
  lemma GatherMinimal(rows: seq<Row>, lovelace: int, stop: nat)
    requires stop <= |rows| && StopsAt(rows, lovelace, stop) && 0 < stop && AdaOnly(rows[stop - 1])
    ensures AdaSum(rows, stop - 1) < lovelace || AdaPicks(rows, stop - 1) == []
  {
    var m := stop - 1;
    while m > 0 && !AdaOnly(rows[m - 1])
      invariant 0 <= m <= stop - 1
      invariant AdaSum(rows, m) == AdaSum(rows, stop - 1)
      invariant AdaPicks(rows, m) == AdaPicks(rows, stop - 1)
      decreases m
    {
      assert AdaPicks(rows, m) == AdaPicks(rows, m - 1) + [];
      m := m - 1;
    }
    if m == 0 {
      assert AdaPicks(rows, 0) == [];
    } else {
      assert Continues(rows, lovelace, stop - 1);
    }
  }

  /** `send_all_remaining_lovelace(sender, key, recipient)`: every row is an
      input and the recipient is the change address, so the recipient gets
      everything less the fee; a token row raises, as does a lovelace cell
      int() cannot read, whichever the loop meets first. */
  method SendAllRemainingLovelace(rows: seq<Row>, recipient: string) returns (r: Result<Draft>)
    ensures r == Err(EmptyAddress) <==> rows == []
    ensures r.Ok? <==> rows != [] && forall i :: 0 <= i < |rows| ==> AdaOnly(rows[i]) && RowReadable(rows[i])
    ensures r == Err(TokenInWallet) <==>
      exists i :: 0 <= i < |rows| && !AdaOnly(rows[i]) && forall j :: 0 <= j < i ==> RowReadable(rows[j]) && AdaOnly(rows[j])
    ensures r.Err? ==> r.error in {EmptyAddress, TokenInWallet, Raised}
    ensures r.Ok? ==> r.value == Draft(ChosenInputs(rows, AllChosen(|rows|), |rows|), [], Some(recipient))
  {
    var picked: seq<Row> := [];
    var sum := 0;
    var x := 0;
    while x < |rows|
      invariant 0 <= x <= |rows|
      invariant forall j :: 0 <= j < x ==> RowReadable(rows[j]) && AdaOnly(rows[j])
      invariant picked == seq(x, j requires 0 <= j < x => Head(rows[j]))
    {
      var cells := rows[x];
      if |cells| > 6 {
        return Err(TokenInWallet);
      }
      picked := picked + [Head(cells)];
      if |cells| < 3 || ParseInt(cells[2]).None? {
        assert !(exists i :: 0 <= i < |rows| && !AdaOnly(rows[i]) &&
                   forall j :: 0 <= j < i ==> RowReadable(rows[j]) && AdaOnly(rows[j])) by {
          forall i | 0 <= i < |rows| && !AdaOnly(rows[i])
            ensures !(forall j :: 0 <= j < i ==> RowReadable(rows[j]) && AdaOnly(rows[j]))
          {
            assert i > x;
            assert !RowReadable(rows[x]);
          }
        }
        return Err(Raised);
      }
      sum := sum + ParseInt(cells[2]).value;
      x := x + 1;
    }
    if |picked| == 0 {
      return Err(EmptyAddress);
    }
    var inputs: seq<TxIn> := [];
    var k := 0;
    while k < |picked|
      invariant 0 <= k <= |picked|
      invariant inputs == ChosenInputs(rows, AllChosen(|rows|), k)
    {
      inputs := inputs + [TxInOf(picked[k])];
      k := k + 1;
    }
    r := Ok(Draft(inputs, [], Some(recipient)));
  }

  /** `cells[:3]` of the rows refund_all_ada_utxos keeps among the first n:
      the ADA-only rows holding at least 2 ADA. */
  function Kept(rows: seq<Row>, n: nat): seq<Row>
    requires n <= |rows|
  {
    if n == 0 then [] else Kept(rows, n - 1) + (if IsCover(rows[n - 1]) then [Head(rows[n - 1])] else [])
  }

  /** Each kept row is a whole `cells[:3]`. */
  lemma {:induction false} KeptWide(rows: seq<Row>, n: nat)
    requires n <= |rows|
    ensures forall k :: 0 <= k < |Kept(rows, n)| ==> |Kept(rows, n)[k]| == 3
  {
    if n > 0 {
      KeptWide(rows, n - 1);
    }
  }

  /** A kept row is an ADA-only row of at least 2 ADA, and every such row
      is kept. */
  lemma {:induction false} KeptMembers(rows: seq<Row>, n: nat)
    requires n <= |rows|
    ensures forall i :: 0 <= i < n && IsCover(rows[i]) ==> rows[i][..3] in Kept(rows, n)
    ensures forall k :: k in Kept(rows, n) ==> exists i :: 0 <= i < n && IsCover(rows[i]) && k == rows[i][..3]
  {
    if n > 0 {
      KeptMembers(rows, n - 1);
      var prev := Kept(rows, n - 1);
      if IsCover(rows[n - 1]) {
        assert Kept(rows, n) == prev + [rows[n - 1][..3]];
      } else {
        assert Kept(rows, n) == prev;
      }
    }
  }

  /** The refund of one kept row: that row as the only input, back to the
      address that funded it, which as change address pays the fee. */
  function SingleRefund(cells: Row, chain: Ledger): Draft
    requires |cells| >= 2
  {
    Draft([TxInOf(cells)], [], Some(chain.fundingOf(TxHash(cells))))
  }

  /** `refund_all_ada_utxos(payment_address, key)`: one transaction per
      ADA-only row of at least 2 ADA, in row order; an ADA-only row whose
      lovelace int() cannot read raises before any transaction is built. */
  method RefundAllAdaUtxos(rows: seq<Row>, chain: Ledger) returns (r: Result<seq<Draft>>)
    ensures r.Err? <==> !AdaReadable(rows, |rows|)
    ensures r.Err? ==> r == Err(Raised)
    ensures r.Ok? ==> |r.value| == |Kept(rows, |rows|)|
    ensures r.Ok? ==> forall j :: 0 <= j < |r.value| ==>
      |Kept(rows, |rows|)[j]| == 3 && r.value[j] == SingleRefund(Kept(rows, |rows|)[j], chain)
  {
    var kept: seq<Row> := [];
    var x := 0;
    while x < |rows|
      invariant 0 <= x <= |rows|
      invariant AdaReadable(rows, x)
      invariant kept == Kept(rows, x)
    {
      var cells := rows[x];
      if |cells| <= 6 {
        if |cells| < 3 || ParseInt(cells[2]).None? {
          return Err(Raised);
        }
        if ParseInt(cells[2]).value >= CoverLovelace {
          kept := kept + [Head(cells)];
        }
      }
      x := x + 1;
    }
    KeptWide(rows, |rows|);
    var drafts: seq<Draft> := [];
    var k := 0;
    while k < |kept|
      invariant 0 <= k <= |kept|
      invariant |drafts| == k
      invariant forall j :: 0 <= j < k ==> drafts[j] == SingleRefund(kept[j], chain)
    {
      var utxo := kept[k];
      var sender := chain.fundingOf(TxHash(utxo));
      drafts := drafts + [Draft([TxInOf(utxo)], [], Some(sender))];
      k := k + 1;
    }
    r := Ok(drafts);
  }
}
