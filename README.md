# Middle-wallet bookkeeping and transaction planning, in Dafny

This project models the value bookkeeping of the Cardano middle-wallet
service: a REST front end over `cardano-cli` and Blockfrost that holds
escrowed trades and sends ADA and native assets for its users. The model
covers the parts that decide what a transaction does, not how it is built,
signed or submitted:

- **Aggregation** (`aggregation.dfy`, `balances.dfy`): a row of
  `cardano-cli query utxo` becomes a unit-to-quantity dict. The row is
  read pair by pair, quantity at cell i+2 and unit at cell i+3, up to the
  `TxOutDatumHash` marker. The module also has the affordability test and
  the package merge. A Python dict is a `Balance`: its keys in insertion
  order and its values.
- **Trade matcher** (`matching.dfy`): `check_buyer_and_seller` and its
  three variants. They mark the UTXOs at the escrow address that came
  from a registered buyer or seller. They also find the UTXO proving that
  the buyer paid or that the seller delivered.
- **Transaction planner** (`planner.dfy`): `get_transaction_body`. It
  sums the package, checks affordability, tops up the recipient outputs,
  and selects inputs greedily in query order until the change and the fee
  fit.
- **Refunds and transfers** (`refunds.dfy`, `transfers.dfy`):
  - the outputs of `return_all_utxos` and `return_all_registered_utxos`;
  - the row filters and selection of `send_lovelace`,
    `send_all_remaining_lovelace` and `refund_all_ada_utxos`.
- **Handlers** (`handlers.dfy`):
  - the two UTXO listings, which also return the datum hash;
  - the trade refund and the two trade finalizers, with the service fee
    and its waiver;
  - the 56-character unit split and join of the transaction-body request;
  - the search for a confirmed outgoing transaction.

Errors (`outcomes.dfy`) are explicit. An exception nobody catches
(KeyError, IndexError, or ValueError from `int()`) is `Err(Raised)`. Each
error dictionary or deliberate `raise` has its own `Error` value.

Python's `int()` on a quantity cell of the node's listing is
`Text.ParseInt`: an optional sign and ASCII digits, which is all such a
cell can hold. Python's `str()` is `Text.ShowInt`. The quantities of a
request (a trade's listings, the amounts of a transaction-body request)
are narrowed as "## Left out" says.

The chain lookups are a `Matching.Ledger` of two functions:
- `fundingOf` gives the first input address of a transaction;
- `stakeOf` gives the stake address of an address.

The node's min-UTXO calculation and fee calculation are function
parameters `minUtxo` and `fee`.

A transaction handed to `cardano-cli transaction build` is a
`Refunds.Draft`: inputs, `--tx-out` outputs and an optional
`--change-address`. `get_transaction_body`'s answer is a `Planner.Plan`:
inputs, outputs and fee.

## Model

| member | source | states |
|---|---|---|
| Text.ParseShowInt | rest-api.py:80-84 | a quantity written with str() reads back through int() as the same number |
| Text.TextEqualImpliesNumericEqual | utils.py:716 | a quantity cell that equals str(q) as text holds the number q |
| Text.NumericEqualDoesNotImplyTextEqual | utils.py:722 | the comparison is textual, not numeric: "05" is 5 to int() yet differs from str(5); the node writes its quantities without leading zeros, so on its cells the two agree (TextEqualImpliesNumericEqual, ParseShowInt) |
| Text.StripQuotes | rest-api.py:73 | the result has no double quote at either end, is no longer than the cell, and a cell with none at its ends is unchanged |
| Text.JoinSplitUnit | rest-api.py:1273-1277 | a unit longer than 56 characters gains a '.' at position 56 and one character; a shorter one is unchanged; joining afterwards always restores the original |
| Text.SplitJoinUnit | rest-api.py:1289-1293 | a query-form unit with the '.' at position 56 and a non-empty asset name is restored by joining and then splitting |
| Balances.Add | utils.py:917-920 | `d[u] += q` or `d[u] = q`: only u changes, by q; a new key goes to the end, an existing key keeps its place |
| Balances.AddAllGet | utils.py:917-921 | after adding records, each unit holds its prior value plus the sum of its quantities in the records, and an absent unit keeps its value |
| Balances.AddAllKeys | utils.py:917-921 | the keys afterwards are exactly the prior keys and the units the records name |
| Balances.AddAllAppend | transactions.py:599-601 | folding rows one batch after another equals folding them in one pass |
| Balances.AddAllCommutes | utils.py:908-921 | folding two batches in either order gives every unit the same value |
| Balances.RecordsGet | transactions.py:621-626 | the records of a dict, written key by key, give each unit exactly its value |
| Balances.RecordsUnsigned | transactions.py:682-688 | a dict with no negative value writes no negative record |
| Balances.KeepPositive | transactions.py:683 | the change records written are only those above zero |
| Balances.KeepSum | transactions.py:710-716 | dropping zero records changes no unit's total when none is negative |
| Aggregation.AddUtxoToDict | utils.py:908-921 | the dict becomes the prior dict plus the row's records, or the call raises exactly when the row's records cannot be read |
| Aggregation.AmountsFromShape | utils.py:909-916 | every record read is one whole pair (i+2, i+3) inside the row before the marker; reading stops at the row's end or at the first marker; a row of 3 cells or fewer adds nothing |
| Aggregation.AmountsFromError | utils.py:918-920 | a row raises only because of a pair before the marker whose quantity int() cannot read |
| Aggregation.CheckEnoughFundSpec | utils.py:994-1012 | check_enough_fund is True iff the package is empty, or every package unit is held in at least its quantity and the lovelace left over is not strictly between 0 and 1 ADA; it raises iff the first key is covered and either side lacks lovelace |
| Aggregation.CombinePackages | utils.py:1092-1106 | the keys are the union of both packages, each unit's value is the sum of its two values, package_2's keys keep their order and package_1's new keys follow; both arguments are left as they were |
| Matching.CheckBuyerAndSeller | utils.py:673-726 | one mark and one funding address per UTXO, set exactly for UTXOs funded from a listed buyer or seller stake address; the parties come from the last paying and the last delivering UTXO; it raises iff some row is empty or is a short buyer-side row |
| Matching.CheckBuyerAndSellerWithoutStake | utils.py:729-782 | every UTXO's funding address is recorded; the parties are found by the same rules without the stake address test |
| Matching.CheckBuyerAndSellerBlockfrost | utils.py:785-849 | the same marks and addresses over Blockfrost UTXOs; a payment is a single amount equal to the listing, a delivery has two amounts whose first non-lovelace one equals the listing |
| Matching.CheckBuyerAndSellerBlockfrostWithoutStake | utils.py:852-905 | every Blockfrost UTXO's funding address is recorded and the parties are found without the stake address test |
| Matching.VisitCliRow | utils.py:710-724 | one loop step: it raises iff the row is empty or is a buyer-side row of at most 3 cells; otherwise it marks and flags the row as the stake lists and listings say |
| Matching.FindToken | utils.py:839-844 | the first amount that is not lovelace, or an empty unit and quantity when there is none |
| Matching.VisitBfUtxo | utils.py:821-847 | one loop step over a Blockfrost UTXO, marking and flagging it as the stake lists and listings say |
| Matching.ScanMarks | utils.py:713-721 | after n steps a UTXO is marked, with its funding address, iff it was reached and came from either side; otherwise it keeps 0 and '' |
| Matching.ScanParties | utils.py:716-724 | after n steps the buyer and seller are those of the last paying and last delivering UTXO among the first n |
| Matching.CliWinnersDiffer | utils.py:716-722 | no row both pays (at most six cells) and delivers (exactly nine), so the two winners are different rows |
| Matching.BfWinnersDiffer | utils.py:828-845 | no Blockfrost UTXO both pays (one amount) and delivers (two amounts) |
| Matching.PartiesMeaning | utils.py:699-724 | ada_tx is '' iff no UTXO pays; otherwise it and the buyer address come from a paying UTXO with no paying UTXO after it; the same for the seller |
| Matching.LastMatchUnique | utils.py:709-724 | the last match is the only flagged index with no flagged index after it |
| Planner.MergeInto | transactions.py:572-576 | a destination's amounts are added to the dict record by record, or the call raises iff some quantity cannot be read |
| Planner.SummarizePackage | transactions.py:569-581 | it raises iff some quantity cannot be read; otherwise it gives each destination's merged amount and the package total |
| Planner.MergedSums | transactions.py:571-576 | a merged amount holds each unit once, with the sum of that unit's quantities in the destination's amounts |
| Planner.PackageTotalSums | transactions.py:569-580 | each unit of package_balance is that unit summed over all destinations |
| Planner.SenderBalance | transactions.py:599-601 | the sender balance is add_utxo_to_dict folded over every row from `{}` |
| Planner.HoldingsSum | transactions.py:599-601 | the sender balance holds, per unit, the sum of the rows' quantities, and none is negative when no row's quantity is |
| Planner.Affordable | transactions.py:608-612 | the affordability loop passes iff every package unit is in the sender balance with at least the package's quantity |
| Planner.TopUpOutput | transactions.py:628-635 | the loop's top-up equals TopUp, so TopUpSpec applies to it: only lovelace changes, by the min-UTXO value when it exceeds one ADA |
| Planner.TopUpSpec | transactions.py:628-635 | a top-up changes only lovelace, adding the min-UTXO value of the output iff that value exceeds one ADA, and creating the key if needed |
| Planner.PlanRecipients | transactions.py:617-653 | one output per destination, each its merged amount topped up, plus package_lovelace_req; it raises iff some output has no lovelace |
| Planner.LovelaceListedAll | transactions.py:650 | the recursive lovelace test is the plain one: every topped-up output holds lovelace |
| Planner.RecipientsSum | transactions.py:615-653 | the recipient outputs carry the destinations' quantities of every unit, and their lovelace is package_lovelace_req |
| Planner.Deduct | transactions.py:675-677 | the change dict keeps temp's key order, and each unit is temp's value less the package's |
| Planner.PositiveRecords | transactions.py:680-688 | the change records are the dict's positive records, in key order |
| Planner.PayFee | transactions.py:703-725 | the fee block yields a closing exactly when the change less the fee still holds its min-UTXO lovelace, with the fee taken from lovelace (SettledConserves) |
| Planner.Settle | transactions.py:689-725 | the change block equals Settled: no closing when the change records have no positive min-UTXO value or too little lovelace for it, else the fee block |
| Planner.Close | transactions.py:673-726 | the check-and-close block equals TryClose: nothing while check_enough_fund is False, else the package taken out and the change settled (CloseConserves) |
| Planner.CloseConserves | transactions.py:673-726 | a closed plan covers the package; the change goes to the sender with positive records and at least its min-UTXO lovelace; every unit of the selected UTXOs splits into package, change and, on lovelace, the fee |
| Planner.SettledConserves | transactions.py:694-725 | the settled change keeps every unit of the change dict, lovelace less the fee, and the fee is the one computed on the inputs and the recipient outputs |
| Planner.SelectInputs | transactions.py:663-728 | the loop with its break and its last-row error equals Select, whose outcomes SelectFromOk, SelectFromFees and SelectFromErrors state |
| Planner.SelectFromOk | transactions.py:667-726 | a selection that succeeds closes at some prefix of the rows, and no shorter prefix closed |
| Planner.SelectFromFees | transactions.py:727-728 | the "Not enough lovelace to cover fees" error comes iff no prefix of the rows closes the plan and none raises |
| Planner.SelectFromErrors | transactions.py:663-728 | the selection fails only by an exception or by running out of rows |
| Planner.SelectConserves | transactions.py:667-726 | the inputs are a prefix of the rows, the first that closes; per unit the inputs carry the package, the change and, on lovelace, the fee |
| Planner.GetTransactionBody | transactions.py:543-740 | the method equals TransactionBody, the planner whose success, refusals and errors the lemmas below state |
| Planner.TransactionBodyConserves | transactions.py:667-740 | on success: the inputs are the first k rows in query order for the smallest k that closes; there is one output per destination plus the change to the first sender address, all positive; per unit, inputs = outputs + fee on lovelace |
| Planner.TransactionBodyRefuses | transactions.py:608-612 | an unaffordable package is refused with CannotAfford before any UTXO is taken; with too little lovelace for the recipients the refusal is NotEnoughLovelace (lines 658-659) |
| Planner.TransactionBodyErrors | transactions.py:608-728 | every failure is an exception, CannotAfford, NotEnoughLovelace or NotEnoughForFees |
| Planner.NoUtxosNoPlan | transactions.py:595-612 | a sender with no UTXOs gets no plan |
| Refunds.ChosenTxIns | transactions.py:470-473 | the tx-in of every chosen row, in order; it raises iff a chosen row has no index cell |
| Refunds.RefundOutputs | transactions.py:476-487 | the refund outputs and the cover address; it raises iff a chosen row cannot be read |
| Refunds.PlanReturn | transactions.py:465-494 | the two loops and the `[]` exit equal ReturnPlan, whose meaning ReturnPlanSpec states |
| Refunds.ReturnPlanSpec | transactions.py:359-385 | it fails only on an unreadable chosen row; it builds nothing iff no chosen row is ADA-only with at least 2 ADA; otherwise every chosen row is an input, the first cover row gets no output and its funder is the change address, and every other chosen row gets exactly one output, to its funder |
| Refunds.PayoutsKeepFirstCover | transactions.py:363-372 | the loop withholds exactly the first chosen cover row and refunds every other chosen row |
| Refunds.RepaymentsMembers | transactions.py:363-372 | each chosen row other than the withheld one is refunded to its funding address, every output is such a refund, and there is one per such row |
| Refunds.ChosenInputsMembers | transactions.py:359-360 | each chosen row is an input and every input is a chosen row's |
| Refunds.FirstCover | transactions.py:365-367 | the cover row is chosen, ADA-only with at least 2 ADA, and no earlier chosen row is |
| Refunds.ReturnPlanValue | transactions.py:359-385 | over rows with at most one asset, the refunds carry per unit what the chosen rows hold, less the cover row, whose value goes to the change address |
| Refunds.RefundCarriesRow | transactions.py:368-372 | the refund of a row with at most one asset carries exactly that row's amounts |
| Refunds.RefundDropsSecondAsset | transactions.py:370-372 | a row with two assets is refunded with its first asset only |
| Refunds.ReturnAllUtxos | transactions.py:327-431 | every row is chosen and refunded to the first input address of the transaction that created it |
| Refunds.ReturnAllRegisteredUtxos | transactions.py:434-540 | the same refund over the rows funded from a listed stake address; an empty row raises |
| Transfers.GatherLovelace | transactions.py:41-55 | token rows are skipped and ADA-only rows taken in order until their lovelace reaches the amount; it raises at the first ADA-only row int() cannot read |
| Transfers.GatherMinimal | transactions.py:41-55 | the rows taken before the last one did not yet reach the amount, so no input could be left out |
| Transfers.SendLovelace | transactions.py:4-120 | it fails with EmptyAddress iff the address has no ADA-only row; otherwise the inputs are the rows taken, and with the fee paid by the sender the recipient gets the amount and the sender the change; otherwise the sender gets back the inputs' surplus and the recipient the change |
| Transfers.AdaPicksEmpty | transactions.py:58-59 | nothing is taken iff no row is ADA-only |
| Transfers.SendLovelaceAmounts | transactions.py:78-94 | each output's quantity reads back as the number it was built from |
| Transfers.SendAllRemainingLovelace | transactions.py:123-218 | with no rows it fails with EmptyAddress; it fails with TokenInWallet iff the loop meets a token row before an unreadable one; otherwise every row is an input and the recipient is the change address |
| Transfers.RefundAllAdaUtxos | transactions.py:221-324 | one refund per ADA-only row of at least 2 ADA, in row order, each to its funder; an unreadable ADA-only row raises before any is built |
| Transfers.KeptMembers | transactions.py:244-250 | a kept row is ADA-only with at least 2 ADA, and every such row is kept |
| Handlers.ViewRow | rest-api.py:58-87 | one UTXO of the listing: hash, index, the dict's records with quantities written by str(), and the datum hash; a row that raises fails |
| Handlers.SumPairs | rest-api.py:64-78 | the handler's copy of the aggregation yields the same dict as add_utxo_to_dict from `{}` and takes the datum hash at the marker |
| Handlers.ShowAll | rest-api.py:79-84 | the amount list is the dict's records in key order, each quantity written by str() |
| Handlers.ListUtxos | rest-api.py:52-127 | one view per row in query order for both listings; the request fails iff some row raises |
| Handlers.ViewReadsBack | rest-api.py:79-84 | the amounts listed read back through int() as exactly the dict's records, each unit once |
| Handlers.ViewDatum | rest-api.py:71-73 | a view carries a datum hash iff the reading stopped at the marker rather than at the row's end, and the hash is the last cell with its quotes stripped |
| Handlers.BuyerRefunds | rest-api.py:237-246 | every registered row outside the payment transaction is refunded to its funder; it raises iff such a row has fewer than 3 cells |
| Handlers.PlanTradeReturn | rest-api.py:227-279 | the tx-in loop, the exit without inputs and the branch on the sides found equal TradeReturnPlan, whose branches BuyerOnlyRefund and SellerFoundRefund state |
| Handlers.TradeReturnAllUtxos | rest-api.py:161-279 | the refund plan after the matcher, or the matcher's exception |
| Handlers.BuyerOnlyRefund | rest-api.py:237-249 | buyer found, seller not: every registered row is an input, every registered row outside the payment is refunded to its funder and nothing else, and the buyer gets the change |
| Handlers.SellerFoundRefund | rest-api.py:227-235 | once the seller is found the refund has the registered inputs but no outputs and no change address |
| Handlers.RoundHalfEven | rest-api.py:431 | round() on the exact fraction: within half a unit of the quotient, and a tie goes to the even neighbour |
| Handlers.ServiceFee | rest-api.py:429-432 | the fee is never below 1 ADA, is otherwise the rounded price times rate, and exceeds 1 ADA whenever the exact product exceeds it by more than half a lovelace |
| Handlers.SettlementOutputs | rest-api.py:464-477 | the settlement's refunds are Repayments over the routed rows, whose content RoutedRefunds states; it raises iff a routed row cannot be written |
| Handlers.PlanSettlement | rest-api.py:425-485 | the fee, the tx-in loop, the exits, the tx-out loop and the market's output equal FinalizePlan, whose meaning FinalizeSpec states |
| Handlers.TradeFinalize | rest-api.py:368-485 | the settlement of the registered rows, or the matcher's exception |
| Handlers.V1TradeFinalize | rest-api.py:539-640 | the settlement of every row, whatever its funder, or the matcher's exception |
| Handlers.FinalizeSpec | rest-api.py:425-485 | status is success iff both sides were found; there is a transaction iff it succeeded with chosen rows; the delivery goes to the buyer, the payment gets no output, other chosen rows go back to their funders, the market gets the fee unless waived, and the seller gets the change |
| Handlers.RoutedRefunds | rest-api.py:464-477 | one refund per routed row and nothing else: every delivery row to the buyer, every chosen row outside the payment back to its funder, and no payment row unless it is also the delivery |
| Handlers.SplitRequest | rest-api.py:1273-1277 | every unit of the request longer than 56 characters is written in query form; quantities and order are kept |
| Handlers.JoinOutput | rest-api.py:1290-1293 | the '.' is dropped from every long unit of one output; address, quantities and order are kept |
| Handlers.JoinResponse | rest-api.py:1289-1293 | every output of the response is joined; inputs and fee are kept |
| Handlers.TransactionBodyRequest | rest-api.py:1265-1295 | the planner's answer for the split request, with every output joined, or its error |
| Handlers.SingleDestinationOutput | transactions.py:617-653 | a one-destination plan has two outputs, the first the destination's merged amount, topped up, at its address |
| Handlers.TransactionBodyRequestUnits | rest-api.py:1273-1293 | the receiver's output carries, after joining, exactly the requested units as the request wrote them, plus lovelace |
| Handlers.ToppedUnits | transactions.py:621-635 | the topped-up amount has a key for each requested unit, and no other key besides lovelace |
| Handlers.PaysListedOnly | rest-api.py:1212-1218 | the check is True iff every output pays an address whose stake address is listed |
| Handlers.ConfirmOutgoing | rest-api.py:1202-1224 | failed iff no transaction in the history is outgoing and pays listed stake addresses only; otherwise the txid and height of the match that comes first in descending block-height order |

## Left out

- The `cardano-cli` and Blockfrost calls are left out, because they are I/O. This covers building, signing, submitting, txid, min-UTXO, fee, protocol file, transaction content, stake address, history and address lists. Their results are parameters.
- The node's text parsing of `--tx-out` arguments is left out. Refund outputs keep the row's quantity text as the node would read it.
- The two header lines of `query_utxos` are left out: rows are given from the first UTXO on. The `strip('"')` on every cell is taken as done.
- Signing-key and draft files, directories, `get_unique_id`, printing, JSON and Quart routing are left out, because they are plumbing.
- Wallet creation, key hashing, script and datum hashing are left out, because they are cryptography done by the node's CLI.
- `coroutine_run_command` and `coroutine_query_utxos` are left out, because they are unfinished concurrency stubs.
- `reclaim_status_handler` and `reclaim_finalize_handler` are left out, because the source marks both with a TODO note as unfinished.
- The thin handlers that only call `return_all_utxos`, `return_all_registered_utxos` or `refund_all_ada_utxos` and wrap the txids are left out.
- The trade-status handlers are left out, because they only report the matcher's result.
- `enums.py` is left out, because it holds configuration constants only.
- The unit renaming in `get_balance_by_stake_address` (UTF-8 asset name to hex) is left out, because it depends on byte decoding.
- The `syncProgress` float comparison of the server status is left out.
- Handlers.ServiceFee: the rate is an exact fraction `num/den`, not a float. `round()` is round-half-even on the exact product, so float representation error is not modelled.
- Handlers.ConfirmOutgoing: the stable descending sort followed by a first-match loop is modelled as one pass that keeps the best-ranked match. The result is the same transaction; the sorted list itself is not built.
- Matching.CheckBuyerAndSeller: the caller's listing dict is not rewritten to query form in place; the query-form unit is computed for the comparison only.
- Planner.SummarizePackage: `p['amount']` is not rewritten in place. The merged amounts are returned beside the total.
- Planner.MergeInto, Planner.SummarizePackage: a request quantity is read with `Text.ParseInt`, an optional sign and ASCII digits. Python's `int()` also accepts surrounding whitespace, `_` between digits, non-ASCII decimal digits, and a JSON number (truncating a float). For such a quantity the model raises where get_transaction_body plans.
- Matching.Listing: a trade's listing quantity is taken as a JSON integer, in the four matchers and in Handlers.TradeFinalize and Handlers.V1TradeFinalize. The matchers compare node cells with `str()` of the request's value, and the finalizers take the price with `int()` of it. So a quantity sent as text such as "05000000", or as a float, never matches in the source, and a non-numeric one raises in the finalizers; neither can be written in the model.
- Refunds.ReturnPlanValue: the per-unit value statement is proved only for rows with at most one asset. A row with two assets is refunded with its first asset only (Refunds.RefundDropsSecondAsset).
- Handlers.BuyerRefunds, Handlers.PlanTradeReturn, Handlers.SettlementOutputs, Handlers.PlanSettlement: these require every row to have at least one cell, because rows from the node's listing always carry a transaction hash.
