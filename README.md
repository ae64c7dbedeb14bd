# Crypto tax calculator: cost-basis engine

This project models the cost-basis engine of a crypto capital-gains
calculator in Dafny and proves properties about it. The engine keeps three
things:

- an append-only ledger of transactions;
- a per-symbol list of open acquisition lots ("tax lots");
- an append-only list of realized-gain records.

A buy appends a lot at the tail of its symbol's list. A sell consumes lots
from the head (FIFO) or the tail (LIFO) and records one gain for each lot it
touches. A summary splits the recorded gains into short-term and long-term
by the 365-day holding rule.

The project has four modules:

- `Sums` (`sums.dfy`): exact sums of a real-valued measure over a sequence,
  with the algebra the conservation proofs use.
- `Records` (`records.dfy`): the values of the engine.
  - `Transaction` with its derived total cost.
  - `Lot`, a tax lot.
  - `Gain`, a realized-gain record.
  - The term rule, and the ASCII case folding applied to the type and the
    symbol.
- `Matching` (`matching.dfy`): the inventory as a map from symbol to a
  sequence of lots, and the specification functions.
  - `AddLot` is a buy.
  - `Step` is one turn of the matching loop.
  - `Match` is the whole loop.
  - `Sell` is a sale against the inventory.
  - Lemmas prove:
    - conservation of quantity and of cost basis;
    - the per-record arithmetic;
    - the order in which FIFO and LIFO consume lots.
- `Calculator` (`calculator.dfy`): the `TaxCalculator` class.
  - Its fields are updated in place by `AddTransaction`, `AddTaxLot`,
    `ProcessSale`, its loop `ConsumeLots` and the loop body `SellFromLot`.
  - Each method is proved to leave exactly the state the `Matching`
    functions describe.
  - The module also has `GenerateSummary` and the worked example of the
    source's main block.

Amounts, prices, fees and money are exact `real`s. Dates are whole day
numbers, so `days_held` is a difference of integers. The cost method is the
string the engine was built with. The engine is FIFO exactly when that
string is `"FIFO"`; any other string selects LIFO, as in the source.

The model follows what the code computes, even where the code's own comment
says otherwise. At backend/tax_calculator.py:90 the comment says
`# Subtract fee from proceeds`, and the code computes `total_cost - fee`.
But `total_cost` already includes `+ fee` (line 31), so the fee cancels: a
sale's proceeds are `amount * price` and the sell fee never reaches them.
`Matching.FeeCancels` and `Matching.MatchProceeds` state that behaviour.

## Model

| member | source | states |
|---|---|---|
| Records.NewTransaction | backend/tax_calculator.py:16-31 | The constructor validates nothing and keeps date, amount, price and fee. It folds the type to lower case and the symbol to upper case. The total cost is amount * price + fee. |
| Records.NewLot | backend/tax_calculator.py:40-44 | A lot takes the buy's date and amount. Its cost basis is the buy's total cost, fee included. Its unit price is the raw price, not cost divided by amount. |
| Records.TermOf | backend/tax_calculator.py:110-111 | A holding period is long-term if and only if it is at least 365 days. |
| Records.Lower | backend/tax_calculator.py:26 | Lower-casing keeps the length, maps each character, and leaves no upper-case letter. |
| Records.Upper | backend/tax_calculator.py:29 | Upper-casing keeps the length, maps each character, and leaves no lower-case letter. |
| Records.FoldingIsIdempotent | backend/tax_calculator.py:26-29 | Folding an already folded type or symbol changes nothing. |
| Matching.AddLot | backend/tax_calculator.py:71-78 | A buy appends its lot at the tail of its symbol's list, or creates the list [lot]. Every other symbol is untouched. All open lots stay positive when the bought amount is positive. |
| Matching.BuyConservation | backend/tax_calculator.py:71-78 | A buy raises the symbol's open amount by the bought amount. It raises the open cost basis by amount * price + fee. |
| Matching.Step | backend/tax_calculator.py:92-133 | One turn of the loop strictly lowers what is left to sell, never below zero. It either removes a lot or finishes the sale. Every remaining lot keeps a positive amount. |
| Matching.StepTakes | backend/tax_calculator.py:93-131 | One turn takes min(left to sell, lot amount) from the head lot (FIFO) or the tail lot (LIFO), keeping that lot's acquisition date. A lot that is used up is popped from that end and passes on its whole basis. A lot that is only reduced keeps its place, loses the amount and basis taken, and ends the sale. |
| Matching.StepRecord | backend/tax_calculator.py:100-124 | The record of one turn has the sale's symbol and date, days held = sale date - acquisition date, and the 365-day term. Its cost basis is (taken / lot amount) * lot basis. Its proceeds are taken * price, and its gain is proceeds - basis. |
| Matching.FeeCancels | backend/tax_calculator.py:89-103 | (taken / sold amount) * (total cost - fee) equals taken * price: the sell fee cancels out of the proceeds. |
| Matching.Match | backend/tax_calculator.py:92-133 | The matching loop leaves every open lot positive and makes at most one record per lot. |
| Matching.StepAdvances | backend/tax_calculator.py:92-133 | After one turn, matching the rest leaves the same lots. The records made so far plus the rest's records are the whole match's records. This is the invariant of the in-place loop. |
| Matching.MatchRecords | backend/tax_calculator.py:100-124 | Every record a match makes is a record of the sale: positive amount, symbol, date, term rule, proceeds = amount * price, gain = proceeds - basis. |
| Matching.MatchQuantity | backend/tax_calculator.py:92-133 | The records take min(sold amount, open amount) in total. The open amount falls by exactly that. Nothing to sell means no change. |
| Matching.MatchBasis | backend/tax_calculator.py:100-131 | The basis attributed to the records plus the basis left on the lots equals the basis before: cost basis is neither created nor lost. |
| Matching.MatchProceeds | backend/tax_calculator.py:89-104 | The records' proceeds sum to price * matched amount. When the lots cover the sale, the matched amount is the sold amount and the proceeds sum to amount * price. |
| Matching.FifoOrder | backend/tax_calculator.py:93-95 | FIFO consumes the first k lots in order, all whole except possibly the last. The rest of the list is untouched and is what remains, behind the remainder of a partially used lot. |
| Matching.LifoOrder | backend/tax_calculator.py:93-95 | LIFO consumes the last k lots from the tail, all whole except possibly the last. The front of the list is untouched and is what remains, ahead of the remainder of a partially used lot. |
| Matching.Sell | backend/tax_calculator.py:80-87 | A sale of a symbol with no lots, or with an empty list, changes nothing and records nothing, as does a sale of a non-positive amount. Otherwise only the sold symbol's list changes, and all lots stay open. |
| Matching.SellRecords | backend/tax_calculator.py:80-124 | Every record a sale makes carries its symbol, date and price. |
| Matching.SellQuantity | backend/tax_calculator.py:80-133 | A sale records min(sold amount, open amount), or nothing for a non-positive amount. The open amount falls by exactly that. |
| Matching.SellBasis | backend/tax_calculator.py:80-133 | A sale moves cost basis from the open lots into its records without creating or losing any. |
| Calculator.TaxCalculator.constructor | backend/tax_calculator.py:56-60 | A new engine keeps its cost method. Its ledger, lots and records start empty. |
| Calculator.TaxCalculator.AddTransaction | backend/tax_calculator.py:62-69 | Every transaction is appended to the ledger. A buy's new state is AddLot and a sell's is Sell, whose records are appended. Any other type changes nothing else. |
| Calculator.TaxCalculator.AddTaxLot | backend/tax_calculator.py:71-78 | The in-place buy leaves exactly AddLot of the previous lots and leaves ledger and records unchanged. |
| Calculator.TaxCalculator.ProcessSale | backend/tax_calculator.py:80-87 | A sale leaves exactly the lots of Sell and appends exactly its records. A symbol without lots, or with an empty list, returns early and changes nothing. The ledger is unchanged and all lots stay open. |
| Calculator.TaxCalculator.ConsumeLots | backend/tax_calculator.py:89-133 | The in-place matching loop leaves the symbol's list equal to Match's remaining lots and appends exactly Match's records. Every other symbol and the ledger are unchanged. |
| Calculator.TaxCalculator.SellFromLot | backend/tax_calculator.py:93-131 | One in-place turn appends the record of Step and replaces the symbol's list with Step's lots. It returns the amount Step takes. |
| Calculator.TaxCalculator.GenerateSummary | backend/tax_calculator.py:173-186 | The summary counts ledger entries and records and copies method and records. The short-term subtotal sums the gains of the short-term records only, and the long-term subtotal those of the long-term records only. The total is short-term + long-term, and equals the gain summed over all records. |
| Calculator.TermsPartitionGains | backend/tax_calculator.py:175-176 | The short-term and long-term subtotals add up to the gain over all records. |
| Calculator.NoLongTermGains | backend/tax_calculator.py:175-176 | With only short-term records, the long-term subtotal is 0 and the short-term subtotal is the total. |
| Calculator.NoShortTermGains | backend/tax_calculator.py:175-176 | With only long-term records, the short-term subtotal is 0 and the long-term subtotal is the total. |
| Calculator.ExampleFirstTurn | backend/tax_calculator.py:232-234 | In the worked example, the first turn uses up the 1.0 BTC lot: basis 20010, proceeds 45000, 360 days, short-term. |
| Calculator.ExampleSecondTurn | backend/tax_calculator.py:232-234 | The second turn takes 0.2 of the 0.5 BTC lot: basis 6002, proceeds 9000, 204 days. It leaves 0.3 BTC with basis 9003. |
| Calculator.ExampleSale | backend/tax_calculator.py:232-234 | The FIFO match of the example sale gives exactly those two records and leaves only the 0.3 BTC remainder. |
| Calculator.ExampleSell | backend/tax_calculator.py:232-234 | Applied to the inventory of the two buys, the example sale leaves only the remainder and makes the two records. |
| Calculator.ExampleTotals | backend/tax_calculator.py:236-239 | The example's short-term gain is 27988 and its long-term gain is 0. |
| Calculator.ExampleBuys | backend/tax_calculator.py:229-233 | A FIFO engine given the two buys holds exactly the two lots and no record. |
| Calculator.ExampleUsage | backend/tax_calculator.py:227-239 | Running the example gives 3 transactions and 2 records, the two expected records, short-term 27988, long-term 0, total 27988, and the 0.3 BTC remainder lot. |

## Left out

- `load_csv` and `export_form_8949`: file and CSV I/O are not part of this model.
- Date parsing with `dateutil`: dates are whole day numbers. There is no time of day, so `days_held` is a plain difference of day numbers.
- Decimal arithmetic: amounts and money are exact reals. Python's 28-digit Decimal context (rounding of a division such as `amount_from_lot / lot.amount`) and the `Decimal(str(float))` conversion of the inputs are not modelled.
- The `float(...)` conversion of record fields and `round(..., 2)` in the summary: records and summary values are exact.
- The warning printed for a sale without lots: I/O. The sale itself is modelled as changing nothing.
- Case folding: `lower()` and `upper()` are modelled for ASCII letters only. Unicode case mapping is not modelled.
- Calculator.TaxCalculator.AddTransaction: requires a buy's amount to be positive. The source accepts any amount. A zero-amount lot makes a later sale divide by zero (an exception the model does not represent), and a negative one makes `min` pick a negative slice.
- Calculator.TaxCalculator.AddTaxLot: requires a positive amount, for the same reason.
- The lot objects are mutated in place in the source. In the model a lot is a value, and its update replaces the element of the symbol's sequence. No other reference to a lot exists in the source, so no aliasing is lost.
- `generate_summary` returns the engine's own `realized_gains` list (line 185), so a caller that mutates the returned list changes the engine. The model's `Summary` holds an immutable copy of the records, so this aliasing is not modelled.
- The HTTP API and the web frontend are not part of this model.
