/** The stateful engine: an append-only ledger, a per-symbol list of open
    lots, and an append-only list of realized-gain records, updated in place
    by AddTransaction and read by GenerateSummary. */
module Calculator {
  import opened Sums
  import opened Records
  import opened Matching

  /** The report generate_summary returns, before any rounding. */
  datatype Summary = Summary(
    costMethod: string,
    totalTransactions: nat,
    totalSales: nat,
    shortTermGainLoss: real,
    longTermGainLoss: real,
    totalGainLoss: real,
    realizedGains: seq<Gain>)

  class TaxCalculator {
    /** "FIFO" takes lots from the head; any other value takes them from the tail. */
    const costMethod: string
    var transactions: seq<Transaction>
    var taxLots: Inventory
    var realizedGains: seq<Gain>

    /** Every open lot holds a positive amount, so no sale divides by zero. */
    ghost predicate Valid()
      reads this
    {
      InventoryOpen(taxLots)
    }

    predicate IsFifo()
    {
      costMethod == "FIFO"
    }

    constructor (costMethod: string := "FIFO")
      ensures Valid()
      ensures this.costMethod == costMethod
      ensures transactions == [] && taxLots == map[] && realizedGains == []
    {
      this.costMethod := costMethod;
      transactions := [];
      taxLots := map[];
      realizedGains := [];
    }

    /** Logs the transaction whatever its type; a buy opens a lot, a sell is
        matched, any other type changes nothing else. */
    method AddTransaction(t: Transaction)
      requires Valid()
      requires t.transactionType == "buy" ==> t.amount > 0.0
      modifies this
      ensures Valid()
      ensures transactions == old(transactions) + [t]
      ensures t.transactionType == "buy" ==>
        taxLots == AddLot(old(taxLots), t) && realizedGains == old(realizedGains)
      ensures t.transactionType == "sell" ==>
        && taxLots == Sell(old(taxLots), IsFifo(), t).inventory
        && realizedGains == old(realizedGains) + Sell(old(taxLots), IsFifo(), t).gains
      ensures t.transactionType != "buy" && t.transactionType != "sell" ==>
        taxLots == old(taxLots) && realizedGains == old(realizedGains)
    {
      transactions := transactions + [t];
      if t.transactionType == "buy" {
        AddTaxLot(t);
      } else if t.transactionType == "sell" {
        ProcessSale(t);
      }
    }

    /** Appends the buy's lot to the tail of its symbol's list. */
    method AddTaxLot(t: Transaction)
      requires Valid() && t.amount > 0.0
      modifies this
      ensures Valid()
      ensures taxLots == AddLot(old(taxLots), t)
      ensures transactions == old(transactions) && realizedGains == old(realizedGains)
    {
      var symbol := t.symbol;
      if symbol !in taxLots {
        taxLots := taxLots[symbol := []];
      }
      var lot := NewLot(t);
      taxLots := taxLots[symbol := taxLots[symbol] + [lot]];
    }

    /** Matches a sale against its symbol's lots, recording one gain per lot
        touched; a symbol without lots changes nothing. */
    method ProcessSale(t: Transaction)
      requires Valid()
      modifies this
      ensures Valid()
      ensures taxLots == Sell(old(taxLots), IsFifo(), t).inventory
      ensures realizedGains == old(realizedGains) + Sell(old(taxLots), IsFifo(), t).gains
      ensures transactions == old(transactions)
    {
      var symbol := t.symbol;
      if symbol !in taxLots || taxLots[symbol] == [] {
        return;
      }
      ConsumeLots(t);
    }

    /** The matching loop of a sale, in place: while something is left to
        sell and the symbol still has lots, take the next slice. It leaves
        exactly the lots of Match and appends exactly its records. */
    method ConsumeLots(t: Transaction)
      requires t.symbol in taxLots && AllOpen(taxLots[t.symbol])
      modifies this
      ensures var m := Match(IsFifo(), old(taxLots[t.symbol]), t.amount, t);
        && taxLots == old(taxLots)[t.symbol := m.lots]
        && realizedGains == old(realizedGains) + m.gains
      ensures transactions == old(transactions)
    {
      var symbol := t.symbol;
      var amountToSell := t.amount;
      ghost var target := Match(IsFifo(), taxLots[symbol], t.amount, t);
      while amountToSell > 0.0 && taxLots[symbol] != []
        invariant symbol in taxLots && AllOpen(taxLots[symbol])
        invariant taxLots == old(taxLots)[symbol := taxLots[symbol]]
        invariant amountToSell <= t.amount
        invariant Match(IsFifo(), taxLots[symbol], amountToSell, t).lots == target.lots
        invariant realizedGains + Match(IsFifo(), taxLots[symbol], amountToSell, t).gains
                  == old(realizedGains) + target.gains
        invariant transactions == old(transactions)
        decreases |taxLots[symbol]|, if amountToSell > 0.0 then 1 else 0
      {
        StepAdvances(IsFifo(), taxLots[symbol], amountToSell, t, realizedGains);
        var amountFromLot := SellFromLot(t, amountToSell);
        amountToSell := amountToSell - amountFromLot;
      }
      assert Match(IsFifo(), taxLots[symbol], amountToSell, t) == MatchResult(taxLots[symbol], []);
      assert realizedGains + [] == realizedGains;
    }

    /** One turn of the matching loop, in place: the slice taken from the lot
        at the selected end is recorded, and that lot is popped when used up
        or else shrunk. */
    method SellFromLot(t: Transaction, amountToSell: real) returns (amountFromLot: real)
      requires t.symbol in taxLots && taxLots[t.symbol] != [] && AllOpen(taxLots[t.symbol])
      requires 0.0 < amountToSell <= t.amount
      modifies this
      ensures var step := Step(IsFifo(), old(taxLots[t.symbol]), amountToSell, t);
        && amountFromLot == step.gain.amount
        && amountToSell - amountFromLot == step.toSell
        && realizedGains == old(realizedGains) + [step.gain]
        && taxLots == old(taxLots)[t.symbol := step.lots]
      ensures transactions == old(transactions)
    {
      var symbol := t.symbol;
      var proceeds := t.TotalCost() - t.fee;
      var lots := taxLots[symbol];
      var lotIndex := if IsFifo() then 0 else |lots| - 1;
      var lot := lots[lotIndex];
      amountFromLot := Min(amountToSell, lot.amount);
      var costBasis := Proportion(amountFromLot, lot.amount, lot.costBasis);
      var proceedsFromLot := Proportion(amountFromLot, t.amount, proceeds);
      var gainOrLoss := proceedsFromLot - costBasis;
      var daysHeld := t.date - lot.dateAcquired;
      var term := if daysHeld >= 365 then LongTerm else ShortTerm;
      realizedGains := realizedGains + [Gain(symbol, lot.dateAcquired, t.date, amountFromLot,
                                             costBasis, proceedsFromLot, gainOrLoss, term, daysHeld)];
      lot := lot.(amount := lot.amount - amountFromLot);
      if lot.amount <= 0.0 {
        lots := if IsFifo() then lots[1..] else lots[..|lots| - 1];
      } else {
        lot := lot.(costBasis := lot.costBasis - costBasis);
        lots := lots[lotIndex := lot];
      }
      taxLots := taxLots[symbol := lots];
    }

    /** The summary: counts of ledger entries and records, gains split by
        term, and their total, which is the gain over all records. */
    function GenerateSummary(): (s: Summary)
      reads this
      ensures s.costMethod == costMethod && s.realizedGains == realizedGains
      ensures s.totalTransactions == |transactions| && s.totalSales == |realizedGains|
      ensures s.shortTermGainLoss == Sum(realizedGains, ShortTermGainLoss)
      ensures s.longTermGainLoss == Sum(realizedGains, LongTermGainLoss)
      ensures s.totalGainLoss == s.shortTermGainLoss + s.longTermGainLoss
      ensures s.totalGainLoss == Sum(realizedGains, GainLoss)
    {
      TermsPartitionGains(realizedGains);
      var shortTerm := Sum(realizedGains, ShortTermGainLoss);
      var longTerm := Sum(realizedGains, LongTermGainLoss);
      Summary(costMethod, |transactions|, |realizedGains|, shortTerm, longTerm,
              shortTerm + longTerm, realizedGains)
    }
  }

  /** Every record is either short-term or long-term, so the two subtotals
      add up to the gain over all records. */
  lemma TermsPartitionGains(gains: seq<Gain>)
    ensures Sum(gains, ShortTermGainLoss) + Sum(gains, LongTermGainLoss) == Sum(gains, GainLoss)
  {
    SumSplit(gains, ShortTermGainLoss, LongTermGainLoss, GainLoss);
  }

  /** A summary of only short-term records has a zero long-term subtotal. */
  lemma {:induction false} NoLongTermGains(gains: seq<Gain>)
    requires forall j :: 0 <= j < |gains| ==> gains[j].term == ShortTerm
    ensures Sum(gains, LongTermGainLoss) == 0.0
    ensures Sum(gains, ShortTermGainLoss) == Sum(gains, GainLoss)
  {
    if gains != [] {
      NoLongTermGains(gains[1..]);
    }
  }

  /** A summary of only long-term records has a zero short-term subtotal. */
  lemma {:induction false} NoShortTermGains(gains: seq<Gain>)
    requires forall j :: 0 <= j < |gains| ==> gains[j].term == LongTerm
    ensures Sum(gains, ShortTermGainLoss) == 0.0
    ensures Sum(gains, LongTermGainLoss) == Sum(gains, GainLoss)
  {
    if gains != [] {
      NoShortTermGains(gains[1..]);
    }
  }

  // ---------------------------------------------------------- worked example

  /** The worked example's sale: 1.2 BTC at 45000 with a fee of 20 on
      2024-01-10 (day number 19732). */
  function ExampleSaleTx(): Transaction
  {
    Transaction(19732, "sell", 1.2, 45000.0, "BTC", 20.0)
  }

  /** The lots of its two buys: 1.0 BTC at 20000 plus 10 on 2023-01-15 and
      0.5 BTC at 30000 plus 5 on 2023-06-20 (day numbers 19372 and 19528). */
  function ExampleLots(): seq<Lot>
  {
    [Lot(19372, 1.0, 20010.0, 20000.0), Lot(19528, 0.5, 15005.0, 30000.0)]
  }

  /** What is left of the second lot after the sale. */
  function ExampleRemainder(): Lot
  {
    Lot(19528, 0.3, 9003.0, 30000.0)
  }

  /** The two records: the whole first lot (1.0 BTC, basis 20010, proceeds
      45000, 360 days) and 0.2 of the second (basis 6002, proceeds 9000,
      204 days), both short-term. */
  function ExampleRecords(): seq<Gain>
  {
    [Gain("BTC", 19372, 19732, 1.0, 20010.0, 45000.0, 24990.0, ShortTerm, 360),
     Gain("BTC", 19528, 19732, 0.2, 6002.0, 9000.0, 2998.0, ShortTerm, 204)]
  }

  /** First turn: the head lot is used up and popped. */
  lemma ExampleFirstTurn()
    ensures Step(true, ExampleLots(), 1.2, ExampleSaleTx())
         == StepResult(ExampleRecords()[0], ExampleLots()[1..], 0.2)
  {
    var sale := ExampleSaleTx();
    assert Proportion(1.0, 1.0, 20010.0) == 20010.0;
    assert Proportion(1.0, 1.2, sale.TotalCost() - sale.fee) == 45000.0;
  }

  /** Second turn: 0.2 of the 0.5 left in the next lot, which stays reduced. */
  lemma ExampleSecondTurn()
    ensures Step(true, ExampleLots()[1..], 0.2, ExampleSaleTx())
         == StepResult(ExampleRecords()[1], [ExampleRemainder()], 0.0)
  {
    var sale := ExampleSaleTx();
    assert Proportion(0.2, 0.5, 15005.0) == 6002.0;
    assert Proportion(0.2, 1.2, sale.TotalCost() - sale.fee) == 9000.0;
  }

  /** The sale matched FIFO against the two lots gives the two records and
      leaves 0.3 BTC with basis 9003. */
  lemma ExampleSale()
    ensures Match(true, ExampleLots(), 1.2, ExampleSaleTx())
         == MatchResult([ExampleRemainder()], ExampleRecords())
  {
    var lots, sale := ExampleLots(), ExampleSaleTx();
    ExampleFirstTurn();
    ExampleSecondTurn();
    MatchUnfolds(true, lots, 1.2, sale);
    MatchUnfolds(true, lots[1..], 0.2, sale);
    assert Match(true, [ExampleRemainder()], 0.0, sale) == MatchResult([ExampleRemainder()], []);
    assert ExampleRecords() == [ExampleRecords()[0]] + ([ExampleRecords()[1]] + []);
  }

  /** The same sale applied to the inventory holding just those lots. */
  lemma ExampleSell()
    ensures Sell(map["BTC" := ExampleLots()], true, ExampleSaleTx())
         == SaleResult(map["BTC" := [ExampleRemainder()]], ExampleRecords())
  {
    ExampleSale();
  }

  /** Both records of the worked example are short-term: 24990 + 2998. */
  lemma ExampleTotals()
    ensures Sum(ExampleRecords(), ShortTermGainLoss) == 27988.0
    ensures Sum(ExampleRecords(), LongTermGainLoss) == 0.0
  {
    var records := ExampleRecords();
    NoLongTermGains(records);
    assert records[1..][1..] == [];
  }

  /** The worked example's two buys, entered into a fresh FIFO engine. */
  method ExampleBuys() returns (engine: TaxCalculator)
    ensures fresh(engine) && engine.Valid() && engine.IsFifo()
    ensures |engine.transactions| == 2
    ensures engine.taxLots == map["BTC" := ExampleLots()] && engine.realizedGains == []
  {
    assert Lower("buy") == "buy" && Upper("BTC") == "BTC";
    engine := new TaxCalculator("FIFO");
    var buy1 := NewTransaction(19372, "buy", 1.0, 20000.0, "BTC", 10.0);
    var buy2 := NewTransaction(19528, "buy", 0.5, 30000.0, "BTC", 5.0);
    assert NewLot(buy1) == ExampleLots()[0] && NewLot(buy2) == ExampleLots()[1];
    engine.AddTransaction(buy1);
    engine.AddTransaction(buy2);
    assert [ExampleLots()[0]] + [ExampleLots()[1]] == ExampleLots();
  }

  /** The worked example run through the engine: the two buys and the FIFO
      sale. The whole gain of 27988 is short-term. */
  method ExampleUsage() returns (summary: Summary, remaining: seq<Lot>)
    ensures summary.totalTransactions == 3 && summary.totalSales == 2
    ensures summary.realizedGains == ExampleRecords()
    ensures summary.shortTermGainLoss == 27988.0 && summary.longTermGainLoss == 0.0
    ensures summary.totalGainLoss == 27988.0
    ensures remaining == [ExampleRemainder()]
  {
    var engine := ExampleBuys();
    assert Lower("sell") == "sell" && Upper("BTC") == "BTC";
    var sell := NewTransaction(19732, "sell", 1.2, 45000.0, "BTC", 20.0);
    assert sell == ExampleSaleTx();
    ExampleSell();
    engine.AddTransaction(sell);
    summary := engine.GenerateSummary();
    remaining := engine.taxLots["BTC"];
    ExampleTotals();
  }
}
