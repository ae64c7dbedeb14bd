/** The lot inventory and the FIFO/LIFO matching of a sale against it, as
    functions of the inventory before the operation. The class in Calculator
    is proved to compute exactly these. */
module Matching {
  import opened Sums
  import opened Records

  type Inventory = map<string, seq<Lot>>

  /** Every open lot still holds a positive amount. */
  predicate AllOpen(lots: seq<Lot>)
  {
    forall j :: 0 <= j < |lots| ==> lots[j].amount > 0.0
  }

  predicate InventoryOpen(inv: Inventory)
  {
    forall s :: s in inv ==> AllOpen(inv[s])
  }

  /** The open amount of a symbol; zero when the symbol was never bought. */
  function OpenAmount(inv: Inventory, symbol: string): real
  {
    if symbol in inv then Sum(inv[symbol], LotAmount) else 0.0
  }

  /** The open cost basis of a symbol; zero when the symbol was never bought. */
  function OpenBasis(inv: Inventory, symbol: string): real
  {
    if symbol in inv then Sum(inv[symbol], LotBasis) else 0.0
  }

  // ---------------------------------------------------------------- buying

  /** A buy: one new lot at the tail of its symbol's list, the list created
      when absent, every other symbol untouched. */
  function AddLot(inv: Inventory, t: Transaction): (r: Inventory)
    ensures r.Keys == inv.Keys + {t.symbol}
    ensures t.symbol in inv ==> r[t.symbol] == inv[t.symbol] + [NewLot(t)]
    ensures t.symbol !in inv ==> r[t.symbol] == [NewLot(t)]
    ensures forall s :: s in inv && s != t.symbol ==> r[s] == inv[s]
    ensures t.amount > 0.0 && InventoryOpen(inv) ==> InventoryOpen(r)
  {
    var lots := if t.symbol in inv then inv[t.symbol] else [];
    inv[t.symbol := lots + [NewLot(t)]]
  }

  /** A buy raises its symbol's open amount by the bought amount and its open
      cost basis by amount * price + fee. */
  lemma BuyConservation(inv: Inventory, t: Transaction)
    ensures OpenAmount(AddLot(inv, t), t.symbol) == OpenAmount(inv, t.symbol) + t.amount
    ensures OpenBasis(AddLot(inv, t), t.symbol) == OpenBasis(inv, t.symbol) + t.amount * t.price + t.fee
  {
    var lots := if t.symbol in inv then inv[t.symbol] else [];
    SumAppend(lots, [NewLot(t)], LotAmount);
    SumAppend(lots, [NewLot(t)], LotBasis);
  }

  // ---------------------------------------------------------------- selling

  function Min(a: real, b: real): real
  {
    if b < a then b else a
  }

  /** The index of the lot a sale consumes next: the head for FIFO, the tail otherwise. */
  function EndIndex(fifo: bool, n: nat): (i: nat)
    requires n > 0
    ensures i < n
  {
    if fifo then 0 else n - 1
  }

  /** A lot with a slice taken out of it. */
  function Reduced(l: Lot, g: Gain): Lot
  {
    l.(amount := l.amount - g.amount, costBasis := l.costBasis - g.costBasis)
  }

  /** The proceeds a sale spreads over its slices are amount * price: the fee
      added into the total cost is subtracted again. */
  lemma FeeCancels(x: real, sale: Transaction)
    requires sale.amount != 0.0
    ensures Proportion(x, sale.amount, sale.TotalCost() - sale.fee) == x * sale.price
  {
    var a, p := sale.amount, sale.price;
    assert sale.TotalCost() - sale.fee == a * p;
    calc {
      (x / a) * (a * p);
    ==  { assert (x / a) * a == x; }
      x * p;
    }
  }

  /** Taking the whole remaining amount of a lot attributes its whole remaining basis. */
  lemma WholeLotBasis(lot: Lot)
    requires lot.amount > 0.0
    ensures Proportion(lot.amount, lot.amount, lot.costBasis) == lot.costBasis
  {
    assert lot.amount / lot.amount == 1.0;
  }

  /** The share of value that corresponds to part out of whole. */
  function Proportion(part: real, whole: real, value: real): real
    requires whole != 0.0
  {
    (part / whole) * value
  }

  /** Every record of a sale: a positive amount, the sale's symbol and date,
      proceeds amount * price, gain = proceeds - basis, and the 365-day term rule. */
  predicate SaleRecord(g: Gain, sale: Transaction)
  {
    && g.amount > 0.0
    && g.symbol == sale.symbol && g.dateSold == sale.date
    && g.daysHeld == sale.date - g.dateAcquired
    && (g.term == LongTerm <==> g.daysHeld >= 365)
    && g.proceeds == g.amount * sale.price
    && g.gainLoss == g.proceeds - g.costBasis
  }

  datatype StepResult = StepResult(gain: Gain, lots: seq<Lot>, toSell: real)

  /** One turn of the matching loop: take what is still to sell, or the whole
      lot if it holds less, from the lot at the selected end; attribute the
      lot's remaining basis and the sale's proceeds in proportion; record the
      slice; pop the lot when it is used up, otherwise shrink it. */
  function Step(fifo: bool, lots: seq<Lot>, toSell: real, sale: Transaction): (s: StepResult)
    requires AllOpen(lots) && lots != []
    requires 0.0 < toSell <= sale.amount
    ensures 0.0 <= s.toSell < toSell
    ensures |s.lots| < |lots| || s.toSell == 0.0
    ensures AllOpen(s.lots)
  {
    var i := EndIndex(fifo, |lots|);
    var lot := lots[i];
    var amountFromLot := Min(toSell, lot.amount);
    var costBasis := Proportion(amountFromLot, lot.amount, lot.costBasis);
    var proceeds := sale.TotalCost() - sale.fee;
    var proceedsFromLot := Proportion(amountFromLot, sale.amount, proceeds);
    var daysHeld := sale.date - lot.dateAcquired;
    var gain := Gain(sale.symbol, lot.dateAcquired, sale.date, amountFromLot, costBasis,
                     proceedsFromLot, proceedsFromLot - costBasis, TermOf(daysHeld), daysHeld);
    var left := lot.amount - amountFromLot;
    var lots' := if left <= 0.0 then (if fifo then lots[1..] else lots[..|lots| - 1])
                 else lots[i := lot.(amount := left, costBasis := lot.costBasis - costBasis)];
    StepResult(gain, lots', toSell - amountFromLot)
  }

  /** What one turn takes: min(to sell, lot amount) from the lot at the
      selected end, keeping that lot's acquisition date. A lot used up is
      popped from that end and passes its whole basis on; a lot only reduced
      ends the sale and keeps its place. */
  lemma StepTakes(fifo: bool, lots: seq<Lot>, toSell: real, sale: Transaction)
    requires AllOpen(lots) && lots != []
    requires 0.0 < toSell <= sale.amount
    ensures var s, lot := Step(fifo, lots, toSell, sale), lots[EndIndex(fifo, |lots|)];
      && s.gain.amount == Min(toSell, lot.amount) && s.gain.amount > 0.0
      && s.toSell == toSell - s.gain.amount
      && s.gain.dateAcquired == lot.dateAcquired
    ensures var s, i := Step(fifo, lots, toSell, sale), EndIndex(fifo, |lots|);
      lots[i].amount <= toSell ==>
        && s.gain.costBasis == lots[i].costBasis
        && s.lots == (if fifo then lots[1..] else lots[..|lots| - 1])
    ensures var s, i := Step(fifo, lots, toSell, sale), EndIndex(fifo, |lots|);
      toSell < lots[i].amount ==>
        && s.toSell == 0.0
        && s.lots == lots[i := Reduced(lots[i], s.gain)]
  {
    WholeLotBasis(lots[EndIndex(fifo, |lots|)]);
  }

  /** What one turn records: a record of the sale (its symbol and date, the
      holding period and its 365-day term, proceeds of amount * price and
      gain = proceeds - basis) against the lot at the selected end, carrying
      a share of that lot's basis in proportion to the amount taken. */
  lemma StepRecord(fifo: bool, lots: seq<Lot>, toSell: real, sale: Transaction)
    requires AllOpen(lots) && lots != []
    requires 0.0 < toSell <= sale.amount
    ensures var s, lot := Step(fifo, lots, toSell, sale), lots[EndIndex(fifo, |lots|)];
      && SaleRecord(s.gain, sale)
      && s.gain.daysHeld == sale.date - lot.dateAcquired
      && s.gain.costBasis == Proportion(s.gain.amount, lot.amount, lot.costBasis)
  {
    var lot := lots[EndIndex(fifo, |lots|)];
    FeeCancels(Min(toSell, lot.amount), sale);
  }

  datatype MatchResult = MatchResult(lots: seq<Lot>, gains: seq<Gain>)

  /** Every record of a run is a record of the sale. */
  predicate SaleRecords(gains: seq<Gain>, sale: Transaction)
  {
    forall j :: 0 <= j < |gains| ==> SaleRecord(gains[j], sale)
  }

  /** A record of the sale in front of a run of such records. */
  lemma SaleRecordsCons(g: Gain, gains: seq<Gain>, sale: Transaction)
    requires SaleRecord(g, sale) && SaleRecords(gains, sale)
    ensures SaleRecords([g] + gains, sale)
  {
    forall j | 0 <= j < |[g] + gains|
      ensures SaleRecord(([g] + gains)[j], sale)
    {
      if j > 0 {
        assert ([g] + gains)[j] == gains[j - 1];
      }
    }
  }

  /** The matching loop: repeat Step while something is left to sell and lots remain. */
  function Match(fifo: bool, lots: seq<Lot>, toSell: real, sale: Transaction): (r: MatchResult)
    requires AllOpen(lots) && toSell <= sale.amount
    ensures AllOpen(r.lots)
    ensures |r.gains| <= |lots|
    decreases |lots|, if toSell > 0.0 then 1 else 0
  {
    if toSell <= 0.0 || lots == [] then MatchResult(lots, [])
    else
      var s := Step(fifo, lots, toSell, sale);
      var r := Match(fifo, s.lots, s.toSell, sale);
      MatchResult(r.lots, [s.gain] + r.gains)
  }

  /** One turn of the loop followed by the rest of it. */
  lemma MatchUnfolds(fifo: bool, lots: seq<Lot>, toSell: real, sale: Transaction)
    requires AllOpen(lots) && lots != []
    requires 0.0 < toSell <= sale.amount
    ensures var s := Step(fifo, lots, toSell, sale);
      var r := Match(fifo, s.lots, s.toSell, sale);
      Match(fifo, lots, toSell, sale) == MatchResult(r.lots, [s.gain] + r.gains)
  {
  }

  /** After one turn, matching what is left yields the same remaining lots,
      and the records made so far followed by the rest of the match are the
      records of the whole match: the invariant of the in-place loop. */
  lemma StepAdvances(fifo: bool, lots: seq<Lot>, toSell: real, sale: Transaction, made: seq<Gain>)
    requires AllOpen(lots) && lots != []
    requires 0.0 < toSell <= sale.amount
    ensures var s := Step(fifo, lots, toSell, sale);
      var next, whole := Match(fifo, s.lots, s.toSell, sale), Match(fifo, lots, toSell, sale);
      && next.lots == whole.lots
      && (made + [s.gain]) + next.gains == made + whole.gains
  {
    var s := Step(fifo, lots, toSell, sale);
    var next := Match(fifo, s.lots, s.toSell, sale);
    MatchUnfolds(fifo, lots, toSell, sale);
    assert (made + [s.gain]) + next.gains == made + ([s.gain] + next.gains);
  }

  /** Every record a match makes is a record of the sale. */
  lemma {:induction false} MatchRecords(fifo: bool, lots: seq<Lot>, toSell: real, sale: Transaction)
    requires AllOpen(lots) && toSell <= sale.amount
    decreases |lots|, if toSell > 0.0 then 1 else 0
    ensures SaleRecords(Match(fifo, lots, toSell, sale).gains, sale)
  {
    if toSell > 0.0 && lots != [] {
      var s := Step(fifo, lots, toSell, sale);
      var rest := Match(fifo, s.lots, s.toSell, sale);
      StepRecord(fifo, lots, toSell, sale);
      MatchRecords(fifo, s.lots, s.toSell, sale);
      MatchUnfolds(fifo, lots, toSell, sale);
      SaleRecordsCons(s.gain, rest.gains, sale);
    }
  }

  /** Popping the lot at the selected end removes exactly its measure. */
  lemma PopSum(fifo: bool, lots: seq<Lot>, f: Lot -> real)
    requires lots != []
    ensures Sum(if fifo then lots[1..] else lots[..|lots| - 1], f)
         == Sum(lots, f) - f(lots[EndIndex(fifo, |lots|)])
  {
    if fifo {
      SumCons(lots[0], lots[1..], f);
      assert [lots[0]] + lots[1..] == lots;
    } else {
      SumDropLast(lots, f);
    }
  }

  /** One turn moves exactly the recorded amount and basis out of the lots. */
  lemma StepSums(fifo: bool, lots: seq<Lot>, toSell: real, sale: Transaction)
    requires AllOpen(lots) && lots != []
    requires 0.0 < toSell <= sale.amount
    ensures var s := Step(fifo, lots, toSell, sale);
      && Sum(s.lots, LotAmount) == Sum(lots, LotAmount) - s.gain.amount
      && Sum(s.lots, LotBasis) == Sum(lots, LotBasis) - s.gain.costBasis
  {
    var i := EndIndex(fifo, |lots|);
    var s := Step(fifo, lots, toSell, sale);
    StepTakes(fifo, lots, toSell, sale);
    if lots[i].amount <= toSell {
      PopSum(fifo, lots, LotAmount);
      PopSum(fifo, lots, LotBasis);
    } else {
      SumUpdate(lots, i, Reduced(lots[i], s.gain), LotAmount);
      SumUpdate(lots, i, Reduced(lots[i], s.gain), LotBasis);
    }
  }

  /** Quantity conservation: the records take min(to sell, open amount), and
      the open amount falls by exactly that. */
  lemma {:induction false} MatchQuantity(fifo: bool, lots: seq<Lot>, toSell: real, sale: Transaction)
    requires AllOpen(lots) && toSell <= sale.amount
    decreases |lots|, if toSell > 0.0 then 1 else 0
    ensures var r := Match(fifo, lots, toSell, sale);
      && (toSell <= 0.0 ==> r == MatchResult(lots, []))
      && (toSell > 0.0 ==> Sum(r.gains, GainAmount) == Min(toSell, Sum(lots, LotAmount)))
      && Sum(r.lots, LotAmount) == Sum(lots, LotAmount) - Sum(r.gains, GainAmount)
  {
    if toSell > 0.0 && lots != [] {
      var s := Step(fifo, lots, toSell, sale);
      var r := Match(fifo, s.lots, s.toSell, sale);
      StepTakes(fifo, lots, toSell, sale);
      StepSums(fifo, lots, toSell, sale);
      SumNonNegative(s.lots, LotAmount);
      MatchQuantity(fifo, s.lots, s.toSell, sale);
      MatchUnfolds(fifo, lots, toSell, sale);
      SumCons(s.gain, r.gains, GainAmount);
    }
  }

  /** Cost-basis conservation: the basis attributed to the records plus the
      basis left on the open lots is the basis the lots held before. */
  lemma {:induction false} MatchBasis(fifo: bool, lots: seq<Lot>, toSell: real, sale: Transaction)
    requires AllOpen(lots) && toSell <= sale.amount
    decreases |lots|, if toSell > 0.0 then 1 else 0
    ensures var r := Match(fifo, lots, toSell, sale);
      Sum(r.lots, LotBasis) + Sum(r.gains, GainBasis) == Sum(lots, LotBasis)
  {
    if toSell > 0.0 && lots != [] {
      var s := Step(fifo, lots, toSell, sale);
      var r := Match(fifo, s.lots, s.toSell, sale);
      StepSums(fifo, lots, toSell, sale);
      MatchBasis(fifo, s.lots, s.toSell, sale);
      MatchUnfolds(fifo, lots, toSell, sale);
      SumCons(s.gain, r.gains, GainBasis);
    }
  }

  /** The proceeds of a run of records add up to the price times their amounts. */
  predicate ProceedsAtPrice(gains: seq<Gain>, price: real)
  {
    Sum(gains, GainProceeds) == price * Sum(gains, GainAmount)
  }

  /** Records priced at the sale's price have proceeds price times their amount. */
  lemma RecordProceeds(gains: seq<Gain>, sale: Transaction)
    requires SaleRecords(gains, sale)
    ensures ProceedsAtPrice(gains, sale.price)
  {
    var p := sale.price;
    forall j | 0 <= j < |gains|
      ensures GainProceeds(gains[j]) == p * GainAmount(gains[j])
    {
      assert SaleRecord(gains[j], sale);
    }
    SumScale(gains, GainProceeds, GainAmount, p);
  }

  /** Records that cover a whole sale at its price carry proceeds of exactly
      amount * price. */
  lemma WholeSaleProceeds(gains: seq<Gain>, sale: Transaction)
    requires ProceedsAtPrice(gains, sale.price)
    requires Sum(gains, GainAmount) == sale.amount
    ensures Sum(gains, GainProceeds) == sale.amount * sale.price
  {
  }

  /** The records' proceeds add up to the price times the matched amount, and
      when the lots cover the whole sale the matched amount is the sold
      amount: the sale's fee is added into its total cost and subtracted
      again, so it never reaches the proceeds. */
  lemma MatchProceeds(fifo: bool, lots: seq<Lot>, sale: Transaction)
    requires AllOpen(lots)
    ensures ProceedsAtPrice(Match(fifo, lots, sale.amount, sale).gains, sale.price)
    ensures 0.0 < sale.amount <= Sum(lots, LotAmount) ==>
      Sum(Match(fifo, lots, sale.amount, sale).gains, GainAmount) == sale.amount
    ensures 0.0 < sale.amount <= Sum(lots, LotAmount) ==>
      Sum(Match(fifo, lots, sale.amount, sale).gains, GainProceeds) == sale.amount * sale.price
  {
    var gains := Match(fifo, lots, sale.amount, sale).gains;
    MatchRecords(fifo, lots, sale.amount, sale);
    RecordProceeds(gains, sale);
    MatchQuantity(fifo, lots, sale.amount, sale);
    if 0.0 < sale.amount <= Sum(lots, LotAmount) {
      WholeSaleProceeds(gains, sale);
    }
  }

  /** The shape of a FIFO match: the k records took the first k lots in
      order, all but possibly the last of them whole; the lots after them are
      untouched and are all that is left, unless the last lot taken was only
      reduced, in which case its remainder stays at the head. */
  predicate FifoShape(lots: seq<Lot>, r: MatchResult)
  {
    var k := |r.gains|;
    && k <= |lots|
    && (forall j :: 0 <= j < k ==> r.gains[j].dateAcquired == lots[j].dateAcquired)
    && (forall j :: 0 <= j < k - 1 ==>
          r.gains[j].amount == lots[j].amount && r.gains[j].costBasis == lots[j].costBasis)
    && (r.lots == lots[k..] ||
        (0 < k && r.lots == [Reduced(lots[k - 1], r.gains[k - 1])] + lots[k..]))
  }

  /** The shape of a LIFO match: the mirror image of FifoShape, taking the
      lots from the tail. */
  predicate LifoShape(lots: seq<Lot>, r: MatchResult)
  {
    var k, n := |r.gains|, |lots|;
    && k <= n
    && (forall j :: 0 <= j < k ==> r.gains[j].dateAcquired == lots[n - 1 - j].dateAcquired)
    && (forall j :: 0 <= j < k - 1 ==>
          r.gains[j].amount == lots[n - 1 - j].amount
          && r.gains[j].costBasis == lots[n - 1 - j].costBasis)
    && (r.lots == lots[..n - k] ||
        (0 < k && r.lots == lots[..n - k] + [Reduced(lots[n - k], r.gains[k - 1])]))
  }

  /** Taking the whole head lot in front of a FIFO match of the rest is a FIFO match. */
  lemma FifoShapeCons(lots: seq<Lot>, g: Gain, r: MatchResult)
    requires lots != [] && FifoShape(lots[1..], r)
    requires g.dateAcquired == lots[0].dateAcquired
    requires g.amount == lots[0].amount && g.costBasis == lots[0].costBasis
    ensures FifoShape(lots, MatchResult(r.lots, [g] + r.gains))
  {
    var k := |r.gains|;
    assert lots[1..][k..] == lots[k + 1..];
  }

  /** Taking the whole tail lot in front of a LIFO match of the rest is a LIFO match. */
  lemma LifoShapeCons(lots: seq<Lot>, g: Gain, r: MatchResult)
    requires lots != [] && LifoShape(lots[..|lots| - 1], r)
    requires g.dateAcquired == lots[|lots| - 1].dateAcquired
    requires g.amount == lots[|lots| - 1].amount && g.costBasis == lots[|lots| - 1].costBasis
    ensures LifoShape(lots, MatchResult(r.lots, [g] + r.gains))
  {
    var k, n := |r.gains|, |lots|;
    assert lots[..n - 1][..n - 1 - k] == lots[..n - (k + 1)];
    var r' := MatchResult(r.lots, [g] + r.gains);
    forall j | 0 <= j < k + 1
      ensures r'.gains[j].dateAcquired == lots[n - 1 - j].dateAcquired
    {
      if j > 0 {
        assert r'.gains[j] == r.gains[j - 1];
      }
    }
  }

  /** A FIFO match that only reduces the head lot has the FIFO shape. */
  lemma FifoShapeReduced(lots: seq<Lot>, g: Gain)
    requires lots != [] && g.dateAcquired == lots[0].dateAcquired
    ensures FifoShape(lots, MatchResult(lots[0 := Reduced(lots[0], g)], [g]))
  {
    assert lots[0 := Reduced(lots[0], g)] == [Reduced(lots[0], g)] + lots[1..];
  }

  /** A LIFO match that only reduces the tail lot has the LIFO shape. */
  lemma LifoShapeReduced(lots: seq<Lot>, g: Gain)
    requires lots != [] && g.dateAcquired == lots[|lots| - 1].dateAcquired
    ensures var n := |lots|;
      LifoShape(lots, MatchResult(lots[n - 1 := Reduced(lots[n - 1], g)], [g]))
  {
    var n := |lots|;
    assert lots[n - 1 := Reduced(lots[n - 1], g)] == lots[..n - 1] + [Reduced(lots[n - 1], g)];
  }

  /** FIFO takes the lots from the head. */
  lemma {:induction false} FifoOrder(lots: seq<Lot>, toSell: real, sale: Transaction)
    requires AllOpen(lots) && toSell <= sale.amount
    decreases |lots|, if toSell > 0.0 then 1 else 0
    ensures FifoShape(lots, Match(true, lots, toSell, sale))
  {
    if toSell > 0.0 && lots != [] {
      var s := Step(true, lots, toSell, sale);
      StepTakes(true, lots, toSell, sale);
      var r' := Match(true, s.lots, s.toSell, sale);
      MatchUnfolds(true, lots, toSell, sale);
      if lots[0].amount <= toSell {
        FifoOrder(s.lots, s.toSell, sale);
        FifoShapeCons(lots, s.gain, r');
      } else {
        assert r' == MatchResult(s.lots, []);
        assert [s.gain] + r'.gains == [s.gain];
        assert s.lots == lots[0 := Reduced(lots[0], s.gain)];
        FifoShapeReduced(lots, s.gain);
      }
    }
  }

  /** LIFO takes the lots from the tail. */
  lemma {:induction false} LifoOrder(lots: seq<Lot>, toSell: real, sale: Transaction)
    requires AllOpen(lots) && toSell <= sale.amount
    decreases |lots|, if toSell > 0.0 then 1 else 0
    ensures LifoShape(lots, Match(false, lots, toSell, sale))
  {
    if toSell > 0.0 && lots != [] {
      var n := |lots|;
      var s := Step(false, lots, toSell, sale);
      StepTakes(false, lots, toSell, sale);
      var r' := Match(false, s.lots, s.toSell, sale);
      MatchUnfolds(false, lots, toSell, sale);
      if lots[n - 1].amount <= toSell {
        LifoOrder(s.lots, s.toSell, sale);
        LifoShapeCons(lots, s.gain, r');
      } else {
        assert r' == MatchResult(s.lots, []);
        assert [s.gain] + r'.gains == [s.gain];
        assert s.lots == lots[n - 1 := Reduced(lots[n - 1], s.gain)];
        LifoShapeReduced(lots, s.gain);
      }
    }
  }

  datatype SaleResult = SaleResult(inventory: Inventory, gains: seq<Gain>)

  /** A sale: when its symbol has no lot list, or an empty one, nothing
      changes and no record is made; otherwise the symbol's list is matched
      against the whole sold amount and every other symbol is untouched. */
  function Sell(inv: Inventory, fifo: bool, sale: Transaction): (r: SaleResult)
    requires InventoryOpen(inv)
    ensures InventoryOpen(r.inventory)
    ensures r.inventory.Keys == inv.Keys
    ensures forall s :: s in inv && s != sale.symbol ==> r.inventory[s] == inv[s]
    ensures sale.symbol !in inv || inv[sale.symbol] == [] || sale.amount <= 0.0 ==> r == SaleResult(inv, [])
  {
    if sale.symbol !in inv || inv[sale.symbol] == [] then SaleResult(inv, [])
    else
      var m := Match(fifo, inv[sale.symbol], sale.amount, sale);
      SaleResult(inv[sale.symbol := m.lots], m.gains)
  }

  /** Every record a sale makes carries its symbol, date and price. */
  lemma SellRecords(inv: Inventory, fifo: bool, sale: Transaction)
    requires InventoryOpen(inv)
    ensures SaleRecords(Sell(inv, fifo, sale).gains, sale)
  {
    if sale.symbol in inv && inv[sale.symbol] != [] {
      MatchRecords(fifo, inv[sale.symbol], sale.amount, sale);
    }
  }

  /** A sale records min(sold amount, open amount) in all (nothing for a
      non-positive amount) and lowers the open amount by exactly that. */
  lemma SellQuantity(inv: Inventory, fifo: bool, sale: Transaction)
    requires InventoryOpen(inv)
    ensures var r := Sell(inv, fifo, sale);
      && Sum(r.gains, GainAmount) ==
           (if sale.amount <= 0.0 then 0.0 else Min(sale.amount, OpenAmount(inv, sale.symbol)))
      && OpenAmount(r.inventory, sale.symbol) == OpenAmount(inv, sale.symbol) - Sum(r.gains, GainAmount)
  {
    if sale.symbol in inv && inv[sale.symbol] != [] {
      MatchQuantity(fifo, inv[sale.symbol], sale.amount, sale);
    }
  }

  /** A sale moves cost basis from the open lots into its records and neither
      creates nor loses any. */
  lemma SellBasis(inv: Inventory, fifo: bool, sale: Transaction)
    requires InventoryOpen(inv)
    ensures var r := Sell(inv, fifo, sale);
      OpenBasis(r.inventory, sale.symbol) + Sum(r.gains, GainBasis) == OpenBasis(inv, sale.symbol)
  {
    if sale.symbol in inv && inv[sale.symbol] != [] {
      MatchBasis(fifo, inv[sale.symbol], sale.amount, sale);
    }
  }
}
