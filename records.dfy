/** The value types of the cost-basis engine: a ledger transaction, an open
    acquisition lot and a realized-gain record. Dates are whole day numbers,
    amounts and money are exact reals. */
module Records {

  /** One ledger entry. `transactionType` and `symbol` hold the case-folded
      text that the constructor stores; the derived total cost is a member. */
  datatype Transaction = Transaction(
    date: int,
    transactionType: string,
    amount: real,
    price: real,
    symbol: string,
    fee: real)
  {
    /** amount * price with the fee added, whatever the transaction type. */
    function TotalCost(): real
    {
      amount * price + fee
    }
  }

  /** An open acquisition lot; `amount` and `costBasis` shrink as sales consume it. */
  datatype Lot = Lot(dateAcquired: int, amount: real, costBasis: real, pricePerUnit: real)

  datatype Term = ShortTerm | LongTerm

  /** One disposal slice of one sale against one lot. */
  datatype Gain = Gain(
    symbol: string,
    dateAcquired: int,
    dateSold: int,
    amount: real,
    costBasis: real,
    proceeds: real,
    gainLoss: real,
    term: Term,
    daysHeld: int)

  /** Holding periods of at least 365 days are long-term. */
  function TermOf(daysHeld: int): (t: Term)
    ensures t == LongTerm <==> daysHeld >= 365
  {
    if daysHeld >= 365 then LongTerm else ShortTerm
  }

  predicate IsAsciiUpper(c: char) { 'A' <= c <= 'Z' }

  predicate IsAsciiLower(c: char) { 'a' <= c <= 'z' }

  function LowerChar(c: char): char
  {
    if IsAsciiUpper(c) then (c as int + 32) as char else c
  }

  function UpperChar(c: char): char
  {
    if IsAsciiLower(c) then (c as int - 32) as char else c
  }

  /** Case folding to lower case, letter by letter. */
  function Lower(s: string): (r: string)
    ensures |r| == |s|
    ensures forall i :: 0 <= i < |s| ==> r[i] == LowerChar(s[i])
    ensures forall i :: 0 <= i < |r| ==> !IsAsciiUpper(r[i])
  {
    if s == [] then [] else [LowerChar(s[0])] + Lower(s[1..])
  }

  /** Case folding to upper case, letter by letter. */
  function Upper(s: string): (r: string)
    ensures |r| == |s|
    ensures forall i :: 0 <= i < |s| ==> r[i] == UpperChar(s[i])
    ensures forall i :: 0 <= i < |r| ==> !IsAsciiLower(r[i])
  {
    if s == [] then [] else [UpperChar(s[0])] + Upper(s[1..])
  }

  /** Folding twice is folding once, so a stored type or symbol is already normalised. */
  lemma {:induction false} FoldingIsIdempotent(s: string)
    ensures Lower(Lower(s)) == Lower(s)
    ensures Upper(Upper(s)) == Upper(s)
  {
    if s != [] {
      FoldingIsIdempotent(s[1..]);
    }
  }

  /** The Transaction constructor: no field is validated; the type is folded to
      lower case, the symbol to upper case, and the total cost is
      amount * price + fee. */
  function NewTransaction(date: int, transactionType: string, amount: real, price: real,
                          symbol: string, fee: real := 0.0): (t: Transaction)
    ensures t.date == date && t.amount == amount && t.price == price && t.fee == fee
    ensures t.transactionType == Lower(transactionType) && t.symbol == Upper(symbol)
    ensures t.TotalCost() == amount * price + fee
  {
    Transaction(date, Lower(transactionType), amount, price, Upper(symbol), fee)
  }

  /** The lot a buy opens: the buy's date and amount, its total cost as the cost
      basis, and its raw price (not cost divided by amount) as the unit price. */
  function NewLot(t: Transaction): (l: Lot)
    ensures l.dateAcquired == t.date && l.amount == t.amount && l.pricePerUnit == t.price
    ensures l.costBasis == t.amount * t.price + t.fee
  {
    Lot(t.date, t.amount, t.TotalCost(), t.price)
  }

  // Measures summed by the conservation lemmas and the summary.

  function LotAmount(l: Lot): real { l.amount }

  function LotBasis(l: Lot): real { l.costBasis }

  function GainAmount(g: Gain): real { g.amount }

  function GainBasis(g: Gain): real { g.costBasis }

  function GainProceeds(g: Gain): real { g.proceeds }

  function GainLoss(g: Gain): real { g.gainLoss }

  function ShortTermGainLoss(g: Gain): real { if g.term == ShortTerm then g.gainLoss else 0.0 }

  function LongTermGainLoss(g: Gain): real { if g.term == LongTerm then g.gainLoss else 0.0 }
}
