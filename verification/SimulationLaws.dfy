/** Every run of the simulation: exact fills and conservation of money and of units. */
module SimulationLaws {
  import opened Outcomes
  import opened Portfolios
  import opened Simulations

  function Bought(ledger: seq<Fill>): real {
    if ledger == [] then 0.0
    else Bought(ledger[..|ledger| - 1])
         + (if ledger[|ledger| - 1].side == Buy then ledger[|ledger| - 1].notional else 0.0)
  }

  function Sold(ledger: seq<Fill>): real {
    if ledger == [] then 0.0
    else Sold(ledger[..|ledger| - 1])
         + (if ledger[|ledger| - 1].side != Buy then ledger[|ledger| - 1].notional else 0.0)
  }

  predicate Priced(ledger: seq<Fill>) { forall i :: 0 <= i < |ledger| ==> ledger[i].price > 0.0 }

  /** What a fill moved, in units of the instrument. */
  function Units(f: Fill): real
    requires f.price > 0.0
  {
    if f.side == Buy then f.notional / f.price else -(f.notional / f.price)
  }

  function Held(ledger: seq<Fill>): real
    requires Priced(ledger)
  {
    if ledger == [] then 0.0 else Held(ledger[..|ledger| - 1]) + Units(ledger[|ledger| - 1])
  }

  /** Cash, turnover and units are what the ledger says they are. */
  predicate Money(b: Book, policy: Policy) {
    && b.cash == policy.initialCash - Bought(b.ledger) + Sold(b.ledger) - b.fees
    && b.turnover == Bought(b.ledger) + Sold(b.ledger)
  }

  predicate Charged(b: Book, policy: Policy) { b.fees == Cost(policy) * b.turnover }

  predicate InUnits(b: Book) { Priced(b.ledger) && b.quantity == Held(b.ledger) }

  /** A fill ends at the decided weight of the equity left after its fee, and a buy leaves the reserve in cash. */
  predicate FillIsExact(f: Fill, policy: Policy) {
    && f.notional > 0.0
    && (f.quantity == 0.0 || f.quantity * f.price == Target(policy) * (f.cash + f.quantity * f.price))
    && (f.side == Buy ==>
          f.quantity > 0.0 && f.cash >= policy.reserveFraction * (f.cash + f.quantity * f.price))
  }

  lemma {:induction false} Appended(ledger: seq<Fill>, f: Fill)
    ensures Bought(ledger + [f]) == Bought(ledger) + (if f.side == Buy then f.notional else 0.0)
    ensures Sold(ledger + [f]) == Sold(ledger) + (if f.side != Buy then f.notional else 0.0)
    ensures Priced(ledger) && f.price > 0.0 ==>
      Priced(ledger + [f]) && Held(ledger + [f]) == Held(ledger) + Units(f)
  {
    assert (ledger + [f])[..|ledger|] == ledger;
  }

  // -------------------------------------------------- what one booking keeps

  lemma {:induction false} BookedMoney(b: Book, k: nat, row: Row, t: Trade, policy: Policy, limit: real)
    requires Money(b, policy) && Moves(b.cash, b.quantity, t) && Booked(b, k, row, t, limit).Ok?
    ensures Money(Booked(b, k, row, t, limit).value, policy)
  {
    if t.gross != 0.0 { Appended(b.ledger, Booked(b, k, row, t, limit).value.ledger[|b.ledger|]); }
  }

  lemma {:induction false} BookedCharge(b: Book, k: nat, row: Row, t: Trade, policy: Policy, limit: real)
    requires Charged(b, policy) && t.fee == t.gross * Cost(policy) && Booked(b, k, row, t, limit).Ok?
    ensures Charged(Booked(b, k, row, t, limit).value, policy)
  {
    SumTimes(b.turnover, t.gross, Cost(policy));
  }

  lemma {:induction false} BookedUnits(b: Book, k: nat, row: Row, t: Trade, limit: real)
    requires InUnits(b) && row.open > 0.0 && Booked(b, k, row, t, limit).Ok?
    requires t.quantity == (if t.side == Buy then b.quantity + t.gross / row.open else b.quantity - t.gross / row.open)
    requires t.gross == 0.0 ==> t.quantity == b.quantity
    ensures InUnits(Booked(b, k, row, t, limit).value)
  {
    if t.gross != 0.0 { Appended(b.ledger, Booked(b, k, row, t, limit).value.ledger[|b.ledger|]); }
  }

  lemma {:induction false} BookedFill(b: Book, k: nat, row: Row, t: Trade, policy: Policy, limit: real)
    requires Moves(b.cash, b.quantity, t) && t.gross != 0.0 && Booked(b, k, row, t, limit).Ok?
    requires t.quantity == 0.0 || t.quantity * row.open == Target(policy) * (t.cash + t.quantity * row.open)
    requires t.side == Buy ==>
      t.quantity > 0.0 && t.cash >= policy.reserveFraction * (t.cash + t.quantity * row.open)
    ensures FillIsExact(Booked(b, k, row, t, limit).value.ledger[|b.ledger|], policy)
  {
  }

  /** The trade at an open, with everything the laws need to know about it. */
  lemma {:induction false} OpenTrade(b: Book, k: nat, row: Row, policy: Policy, passive: bool, limit: real) returns (t: Trade, weight: real)
    requires ValidPolicy(policy) && ValidRow(row) && Sane(b, policy)
    requires Due(InForce(b, k, policy, passive), row)
    ensures Open(b, k, row, policy, passive, limit) == Booked(b, k, row, t, limit)
    ensures weight == Weight(b, k, policy, passive)
    ensures weight in {0.0, Target(policy)} && 0.0 <= weight <= 1.0 - policy.reserveFraction
    ensures Exact(b.cash, b.quantity, row.open, weight, Cost(policy), t)
    ensures Moves(b.cash, b.quantity, t)
  {
    WeightBounds(b, k, policy, passive);
    weight := Weight(b, k, policy, passive);
    RebalanceIsExact(b.cash, b.quantity, row.open, weight, Cost(policy));
    t := TradeAt(b, k, row, policy, passive);
    ExactMoves(b.cash, b.quantity, row.open, weight, Cost(policy), t);
  }

  lemma {:induction false} TradeEnds(b: Book, row: Row, policy: Policy, t: Trade, weight: real)
    requires ValidPolicy(policy) && ValidRow(row) && Solvent(b.cash, b.quantity)
    requires weight in {0.0, Target(policy)} && weight <= 1.0 - policy.reserveFraction
    requires Exact(b.cash, b.quantity, row.open, weight, Cost(policy), t)
    ensures t.quantity == 0.0 || t.quantity * row.open == Target(policy) * (t.cash + t.quantity * row.open)
    ensures t.side == Buy ==>
      t.quantity > 0.0 && t.cash >= policy.reserveFraction * (t.cash + t.quantity * row.open)
    ensures weight == 0.0 ==> t.side == Sell && t.quantity == 0.0
  {
    if weight == 0.0 {
      ZeroWeightSells(b.cash, b.quantity, row.open, Cost(policy), t);
    } else {
      ExactEnds(b.cash, b.quantity, row.open, weight, Cost(policy), t, policy.reserveFraction);
      SolventEquity(t.cash, t.quantity, row.open);
      SignOfProduct(weight, t.cash + t.quantity * row.open);
      SignOfProduct(t.quantity, row.open);
    }
  }

  // -------------------------------------------------------- the running book

  predicate Accounted(b: Book, policy: Policy) {
    && Money(b, policy) && Charged(b, policy) && InUnits(b)
    && (forall i :: 0 <= i < |b.ledger| ==> FillIsExact(b.ledger[i], policy))
  }

  lemma {:induction false} TradeIsAccounted(b: Book, k: nat, row: Row, t: Trade, policy: Policy, limit: real)
    requires Accounted(b, policy) && row.open > 0.0 && Moves(b.cash, b.quantity, t) && Booked(b, k, row, t, limit).Ok?
    requires t.fee == t.gross * Cost(policy)
    requires t.quantity == (if t.side == Buy then b.quantity + t.gross / row.open else b.quantity - t.gross / row.open)
    requires t.quantity == 0.0 || t.quantity * row.open == Target(policy) * (t.cash + t.quantity * row.open)
    requires t.side == Buy ==>
      t.quantity > 0.0 && t.cash >= policy.reserveFraction * (t.cash + t.quantity * row.open)
    ensures Accounted(Booked(b, k, row, t, limit).value, policy)
  {
    var n := Booked(b, k, row, t, limit).value;
    BookedMoney(b, k, row, t, policy, limit);
    BookedCharge(b, k, row, t, policy, limit);
    BookedUnits(b, k, row, t, limit);
    if t.gross != 0.0 { BookedFill(b, k, row, t, policy, limit); }
    FillsStayExact(b, n, policy);
  }

  lemma {:induction false} FillsStayExact(b: Book, n: Book, policy: Policy)
    requires forall i :: 0 <= i < |b.ledger| ==> FillIsExact(b.ledger[i], policy)
    requires |b.ledger| <= |n.ledger| <= |b.ledger| + 1 && n.ledger[..|b.ledger|] == b.ledger
    requires |n.ledger| > |b.ledger| ==> FillIsExact(n.ledger[|b.ledger|], policy)
    ensures forall i :: 0 <= i < |n.ledger| ==> FillIsExact(n.ledger[i], policy)
  {
    forall i | 0 <= i < |b.ledger| ensures n.ledger[i] == b.ledger[i] {
      assert n.ledger[i] == n.ledger[..|b.ledger|][i];
    }
  }

  lemma {:induction false} OpenKeepsAccounted(b: Book, k: nat, row: Row, policy: Policy, passive: bool, limit: real)
    requires ValidPolicy(policy) && ValidRow(row) && Sane(b, policy) && Accounted(b, policy)
    requires Open(b, k, row, policy, passive, limit).Ok?
    ensures Accounted(Open(b, k, row, policy, passive, limit).value, policy)
  {
    if Due(InForce(b, k, policy, passive), row) {
      var t, weight := OpenTrade(b, k, row, policy, passive, limit);
      TradeEnds(b, row, policy, t, weight);
      TradeIsAccounted(b, k, row, t, policy, limit);
    }
  }

  /** The close of a bar touches neither the holdings nor the ledger. */
  lemma {:induction false} CloseFrame(b: Book, row: Row, forecast: Option<Forecast>, policy: Policy, passive: bool, limit: real)
    requires ValidPolicy(policy) && ValidRow(row) && Sane(b, policy)
    requires Close(b, row, forecast, policy, passive, limit).Ok?
    ensures var c := Close(b, row, forecast, policy, passive, limit).value;
      && c.cash == b.cash && c.quantity == b.quantity && c.fees == b.fees && c.turnover == b.turnover
      && c.ledger == b.ledger
  {
  }

  lemma {:induction false} SameAccounts(b: Book, c: Book, policy: Policy)
    requires Accounted(b, policy)
    requires c.cash == b.cash && c.quantity == b.quantity && c.fees == b.fees && c.turnover == b.turnover
    requires c.ledger == b.ledger
    ensures Accounted(c, policy)
  {
  }

  lemma {:induction false} BarKeepsAccounted(b: Book, k: nat, row: Row, forecast: Option<Forecast>, policy: Policy, passive: bool, limit: real)
    requires ValidPolicy(policy) && ValidRow(row) && Sane(b, policy) && Accounted(b, policy)
    requires Bar(b, k, row, forecast, policy, passive, limit).Ok?
    ensures Accounted(Bar(b, k, row, forecast, policy, passive, limit).value, policy)
  {
    OpenKeepsAccounted(b, k, row, policy, passive, limit);
    OpenKeepsSane(b, k, row, policy, passive, limit);
    var o := Open(b, k, row, policy, passive, limit).value;
    CloseFrame(o, row, forecast, policy, passive, limit);
    SameAccounts(o, Bar(b, k, row, forecast, policy, passive, limit).value, policy);
  }

  lemma {:induction false} StepIsAccounted(b: Book, n: Book, k: nat, row: Row, forecast: Option<Forecast>, policy: Policy,
                                           passive: bool, limit: real)
    requires ValidPolicy(policy) && ValidRow(row) && Sane(b, policy) && Accounted(b, policy)
    requires Bar(b, k, row, forecast, policy, passive, limit) == Ok(n)
    ensures Accounted(n, policy)
  {
    BarKeepsAccounted(b, k, row, forecast, policy, passive, limit);
  }

  lemma {:induction false} BarTo(rows: seq<Row>, forecasts: seq<Forecast>, policy: Policy, passive: bool, limit: real,
                                 k: nat, b: Book, n: Book)
    requires ValidPolicy(policy) && ValidRows(rows) && 0 < k <= |rows|
    requires Prefix(rows, forecasts, policy, passive, limit, k - 1) == Ok(b)
    requires Prefix(rows, forecasts, policy, passive, limit, k) == Ok(n)
    ensures Sane(b, policy) && Bar(b, k - 1, rows[k - 1], Lookup(forecasts, k - 1), policy, passive, limit) == Ok(n)
  {
    PrefixStep(rows, forecasts, policy, passive, limit, k - 1);
  }

  lemma {:induction false} NextIsAccounted(rows: seq<Row>, forecasts: seq<Forecast>, policy: Policy, passive: bool, limit: real,
                                           k: nat, b: Book, n: Book)
    requires ValidPolicy(policy) && ValidRows(rows) && 0 < k <= |rows|
    requires Prefix(rows, forecasts, policy, passive, limit, k - 1) == Ok(b) && Accounted(b, policy)
    requires Prefix(rows, forecasts, policy, passive, limit, k) == Ok(n)
    ensures Accounted(n, policy)
  {
    BarTo(rows, forecasts, policy, passive, limit, k, b, n);
    StepIsAccounted(b, n, k - 1, rows[k - 1], Lookup(forecasts, k - 1), policy, passive, limit);
  }

  lemma {:induction false} AccountedAt(rows: seq<Row>, forecasts: seq<Forecast>, policy: Policy, passive: bool,
                                       limit: real, k: nat, b: Book)
    requires ValidPolicy(policy) && ValidRows(rows) && k <= |rows|
    requires Prefix(rows, forecasts, policy, passive, limit, k) == Ok(b)
    ensures Accounted(b, policy)
  {
    if k == 0 {
      assert b.ledger == [];
    } else {
      PrefixStep(rows, forecasts, policy, passive, limit, k - 1);
      var before := Prefix(rows, forecasts, policy, passive, limit, k - 1).value;
      AccountedAt(rows, forecasts, policy, passive, limit, k - 1, before);
      NextIsAccounted(rows, forecasts, policy, passive, limit, k, before, b);
    }
  }

  /** The accounts of the running book balance after every bar. */
  lemma {:induction false} RunIsAccounted(rows: seq<Row>, forecasts: seq<Forecast>, policy: Policy, passive: bool,
                                          limit: real, k: nat)
    requires ValidPolicy(policy) && ValidRows(rows) && k <= |rows|
    requires Prefix(rows, forecasts, policy, passive, limit, k).Ok?
    ensures Accounted(Prefix(rows, forecasts, policy, passive, limit, k).value, policy)
  {
    AccountedAt(rows, forecasts, policy, passive, limit, k, Prefix(rows, forecasts, policy, passive, limit, k).value);
  }

  // ----------------------------------------------------------- the whole run

  lemma {:induction false} TerminalSaleFacts(b: Book, close: real, policy: Policy)
    requires close > 0.0
    ensures var t := TerminalSale(b, close, policy);
      t.cash == b.cash + t.gross - t.fee && t.fee == t.gross * Cost(policy) && t.gross / close == b.quantity
  {
    var gross := b.quantity * close;
    assert gross * (1.0 - Cost(policy)) == gross - gross * Cost(policy);
    assert gross / close == b.quantity;
  }

  lemma {:induction false} SaleAppended(b: Book, rows: seq<Row>, t: Trade)
    requires |rows| > 0 && rows[|rows| - 1].close > 0.0 && Priced(b.ledger)
    ensures var n := Liquidated(b, rows, t);
      && Bought(n.ledger) == Bought(b.ledger) && Sold(n.ledger) == Sold(b.ledger) + t.gross
      && Priced(n.ledger) && Held(n.ledger) == Held(b.ledger) - t.gross / rows[|rows| - 1].close
  {
    Appended(b.ledger, Liquidated(b, rows, t).ledger[|b.ledger|]);
  }

  lemma {:induction false} LiquidationBalances(b: Book, rows: seq<Row>, t: Trade, policy: Policy)
    requires |rows| > 0 && rows[|rows| - 1].close > 0.0 && Money(b, policy) && Charged(b, policy) && InUnits(b)
    requires t.cash == b.cash + t.gross - t.fee && t.fee == t.gross * Cost(policy)
    requires t.gross / rows[|rows| - 1].close == b.quantity
    ensures var n := Liquidated(b, rows, t); Money(n, policy) && Charged(n, policy) && InUnits(n)
  {
    SaleAppended(b, rows, t);
    SumTimes(b.turnover, t.gross, Cost(policy));
  }

  /** What the report of a run says about its own ledger. */
  predicate Conserved(r: Report, policy: Policy) {
    && r.finalCash == policy.initialCash - Bought(r.ledger) + Sold(r.ledger) - r.fees
    && r.turnover == Bought(r.ledger) + Sold(r.ledger)
    && r.fees == Cost(policy) * r.turnover
    && Priced(r.ledger) && Held(r.ledger) == 0.0
  }

  /** The report reads its figures off a book. */
  predicate ReadOff(r: Report, b: Book) {
    r.finalCash == b.cash && r.fees == b.fees && r.turnover == b.turnover && r.ledger == b.ledger
  }

  lemma {:induction false} FinishReadsFinalBook(b: Book, rows: seq<Row>, policy: Policy, limit: real)
    requires ValidPolicy(policy) && ValidRows(rows) && Finish(b, rows, policy, limit).Ok?
    ensures ReadOff(Finish(b, rows, policy, limit).value, FinalBook(b, rows, policy))
  {
  }

  lemma {:induction false} BalancedBookConserves(b: Book, r: Report, policy: Policy)
    requires ReadOff(r, b) && Money(b, policy) && Charged(b, policy) && InUnits(b) && b.quantity == 0.0
    ensures Conserved(r, policy)
  {
  }

  predicate OnlyTerminalAdded(before: seq<Fill>, after: seq<Fill>, close: real) {
    && |before| <= |after| <= |before| + 1
    && (forall i :: 0 <= i < |before| ==> after[i] == before[i])
    && (forall i :: |before| <= i < |after| ==> after[i].side == TerminalSell && after[i].price == close)
  }

  /** The book the report is read from balances and holds nothing. */
  lemma {:induction false} FinalBookBalances(b: Book, rows: seq<Row>, policy: Policy)
    requires ValidRows(rows) && b.quantity >= 0.0 && Money(b, policy) && Charged(b, policy) && InUnits(b)
    ensures var n := FinalBook(b, rows, policy);
      && Money(n, policy) && Charged(n, policy) && InUnits(n) && n.quantity == 0.0
      && OnlyTerminalAdded(b.ledger, n.ledger, rows[|rows| - 1].close)
  {
    if b.quantity > 0.0 {
      var t := TerminalSale(b, rows[|rows| - 1].close, policy);
      TerminalSaleFacts(b, rows[|rows| - 1].close, policy);
      LiquidationBalances(b, rows, t, policy);
    }
  }

  lemma {:induction false} FinishConserves(b: Book, rows: seq<Row>, policy: Policy, limit: real)
    requires ValidPolicy(policy) && ValidRows(rows) && Sane(b, policy)
    requires Money(b, policy) && Charged(b, policy) && InUnits(b) && Finish(b, rows, policy, limit).Ok?
    ensures Conserved(Finish(b, rows, policy, limit).value, policy)
    ensures OnlyTerminalAdded(b.ledger, Finish(b, rows, policy, limit).value.ledger, rows[|rows| - 1].close)
  {
    FinalBookBalances(b, rows, policy);
    FinishReadsFinalBook(b, rows, policy, limit);
    BalancedBookConserves(FinalBook(b, rows, policy), Finish(b, rows, policy, limit).value, policy);
  }

  /**
    Conservation over a whole run: the final cash is the initial cash less the buys, plus the sales, less the
    fees; the fees are the cost rate of the turnover; the signed units leave nothing held; and every fill but
    the terminal one ended exactly at its target, a buy with the reserve left in cash.
  */
  lemma {:induction false} RunConserves(rows: seq<Row>, forecasts: seq<Forecast>, policy: Policy, passive: bool, limit: real)
    requires ValidPolicy(policy) && ValidRows(rows) && Simulation(rows, forecasts, policy, passive, limit).Ok?
    ensures Conserved(Simulation(rows, forecasts, policy, passive, limit).value, policy)
    ensures var l := Simulation(rows, forecasts, policy, passive, limit).value.ledger;
      forall i :: 0 <= i < |l| && l[i].side != TerminalSell ==> FillIsExact(l[i], policy)
  {
    RunIsAccounted(rows, forecasts, policy, passive, limit, |rows|);
    FinishConserves(Prefix(rows, forecasts, policy, passive, limit, |rows|).value, rows, policy, limit);
  }

  /** At one price, what is held is what was spent on it, net of sales, over that price. */
  lemma {:induction false} HeldAtOnePrice(ledger: seq<Fill>, price: real)
    requires price > 0.0 && forall i :: 0 <= i < |ledger| ==> ledger[i].price == price
    ensures Priced(ledger) && Held(ledger) == (Bought(ledger) - Sold(ledger)) / price
  {
    if ledger != [] {
      var front, last := ledger[..|ledger| - 1], ledger[|ledger| - 1];
      HeldAtOnePrice(front, price);
      AddQuotients(Bought(front) - Sold(front), last.notional, price);
    }
  }

  lemma {:induction false} AddQuotients(a: real, b: real, d: real)
    requires d > 0.0
    ensures (a + b) / d == a / d + b / d && (a - b) / d == a / d - b / d
  {
  }

  lemma {:induction false} SumTimes(a: real, b: real, p: real)
    ensures (a + b) * p == a * p + b * p
  {
  }

  // ------------------------------------------------------ when fills happen

  /** Every fill of the first k bars is at the open of its bar, and a bar fills at most once. */
  predicate AtOpens(rows: seq<Row>, ledger: seq<Fill>, k: nat)
    requires k <= |rows|
  {
    && (forall j :: 0 <= j < |ledger| ==>
          && ledger[j].bar < k && ledger[j].side != TerminalSell
          && ledger[j].time == rows[ledger[j].bar].start && ledger[j].price == rows[ledger[j].bar].open)
    && (forall i, j :: 0 <= i < j < |ledger| ==> ledger[i].bar < ledger[j].bar)
  }

  lemma {:induction false} BookedAtOpen(rows: seq<Row>, b: Book, k: nat, t: Trade, limit: real)
    requires k < |rows| && AtOpens(rows, b.ledger, k) && t.side != TerminalSell && Booked(b, k, rows[k], t, limit).Ok?
    ensures AtOpens(rows, Booked(b, k, rows[k], t, limit).value.ledger, k + 1)
  {
  }

  lemma {:induction false} FillsAreAtOpens(rows: seq<Row>, forecasts: seq<Forecast>, policy: Policy, passive: bool, limit: real,
                                           k: nat)
    requires ValidPolicy(policy) && ValidRows(rows) && k <= |rows| && Prefix(rows, forecasts, policy, passive, limit, k).Ok?
    ensures AtOpens(rows, Prefix(rows, forecasts, policy, passive, limit, k).value.ledger, k)
  {
    if k > 0 {
      PrefixStep(rows, forecasts, policy, passive, limit, k - 1);
      FillsAreAtOpens(rows, forecasts, policy, passive, limit, k - 1);
      BarFillsAtOpen(rows, Prefix(rows, forecasts, policy, passive, limit, k - 1).value, k - 1,
                     Lookup(forecasts, k - 1), policy, passive, limit);
    }
  }

  lemma {:induction false} BarFillsAtOpen(rows: seq<Row>, b: Book, k: nat, forecast: Option<Forecast>, policy: Policy, passive: bool, limit: real)
    requires ValidPolicy(policy) && k < |rows| && ValidRow(rows[k]) && Sane(b, policy) && AtOpens(rows, b.ledger, k)
    requires Bar(b, k, rows[k], forecast, policy, passive, limit).Ok?
    ensures AtOpens(rows, Bar(b, k, rows[k], forecast, policy, passive, limit).value.ledger, k + 1)
  {
    OpenKeepsSane(b, k, rows[k], policy, passive, limit);
    CloseFrame(Open(b, k, rows[k], policy, passive, limit).value, rows[k], forecast, policy, passive, limit);
    if Due(InForce(b, k, policy, passive), rows[k]) {
      var t, weight := OpenTrade(b, k, rows[k], policy, passive, limit);
      BookedAtOpen(rows, b, k, t, limit);
    }
  }

  predicate Still(rows: seq<Row>, price: real)
    requires |rows| > 0
  {
    (forall i :: 0 <= i < |rows| ==> rows[i].open == price) && rows[|rows| - 1].close == price
  }

  /** In a market where every open and the last close are one price the run loses exactly its fees. */
  lemma {:induction false} StillMarketCostsOnlyFees(rows: seq<Row>, forecasts: seq<Forecast>, policy: Policy, passive: bool, limit: real, price: real)
    requires ValidPolicy(policy) && ValidRows(rows) && Simulation(rows, forecasts, policy, passive, limit).Ok?
    requires Still(rows, price)
    ensures var r := Simulation(rows, forecasts, policy, passive, limit).value;
      r.finalCash + r.fees == policy.initialCash
  {
    var r := ConservingReport(rows, forecasts, policy, passive, limit);
    var before := LedgerOfRun(rows, forecasts, policy, passive, limit, r);
    StillLedger(rows, before, r.ledger, price);
    OnlyFees(r, policy, price);
  }

  lemma {:induction false} ConservingReport(rows: seq<Row>, forecasts: seq<Forecast>, policy: Policy, passive: bool, limit: real) returns (r: Report)
    requires ValidPolicy(policy) && ValidRows(rows) && Simulation(rows, forecasts, policy, passive, limit).Ok?
    ensures Simulation(rows, forecasts, policy, passive, limit) == Ok(r) && Conserved(r, policy)
  {
    RunConserves(rows, forecasts, policy, passive, limit);
    r := Simulation(rows, forecasts, policy, passive, limit).value;
  }

  /** The ledger of a report: fills at opens, then at most the terminal sale at the last close. */
  lemma {:induction false} LedgerOfRun(rows: seq<Row>, forecasts: seq<Forecast>, policy: Policy, passive: bool, limit: real, r: Report)
    returns (before: seq<Fill>)
    requires ValidPolicy(policy) && ValidRows(rows) && Simulation(rows, forecasts, policy, passive, limit) == Ok(r)
    ensures AtOpens(rows, before, |rows|)
    ensures OnlyTerminalAdded(before, r.ledger, rows[|rows| - 1].close)
  {
    RunIsAccounted(rows, forecasts, policy, passive, limit, |rows|);
    FillsAreAtOpens(rows, forecasts, policy, passive, limit, |rows|);
    var b := Prefix(rows, forecasts, policy, passive, limit, |rows|).value;
    FinishConserves(b, rows, policy, limit);
    before := b.ledger;
  }

  lemma {:induction false} OnlyFees(r: Report, policy: Policy, price: real)
    requires price > 0.0 && Conserved(r, policy) && Held(r.ledger) == (Bought(r.ledger) - Sold(r.ledger)) / price
    ensures r.finalCash + r.fees == policy.initialCash
  {
    var held := Quotient(Bought(r.ledger) - Sold(r.ledger), price);
  }

  lemma {:induction false} StillLedger(rows: seq<Row>, before: seq<Fill>, after: seq<Fill>, price: real)
    requires ValidRows(rows) && Still(rows, price)
    requires AtOpens(rows, before, |rows|) && OnlyTerminalAdded(before, after, rows[|rows| - 1].close)
    ensures price > 0.0 && Priced(after) && Held(after) == (Bought(after) - Sold(after)) / price
  {
    assert ValidRow(rows[0]);
    forall i | 0 <= i < |after| ensures after[i].price == price {
      assert i < |before| ==> after[i] == before[i];
    }
    HeldAtOnePrice(after, price);
  }
}
