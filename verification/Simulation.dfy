/** The bar loop of the simulation: what one bar does to the book, and the loop that folds it over the history. */
module Simulations {
  import opened Outcomes
  import opened Portfolios

  /** The bound on every checked amount; the source's is ten to the hundredth, and the laws hold for any. */
  predicate Checked(x: real, limit: real) { -limit <= x <= limit }

  /** The invariant of the running book; every fill depends on it. */
  predicate Sane(b: Book, policy: Policy) {
    && Solvent(b.cash, b.quantity)
    && b.peak >= policy.initialCash
    && (b.pending.Some? ==> b.pending.value.weight in {0.0, Target(policy)})
  }

  function Lookup(forecasts: seq<Forecast>, index: int): Option<Forecast> {
    if forecasts == [] then None
    else if forecasts[0].index == index then Some(forecasts[0])
    else Lookup(forecasts[1..], index)
  }

  function Decision(f: Forecast, policy: Policy): Pending {
    Pending(if f.probabilityUp >= policy.probabilityThreshold then Target(policy) else 0.0, Some(f.availableAt))
  }

  function Opening(forecasts: seq<Forecast>, policy: Policy): Book {
    var first := Lookup(forecasts, -1);
    Book(policy.initialCash, 0.0, 0.0, 0.0, policy.initialCash, 0.0, false,
         if first.Some? then Some(Decision(first.value, policy)) else None, [], [], 0.0)
  }

  predicate Due(pending: Option<Pending>, row: Row) {
    pending.Some? && (pending.value.availableAt.None? || pending.value.availableAt.value <= row.start)
  }

  function InForce(b: Book, k: nat, policy: Policy, passive: bool): Option<Pending> {
    if passive && k == 0 then Some(Pending(Target(policy), None)) else b.pending
  }

  function Weight(b: Book, k: nat, policy: Policy, passive: bool): real
    requires InForce(b, k, policy, passive).Some?
  {
    if b.stopped then 0.0 else InForce(b, k, policy, passive).value.weight
  }

  lemma {:induction false} WeightBounds(b: Book, k: nat, policy: Policy, passive: bool)
    requires ValidPolicy(policy) && Sane(b, policy) && InForce(b, k, policy, passive).Some?
    ensures 0.0 <= Weight(b, k, policy, passive) <= 1.0 - policy.reserveFraction <= 1.0
    ensures 0.0 <= Cost(policy) <= 0.1
  {
    PolicyBounds(policy);
  }

  /** The trade the open of bar k makes when a decision is due. */
  function TradeAt(b: Book, k: nat, row: Row, policy: Policy, passive: bool): Trade
    requires ValidPolicy(policy) && ValidRow(row) && Sane(b, policy) && InForce(b, k, policy, passive).Some?
  {
    WeightBounds(b, k, policy, passive);
    Rebalance(b.cash, b.quantity, row.open, Weight(b, k, policy, passive), Cost(policy))
  }

  /** The ledger entry of a trade at the open of bar k. */
  function FillOf(t: Trade, k: nat, row: Row): Fill {
    Fill(t.side, k, row.start, row.open, t.gross, t.fee, t.cash, t.quantity, t.side == Sell && t.quantity == 0.0)
  }

  /** The book once a trade is booked; every amount it mentions is checked, and a trade of nothing leaves no entry. */
  function Booked(b: Book, k: nat, row: Row, t: Trade, limit: real): Result<Book, Error> {
    if !Checked(t.cash, limit) || !Checked(t.quantity, limit) then Err(Overflow)
    else if t.cash < 0.0 || t.quantity < 0.0 then Err(ConservationFailure)
    else if t.gross == 0.0 then Ok(b.(cash := t.cash, quantity := t.quantity, pending := None))
    else if !Checked(t.gross, limit) || !Checked(t.fee, limit) then Err(Overflow)
    else Ok(b.(cash := t.cash, quantity := t.quantity, pending := None,
               fees := b.fees + t.fee, turnover := b.turnover + t.gross,
               ledger := b.ledger + [FillOf(t, k, row)]))
  }

  function Open(b: Book, k: nat, row: Row, policy: Policy, passive: bool, limit: real): Result<Book, Error>
    requires ValidPolicy(policy) && ValidRow(row) && Sane(b, policy)
  {
    var pending := InForce(b, k, policy, passive);
    if !Due(pending, row) then Ok(b.(pending := pending))
    else Booked(b, k, row, TradeAt(b, k, row, policy, passive), limit)
  }

  /** What cash and holdings come to when everything is sold at a price, less the cost of the sale. */
  function NetWorth(cash: real, quantity: real, price: real, cost: real): real { cash + quantity * price * (1.0 - cost) }

  function Liquidation(b: Book, row: Row, policy: Policy): real { NetWorth(b.cash, b.quantity, row.close, Cost(policy)) }

  function Drawdown(b: Book, row: Row, policy: Policy): real
    requires b.peak > 0.0
  {
    var peak := Max(b.peak, Liquidation(b, row, policy));
    (peak - Liquidation(b, row, policy)) / peak
  }

  predicate StopHit(b: Book, row: Row, policy: Policy, passive: bool)
    requires b.peak > 0.0
  {
    !passive && (Liquidation(b, row, policy) <= policy.initialCash * (1.0 - policy.lossStop)
                 || Drawdown(b, row, policy) >= policy.drawdownStop)
  }

  function Exposure(b: Book, row: Row): real
    requires Solvent(b.cash, b.quantity) && ValidRow(row)
  {
    SolventEquity(b.cash, b.quantity, row.close);
    b.quantity * row.close / (b.cash + b.quantity * row.close)
  }

  predicate Drifted(b: Book, row: Row, policy: Policy, passive: bool, pending: Option<Pending>)
    requires Solvent(b.cash, b.quantity) && ValidRow(row)
  {
    !passive && b.quantity * row.close != 0.0 && Exposure(b, row) > Target(policy)
    && (pending.None? || pending.value.weight > Target(policy))
  }

  /** What the close of bar k decides: a stop, else a forecast, else what was pending; then the drift check. */
  function NextPending(b: Book, row: Row, forecast: Option<Forecast>, policy: Policy, passive: bool): Option<Pending>
    requires ValidPolicy(policy) && ValidRow(row) && Sane(b, policy)
  {
    var stop := StopHit(b, row, policy, passive);
    var decided :=
      if stop then Some(Pending(0.0, Some(row.availableAt)))
      else if !passive && forecast.Some? then Some(Decision(forecast.value, policy))
      else b.pending;
    if Drifted(b, row, policy, passive, decided)
    then Some(Pending(if b.stopped || stop then 0.0 else Target(policy), Some(row.availableAt)))
    else decided
  }

  function Close(b: Book, row: Row, forecast: Option<Forecast>, policy: Policy, passive: bool, limit: real): Result<Book, Error>
    requires ValidPolicy(policy) && ValidRow(row) && Sane(b, policy)
  {
    var liquidation := Liquidation(b, row, policy);
    if !Checked(liquidation, limit) || !Checked(b.fees, limit) || !Checked(b.turnover, limit) then Err(Overflow)
    else Ok(b.(peak := Max(b.peak, liquidation),
               maxDrawdown := Max(b.maxDrawdown, Drawdown(b, row, policy)),
               exposure := if b.quantity * row.close == 0.0 then b.exposure else b.exposure + Exposure(b, row),
               stopped := b.stopped || StopHit(b, row, policy, passive),
               pending := NextPending(b, row, forecast, policy, passive),
               curve := b.curve + [Mark(row.end, liquidation, b.cash, b.quantity)]))
  }

  lemma {:induction false} OpenKeepsSane(b: Book, k: nat, row: Row, policy: Policy, passive: bool, limit: real)
    requires ValidPolicy(policy) && ValidRow(row) && Sane(b, policy)
    ensures Open(b, k, row, policy, passive, limit).Ok? ==> Sane(Open(b, k, row, policy, passive, limit).value, policy)
    ensures Open(b, k, row, policy, passive, limit).Err? ==> Open(b, k, row, policy, passive, limit).error == Overflow
  {
    if Due(InForce(b, k, policy, passive), row) {
      WeightBounds(b, k, policy, passive);
      RebalanceIsExact(b.cash, b.quantity, row.open, Weight(b, k, policy, passive), Cost(policy));
    }
  }

  function Bar(b: Book, k: nat, row: Row, forecast: Option<Forecast>, policy: Policy, passive: bool, limit: real): (r: Result<Book, Error>)
    requires ValidPolicy(policy) && ValidRow(row) && Sane(b, policy)
    ensures r.Ok? ==> Sane(r.value, policy)
    ensures r.Err? ==> r.error == Overflow
  {
    OpenKeepsSane(b, k, row, policy, passive, limit);
    var atOpen := Open(b, k, row, policy, passive, limit);
    if atOpen.Err? then atOpen else Close(atOpen.value, row, forecast, policy, passive, limit)
  }

  /** The book after the first k bars. Nothing but an overflow ever stops it: the conservation check cannot fail. */
  function Prefix(rows: seq<Row>, forecasts: seq<Forecast>, policy: Policy, passive: bool, limit: real, k: nat): (r: Result<Book, Error>)
    requires ValidPolicy(policy) && ValidRows(rows) && k <= |rows|
    ensures r.Ok? ==> Sane(r.value, policy)
    ensures r.Err? ==> r.error == Overflow
  {
    if k == 0 then Ok(Opening(forecasts, policy))
    else
      var before := Prefix(rows, forecasts, policy, passive, limit, k - 1);
      if before.Err? then before
      else Bar(before.value, k - 1, rows[k - 1], Lookup(forecasts, k - 1), policy, passive, limit)
  }

  /** The sale of everything that is held, at the last close and with the same cost. */
  function TerminalSale(b: Book, close: real, policy: Policy): Trade {
    var gross := b.quantity * close;
    Trade(TerminalSell, gross, gross * Cost(policy), b.cash + gross * (1.0 - Cost(policy)), 0.0)
  }

  predicate RatiosChecked(cash: real, turnover: real, exposure: real, initial: real, n: nat, limit: real)
    requires initial > 0.0 && n > 0
  {
    Checked((cash - initial) / initial, limit) && Checked(turnover / initial, limit) && Checked(exposure / n as real, limit)
  }

  function Reported(b: Book, rows: seq<Row>, initial: real, terminal: bool, limit: real): Result<Report, Error>
    requires initial > 0.0 && |rows| > 0
  {
    if !Checked(b.cash, limit) || !Checked(b.maxDrawdown, limit) || !Checked(b.fees, limit)
       || !RatiosChecked(b.cash, b.turnover, b.exposure, initial, |rows|, limit) then Err(Overflow)
    else Ok(Report(b.cash, b.fees, b.turnover, b.maxDrawdown, b.exposure / |rows| as real, terminal, b.stopped,
                   b.ledger, b.curve))
  }

  /** The book once everything is sold. */
  function Liquidated(b: Book, rows: seq<Row>, t: Trade): Book
    requires |rows| > 0
  {
    var last := rows[|rows| - 1];
    b.(cash := t.cash, quantity := 0.0, fees := b.fees + t.fee, turnover := b.turnover + t.gross,
       ledger := b.ledger + [Fill(TerminalSell, |rows| - 1, last.end, last.close, t.gross, t.fee, t.cash, 0.0, true)])
  }

  /** The book that the report of a run is read from. */
  function FinalBook(b: Book, rows: seq<Row>, policy: Policy): Book
    requires |rows| > 0
  {
    if b.quantity > 0.0 then Liquidated(b, rows, TerminalSale(b, rows[|rows| - 1].close, policy)) else b
  }

  predicate SaleChecked(t: Trade, limit: real) {
    Checked(t.gross, limit) && Checked(t.fee, limit) && Checked(t.cash, limit)
  }

  function Finish(b: Book, rows: seq<Row>, policy: Policy, limit: real): Result<Report, Error>
    requires ValidPolicy(policy) && ValidRows(rows)
  {
    if b.quantity > 0.0 && !SaleChecked(TerminalSale(b, rows[|rows| - 1].close, policy), limit) then Err(Overflow)
    else Reported(FinalBook(b, rows, policy), rows, policy.initialCash, b.quantity > 0.0, limit)
  }

  function Simulation(rows: seq<Row>, forecasts: seq<Forecast>, policy: Policy, passive: bool, limit: real): Result<Report, Error>
    requires ValidPolicy(policy) && ValidRows(rows)
  {
    var b := Prefix(rows, forecasts, policy, passive, limit, |rows|);
    if b.Err? then Err(b.error) else Finish(b.value, rows, policy, limit)
  }

  /** The booking of one trade, on the running variables of the loop. */
  method BookTrade(b: Book, index: nat, row: Row, trade: Trade, limit: real) returns (r: Result<Book, Error>)
    ensures r == Booked(b, index, row, trade, limit)
  {
    var next := b.(cash := trade.cash, quantity := trade.quantity);
    if !Checked(next.cash, limit) || !Checked(next.quantity, limit) { return Err(Overflow); }
    if next.cash < 0.0 || next.quantity < 0.0 { return Err(ConservationFailure); }
    if trade.gross != 0.0 {
      next := next.(fees := next.fees + trade.fee, turnover := next.turnover + trade.gross);
      if !Checked(trade.gross, limit) || !Checked(trade.fee, limit) { return Err(Overflow); }
      next := next.(ledger := next.ledger + [Fill(trade.side, index, row.start, row.open, trade.gross, trade.fee,
                                                  next.cash, next.quantity, trade.side == Sell && next.quantity == 0.0)]);
    }
    return Ok(next.(pending := None));
  }

  /** The fill at the open of one bar. */
  method ExecuteOpen(b: Book, index: nat, row: Row, policy: Policy, passive: bool, limit: real) returns (r: Result<Book, Error>)
    requires ValidPolicy(policy) && ValidRow(row) && Sane(b, policy)
    ensures r == Open(b, index, row, policy, passive, limit)
  {
    var pending := b.pending;
    if passive && index == 0 { pending := Some(Pending(Target(policy), None)); }
    if !Due(pending, row) { return Ok(b.(pending := pending)); }
    WeightBounds(b, index, policy, passive);
    var weight := if b.stopped then 0.0 else pending.value.weight;
    var trade := Rebalance(b.cash, b.quantity, row.open, weight, Cost(policy));
    r := BookTrade(b, index, row, trade, limit);
  }

  /** The observation of the close of one bar, on the running variables of the loop. */
  method ObserveClose(b: Book, row: Row, forecast: Option<Forecast>, policy: Policy, passive: bool, limit: real)
    returns (r: Result<Book, Error>)
    requires ValidPolicy(policy) && ValidRow(row) && Sane(b, policy)
    ensures r == Close(b, row, forecast, policy, passive, limit)
  {
    var next := b;
    var liquidation := Liquidation(b, row, policy);
    if !Checked(liquidation, limit) || !Checked(b.fees, limit) || !Checked(b.turnover, limit) { return Err(Overflow); }
    next := next.(peak := Max(b.peak, liquidation));
    var drawdown := Drawdown(b, row, policy);
    next := next.(maxDrawdown := Max(b.maxDrawdown, drawdown));
    var held := b.quantity * row.close != 0.0;
    var share := Exposure(b, row);
    if held { next := next.(exposure := next.exposure + share); }
    var target := Target(policy);
    if StopHit(b, row, policy, passive) {
      next := next.(stopped := true);
      next := next.(pending := Some(Pending(0.0, Some(row.availableAt))));
    } else if !passive && forecast.Some? {
      next := next.(pending := Some(Decision(forecast.value, policy)));
    }
    if !passive && held && share > target && (next.pending.None? || next.pending.value.weight > target) {
      next := next.(pending := Some(Pending(if !next.stopped then target else 0.0, Some(row.availableAt))));
    }
    return Ok(next.(curve := next.curve + [Mark(row.end, liquidation, b.cash, b.quantity)]));
  }

  method Simulate(rows: seq<Row>, forecasts: seq<Forecast>, policy: Policy, passive: bool, limit: real) returns (r: Result<Report, Error>)
    ensures !ValidPolicy(policy) ==> r == Err(InvalidPolicy)
    ensures ValidPolicy(policy) && !ValidRows(rows) ==> r == Err(InvalidHistory)
    ensures ValidPolicy(policy) && ValidRows(rows) && !ValidForecasts(forecasts, rows, policy.cadence)
            ==> r == Err(InvalidForecasts)
    ensures ValidInput(rows, forecasts, policy) ==> r == Simulation(rows, forecasts, policy, passive, limit)
  {
    if !ValidPolicy(policy) { return Err(InvalidPolicy); }
    var rowsOk := ValidateRows(rows);
    if !rowsOk { return Err(InvalidHistory); }
    if !ValidForecasts(forecasts, rows, policy.cadence) { return Err(InvalidForecasts); }
    var book := Opening(forecasts, policy);
    for index := 0 to |rows|
      invariant Prefix(rows, forecasts, policy, passive, limit, index) == Ok(book)
    {
      PrefixOnwards(rows, forecasts, policy, passive, limit, index + 1);
      PrefixStep(rows, forecasts, policy, passive, limit, index);
      OpenKeepsSane(book, index, rows[index], policy, passive, limit);
      var filled := ExecuteOpen(book, index, rows[index], policy, passive, limit);
      if filled.Err? { return Err(filled.error); }
      var forecast := Lookup(forecasts, index);
      var observed := ObserveClose(filled.value, rows[index], forecast, policy, passive, limit);
      if observed.Err? { return Err(observed.error); }
      book := observed.value;
    }
    r := Finish(book, rows, policy, limit);
  }

  lemma {:induction false} PrefixStep(rows: seq<Row>, forecasts: seq<Forecast>, policy: Policy, passive: bool, limit: real, k: nat)
    requires ValidPolicy(policy) && ValidRows(rows) && k < |rows|
    ensures Prefix(rows, forecasts, policy, passive, limit, k + 1).Ok? ==> Prefix(rows, forecasts, policy, passive, limit, k).Ok?
    ensures Prefix(rows, forecasts, policy, passive, limit, k).Ok? ==>
      Prefix(rows, forecasts, policy, passive, limit, k + 1)
      == Bar(Prefix(rows, forecasts, policy, passive, limit, k).value, k, rows[k], Lookup(forecasts, k), policy, passive, limit)
  {
  }

  /** An error at a bar is the error of the whole run. */
  lemma {:induction false} PrefixOnwards(rows: seq<Row>, forecasts: seq<Forecast>, policy: Policy, passive: bool, limit: real, k: nat)
    requires ValidPolicy(policy) && ValidRows(rows) && k <= |rows|
    ensures Prefix(rows, forecasts, policy, passive, limit, k).Err? ==>
      Simulation(rows, forecasts, policy, passive, limit) == Err(Overflow)
    decreases |rows| - k
  {
    if k < |rows| {
      PrefixOnwards(rows, forecasts, policy, passive, limit, k + 1);
    }
  }
}
