/**
  The all-in backtest: all cash into one position at the open after a signal, and out again at the first stop,
  at the maximum holding, or at the end. Floating-point numbers are reals; `limit` stands for the largest one.
*/
module AllIn {
  import opened Outcomes
  import opened Portfolios

  datatype Hypothesis = Hypothesis(rsiGate: bool, stop: real, maxHold: nat)

  datatype Setup = Setup(rows: seq<Row>, hypothesis: Hypothesis, cost: real, aligned: Option<set<int>>,
                         start: int, last: int, cash: real, limit: real)

  datatype Reason = GapStop | IntrabarStop | MaximumHolding | Terminal

  datatype Leg =
    | Entry(id: nat, signalBar: int, bar: nat, fill: real, notional: real, cost: real, spent: real)
    | Exit(entryId: nat, entryBar: nat, bar: nat, fill: real, notional: real, cost: real, entrySpent: real,
           reason: Reason, pnl: real)

  datatype Position = Position(bar: nat, price: real, spent: real)

  datatype Account = Account(cash: real, quantity: real, position: Option<Position>, costs: real, turnover: real,
                             trades: seq<Leg>)
  datatype Run = Run(account: Account, pending: bool, equity: seq<real>, exposed: nat)

  datatype Result = Accepted(simulated: Simulated) | InvalidCash | InvalidPrices | OutOfRange
  datatype Simulated = Simulated(finalEquity: real, trades: seq<Leg>, equity: seq<real>, closedPnl: real, costs: real,
                           turnover: real, exposed: nat, liquidated: bool, drawdown: real)

  predicate Positive(x: real, limit: real) { 0.0 < x <= limit }
  predicate Within(x: real, limit: real) { 0.0 <= x <= limit }

  predicate PositivePrices(rows: seq<Row>, limit: real) {
    forall i :: 0 <= i < |rows| ==>
      Positive(rows[i].open, limit) && Positive(rows[i].high, limit) && Positive(rows[i].low, limit) && Positive(rows[i].close, limit)
  }

  /** A cost that is not negative, and a last bar that exists. */
  predicate Callable(s: Setup) { 0.0 <= s.cost && s.last < |s.rows| }

  predicate Valid(s: Setup) { Callable(s) && Positive(s.cash, s.limit) && PositivePrices(s.rows, s.limit) }

  function First(s: Setup): nat { if s.start < 0 then 0 else s.start }

  /** How many bars the loop visits. */
  function Bars(s: Setup): nat { if First(s) <= s.last then s.last + 1 - First(s) else 0 }

  // ------------------------------------------------------------------ signal

  /** The rises, or the falls, among the n changes of close that end at bar i. */
  function Changes(rows: seq<Row>, i: nat, n: nat, up: bool): real
    requires n <= i < |rows|
  {
    if n == 0 then 0.0
    else
      var change := rows[i].close - rows[i - 1].close;
      Changes(rows, i - 1, n - 1, up) + Max(if up then change else -change, 0.0)
  }

  function Rsi(rows: seq<Row>, i: nat): real
    requires 14 <= i < |rows|
  {
    var gains, losses := Changes(rows, i, 14, true) / 14.0, Changes(rows, i, 14, false) / 14.0;
    if losses == 0.0 || 1.0 + gains / losses == 0.0 then 100.0 else 100.0 - 100.0 / (1.0 + gains / losses)
  }

  predicate Signal(h: Hypothesis, rows: seq<Row>, i: nat)
    requires i < |rows|
  {
    i >= 14 && rows[i].close > rows[i - 3].close
    && (h.rsiGate ==> (if Rsi(rows, i) == 0.0 then 101.0 else Rsi(rows, i)) < 70.0)
  }

  predicate InputsAvailable(rows: seq<Row>, i: nat)
    requires i < |rows|
  {
    forall j :: 0 <= j <= i && i - 14 <= j ==> rows[j].availableAt <= rows[i].availableAt
  }

  /** What bar i decides for the next bar. */
  predicate Gate(s: Setup, i: nat)
    requires i + 1 < |s.rows|
  {
    && (s.aligned.None? || i in s.aligned.value) && InputsAvailable(s.rows, i) && Signal(s.hypothesis, s.rows, i)
    && s.rows[i].availableAt <= s.rows[i + 1].start
  }

  // ------------------------------------------------------------------ one bar

  /** The amounts of one fill: its notional, its fee, and the cash that it takes or brings. */
  datatype Amounts = Amounts(gross: real, fee: real, cash: real)

  /** All the cash, fee included. */
  function Purchase(cash: real, cost: real): Amounts
    requires 0.0 <= cost
  {
    var gross := cash / (1.0 + cost);
    Amounts(gross, gross * cost, gross + gross * cost)
  }

  function Sale(quantity: real, fill: real, cost: real): Amounts {
    var gross := quantity * fill;
    Amounts(gross, gross * cost, gross * (1.0 - cost))
  }

  predicate PurchaseWithin(a: Amounts, quantity: real, limit: real) {
    Within(a.gross, limit) && Within(quantity, limit) && Within(a.fee, limit) && Within(a.cash, limit)
  }

  predicate SaleWithin(a: Amounts, limit: real) { Within(a.gross, limit) && Within(a.cash, limit) }

  function Entered(r: Account, k: nat, price: real, a: Amounts, quantity: real): Account {
    r.(quantity := quantity, cash := 0.0, position := Some(Position(k, price, a.cash)),
       costs := r.costs + a.fee, turnover := r.turnover + a.gross,
       trades := r.trades + [Entry(k, k - 1, k, price, a.gross, a.fee, a.cash)])
  }

  function Enter(r: Run, k: nat, row: Row, cost: real, limit: real): Option<Run>
    requires 0.0 <= cost && row.open > 0.0
  {
    if !(r.pending && r.account.quantity == 0.0) then Some(r)
    else
      var a := Purchase(r.account.cash, cost);
      if !PurchaseWithin(a, a.gross / row.open, limit) then None
      else Some(r.(account := Entered(r.account, k, row.open, a, a.gross / row.open), pending := false))
  }

  /** The exit that a bar triggers, if any. An entry bar of 0 would be taken for absent. */
  function ExitAt(price: real, entryBar: nat, k: nat, row: Row, h: Hypothesis): Option<(Reason, real)> {
    var stopPrice := price * (1.0 - h.stop);
    if row.open <= stopPrice then Some((GapStop, row.open))
    else if row.low <= stopPrice then Some((IntrabarStop, stopPrice))
    else if k - (if entryBar == 0 then k else entryBar) >= h.maxHold then Some((MaximumHolding, row.close))
    else None
  }

  function Exited(r: Account, k: nat, fill: real, a: Amounts, reason: Reason): Account
    requires r.position.Some?
  {
    var p := r.position.value;
    r.(cash := a.cash, quantity := 0.0, position := None,
       costs := r.costs + a.fee, turnover := r.turnover + a.gross,
       trades := r.trades + [Exit(p.bar, p.bar, k, fill, a.gross, a.fee, p.spent, reason, a.cash - p.spent)])
  }

  function Sell(r: Account, k: nat, fill: real, reason: Reason, cost: real, limit: real): Option<Account>
    requires r.position.Some?
  {
    var a := Sale(r.quantity, fill, cost);
    if !SaleWithin(a, limit) then None else Some(Exited(r, k, fill, a, reason))
  }

  function Leave(r: Account, k: nat, row: Row, h: Hypothesis, cost: real, limit: real): Option<Account> {
    if r.quantity == 0.0 || r.position.None? then Some(r)
    else
      var exit := ExitAt(r.position.value.price, r.position.value.bar, k, row, h);
      if exit.None? then Some(r) else Sell(r, k, exit.value.1, exit.value.0, cost, limit)
  }

  /** The signal that bar k gives for the next bar, once it may give one. */
  function SignalAt(s: Setup, k: nat): Option<bool>
    requires k <= s.last < |s.rows|
  {
    if k < s.last && k >= 14 then Some(Gate(s, k)) else None
  }

  function MarkBar(r: Run, row: Row, signal: Option<bool>, limit: real): Option<Run> {
    var a := r.account;
    var marked := a.cash + a.quantity * row.close;
    if !Within(marked, limit) || !Within(a.costs, limit) || !Within(a.turnover, limit) then None
    else Some(r.(exposed := r.exposed + if a.quantity != 0.0 then 1 else 0,
                 equity := r.equity + [marked],
                 pending := if a.quantity == 0.0 && signal.Some? then signal.value else r.pending))
  }

  function Bar(r: Run, k: nat, row: Row, signal: Option<bool>, h: Hypothesis, cost: real, limit: real): Option<Run>
    requires 0.0 <= cost && row.open > 0.0
  {
    var entered := Enter(r, k, row, cost, limit);
    if entered.None? then None
    else
      var left := Leave(entered.value.account, k, row, h, cost, limit);
      if left.None? then None else MarkBar(entered.value.(account := left.value), row, signal, limit)
  }

  /** The run after its first n bars. */
  function After(s: Setup, n: nat): Option<Run>
    requires Valid(s) && n <= Bars(s)
  {
    if n == 0 then Some(Run(Account(s.cash, 0.0, None, 0.0, 0.0, []), false, [], 0))
    else
      var before := After(s, n - 1);
      if before.None? then None
      else
        var k := First(s) + n - 1;
        Bar(before.value, k, s.rows[k], SignalAt(s, k), s.hypothesis, s.cost, s.limit)
  }

  function Pnl(trades: seq<Leg>): real {
    if trades == [] then 0.0
    else Pnl(trades[..|trades| - 1]) + (if trades[|trades| - 1].Exit? then trades[|trades| - 1].pnl else 0.0)
  }

  /** Everything that is still held at the end is sold, and the last mark becomes the cash. */
  function Liquidate(r: Run, s: Setup): Option<Run>
    requires Callable(s)
  {
    if r.account.quantity == 0.0 || r.equity == [] || r.account.position.None? || s.last < 0 then Some(r)
    else
      var sold := Sell(r.account, s.last, s.rows[s.last].close, Terminal, s.cost, s.limit);
      if sold.None? then None
      else Some(r.(account := sold.value, equity := r.equity[..|r.equity| - 1] + [sold.value.cash]))
  }

  /** The highest level of the curve; the initial cash is its first level. */
  function Peak(initial: real, equity: seq<real>): (peak: real)
    ensures initial <= peak
  {
    if equity == [] then initial else Max(Peak(initial, equity[..|equity| - 1]), equity[|equity| - 1])
  }

  /** The deepest fall from a running peak. */
  function Drawdown(initial: real, equity: seq<real>): real
    requires initial > 0.0
  {
    if equity == [] then 0.0
    else
      var peak := Peak(initial, equity);
      Max(Drawdown(initial, equity[..|equity| - 1]), (peak - equity[|equity| - 1]) / peak)
  }

  function Summarize(r: Run, liquidated: bool, s: Setup): Result
    requires Positive(s.cash, s.limit)
  {
    var final := if r.equity == [] then s.cash else r.equity[|r.equity| - 1];
    var a := r.account;
    if !Within(final, s.limit) || !Within(a.costs, s.limit) || !Within(a.turnover, s.limit)
       || !Within(final / s.cash, s.limit) || !Within(a.turnover / s.cash, s.limit) then OutOfRange
    else Accepted(Simulated(final, a.trades, r.equity, Pnl(a.trades), a.costs, a.turnover, r.exposed, liquidated,
                            Drawdown(s.cash, r.equity)))
  }

  function Outcome(s: Setup): Result
    requires Valid(s)
  {
    var r := After(s, Bars(s));
    if r.None? then OutOfRange
    else
      var ended := Liquidate(r.value, s);
      if ended.None? then OutOfRange else Summarize(ended.value, r.value.account.quantity > 0.0, s)
  }

  lemma {:induction false} FailureIsFinal(s: Setup, n: nat)
    requires Valid(s) && n <= Bars(s) && After(s, n).None?
    ensures Outcome(s) == OutOfRange
    decreases Bars(s) - n
  {
    if n < Bars(s) { FailureIsFinal(s, n + 1); }
  }

  lemma {:induction false} AfterStep(s: Setup, n: nat)
    requires Valid(s) && 0 < n <= Bars(s) && After(s, n - 1).Some?
    ensures var k := First(s) + n - 1;
      After(s, n) == Bar(After(s, n - 1).value, k, s.rows[k], SignalAt(s, k), s.hypothesis, s.cost, s.limit)
  {
  }

  lemma {:induction false} FailedStep(s: Setup, n: nat)
    requires Valid(s) && n <= Bars(s)
    ensures After(s, n).None? ==> Outcome(s) == OutOfRange
  {
    if After(s, n).None? { FailureIsFinal(s, n); }
  }

  /** The bookkeeping of an entry, on the running variables of the loop. */
  method BookEntry(r: Account, index: nat, price: real, a: Amounts, quantity: real) returns (run: Account)
    ensures run == Entered(r, index, price, a, quantity)
  {
    run := r.(quantity := quantity, cash := 0.0, position := Some(Position(index, price, a.cash)));
    run := run.(costs := run.costs + a.fee, turnover := run.turnover + a.gross);
    run := run.(trades := run.trades + [Entry(index, index - 1, index, price, a.gross, a.fee, a.cash)]);
  }

  /** The bookkeeping of an exit, on the running variables of the loop. */
  method BookExit(r: Account, index: nat, fill: real, a: Amounts, reason: Reason) returns (run: Account)
    requires r.position.Some?
    ensures run == Exited(r, index, fill, a, reason)
  {
    var p := r.position.value;
    run := r.(costs := r.costs + a.fee, turnover := r.turnover + a.gross);
    run := run.(trades := run.trades + [Exit(p.bar, p.bar, index, fill, a.gross, a.fee, p.spent, reason, a.cash - p.spent)]);
    run := run.(cash := a.cash, quantity := 0.0, position := None);
  }

  /** The fill of a pending signal at the open. */
  method EnterPosition(r: Run, index: nat, row: Row, s: Setup) returns (entered: Option<Run>)
    requires Callable(s) && row.open > 0.0
    ensures entered == Enter(r, index, row, s.cost, s.limit)
  {
    if !(r.pending && r.account.quantity == 0.0) { return Some(r); }
    var amounts := Purchase(r.account.cash, s.cost);
    var quantity := amounts.gross / row.open;
    if !PurchaseWithin(amounts, quantity, s.limit) { return None; }
    var account := BookEntry(r.account, index, row.open, amounts, quantity);
    return Some(r.(account := account, pending := false));
  }

  method SellPosition(r: Account, index: nat, fill: real, reason: Reason, s: Setup) returns (sold: Option<Account>)
    requires r.position.Some?
    ensures sold == Sell(r, index, fill, reason, s.cost, s.limit)
  {
    var amounts := Sale(r.quantity, fill, s.cost);
    if !SaleWithin(amounts, s.limit) { return None; }
    var account := BookExit(r, index, fill, amounts, reason);
    return Some(account);
  }

  /** The conservative exit of an open position, on the running variables of the loop. */
  method LeavePosition(r: Account, index: nat, row: Row, s: Setup) returns (left: Option<Account>)
    ensures left == Leave(r, index, row, s.hypothesis, s.cost, s.limit)
  {
    if r.quantity == 0.0 || r.position.None? { return Some(r); }
    var p := r.position.value;
    var stopPrice := p.price * (1.0 - s.hypothesis.stop);
    if row.open <= stopPrice {
      left := SellPosition(r, index, row.open, GapStop, s);
    } else if row.low <= stopPrice {
      left := SellPosition(r, index, stopPrice, IntrabarStop, s);
    } else if index - (if p.bar == 0 then index else p.bar) >= s.hypothesis.maxHold {
      left := SellPosition(r, index, row.close, MaximumHolding, s);
    } else {
      left := Some(r);
    }
  }

  /** The peak that runs along the finished curve. */
  method MaximumDrawdown(initial: real, equity: seq<real>) returns (drawdown: real)
    requires initial > 0.0
    ensures drawdown == Drawdown(initial, equity)
  {
    var peak, i := initial, 0;
    drawdown := 0.0;
    while i < |equity|
      invariant 0 <= i <= |equity|
      invariant peak == Peak(initial, equity[..i]) && drawdown == Drawdown(initial, equity[..i])
    {
      assert equity[..i + 1][..i] == equity[..i];
      peak := Max(peak, equity[i]);
      drawdown := Max(drawdown, (peak - equity[i]) / peak);
      i := i + 1;
    }
    assert equity[..i] == equity;
  }

  /** The summary, whose drawdown is gathered along the curve. */
  method Report(r: Run, liquidated: bool, s: Setup) returns (result: Result)
    requires Positive(s.cash, s.limit)
    ensures result == Summarize(r, liquidated, s)
  {
    var a := r.account;
    var final := if r.equity == [] then s.cash else r.equity[|r.equity| - 1];
    if !Within(final, s.limit) || !Within(a.costs, s.limit) || !Within(a.turnover, s.limit)
       || !Within(final / s.cash, s.limit) || !Within(a.turnover / s.cash, s.limit) { return OutOfRange; }
    var drawdown := MaximumDrawdown(s.cash, r.equity);
    return Accepted(Simulated(final, a.trades, r.equity, Pnl(a.trades), a.costs, a.turnover, r.exposed, liquidated, drawdown));
  }

  method Backtest(s: Setup) returns (result: Result)
    requires Callable(s)
    ensures !Positive(s.cash, s.limit) ==> result == InvalidCash
    ensures Positive(s.cash, s.limit) && !PositivePrices(s.rows, s.limit) ==> result == InvalidPrices
    ensures Valid(s) ==> result == Outcome(s)
  {
    if !Positive(s.cash, s.limit) { return InvalidCash; }
    if !PositivePrices(s.rows, s.limit) { return InvalidPrices; }
    var run := Run(Account(s.cash, 0.0, None, 0.0, 0.0, []), false, [], 0);
    var index := First(s);
    while index <= s.last
      invariant First(s) <= index && index - First(s) <= Bars(s)
      invariant After(s, index - First(s)) == Some(run)
      decreases s.last - index
    {
      AfterStep(s, index - First(s) + 1);
      FailedStep(s, index - First(s) + 1);
      var entered := EnterPosition(run, index, s.rows[index], s);
      if entered.None? { return OutOfRange; }
      var left := LeavePosition(entered.value.account, index, s.rows[index], s);
      if left.None? { return OutOfRange; }
      var signal := SignalAt(s, index);
      var marked := MarkBar(entered.value.(account := left.value), s.rows[index], signal, s.limit);
      if marked.None? { return OutOfRange; }
      run := marked.value;
      index := index + 1;
    }
    var ended := Liquidate(run, s);
    if ended.None? { return OutOfRange; }
    result := Report(ended.value, run.account.quantity > 0.0, s);
  }
}
