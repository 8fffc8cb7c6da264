/**
  The long-only economic simulation: frozen forecasts filled at a later open,
  fee-aware rebalancing, stops that watch the close and latch. Decimal numbers
  are reals; an instant is an integer of microseconds.
*/
module Portfolios {
  import opened Outcomes

  const MIN_PERIOD := 240 * 60 * 1_000_000

  datatype Policy = Policy(initialCash: real, reserveFraction: real, maxExposure: real, lossStop: real,
                           drawdownStop: real, costBps: real, probabilityThreshold: real, cadence: int)
  datatype Row = Row(start: int, end: int, availableAt: int, open: real, high: real, low: real, close: real)
  datatype Forecast = Forecast(index: int, availableAt: int, probabilityUp: real)

  datatype Side = Buy | Sell | TerminalSell
  datatype Fill = Fill(side: Side, bar: nat, time: int, price: real, notional: real, cost: real,
                       cash: real, quantity: real, closed: bool)
  datatype Mark = Mark(time: int, equity: real, cash: real, quantity: real)
  datatype Pending = Pending(weight: real, availableAt: Option<int>)

  datatype Book = Book(cash: real, quantity: real, fees: real, turnover: real, peak: real, maxDrawdown: real,
                       stopped: bool, pending: Option<Pending>, ledger: seq<Fill>, curve: seq<Mark>, exposure: real)

  datatype Report = Report(finalCash: real, fees: real, turnover: real, maxDrawdown: real, exposure: real,
                           terminalLiquidated: bool, riskStopped: bool, ledger: seq<Fill>, curve: seq<Mark>)

  datatype Error = InvalidPolicy | InvalidHistory | InvalidForecasts | Overflow | ConservationFailure

  function Min(a: real, b: real): real { if b < a then b else a }
  function Max(a: real, b: real): real { if b > a then b else a }

  // -------------------------------------------------------------- validation

  predicate ValidPolicy(p: Policy) {
    && 1.0 <= p.initialCash <= 1000000000000.0
    && 0.0 <= p.reserveFraction <= 1.0
    && 0.0 < p.maxExposure <= 1.0 - p.reserveFraction
    && 0.0 < p.lossStop < 1.0 && 0.0 < p.drawdownStop < 1.0
    && 0.5 < p.probabilityThreshold < 1.0
    && 0.0 <= p.costBps <= 1000.0
    && 5 <= p.cadence <= 20
  }

  predicate ValidPrice(x: real) { 0.000000000001 <= x <= 1000000000000.0 }

  predicate ValidRow(row: Row) {
    && row.start < row.end <= row.availableAt && row.end - row.start >= MIN_PERIOD
    && ValidPrice(row.open) && ValidPrice(row.high) && ValidPrice(row.low) && ValidPrice(row.close)
    && row.low <= Min(row.open, row.close) && Max(row.open, row.close) <= row.high
  }

  predicate ValidRows(rows: seq<Row>) {
    && 1 <= |rows| <= 10000
    && (forall i :: 0 <= i < |rows| ==> ValidRow(rows[i]))
    && (forall i :: 0 < i < |rows| ==> rows[i - 1].end <= rows[i].start)
  }

  method ValidateRows(rows: seq<Row>) returns (ok: bool)
    ensures ok <==> ValidRows(rows)
  {
    if !(1 <= |rows| <= 10000) { return false; }
    var prior := None;
    for i := 0 to |rows|
      invariant prior == if i == 0 then None else Some(rows[i - 1].end)
      invariant forall j :: 0 <= j < i ==> ValidRow(rows[j])
      invariant forall j :: 0 < j < i ==> rows[j - 1].end <= rows[j].start
    {
      if !ValidRow(rows[i]) || (prior.Some? && rows[i].start < prior.value) { return false; }
      prior := Some(rows[i].end);
    }
    return true;
  }

  /** Each pair of forecasts in index order, which the source checks on adjacent pairs of the sorted list. */
  predicate Spaced(a: Forecast, b: Forecast, cadence: int) {
    a.index < b.index ==>
      (a.index == -1 || b.index - a.index >= cadence) && b.availableAt - a.availableAt >= MIN_PERIOD
  }

  predicate ValidForecast(f: Forecast, rows: seq<Row>)
    requires |rows| > 0
  {
    && -1 <= f.index < |rows| && 0.0 <= f.probabilityUp <= 1.0
    && (if f.index < 0 then f.availableAt <= rows[0].start else rows[f.index].availableAt <= f.availableAt)
  }

  predicate ValidForecasts(forecasts: seq<Forecast>, rows: seq<Row>, cadence: int)
    requires |rows| > 0
  {
    && (forall i :: 0 <= i < |forecasts| ==> ValidForecast(forecasts[i], rows))
    && (forall i, j :: 0 <= i < j < |forecasts| ==> forecasts[i].index != forecasts[j].index)
    && (forall i, j :: 0 <= i < |forecasts| && 0 <= j < |forecasts| ==> Spaced(forecasts[i], forecasts[j], cadence))
  }

  predicate ValidInput(rows: seq<Row>, forecasts: seq<Forecast>, policy: Policy) {
    ValidPolicy(policy) && ValidRows(rows) && ValidForecasts(forecasts, rows, policy.cadence)
  }

  // ------------------------------------------------------------- rebalancing

  function Cost(p: Policy): real { p.costBps / 10000.0 }

  function Target(p: Policy): real { Min(p.maxExposure, 1.0 - p.reserveFraction) }

  datatype Trade = Trade(side: Side, gross: real, fee: real, cash: real, quantity: real)

  lemma {:induction false} NonNegative(a: real, b: real)
    requires a >= 0.0 && b >= 0.0
    ensures a * b >= 0.0
  {
  }

  lemma {:induction false} SignOfProduct(a: real, d: real)
    requires d > 0.0
    ensures a * d < 0.0 <==> a < 0.0
    ensures a * d > 0.0 <==> a > 0.0
  {
  }

  lemma {:induction false} SmallFee(weight: real, cost: real)
    requires 0.0 <= weight <= 1.0 && 0.0 <= cost <= 0.1
    ensures 0.0 <= weight * cost <= 0.1
  {
    NonNegative(weight, cost);
    NonNegative(1.0 - weight, cost);
    assert (1.0 - weight) * cost == cost - weight * cost;
  }

  /** Buy or sell towards `weight` of the equity that is left after the fee. */
  function Rebalance(cash: real, quantity: real, price: real, weight: real, cost: real): Trade
    requires price > 0.0 && 0.0 <= weight <= 1.0 && 0.0 <= cost <= 0.1
  {
    SmallFee(weight, cost);
    var equity, position := cash + quantity * price, quantity * price;
    if weight * equity > position then
      var gross := Min((weight * equity - position) / (1.0 + weight * cost), cash / (1.0 + cost));
      Trade(Buy, gross, gross * cost, cash - gross * (1.0 + cost), quantity + gross / price)
    else
      var gross := Min((position - weight * equity) / (1.0 - weight * cost), position);
      Trade(Sell, gross, gross * cost, cash + gross * (1.0 - cost), if gross == position then 0.0 else quantity - gross / price)
  }

  /** Holdings that are worth something at every price. */
  predicate Solvent(cash: real, quantity: real) { cash >= 0.0 && quantity >= 0.0 && cash + quantity > 0.0 }

  lemma {:induction false} SolventEquity(cash: real, quantity: real, price: real)
    requires Solvent(cash, quantity) && price > 0.0
    ensures quantity * price >= 0.0 && cash + quantity * price > 0.0
  {
    SignOfProduct(quantity, price);
  }

  lemma {:induction false} StillSolvent(cash: real, quantity: real, price: real)
    requires cash >= 0.0 && price > 0.0 && quantity * price >= 0.0 && cash + quantity * price > 0.0
    ensures Solvent(cash, quantity)
  {
    SignOfProduct(quantity, price);
  }

  lemma {:induction false} DivideBound(x: real, total: real, d: real)
    requires d > 0.0 && x * d <= total
    ensures x <= total / d
  {
    assert (total / d) * d == total;
    SignOfProduct(total / d - x, d);
    assert (total / d - x) * d == total - x * d;
  }

  lemma {:induction false} TradedPosition(quantity: real, price: real, gross: real)
    requires price > 0.0
    ensures (quantity + gross / price) * price == quantity * price + gross
  {
    assert (gross / price) * price == gross;
  }

  lemma {:induction false} FeeLeavesEquity(equity: real, gross: real, cost: real)
    requires equity > 0.0 && 0.0 <= gross <= equity && 0.0 <= cost <= 0.1
    ensures equity - gross * cost > 0.0
  {
    NonNegative(gross, 0.1 - cost);
    assert gross * (0.1 - cost) == gross * 0.1 - gross * cost;
  }

  lemma {:induction false} BuyIsAffordable(cash: real, position: real, weight: real, cost: real, gross: real)
    requires cash >= 0.0 && position >= 0.0 && 0.0 <= weight <= 1.0 && 0.0 <= cost <= 0.1
    requires weight * (cash + position) > position
    requires gross * (1.0 + weight * cost) == weight * (cash + position) - position
    ensures gross > 0.0 && gross * (1.0 + cost) <= cash
  {
    SmallFee(weight, cost);
    SignOfProduct(gross, 1.0 + weight * cost);
    NonNegative(1.0 + cost, position);
    NonNegative(1.0 - weight, cash);
    NonNegative(1.0 - weight, (1.0 + cost) * position);
    SlackIdentity(cash, position, weight, cost);
    Interchange(cash, gross, 1.0 + cost, 1.0 + weight * cost);
    SignOfProduct(cash - gross * (1.0 + cost), 1.0 + weight * cost);
  }

  lemma {:induction false} Interchange(cash: real, gross: real, c: real, d: real)
    ensures (cash - gross * c) * d == cash * d - (gross * d) * c
  {
    assert gross * c * d == gross * d * c;
  }

  lemma {:induction false} SlackIdentity(cash: real, position: real, weight: real, cost: real)
    ensures cash * (1.0 + weight * cost) - (weight * (cash + position) - position) * (1.0 + cost)
         == (1.0 - weight) * cash + (1.0 - weight) * ((1.0 + cost) * position)
  {
    var wc, wp := weight * cash, weight * position;
    assert cash * (1.0 + weight * cost) == cash + wc * cost by { assert cash * (weight * cost) == wc * cost; }
    assert weight * (cash + position) == wc + wp;
    assert (wc + wp - position) * (1.0 + cost) == wc + wp - position + wc * cost + wp * cost - position * cost;
    assert (1.0 - weight) * cash == cash - wc;
    assert (1.0 - weight) * ((1.0 + cost) * position) == (1.0 + cost) * position - (1.0 + cost) * wp by {
      assert weight * ((1.0 + cost) * position) == (1.0 + cost) * wp;
    }
    assert (1.0 + cost) * position == position + position * cost && (1.0 + cost) * wp == wp + wp * cost;
  }

  lemma {:induction false} SaleIsCovered(cash: real, position: real, weight: real, cost: real, gross: real)
    requires cash >= 0.0 && position >= 0.0 && 0.0 <= weight <= 1.0 && 0.0 <= cost <= 0.1
    requires weight * (cash + position) <= position
    requires gross * (1.0 - weight * cost) == position - weight * (cash + position)
    ensures 0.0 <= gross <= position
  {
    SmallFee(weight, cost);
    var d := 1.0 - weight * cost;
    SignOfProduct(gross, d);
    NonNegative(position, 1.0 - cost);
    NonNegative(weight, cash + position * (1.0 - cost));
    assert weight * (cash + position * (1.0 - cost)) == weight * (cash + position) - position * (weight * cost);
    assert (position - gross) * d == position - position * (weight * cost) - gross * d;
    SignOfProduct(position - gross, d);
  }

  /** What a rebalance to `weight` does to a solvent book. */
  predicate Exact(cash: real, quantity: real, price: real, weight: real, cost: real, t: Trade)
    requires price != 0.0
  {
    var before, after := cash + quantity * price, t.cash + t.quantity * price;
    && (if t.side == Buy then t.gross * (1.0 + weight * cost) == weight * before - quantity * price
        else t.gross * (1.0 - weight * cost) == quantity * price - weight * before)
    && t.gross >= 0.0 && (t.side == Buy ==> t.gross > 0.0) && t.side != TerminalSell
    && t.quantity == (if t.side == Buy then quantity + t.gross / price else quantity - t.gross / price)
    && t.fee == t.gross * cost
    && t.cash == (if t.side == Buy then cash - t.gross - t.fee else cash + t.gross - t.fee)
    && after == before - t.fee
    && t.quantity * price == weight * after
    && Solvent(t.cash, t.quantity)
  }

  /** The fee-aware weight equation, solved for the position: d is +1 for a buy and -1 for a sell. */
  lemma {:induction false} WeightEquation(equity: real, position: real, weight: real, cost: real, gross: real)
    requires gross * (1.0 + weight * cost) == weight * equity - position
    ensures position + gross == weight * (equity - gross * cost)
  {
    assert gross * (1.0 + weight * cost) == gross + weight * (gross * cost) by {
      assert gross * (weight * cost) == weight * (gross * cost);
    }
    assert weight * (equity - gross * cost) == weight * equity - weight * (gross * cost);
  }

  lemma {:induction false} Quotient(a: real, d: real) returns (q: real)
    requires d != 0.0
    ensures q == a / d && q * d == a
  {
    q := a / d;
  }

  lemma {:induction false} UnclampedBuy(cash: real, quantity: real, price: real, weight: real, cost: real, gross: real)
    requires price > 0.0 && 0.0 <= weight <= 1.0 && 0.0 <= cost <= 0.1 && 0.0 <= weight * cost <= 0.1
    requires weight * (cash + quantity * price) > quantity * price
    requires gross == (weight * (cash + quantity * price) - quantity * price) / (1.0 + weight * cost)
    requires gross <= cash / (1.0 + cost)
    ensures Rebalance(cash, quantity, price, weight, cost)
         == Trade(Buy, gross, gross * cost, cash - gross * (1.0 + cost), quantity + gross / price)
  {
  }

  lemma {:induction false} UnclampedSell(cash: real, quantity: real, price: real, weight: real, cost: real, gross: real)
    requires price > 0.0 && 0.0 <= weight <= 1.0 && 0.0 <= cost <= 0.1 && 0.0 <= weight * cost <= 0.1
    requires weight * (cash + quantity * price) <= quantity * price
    requires gross == (quantity * price - weight * (cash + quantity * price)) / (1.0 - weight * cost)
    requires gross <= quantity * price
    ensures Rebalance(cash, quantity, price, weight, cost)
         == Trade(Sell, gross, gross * cost, cash + gross * (1.0 - cost), quantity - gross / price)
  {
    assert (quantity * price) / price == quantity;
  }

  lemma {:induction false} BuyGross(cash: real, position: real, weight: real, cost: real) returns (gross: real)
    requires cash >= 0.0 && position >= 0.0 && 0.0 <= weight <= 1.0 && 0.0 <= cost <= 0.1
    requires 0.0 <= weight * cost && weight * (cash + position) > position
    ensures gross == (weight * (cash + position) - position) / (1.0 + weight * cost)
    ensures gross * (1.0 + weight * cost) == weight * (cash + position) - position
    ensures gross > 0.0 && gross * (1.0 + cost) <= cash && gross <= cash / (1.0 + cost)
  {
    gross := Quotient(weight * (cash + position) - position, 1.0 + weight * cost);
    BuyIsAffordable(cash, position, weight, cost, gross);
    DivideBound(gross, cash, 1.0 + cost);
  }

  lemma {:induction false} BuyTrade(cash: real, quantity: real, price: real, weight: real, cost: real) returns (t: Trade)
    requires Solvent(cash, quantity) && price > 0.0 && 0.0 <= weight <= 1.0 && 0.0 <= cost <= 0.1
    requires 0.0 <= weight * cost <= 0.1
    requires weight * (cash + quantity * price) > quantity * price
    ensures t == Rebalance(cash, quantity, price, weight, cost)
    ensures t == Trade(Buy, t.gross, t.gross * cost, cash - t.gross * (1.0 + cost), quantity + t.gross / price)
    ensures t.gross * (1.0 + weight * cost) == weight * (cash + quantity * price) - quantity * price
    ensures t.gross > 0.0 && t.gross * (1.0 + cost) <= cash
  {
    NonNegative(quantity, price);
    var gross := BuyGross(cash, quantity * price, weight, cost);
    UnclampedBuy(cash, quantity, price, weight, cost, gross);
    t := Trade(Buy, gross, gross * cost, cash - gross * (1.0 + cost), quantity + gross / price);
  }

  lemma {:induction false} SellTrade(cash: real, quantity: real, price: real, weight: real, cost: real) returns (t: Trade)
    requires Solvent(cash, quantity) && price > 0.0 && 0.0 <= weight <= 1.0 && 0.0 <= cost <= 0.1
    requires 0.0 <= weight * cost <= 0.1
    requires weight * (cash + quantity * price) <= quantity * price
    ensures t == Rebalance(cash, quantity, price, weight, cost)
    ensures t == Trade(Sell, t.gross, t.gross * cost, cash + t.gross * (1.0 - cost), quantity - t.gross / price)
    ensures t.gross * (1.0 - weight * cost) == quantity * price - weight * (cash + quantity * price)
    ensures 0.0 <= t.gross <= quantity * price
  {
    var gross := Quotient(quantity * price - weight * (cash + quantity * price), 1.0 - weight * cost);
    SolventEquity(cash, quantity, price);
    SaleIsCovered(cash, quantity * price, weight, cost, gross);
    UnclampedSell(cash, quantity, price, weight, cost, gross);
    t := Trade(Sell, gross, gross * cost, cash + gross * (1.0 - cost), quantity - gross / price);
  }

  lemma {:induction false} BuyIsExact(cash: real, quantity: real, price: real, weight: real, cost: real, t: Trade)
    requires Solvent(cash, quantity) && price > 0.0 && 0.0 <= weight <= 1.0 && 0.0 <= cost <= 0.1
    requires t == Trade(Buy, t.gross, t.gross * cost, cash - t.gross * (1.0 + cost), quantity + t.gross / price)
    requires t.gross * (1.0 + weight * cost) == weight * (cash + quantity * price) - quantity * price
    requires t.gross > 0.0 && t.gross * (1.0 + cost) <= cash
    ensures Exact(cash, quantity, price, weight, cost, t)
  {
    var position, fee := quantity * price, t.gross * cost;
    SolventEquity(cash, quantity, price);
    assert t.cash == cash - t.gross - fee by { assert t.gross * (1.0 + cost) == t.gross + fee; }
    TradedPosition(quantity, price, t.gross);
    NonNegative(t.gross, cost);
    FeeLeavesEquity(cash + position, t.gross, cost);
    StillSolvent(t.cash, t.quantity, price);
    WeightEquation(cash + position, position, weight, cost, t.gross);
    assert t.cash + t.quantity * price == cash + position - fee;
  }

  lemma {:induction false} SellIsExact(cash: real, quantity: real, price: real, weight: real, cost: real, t: Trade)
    requires Solvent(cash, quantity) && price > 0.0 && 0.0 <= weight <= 1.0 && 0.0 <= cost <= 0.1
    requires t == Trade(Sell, t.gross, t.gross * cost, cash + t.gross * (1.0 - cost), quantity - t.gross / price)
    requires t.gross * (1.0 - weight * cost) == quantity * price - weight * (cash + quantity * price)
    requires 0.0 <= t.gross <= quantity * price
    ensures Exact(cash, quantity, price, weight, cost, t)
  {
    var position, fee := quantity * price, t.gross * cost;
    SolventEquity(cash, quantity, price);
    assert t.cash == cash + t.gross - fee by { assert t.gross * (1.0 - cost) == t.gross - fee; }
    TradedPosition(quantity, price, -t.gross);
    assert (-t.gross) / price == -(t.gross / price);
    FeeLeavesEquity(cash + position, t.gross, cost);
    NonNegative(t.gross, 1.0 - cost);
    StillSolvent(t.cash, t.quantity, price);
    assert -t.gross * (1.0 + weight * (-cost)) == -(t.gross * (1.0 - weight * cost));
    WeightEquation(cash + position, position, weight, -cost, -t.gross);
    assert -t.gross * -cost == fee;
    assert t.cash + t.quantity * price == cash + position - fee;
  }

  /**
    A rebalance from a solvent book ends exactly at its target weight of the equity left after the fee. Neither
    clamp binds, nothing goes negative, and only the fee leaves the book.
  */
  lemma {:induction false} RebalanceIsExact(cash: real, quantity: real, price: real, weight: real, cost: real)
    requires Solvent(cash, quantity) && price > 0.0 && 0.0 <= weight <= 1.0 && 0.0 <= cost <= 0.1
    ensures Exact(cash, quantity, price, weight, cost, Rebalance(cash, quantity, price, weight, cost))
  {
    SmallFee(weight, cost);
    if weight * (cash + quantity * price) > quantity * price {
      var t := BuyTrade(cash, quantity, price, weight, cost);
      BuyIsExact(cash, quantity, price, weight, cost, t);
    } else {
      var t := SellTrade(cash, quantity, price, weight, cost);
      SellIsExact(cash, quantity, price, weight, cost, t);
    }
  }

  lemma {:induction false} PolicyBounds(policy: Policy)
    requires ValidPolicy(policy)
    ensures 0.0 < Target(policy) <= 1.0 - policy.reserveFraction <= 1.0 && 0.0 <= Cost(policy) <= 0.1
  {
  }

  lemma {:induction false} Remainder(after: real, position: real, weight: real, reserve: real)
    requires after >= 0.0 && weight <= 1.0 - reserve && position == weight * after
    ensures after - position >= reserve * after
  {
    NonNegative(1.0 - weight - reserve, after);
    assert (1.0 - weight - reserve) * after == after - position - reserve * after;
  }

  /** The parts of an exact trade that need no multiplication to use. */
  predicate Moves(cash: real, quantity: real, t: Trade) {
    && t.gross >= 0.0 && (t.side == Buy ==> t.gross > 0.0) && t.side != TerminalSell
    && t.cash == (if t.side == Buy then cash - t.gross - t.fee else cash + t.gross - t.fee)
    && (t.gross == 0.0 ==> t.fee == 0.0 && t.quantity == quantity)
    && Solvent(t.cash, t.quantity)
  }

  lemma {:induction false} ExactMoves(cash: real, quantity: real, price: real, weight: real, cost: real, t: Trade)
    requires price > 0.0 && Exact(cash, quantity, price, weight, cost, t)
    ensures Moves(cash, quantity, t)
  {
    if t.gross == 0.0 { assert t.gross / price == 0.0; }
  }

  /** Where an exact trade ends: at the weight of the equity after its fee, with the reserve left after a buy. */
  lemma {:induction false} ExactEnds(cash: real, quantity: real, price: real, weight: real, cost: real, t: Trade, reserve: real)
    requires price > 0.0 && Exact(cash, quantity, price, weight, cost, t) && weight <= 1.0 - reserve
    ensures t.quantity * price == weight * (t.cash + t.quantity * price)
    ensures t.cash >= reserve * (t.cash + t.quantity * price)
  {
    SolventEquity(t.cash, t.quantity, price);
    Remainder(t.cash + t.quantity * price, t.quantity * price, weight, reserve);
  }

  lemma {:induction false} ZeroWeightSells(cash: real, quantity: real, price: real, cost: real, t: Trade)
    requires price > 0.0 && quantity >= 0.0 && Exact(cash, quantity, price, 0.0, cost, t)
    ensures t.side == Sell && t.quantity == 0.0
  {
    NonNegative(quantity, price);
    SignOfProduct(t.quantity, price);
    assert 0.0 * cost == 0.0;
    assert t.side == Buy ==> t.gross * 1.0 == 0.0 - quantity * price;
  }
}
