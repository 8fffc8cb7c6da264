/** The running peak and the stop latch, against the equity curve they summarize. */
module DrawdownLaws {
  import opened Outcomes
  import opened Portfolios
  import opened Simulations
  import opened SimulationLaws
  import opened Drawdowns

  function Equities(curve: seq<Mark>): (equities: seq<real>)
    ensures |equities| == |curve|
  {
    if curve == [] then [] else Equities(curve[..|curve| - 1]) + [curve[|curve| - 1].equity]
  }

  /** The initial cash, and then the liquidation equity after every bar: level j is that after bar j - 1. */
  function CurveLevels(initial: real, curve: seq<Mark>): (levels: seq<real>)
    ensures |levels| == |curve| + 1
  {
    Levels(initial, Equities(curve))
  }

  predicate Positive(levels: seq<real>) { forall i :: 0 <= i < |levels| ==> levels[i] > 0.0 }

  /** Level j breaches a stop: the equity floor, or too deep a drop from some earlier level. */
  ghost predicate Breach(policy: Policy, levels: seq<real>, j: nat)
    requires Positive(levels) && 0 < j < |levels|
  {
    || levels[j] <= policy.initialCash * (1.0 - policy.lossStop)
    || exists i :: 0 <= i <= j && Drop(levels, i, j) >= policy.drawdownStop
  }

  ghost predicate Breached(policy: Policy, levels: seq<real>)
    requires Positive(levels)
  {
    exists j :: 0 < j < |levels| && Breach(policy, levels, j)
  }

  ghost predicate Watched(b: Book, policy: Policy, passive: bool) {
    var levels := CurveLevels(policy.initialCash, b.curve);
    Positive(levels) && IsPeak(levels, b.peak) && IsDeepest(levels, b.maxDrawdown)
    && (b.stopped <==> !passive && Breached(policy, levels))
  }

  lemma {:induction false} EquitiesSnoc(initial: real, curve: seq<Mark>, m: Mark)
    ensures CurveLevels(initial, curve + [m]) == CurveLevels(initial, curve) + [m.equity]
  {
    assert (curve + [m])[..|curve|] == curve;
  }

  lemma {:induction false} LiquidationIsPositive(b: Book, row: Row, policy: Policy)
    requires ValidPolicy(policy) && ValidRow(row) && Sane(b, policy)
    ensures Liquidation(b, row, policy) > 0.0
  {
    PolicyBounds(policy);
    NetWorthIsPositive(b.cash, b.quantity, row.close, Cost(policy));
  }

  lemma {:induction false} NetWorthIsPositive(cash: real, quantity: real, price: real, cost: real)
    requires Solvent(cash, quantity) && price > 0.0 && 0.0 <= cost < 1.0
    ensures NetWorth(cash, quantity, price, cost) > 0.0
  {
    var position, net := quantity * price, 1.0 - cost;
    SignOfProduct(quantity, price);
    SignOfProduct(position, net);
    assert NetWorth(cash, quantity, price, cost) == cash + position * net;
  }

  lemma {:induction false} SamePast(policy: Policy, levels: seq<real>, last: real, j: nat)
    requires Positive(levels) && last > 0.0 && 0 < j < |levels|
    ensures Positive(levels + [last]) && (Breach(policy, levels + [last], j) <==> Breach(policy, levels, j))
  {
    forall i | 0 <= i <= j ensures Drop(levels + [last], i, j) == Drop(levels, i, j) {}
  }

  lemma {:induction false} LatchStep(policy: Policy, levels: seq<real>, last: real, dd: real)
    requires levels != [] && Positive(levels) && last > 0.0 && Positive(levels + [last])
    requires forall i :: 0 <= i <= |levels| ==> Drop(levels + [last], i, |levels|) <= dd
    requires exists i :: 0 <= i <= |levels| && Drop(levels + [last], i, |levels|) == dd
    ensures Breached(policy, levels + [last]) <==>
            Breached(policy, levels) || last <= policy.initialCash * (1.0 - policy.lossStop) || dd >= policy.drawdownStop
  {
    var c, n := levels + [last], |levels|;
    forall j | 0 < j < n ensures Breach(policy, c, j) <==> Breach(policy, levels, j) { SamePast(policy, levels, last, j); }
    assert Breach(policy, c, n) <==> last <= policy.initialCash * (1.0 - policy.lossStop) || dd >= policy.drawdownStop;
    if Breached(policy, levels) {
      var j: nat :| 0 < j < n && Breach(policy, levels, j);
      assert Breach(policy, c, j);
    }
  }

  lemma {:induction false} CloseKeepsWatched(b: Book, row: Row, forecast: Option<Forecast>, policy: Policy, passive: bool, limit: real)
    requires ValidPolicy(policy) && ValidRow(row) && Sane(b, policy) && Watched(b, policy, passive)
    requires Close(b, row, forecast, policy, passive, limit).Ok?
    ensures Watched(Close(b, row, forecast, policy, passive, limit).value, policy, passive)
  {
    var level, levels := Liquidation(b, row, policy), CurveLevels(policy.initialCash, b.curve);
    var m, dd := Mark(row.end, level, b.cash, b.quantity), Drawdown(b, row, policy);
    LiquidationIsPositive(b, row, policy);
    assert levels[0] > 0.0;
    EquitiesSnoc(policy.initialCash, b.curve, m);
    PeakStep(levels, b.peak, level);
    PeakGivesDeepest(levels, level, Max(b.peak, level));
    OneMoreLevel(levels, level, Max(b.peak, level), b.maxDrawdown);
    LatchStep(policy, levels, level, dd);
    CloseFields(b, row, forecast, policy, passive, limit, m, dd);
  }

  lemma {:induction false} CloseFields(b: Book, row: Row, forecast: Option<Forecast>, policy: Policy, passive: bool, limit: real, m: Mark, dd: real)
    requires ValidPolicy(policy) && ValidRow(row) && Sane(b, policy)
    requires m == Mark(row.end, Liquidation(b, row, policy), b.cash, b.quantity) && dd == Drawdown(b, row, policy)
    requires Close(b, row, forecast, policy, passive, limit).Ok?
    ensures var c := Close(b, row, forecast, policy, passive, limit).value;
      && c.curve == b.curve + [m] && c.peak == Max(b.peak, m.equity) && c.maxDrawdown == Max(b.maxDrawdown, dd)
      && (c.stopped <==> b.stopped || (!passive && (m.equity <= policy.initialCash * (1.0 - policy.lossStop) || dd >= policy.drawdownStop)))
  {
  }

  lemma {:induction false} OpenFrame(b: Book, k: nat, row: Row, policy: Policy, passive: bool, limit: real)
    requires ValidPolicy(policy) && ValidRow(row) && Sane(b, policy) && Open(b, k, row, policy, passive, limit).Ok?
    ensures var n := Open(b, k, row, policy, passive, limit).value;
      n.peak == b.peak && n.maxDrawdown == b.maxDrawdown && n.stopped == b.stopped && n.curve == b.curve
  {
  }

  lemma {:induction false} BarKeepsWatched(b: Book, k: nat, row: Row, forecast: Option<Forecast>, policy: Policy, passive: bool, limit: real)
    requires ValidPolicy(policy) && ValidRow(row) && Sane(b, policy) && Watched(b, policy, passive)
    requires Bar(b, k, row, forecast, policy, passive, limit).Ok?
    ensures Watched(Bar(b, k, row, forecast, policy, passive, limit).value, policy, passive)
  {
    OpenKeepsSane(b, k, row, policy, passive, limit);
    OpenFrame(b, k, row, policy, passive, limit);
    var n := Open(b, k, row, policy, passive, limit).value;
    assert Watched(n, policy, passive);
    CloseKeepsWatched(n, row, forecast, policy, passive, limit);
  }

  /**
    After any number of bars: the peak is the highest level so far, the drawdown is the deepest drop between any
    two bars in order, and the latch is set exactly when some bar breached a stop. The passive run never latches.
  */
  lemma {:induction false} RunIsWatched(rows: seq<Row>, forecasts: seq<Forecast>, policy: Policy, passive: bool, limit: real, k: nat)
    requires ValidPolicy(policy) && ValidRows(rows) && k <= |rows| && Prefix(rows, forecasts, policy, passive, limit, k).Ok?
    ensures Watched(Prefix(rows, forecasts, policy, passive, limit, k).value, policy, passive)
  {
    if k > 0 {
      PrefixStep(rows, forecasts, policy, passive, limit, k - 1);
      RunIsWatched(rows, forecasts, policy, passive, limit, k - 1);
      BarKeepsWatched(Prefix(rows, forecasts, policy, passive, limit, k - 1).value, k - 1, rows[k - 1],
                      Lookup(forecasts, k - 1), policy, passive, limit);
    } else {
      var levels := CurveLevels(policy.initialCash, []);
      assert levels == [policy.initialCash];
      assert Drop(levels, 0, 0) == 0.0;
    }
  }

  /** What a report says about its own equity curve. */
  lemma {:induction false} ReportedDrawdown(rows: seq<Row>, forecasts: seq<Forecast>, policy: Policy, passive: bool, limit: real)
    requires ValidPolicy(policy) && ValidRows(rows) && Simulation(rows, forecasts, policy, passive, limit).Ok?
    ensures var r := Simulation(rows, forecasts, policy, passive, limit).value;
      var levels := CurveLevels(policy.initialCash, r.curve);
      && Positive(levels) && IsDeepest(levels, r.maxDrawdown)
      && (r.riskStopped <==> !passive && Breached(policy, levels))
  {
    RunIsWatched(rows, forecasts, policy, passive, limit, |rows|);
    FinishKeepsMarks(Prefix(rows, forecasts, policy, passive, limit, |rows|).value, rows, policy, limit);
  }

  lemma {:induction false} FinishKeepsMarks(b: Book, rows: seq<Row>, policy: Policy, limit: real)
    requires ValidPolicy(policy) && ValidRows(rows) && Finish(b, rows, policy, limit).Ok?
    ensures var r := Finish(b, rows, policy, limit).value;
      r.curve == b.curve && r.maxDrawdown == b.maxDrawdown && r.riskStopped == b.stopped
  {
  }
}
