/** Causality of the simulation, and its stop latch. */
module CausalityLaws {
  import opened Outcomes
  import opened Portfolios
  import opened Simulations
  import opened SimulationLaws

  /** The book between the open and the close of bar i. */
  function AtOpen(rows: seq<Row>, forecasts: seq<Forecast>, policy: Policy, passive: bool, limit: real, i: nat): Result<Book, Error>
    requires ValidPolicy(policy) && ValidRows(rows) && i < |rows|
  {
    var b := Prefix(rows, forecasts, policy, passive, limit, i);
    if b.Err? then b else Open(b.value, i, rows[i], policy, passive, limit)
  }

  lemma {:induction false} AtOpenIsSane(rows: seq<Row>, forecasts: seq<Forecast>, policy: Policy, passive: bool, limit: real, i: nat)
    requires ValidPolicy(policy) && ValidRows(rows) && i < |rows|
    ensures AtOpen(rows, forecasts, policy, passive, limit, i).Ok? ==>
      Sane(AtOpen(rows, forecasts, policy, passive, limit, i).value, policy)
  {
    if Prefix(rows, forecasts, policy, passive, limit, i).Ok? {
      OpenKeepsSane(Prefix(rows, forecasts, policy, passive, limit, i).value, i, rows[i], policy, passive, limit);
    }
  }

  // ------------------------------------------------- where decisions come from

  /**
    Decision p was made at index i: by the opening forecast at index -1; or at the close of bar i by a stop, by the
    forecast of i when nothing stopped the run, or by a drift above the target.
  */
  ghost predicate MadeAt(rows: seq<Row>, forecasts: seq<Forecast>, policy: Policy, limit: real, p: Pending, i: int)
    requires ValidPolicy(policy) && ValidRows(rows)
  {
    if i == -1 then Lookup(forecasts, -1).Some? && p == Decision(Lookup(forecasts, -1).value, policy)
    else
      && 0 <= i < |rows| && AtOpen(rows, forecasts, policy, false, limit, i).Ok?
      && var b := AtOpen(rows, forecasts, policy, false, limit, i).value;
      && Sane(b, policy)
      && var stop := StopHit(b, rows[i], policy, false);
         || (stop && p == Pending(0.0, Some(rows[i].availableAt)))
         || (!stop && Lookup(forecasts, i).Some? && p == Decision(Lookup(forecasts, i).value, policy))
         || (&& b.quantity * rows[i].close != 0.0 && Exposure(b, rows[i]) > Target(policy)
             && p == Pending(if b.stopped || stop then 0.0 else Target(policy), Some(rows[i].availableAt)))
  }

  ghost predicate Pends(rows: seq<Row>, forecasts: seq<Forecast>, policy: Policy, limit: real, p: Pending, k: nat)
    requires ValidPolicy(policy) && ValidRows(rows)
  {
    p.availableAt.Some? && exists i :: -1 <= i < k && MadeAt(rows, forecasts, policy, limit, p, i)
  }

  /**
    A fill of a candidate run executes the decision that was pending when its bar opened: that decision was made at an
    earlier index and available by the start of the bar, and the fill is the rebalance of the book before the bar to
    the weight that it decided, or to zero once the run is stopped.
  */
  ghost predicate Caused(rows: seq<Row>, forecasts: seq<Forecast>, policy: Policy, limit: real, f: Fill)
    requires ValidPolicy(policy) && ValidRows(rows)
  {
    && f.bar < |rows| && Prefix(rows, forecasts, policy, false, limit, f.bar).Ok?
    && var b, row := Prefix(rows, forecasts, policy, false, limit, f.bar).value, rows[f.bar];
    && b.pending.Some? && Pends(rows, forecasts, policy, limit, b.pending.value, f.bar)
    && b.pending.value.availableAt.value <= row.start
    && f == FillOf(Rebalanced(b, row, policy, if b.stopped then 0.0 else b.pending.value.weight), f.bar, row)
  }

  function Rebalanced(b: Book, row: Row, policy: Policy, weight: real): Trade
    requires ValidPolicy(policy) && ValidRow(row) && weight in {0.0, Target(policy)}
  {
    PolicyBounds(policy);
    Rebalance(b.cash, b.quantity, row.open, weight, Cost(policy))
  }

  ghost predicate Causal(rows: seq<Row>, forecasts: seq<Forecast>, policy: Policy, limit: real, b: Book, k: nat)
    requires ValidPolicy(policy) && ValidRows(rows)
  {
    && (b.pending.Some? ==> Pends(rows, forecasts, policy, limit, b.pending.value, k))
    && (forall j :: 0 <= j < |b.ledger| ==> Caused(rows, forecasts, policy, limit, b.ledger[j]))
  }

  lemma {:induction false} OpenIsCausal(rows: seq<Row>, forecasts: seq<Forecast>, policy: Policy, limit: real, b: Book, k: nat)
    requires ValidPolicy(policy) && ValidRows(rows) && k < |rows| && Prefix(rows, forecasts, policy, false, limit, k) == Ok(b)
    requires Causal(rows, forecasts, policy, limit, b, k) && Open(b, k, rows[k], policy, false, limit).Ok?
    ensures Causal(rows, forecasts, policy, limit, Open(b, k, rows[k], policy, false, limit).value, k)
  {
    if Due(b.pending, rows[k]) {
      var t := TradeAt(b, k, rows[k], policy, false);
      assert t == Rebalanced(b, rows[k], policy, if b.stopped then 0.0 else b.pending.value.weight);
      assert Caused(rows, forecasts, policy, limit, FillOf(t, k, rows[k]));
      BookedCausally(rows, forecasts, policy, limit, b, k, t);
    }
  }

  lemma {:induction false} BookedCausally(rows: seq<Row>, forecasts: seq<Forecast>, policy: Policy, limit: real, b: Book, k: nat, t: Trade)
    requires ValidPolicy(policy) && ValidRows(rows) && k < |rows|
    requires Causal(rows, forecasts, policy, limit, b, k) && Caused(rows, forecasts, policy, limit, FillOf(t, k, rows[k]))
    requires Booked(b, k, rows[k], t, limit).Ok?
    ensures Causal(rows, forecasts, policy, limit, Booked(b, k, rows[k], t, limit).value, k)
  {
    var n := Booked(b, k, rows[k], t, limit).value;
    forall j | 0 <= j < |n.ledger| ensures Caused(rows, forecasts, policy, limit, n.ledger[j]) {
      assert j < |b.ledger| ==> n.ledger[j] == b.ledger[j];
    }
  }

  lemma {:induction false} NextPendingIsMade(rows: seq<Row>, forecasts: seq<Forecast>, policy: Policy, limit: real, b: Book, k: nat)
    requires ValidPolicy(policy) && ValidRows(rows) && k < |rows| && Sane(b, policy)
    requires AtOpen(rows, forecasts, policy, false, limit, k) == Ok(b)
    requires Causal(rows, forecasts, policy, limit, b, k)
    ensures var p := NextPending(b, rows[k], Lookup(forecasts, k), policy, false);
      p.Some? ==> Pends(rows, forecasts, policy, limit, p.value, k + 1)
  {
    var p := NextPending(b, rows[k], Lookup(forecasts, k), policy, false);
    if p.Some? {
      if p == b.pending {
        var i :| -1 <= i < k && MadeAt(rows, forecasts, policy, limit, p.value, i);
      } else {
        assert MadeAt(rows, forecasts, policy, limit, p.value, k);
      }
    }
  }

  lemma {:induction false} BarIsCausal(rows: seq<Row>, forecasts: seq<Forecast>, policy: Policy, limit: real, k: nat)
    requires ValidPolicy(policy) && ValidRows(rows) && k < |rows|
    requires Prefix(rows, forecasts, policy, false, limit, k + 1).Ok?
    ensures Prefix(rows, forecasts, policy, false, limit, k).Ok?
    ensures Causal(rows, forecasts, policy, limit, Prefix(rows, forecasts, policy, false, limit, k).value, k) ==>
            Causal(rows, forecasts, policy, limit, Prefix(rows, forecasts, policy, false, limit, k + 1).value, k + 1)
  {
    PrefixStep(rows, forecasts, policy, false, limit, k);
    var b := Prefix(rows, forecasts, policy, false, limit, k).value;
    if Causal(rows, forecasts, policy, limit, b, k) {
      OpenIsCausal(rows, forecasts, policy, limit, b, k);
      AtOpenIsSane(rows, forecasts, policy, false, limit, k);
      var o := Open(b, k, rows[k], policy, false, limit).value;
      NextPendingIsMade(rows, forecasts, policy, limit, o, k);
      CloseFrame(o, rows[k], Lookup(forecasts, k), policy, false, limit);
    }
  }

  lemma {:induction false} PrefixIsCausal(rows: seq<Row>, forecasts: seq<Forecast>, policy: Policy, limit: real, k: nat)
    requires ValidPolicy(policy) && ValidRows(rows) && k <= |rows|
    requires Prefix(rows, forecasts, policy, false, limit, k).Ok?
    ensures Causal(rows, forecasts, policy, limit, Prefix(rows, forecasts, policy, false, limit, k).value, k)
  {
    if k > 0 {
      BarIsCausal(rows, forecasts, policy, limit, k - 1);
      PrefixIsCausal(rows, forecasts, policy, limit, k - 1);
    } else {
      var p := Opening(forecasts, policy).pending;
      if p.Some? { assert MadeAt(rows, forecasts, policy, limit, p.value, -1); }
    }
  }

  /** Every fill of a candidate run but the terminal sale executes an earlier decision that was available in time. */
  lemma {:induction false} EveryFillIsCaused(rows: seq<Row>, forecasts: seq<Forecast>, policy: Policy, limit: real)
    requires ValidPolicy(policy) && ValidRows(rows) && Simulation(rows, forecasts, policy, false, limit).Ok?
    ensures var l := Simulation(rows, forecasts, policy, false, limit).value.ledger;
      forall j :: 0 <= j < |l| && l[j].side != TerminalSell ==> Caused(rows, forecasts, policy, limit, l[j])
  {
    PrefixIsCausal(rows, forecasts, policy, limit, |rows|);
    RunIsAccounted(rows, forecasts, policy, false, limit, |rows|);
    FinishConserves(Prefix(rows, forecasts, policy, false, limit, |rows|).value, rows, policy, limit);
  }

  // ------------------------------------------------------------ two-run causality

  /** Two inputs that agree on the first k rows, and on the forecasts at indices below k. */
  predicate Agree(rows: seq<Row>, rows': seq<Row>, forecasts: seq<Forecast>, forecasts': seq<Forecast>, k: nat) {
    && k <= |rows| && k <= |rows'| && rows[..k] == rows'[..k]
    && (forall i :: -1 <= i < k ==> Lookup(forecasts, i) == Lookup(forecasts', i))
  }

  /** They have the same ledger, curve, stops and pending decision after those k bars. */
  lemma {:induction false} NoLookahead(rows: seq<Row>, rows': seq<Row>, forecasts: seq<Forecast>, forecasts': seq<Forecast>,
                                       policy: Policy, passive: bool, limit: real, k: nat)
    requires ValidPolicy(policy) && ValidRows(rows) && ValidRows(rows') && Agree(rows, rows', forecasts, forecasts', k)
    ensures Prefix(rows, forecasts, policy, passive, limit, k) == Prefix(rows', forecasts', policy, passive, limit, k)
  {
    if k > 0 {
      assert rows[..k - 1] == rows[..k][..k - 1] && rows'[..k - 1] == rows'[..k][..k - 1];
      NoLookahead(rows, rows', forecasts, forecasts', policy, passive, limit, k - 1);
      assert rows[k - 1] == rows[..k][k - 1] == rows'[..k][k - 1] == rows'[k - 1];
    }
  }

  /** A fill sees no more of its own bar than the start and the open price. */
  lemma {:induction false} FillSeesOnlyTheOpen(rows: seq<Row>, rows': seq<Row>, forecasts: seq<Forecast>, forecasts': seq<Forecast>,
                            policy: Policy, passive: bool, limit: real, k: nat)
    requires ValidPolicy(policy) && ValidRows(rows) && ValidRows(rows') && Agree(rows, rows', forecasts, forecasts', k)
    requires k < |rows| && k < |rows'| && rows[k].start == rows'[k].start && rows[k].open == rows'[k].open
    ensures AtOpen(rows, forecasts, policy, passive, limit, k) == AtOpen(rows', forecasts', policy, passive, limit, k)
  {
    NoLookahead(rows, rows', forecasts, forecasts', policy, passive, limit, k);
    var b := Prefix(rows, forecasts, policy, passive, limit, k);
    if b.Ok? { OpenReadsOpen(b.value, k, rows[k], rows'[k], policy, passive, limit); }
  }

  lemma {:induction false} OpenReadsOpen(b: Book, k: nat, row: Row, row': Row, policy: Policy, passive: bool, limit: real)
    requires ValidPolicy(policy) && ValidRow(row) && ValidRow(row') && Sane(b, policy)
    requires row.start == row'.start && row.open == row'.open
    ensures Open(b, k, row, policy, passive, limit) == Open(b, k, row', policy, passive, limit)
  {
    var pending := InForce(b, k, policy, passive);
    if Due(pending, row) {
      var t := TradeAt(b, k, row, policy, passive);
      assert t == TradeAt(b, k, row', policy, passive);
      BookingReadsOpen(b, k, row, row', t, limit);
    }
  }

  lemma {:induction false} BookingReadsOpen(b: Book, k: nat, row: Row, row': Row, t: Trade, limit: real)
    requires row.start == row'.start && row.open == row'.open
    ensures Booked(b, k, row, t, limit) == Booked(b, k, row', t, limit)
  {
  }

  // ------------------------------------------------------------- the stop latch

  /** What can still happen to a stopped book: it stays stopped, it only sells, and once it is empty it stays empty. */
  predicate SellsOnly(b: Book, e: Book) {
    && e.stopped && |b.ledger| <= |e.ledger|
    && (forall j :: 0 <= j < |b.ledger| ==> e.ledger[j] == b.ledger[j])
    && (forall j :: |b.ledger| <= j < |e.ledger| ==> e.ledger[j].side == Sell)
    && (b.quantity == 0.0 ==> e.quantity == 0.0)
  }

  lemma {:induction false} SellsOnlyComposes(b: Book, m: Book, e: Book)
    requires SellsOnly(b, m) && SellsOnly(m, e)
    ensures SellsOnly(b, e)
  {
    forall j | 0 <= j < |b.ledger| ensures e.ledger[j] == b.ledger[j] {
      assert m.ledger[j] == b.ledger[j];
    }
    forall j | |b.ledger| <= j < |e.ledger| ensures e.ledger[j].side == Sell {
      assert j < |m.ledger| ==> e.ledger[j] == m.ledger[j];
    }
  }

  lemma {:induction false} StoppedOpenSells(b: Book, k: nat, row: Row, policy: Policy, passive: bool, limit: real)
    requires ValidPolicy(policy) && ValidRow(row) && Sane(b, policy) && b.stopped
    requires Open(b, k, row, policy, passive, limit).Ok?
    ensures SellsOnly(b, Open(b, k, row, policy, passive, limit).value)
    ensures Due(InForce(b, k, policy, passive), row) ==> Open(b, k, row, policy, passive, limit).value.quantity == 0.0
  {
    if Due(InForce(b, k, policy, passive), row) {
      var t, weight := OpenTrade(b, k, row, policy, passive, limit);
      TradeEnds(b, row, policy, t, weight);
    }
  }

  lemma {:induction false} StoppedBarSells(rows: seq<Row>, forecasts: seq<Forecast>, policy: Policy, passive: bool, limit: real, k: nat)
    requires ValidPolicy(policy) && ValidRows(rows) && k < |rows|
    requires Prefix(rows, forecasts, policy, passive, limit, k + 1).Ok?
    ensures Prefix(rows, forecasts, policy, passive, limit, k).Ok?
    ensures var b, n := Prefix(rows, forecasts, policy, passive, limit, k).value,
                        Prefix(rows, forecasts, policy, passive, limit, k + 1).value;
      b.stopped ==>
        SellsOnly(b, n) && (Due(InForce(b, k, policy, passive), rows[k]) ==> n.quantity == 0.0)
  {
    PrefixStep(rows, forecasts, policy, passive, limit, k);
    var b := Prefix(rows, forecasts, policy, passive, limit, k).value;
    if b.stopped {
      StoppedOpenSells(b, k, rows[k], policy, passive, limit);
      AtOpenIsSane(rows, forecasts, policy, passive, limit, k);
      CloseFrame(Open(b, k, rows[k], policy, passive, limit).value, rows[k], Lookup(forecasts, k), policy, passive, limit);
    }
  }

  /** Once a stop has latched nothing is ever bought again, whatever the history and the forecasts. */
  lemma {:induction false} NoBuyAfterStop(rows: seq<Row>, forecasts: seq<Forecast>, policy: Policy, passive: bool, limit: real,
                                          k: nat, n: nat)
    requires ValidPolicy(policy) && ValidRows(rows) && k <= n <= |rows|
    requires Prefix(rows, forecasts, policy, passive, limit, n).Ok?
    ensures Prefix(rows, forecasts, policy, passive, limit, k).Ok?
    ensures Prefix(rows, forecasts, policy, passive, limit, k).value.stopped ==>
      SellsOnly(Prefix(rows, forecasts, policy, passive, limit, k).value,
                Prefix(rows, forecasts, policy, passive, limit, n).value)
    decreases n - k
  {
    if k < n {
      StoppedBarSells(rows, forecasts, policy, passive, limit, n - 1);
      NoBuyAfterStop(rows, forecasts, policy, passive, limit, k, n - 1);
      ComposeRuns(Prefix(rows, forecasts, policy, passive, limit, k).value,
                  Prefix(rows, forecasts, policy, passive, limit, n - 1).value,
                  Prefix(rows, forecasts, policy, passive, limit, n).value);
    }
  }

  lemma {:induction false} ComposeRuns(b: Book, m: Book, e: Book)
    requires b.stopped ==> SellsOnly(b, m)
    requires m.stopped ==> SellsOnly(m, e)
    ensures b.stopped ==> SellsOnly(b, e)
  {
    if b.stopped { SellsOnlyComposes(b, m, e); }
  }

  /** Each row becomes available before the next one starts. */
  predicate Prompt(rows: seq<Row>) { forall i :: 0 < i < |rows| ==> rows[i - 1].availableAt <= rows[i].start }

  lemma {:induction false} StopQueuesSale(rows: seq<Row>, forecasts: seq<Forecast>, policy: Policy, limit: real, k: nat)
    requires ValidPolicy(policy) && ValidRows(rows) && Prompt(rows) && k + 1 < |rows|
    requires Prefix(rows, forecasts, policy, false, limit, k + 1).Ok?
    ensures Prefix(rows, forecasts, policy, false, limit, k).Ok?
    ensures var b, n := Prefix(rows, forecasts, policy, false, limit, k).value,
                        Prefix(rows, forecasts, policy, false, limit, k + 1).value;
      !b.stopped && n.stopped ==> Due(n.pending, rows[k + 1])
  {
    PrefixStep(rows, forecasts, policy, false, limit, k);
    AtOpenIsSane(rows, forecasts, policy, false, limit, k);
    PolicyBounds(policy);
  }

  lemma {:induction false} StopEmptiesBook(rows: seq<Row>, forecasts: seq<Forecast>, policy: Policy, limit: real, k: nat)
    requires ValidPolicy(policy) && ValidRows(rows) && Prompt(rows) && k + 2 <= |rows|
    requires Prefix(rows, forecasts, policy, false, limit, k + 2).Ok?
    ensures Prefix(rows, forecasts, policy, false, limit, k).Ok? && Prefix(rows, forecasts, policy, false, limit, k + 1).Ok?
    ensures !Prefix(rows, forecasts, policy, false, limit, k).value.stopped
            && Prefix(rows, forecasts, policy, false, limit, k + 1).value.stopped
            ==> Prefix(rows, forecasts, policy, false, limit, k + 2).value.quantity == 0.0
                && Prefix(rows, forecasts, policy, false, limit, k + 2).value.stopped
  {
    StoppedBarSells(rows, forecasts, policy, false, limit, k + 1);
    StopQueuesSale(rows, forecasts, policy, limit, k);
  }

  /** With prompt rows a stop at bar k has sold everything by the end of bar k + 1, for good. */
  lemma {:induction false} StopLiquidatesAtNextBar(rows: seq<Row>, forecasts: seq<Forecast>, policy: Policy, limit: real, k: nat, n: nat)
    requires ValidPolicy(policy) && ValidRows(rows) && Prompt(rows) && k + 2 <= n <= |rows|
    requires Prefix(rows, forecasts, policy, false, limit, n).Ok?
    ensures Prefix(rows, forecasts, policy, false, limit, k).Ok? && Prefix(rows, forecasts, policy, false, limit, k + 1).Ok?
    ensures !Prefix(rows, forecasts, policy, false, limit, k).value.stopped
            && Prefix(rows, forecasts, policy, false, limit, k + 1).value.stopped
            ==> Prefix(rows, forecasts, policy, false, limit, n).value.quantity == 0.0
  {
    NoBuyAfterStop(rows, forecasts, policy, false, limit, k + 2, n);
    StopEmptiesBook(rows, forecasts, policy, limit, k);
  }
}
