/** Every run of the all-in backtest: its ledger, its money, and what it may know. */
module AllInLaws {
  import opened Outcomes
  import opened Portfolios
  import opened AllIn
  import opened Drawdowns

  /** A sale brings something: the cost is below 100 %. The source's callers admit at most 20 %. */
  predicate Chargeable(s: Setup) { Callable(s) && s.cost < 1.0 }
  predicate Payable(s: Setup) { Valid(s) && s.cost < 1.0 }

  // ------------------------------------------------------------------ amounts

  lemma {:induction false} PurchaseSpendsAll(cash: real, cost: real)
    requires cash > 0.0 && cost >= 0.0
    ensures var a := Purchase(cash, cost); a.gross > 0.0 && a.cash == cash && a.fee == a.gross * cost && a.gross * (1.0 + cost) == cash
  {
    var gross := Quotient(cash, 1.0 + cost);
    SignOfProduct(gross, 1.0 + cost);
    assert gross * (1.0 + cost) == gross + gross * cost;
  }

  lemma {:induction false} BoughtUnits(gross: real, price: real) returns (quantity: real)
    requires gross > 0.0 && price > 0.0
    ensures quantity == gross / price && quantity > 0.0 && quantity * price == gross
  {
    quantity := Quotient(gross, price);
    SignOfProduct(quantity, price);
  }

  lemma {:induction false} SaleBringsCash(quantity: real, fill: real, cost: real)
    requires quantity > 0.0 && fill > 0.0 && 0.0 <= cost < 1.0
    ensures var a := Sale(quantity, fill, cost); a.gross > 0.0 && a.cash > 0.0 && a.fee == a.gross * cost && a.cash == a.gross - a.fee
  {
    SignOfProduct(quantity, fill);
    SignOfProduct(quantity * fill, 1.0 - cost);
  }

  /** What one round trip multiplies the money by: the ratio the benchmark uses for buy and hold. */
  function RoundTrip(entry: real, exit: real, cost: real): real
    requires entry > 0.0 && cost >= 0.0
  {
    (exit / entry) * ((1.0 - cost) / (1.0 + cost))
  }

  lemma {:induction false} Regroup(q: real, price: real, up: real, x: real, y: real)
    ensures ((q * price) * up) * (x * y) == (q * (x * price)) * (y * up)
  {
    assert (q * price) * x == q * (x * price);
    assert ((q * price) * up) * (x * y) == ((q * price) * x) * (y * up);
  }

  lemma {:induction false} RoundTripPays(quantity: real, price: real, fill: real, cost: real, spent: real)
    requires price > 0.0 && cost >= 0.0 && (quantity * price) * (1.0 + cost) == spent
    ensures Sale(quantity, fill, cost).cash == spent * RoundTrip(price, fill, cost)
  {
    var x := Quotient(fill, price);
    var y := Quotient(1.0 - cost, 1.0 + cost);
    Regroup(quantity, price, 1.0 + cost, x, y);
  }

  // ------------------------------------------------------------- the ledger

  /** No exit fired at any bar from the entry up to bar k. */
  predicate Unfired(s: Setup, bar: nat, price: real, k: nat)
    requires k <= |s.rows|
  {
    forall b :: bar <= b < k ==> ExitAt(price, bar, b, s.rows[b], s.hypothesis).None?
  }

  /** An entry fills at the open of the bar after a signal that was available by then. */
  predicate EntryOk(s: Setup, e: Leg)
    requires s.last < |s.rows|
  {
    && e.Entry? && e.id == e.bar <= s.last && e.signalBar == e.bar - 1
    && First(s) <= e.signalBar && Gate(s, e.signalBar)
    && e.fill == s.rows[e.bar].open && e.fill > 0.0
    && e.cost == e.notional * s.cost && e.spent == e.notional + e.cost
  }

  /** An exit closes its entry at the first bar that fires a rule, or at the end if none did. */
  predicate ExitOk(s: Setup, e: Leg, x: Leg)
    requires s.last < |s.rows|
  {
    && e.Entry? && x.Exit? && x.entryId == e.id && x.entryBar == e.bar <= x.bar <= s.last && x.entrySpent == e.spent
    && x.fill > 0.0 && x.cost == x.notional * s.cost && x.pnl == x.notional - x.cost - e.spent
    && Unfired(s, e.bar, e.fill, x.bar)
    && (if x.reason == Terminal
        then x.bar == s.last && x.fill == s.rows[x.bar].close && Unfired(s, e.bar, e.fill, x.bar + 1)
        else ExitAt(e.fill, e.bar, x.bar, s.rows[x.bar], s.hypothesis) == Some((x.reason, x.fill)))
  }

  /** Entries stand at even places, exits at odd ones, and each round trip ends before the next begins. */
  predicate LegOk(s: Setup, t: seq<Leg>, i: nat)
    requires s.last < |s.rows| && i < |t|
  {
    if i % 2 == 0 then EntryOk(s, t[i]) && (i > 0 ==> t[i - 1].bar < t[i].bar)
    else ExitOk(s, t[i - 1], t[i])
  }

  predicate LedgerOk(s: Setup, t: seq<Leg>)
    requires s.last < |s.rows|
  {
    forall i :: 0 <= i < |t| ==> LegOk(s, t, i)
  }

  lemma {:induction false} LedgerSnoc(s: Setup, t: seq<Leg>, x: Leg)
    requires s.last < |s.rows| && LedgerOk(s, t)
    requires if |t| % 2 == 0 then EntryOk(s, x) && (|t| > 0 ==> t[|t| - 1].bar < x.bar) else ExitOk(s, t[|t| - 1], x)
    ensures LedgerOk(s, t + [x])
  {
    forall i | 0 <= i < |t + [x]| ensures LegOk(s, t + [x], i) {
      assert i < |t| ==> LegOk(s, t, i);
    }
  }

  /** Every exit is within the maximum holding of its entry. */
  lemma {:induction false} HoldingIsBounded(s: Setup, e: Leg, x: Leg)
    requires Payable(s) && EntryOk(s, e) && ExitOk(s, e, x)
    ensures e.bar >= 15 && e.bar <= x.bar <= e.bar + s.hypothesis.maxHold
  {
    if x.bar > e.bar {
      assert ExitAt(e.fill, e.bar, x.bar - 1, s.rows[x.bar - 1], s.hypothesis).None?;
    }
  }

  /** The ledger is in order, and the open position is its last entry, no exit having fired before bar k. */
  predicate Tracked(s: Setup, r: Account, k: nat)
    requires s.last < |s.rows| && k <= s.last + 1
  {
    && LedgerOk(s, r.trades)
    && |r.trades| % 2 == (if r.position.Some? then 1 else 0)
    && (r.position.Some? ==>
          var e := r.trades[|r.trades| - 1];
          e.Entry? && r.position.value == Position(e.bar, e.fill, e.spent) && Unfired(s, e.bar, e.fill, k))
  }

  predicate Before(t: seq<Leg>, k: int) { t != [] ==> t[|t| - 1].bar < k }

  predicate Queued(s: Setup, r: Run, k: nat)
    requires s.last < |s.rows| && k <= s.last + 1
  {
    r.pending ==> r.account.position.None? && k - 1 >= First(s) && k - 1 < s.last && Gate(s, k - 1)
  }

  // -------------------------------------------------------------- the money

  /** Cash or quantity is zero, and the profit so far is what the money in play has grown by. */
  predicate Funded(s: Setup, r: Account)
    requires 0.0 <= s.cost
  {
    if r.position.None? then
      r.quantity == 0.0 && r.cash > 0.0 && Pnl(r.trades) == r.cash - s.cash
    else
      var p := r.position.value;
      && r.cash == 0.0 && r.quantity > 0.0 && p.price > 0.0 && Pnl(r.trades) == p.spent - s.cash
      && (r.quantity * p.price) * (1.0 + s.cost) == p.spent
  }

  predicate Charged(s: Setup, r: Account) { r.costs == s.cost * r.turnover }

  function Notional(trades: seq<Leg>): real {
    if trades == [] then 0.0 else Notional(trades[..|trades| - 1]) + trades[|trades| - 1].notional
  }

  predicate Filled(trades: seq<Leg>) { forall i :: 0 <= i < |trades| ==> trades[i].fill > 0.0 }

  /** What each completed round trip multiplies the money by. */
  function Ratios(trades: seq<Leg>, cost: real): seq<real>
    requires Filled(trades) && cost >= 0.0
  {
    var n := |trades|;
    if n < 2 then []
    else if n % 2 == 1 then Ratios(trades[..n - 1], cost)
    else Ratios(trades[..n - 2], cost) + [RoundTrip(trades[n - 2].fill, trades[n - 1].fill, cost)]
  }

  function Compound(ratios: seq<real>): real {
    if ratios == [] then 1.0 else Compound(ratios[..|ratios| - 1]) * ratios[|ratios| - 1]
  }

  function Growth(trades: seq<Leg>, cost: real): real
    requires Filled(trades) && cost >= 0.0
  {
    Compound(Ratios(trades, cost))
  }

  predicate Turned(r: Account) { r.turnover == Notional(r.trades) }

  predicate Grown(s: Setup, r: Account)
    requires 0.0 <= s.cost
  {
    && Filled(r.trades)
    && (if r.position.None? then r.cash else r.position.value.spent) == s.cash * Growth(r.trades, s.cost)
  }

  lemma {:induction false} Snoc(trades: seq<Leg>, x: Leg)
    ensures Notional(trades + [x]) == Notional(trades) + x.notional
    ensures Pnl(trades + [x]) == Pnl(trades) + if x.Exit? then x.pnl else 0.0
    ensures Filled(trades) && x.fill > 0.0 ==> Filled(trades + [x])
  {
    assert (trades + [x])[..|trades|] == trades;
  }

  lemma {:induction false} OddRatios(trades: seq<Leg>, cost: real)
    requires Filled(trades) && cost >= 0.0 && |trades| % 2 == 1
    ensures Ratios(trades, cost) == Ratios(trades[..|trades| - 1], cost)
  {
  }

  lemma {:induction false} EvenRatios(trades: seq<Leg>, cost: real)
    requires Filled(trades) && cost >= 0.0 && |trades| % 2 == 0 && trades != []
    ensures Ratios(trades, cost)
         == Ratios(trades[..|trades| - 2], cost) + [RoundTrip(trades[|trades| - 2].fill, trades[|trades| - 1].fill, cost)]
  {
  }

  lemma {:induction false} RatiosAtEntry(trades: seq<Leg>, e: Leg, cost: real)
    requires Filled(trades) && cost >= 0.0 && |trades| % 2 == 0 && e.fill > 0.0
    ensures Filled(trades + [e]) && Ratios(trades + [e], cost) == Ratios(trades, cost)
  {
    OddRatios(trades + [e], cost);
    assert (trades + [e])[..|trades|] == trades;
  }

  lemma {:induction false} RatiosAtExit(trades: seq<Leg>, x: Leg, cost: real) returns (ratio: real)
    requires Filled(trades) && cost >= 0.0 && |trades| % 2 == 1 && x.fill > 0.0
    ensures Filled(trades + [x]) && Ratios(trades + [x], cost) == Ratios(trades, cost) + [ratio]
    ensures ratio == RoundTrip(trades[|trades| - 1].fill, x.fill, cost)
  {
    ratio := RoundTrip(trades[|trades| - 1].fill, x.fill, cost);
    EvenRatios(trades + [x], cost);
    OddRatios(trades, cost);
    assert (trades + [x])[..|trades| - 1] == trades[..|trades| - 1];
  }

  lemma {:induction false} CompoundStep(cash: real, ratios: seq<real>, ratio: real, spent: real, proceeds: real)
    requires spent == cash * Compound(ratios) && proceeds == spent * ratio
    ensures proceeds == cash * Compound(ratios + [ratio])
  {
    assert (ratios + [ratio])[..|ratios|] == ratios;
    var growth := Compound(ratios);
    assert (cash * growth) * ratio == cash * (growth * ratio);
  }

  predicate Sound(s: Setup, r: Account)
    requires 0.0 <= s.cost
  {
    Funded(s, r) && Charged(s, r) && Turned(r) && Grown(s, r)
  }

  lemma {:induction false} EntryCharged(s: Setup, r: Account, k: nat, price: real, a: Amounts, quantity: real)
    requires Charged(s, r) && Turned(r) && a.fee == a.gross * s.cost
    ensures Charged(s, Entered(r, k, price, a, quantity)) && Turned(Entered(r, k, price, a, quantity))
  {
    Snoc(r.trades, Entered(r, k, price, a, quantity).trades[|r.trades|]);
    Times(s.cost, r.turnover, a.gross);
  }

  lemma {:induction false} ExitCharged(s: Setup, r: Account, k: nat, fill: real, a: Amounts, reason: Reason)
    requires r.position.Some? && Charged(s, r) && Turned(r) && a.fee == a.gross * s.cost
    ensures Charged(s, Exited(r, k, fill, a, reason)) && Turned(Exited(r, k, fill, a, reason))
  {
    Snoc(r.trades, Exited(r, k, fill, a, reason).trades[|r.trades|]);
    Times(s.cost, r.turnover, a.gross);
  }

  lemma {:induction false} Times(cost: real, a: real, b: real)
    ensures cost * (a + b) == cost * a + b * cost
  {
  }

  lemma {:induction false} EntryFunded(s: Setup, r: Account, k: nat, price: real, a: Amounts, quantity: real)
    requires 0.0 <= s.cost && r.position.None? && Funded(s, r)
    requires price > 0.0 && quantity > 0.0 && a.cash == r.cash && (quantity * price) * (1.0 + s.cost) == a.cash
    ensures Funded(s, Entered(r, k, price, a, quantity))
  {
    Snoc(r.trades, Entered(r, k, price, a, quantity).trades[|r.trades|]);
  }

  lemma {:induction false} EntryGrown(s: Setup, r: Account, k: nat, price: real, a: Amounts, quantity: real)
    requires 0.0 <= s.cost && r.position.None? && Grown(s, r) && |r.trades| % 2 == 0 && price > 0.0 && a.cash == r.cash
    ensures Grown(s, Entered(r, k, price, a, quantity))
  {
    RatiosAtEntry(r.trades, Entered(r, k, price, a, quantity).trades[|r.trades|], s.cost);
  }

  lemma {:induction false} EntryIsSound(s: Setup, r: Account, k: nat, price: real)
    requires Chargeable(s) && price > 0.0 && r.position.None? && |r.trades| % 2 == 0 && Sound(s, r)
    ensures var a := Purchase(r.cash, s.cost); Sound(s, Entered(r, k, price, a, a.gross / price))
  {
    var a := Purchase(r.cash, s.cost);
    PurchaseSpendsAll(r.cash, s.cost);
    var quantity := BoughtUnits(a.gross, price);
    EntryFunded(s, r, k, price, a, quantity);
    EntryGrown(s, r, k, price, a, quantity);
    EntryCharged(s, r, k, price, a, quantity);
  }

  lemma {:induction false} ExitFunded(s: Setup, r: Account, k: nat, fill: real, a: Amounts, reason: Reason)
    requires 0.0 <= s.cost && r.position.Some? && Pnl(r.trades) == r.position.value.spent - s.cash && a.cash > 0.0
    ensures Funded(s, Exited(r, k, fill, a, reason))
  {
    Snoc(r.trades, Exited(r, k, fill, a, reason).trades[|r.trades|]);
  }

  lemma {:induction false} GrowthStep(cash: real, trades: seq<Leg>, after: seq<Leg>, cost: real, ratio: real, spent: real, proceeds: real)
    requires cost >= 0.0 && Filled(trades) && Filled(after) && Ratios(after, cost) == Ratios(trades, cost) + [ratio]
    requires spent == cash * Growth(trades, cost) && proceeds == spent * ratio
    ensures proceeds == cash * Growth(after, cost)
  {
    CompoundStep(cash, Ratios(trades, cost), ratio, spent, proceeds);
  }

  lemma {:induction false} ExitGrown(s: Setup, r: Account, after: Account, ratio: real)
    requires 0.0 <= s.cost && r.position.Some? && Grown(s, r) && after.position.None? && Filled(after.trades)
    requires Ratios(after.trades, s.cost) == Ratios(r.trades, s.cost) + [ratio]
    requires after.cash == r.position.value.spent * ratio
    ensures Grown(s, after)
  {
    GrowthStep(s.cash, r.trades, after.trades, s.cost, ratio, r.position.value.spent, after.cash);
  }

  lemma {:induction false} ExitAmounts(s: Setup, r: Account, fill: real) returns (a: Amounts)
    requires Chargeable(s) && fill > 0.0 && r.position.Some? && Funded(s, r)
    ensures a == Sale(r.quantity, fill, s.cost) && a.cash > 0.0 && a.fee == a.gross * s.cost
    ensures a.cash == r.position.value.spent * RoundTrip(r.position.value.price, fill, s.cost)
  {
    a := Sale(r.quantity, fill, s.cost);
    SaleBringsCash(r.quantity, fill, s.cost);
    RoundTripPays(r.quantity, r.position.value.price, fill, s.cost, r.position.value.spent);
  }

  lemma {:induction false} ExitRatio(s: Setup, r: Account, k: nat, fill: real, reason: Reason) returns (a: Amounts, ratio: real)
    requires Chargeable(s) && fill > 0.0 && r.position.Some? && |r.trades| % 2 == 1 && Funded(s, r) && Filled(r.trades)
    requires r.trades[|r.trades| - 1].fill == r.position.value.price
    ensures a == Sale(r.quantity, fill, s.cost) && a.cash > 0.0 && a.fee == a.gross * s.cost
    ensures var n := Exited(r, k, fill, a, reason);
      Filled(n.trades) && Ratios(n.trades, s.cost) == Ratios(r.trades, s.cost) + [ratio]
    ensures a.cash == r.position.value.spent * ratio
  {
    a := ExitAmounts(s, r, fill);
    ratio := RatiosAtExit(r.trades, Exited(r, k, fill, a, reason).trades[|r.trades|], s.cost);
  }

  lemma {:induction false} ExitIsSound(s: Setup, r: Account, k: nat, fill: real, reason: Reason)
    requires Chargeable(s) && fill > 0.0 && r.position.Some? && |r.trades| % 2 == 1 && Sound(s, r)
    requires r.trades[|r.trades| - 1].fill == r.position.value.price
    ensures Sound(s, Exited(r, k, fill, Sale(r.quantity, fill, s.cost), reason))
  {
    var a, ratio := ExitRatio(s, r, k, fill, reason);
    ExitFunded(s, r, k, fill, a, reason);
    ExitGrown(s, r, Exited(r, k, fill, a, reason), ratio);
    ExitCharged(s, r, k, fill, a, reason);
  }

  // ----------------------------------------------------------- the invariant

  /** What holds of a run before bar k. */
  predicate Held(s: Setup, r: Run, k: nat)
    requires Chargeable(s) && k <= s.last + 1
  {
    Tracked(s, r.account, k) && Before(r.account.trades, k) && Queued(s, r, k) && Sound(s, r.account)
  }

  lemma {:induction false} EntryIsTracked(s: Setup, r: Run, k: nat, a: Amounts, quantity: real)
    requires Payable(s) && k <= s.last && Tracked(s, r.account, k) && Before(r.account.trades, k) && r.pending && Queued(s, r, k)
    requires a.fee == a.gross * s.cost && a.cash == a.gross + a.fee
    ensures Tracked(s, Entered(r.account, k, s.rows[k].open, a, quantity), k)
  {
    LedgerSnoc(s, r.account.trades, Entered(r.account, k, s.rows[k].open, a, quantity).trades[|r.account.trades|]);
  }

  lemma {:induction false} PurchaseIsCharged(s: Setup, r: Account)
    requires Chargeable(s)
    ensures var a := Purchase(r.cash, s.cost); a.fee == a.gross * s.cost && a.cash == a.gross + a.fee
  {
  }

  lemma {:induction false} QueuedIsFlat(s: Setup, r: Run, k: nat)
    requires Payable(s) && k <= s.last && Held(s, r, k) && r.pending
    ensures r.account.position.None? && |r.account.trades| % 2 == 0
  {
  }

  lemma {:induction false} EntryHolds(s: Setup, r: Run, k: nat, a: Amounts)
    requires Payable(s) && k <= s.last && Held(s, r, k) && r.pending && a == Purchase(r.account.cash, s.cost)
    ensures var n := Entered(r.account, k, s.rows[k].open, a, a.gross / s.rows[k].open);
      Tracked(s, n, k) && Sound(s, n)
  {
    QueuedIsFlat(s, r, k);
    PurchaseIsCharged(s, r.account);
    EntryIsSound(s, r.account, k, s.rows[k].open);
    EntryIsTracked(s, r, k, a, a.gross / s.rows[k].open);
  }

  lemma {:induction false} EnterHolds(s: Setup, r: Run, k: nat)
    requires Payable(s) && k <= s.last && Held(s, r, k) && Enter(r, k, s.rows[k], s.cost, s.limit).Some?
    ensures var n := Enter(r, k, s.rows[k], s.cost, s.limit).value;
      Tracked(s, n.account, k) && Before(n.account.trades, k + 1) && Sound(s, n.account) && !n.pending
  {
    if r.pending { EntryHolds(s, r, k, Purchase(r.account.cash, s.cost)); }
  }

  lemma {:induction false} FillIsPositive(s: Setup, price: real, bar: nat, k: nat)
    requires Payable(s) && k <= s.last
    requires ExitAt(price, bar, k, s.rows[k], s.hypothesis).Some?
    ensures ExitAt(price, bar, k, s.rows[k], s.hypothesis).value.1 > 0.0
    ensures ExitAt(price, bar, k, s.rows[k], s.hypothesis).value.0 != Terminal
  {
  }

  predicate Fires(s: Setup, p: Position, k: nat, fill: real, reason: Reason)
    requires Chargeable(s) && k <= s.last
  {
    if reason == Terminal then k == s.last && fill == s.rows[k].close && ExitAt(p.price, p.bar, k, s.rows[k], s.hypothesis).None?
    else ExitAt(p.price, p.bar, k, s.rows[k], s.hypothesis) == Some((reason, fill))
  }

  lemma {:induction false} ExitIsTracked(s: Setup, r: Account, k: nat, fill: real, reason: Reason)
    requires Payable(s) && k <= s.last && r.position.Some? && fill > 0.0 && Tracked(s, r, k) && Before(r.trades, k + 1)
    requires r.quantity > 0.0 && Fires(s, r.position.value, k, fill, reason)
    ensures var a := Sale(r.quantity, fill, s.cost); Tracked(s, Exited(r, k, fill, a, reason), k)
  {
    var a := Sale(r.quantity, fill, s.cost);
    SaleBringsCash(r.quantity, fill, s.cost);
    assert LegOk(s, r.trades, |r.trades| - 1);
    LedgerSnoc(s, r.trades, Exited(r, k, fill, a, reason).trades[|r.trades|]);
  }

  lemma {:induction false} LeaveHolds(s: Setup, r: Account, k: nat)
    requires Payable(s) && k <= s.last && Tracked(s, r, k) && Before(r.trades, k + 1) && Sound(s, r)
    requires Leave(r, k, s.rows[k], s.hypothesis, s.cost, s.limit).Some?
    ensures var n := Leave(r, k, s.rows[k], s.hypothesis, s.cost, s.limit).value;
      Tracked(s, n, k + 1) && Before(n.trades, k + 1) && Sound(s, n)
  {
    if r.position.Some? {
      var p := r.position.value;
      var exit := ExitAt(p.price, p.bar, k, s.rows[k], s.hypothesis);
      if exit.Some? {
        FillIsPositive(s, p.price, p.bar, k);
        ExitIsSound(s, r, k, exit.value.1, exit.value.0);
        ExitIsTracked(s, r, k, exit.value.1, exit.value.0);
      }
    }
  }

  lemma {:induction false} MarkHolds(s: Setup, r: Run, k: nat)
    requires Payable(s) && k <= s.last && First(s) <= k && MarkBar(r, s.rows[k], SignalAt(s, k), s.limit).Some?
    requires Tracked(s, r.account, k + 1) && Before(r.account.trades, k + 1) && Sound(s, r.account) && !r.pending
    ensures Held(s, MarkBar(r, s.rows[k], SignalAt(s, k), s.limit).value, k + 1)
  {
    assert MarkBar(r, s.rows[k], SignalAt(s, k), s.limit).value.account == r.account;
  }

  lemma {:induction false} BarHolds(s: Setup, r: Run, k: nat)
    requires Payable(s) && k <= s.last && First(s) <= k && Held(s, r, k)
    requires Bar(r, k, s.rows[k], SignalAt(s, k), s.hypothesis, s.cost, s.limit).Some?
    ensures Held(s, Bar(r, k, s.rows[k], SignalAt(s, k), s.hypothesis, s.cost, s.limit).value, k + 1)
  {
    EnterHolds(s, r, k);
    var entered := Enter(r, k, s.rows[k], s.cost, s.limit).value;
    LeaveHolds(s, entered.account, k);
    MarkHolds(s, entered.(account := Leave(entered.account, k, s.rows[k], s.hypothesis, s.cost, s.limit).value), k);
  }

  lemma {:induction false} StepHolds(s: Setup, n: nat, before: Run, r: Run)
    requires Payable(s) && First(s) <= s.last + 1 && 0 < n <= Bars(s)
    requires After(s, n - 1) == Some(before) && After(s, n) == Some(r) && Held(s, before, First(s) + (n - 1))
    ensures Held(s, r, First(s) + n)
  {
    AfterStep(s, n);
    BarHolds(s, before, First(s) + n - 1);
  }

  lemma {:induction false} Earlier(s: Setup, n: nat) returns (before: Run)
    requires Payable(s) && 0 < n <= Bars(s) && After(s, n).Some?
    ensures After(s, n - 1) == Some(before)
  {
    before := After(s, n - 1).value;
  }

  lemma {:induction false} HoldsAt(s: Setup, n: nat, r: Run)
    requires Payable(s) && First(s) <= s.last + 1 && n <= Bars(s) && After(s, n) == Some(r)
    ensures Held(s, r, First(s) + n)
  {
    if n == 0 {
      StartHolds(s, n, r);
    } else {
      var before := Earlier(s, n);
      HoldsAt(s, n - 1, before);
      StepHolds(s, n, before, r);
    }
  }

  /** The invariant of every run, at every bar. */
  lemma {:induction false} RunHolds(s: Setup, n: nat) returns (r: Run)
    requires Payable(s) && First(s) <= s.last + 1 && n <= Bars(s) && After(s, n).Some?
    ensures After(s, n) == Some(r) && Held(s, r, First(s) + n)
  {
    r := After(s, n).value;
    HoldsAt(s, n, r);
  }

  lemma {:induction false} StartHolds(s: Setup, n: nat, r: Run)
    requires Payable(s) && First(s) <= s.last + 1 && n == 0 && After(s, n) == Some(r)
    ensures Held(s, r, First(s) + n)
  {
    assert Growth([], s.cost) == 1.0;
  }

  /** At every bar either the cash or the quantity is zero, and never both. */
  lemma {:induction false} AllOrNothing(s: Setup, n: nat)
    requires Payable(s) && n <= Bars(s) && After(s, n).Some?
    ensures var r := After(s, n).value.account; (r.cash == 0.0 && r.quantity > 0.0) || (r.cash > 0.0 && r.quantity == 0.0)
  {
    if First(s) <= s.last { var r := RunHolds(s, n); }
  }

  // ------------------------------------------------------------------- the end

  lemma {:induction false} OneMarkPerBar(s: Setup, n: nat)
    requires Payable(s) && n <= Bars(s) && After(s, n).Some?
    ensures var r := After(s, n).value;
      |r.equity| == n && (n > 0 && r.account.quantity == 0.0 ==> r.equity[n - 1] == r.account.cash)
  {
    if n > 0 { OneMarkPerBar(s, n - 1); }
  }

  /** What a finished backtest says about its own ledger. */
  predicate Settled(s: Setup, trades: seq<Leg>, final: real, costs: real, turnover: real)
    requires Chargeable(s)
  {
    && LedgerOk(s, trades) && |trades| % 2 == 0 && Filled(trades)
    && Pnl(trades) == final - s.cash
    && final == s.cash * Growth(trades, s.cost)
    && costs == s.cost * turnover && turnover == Notional(trades)
  }

  lemma {:induction false} FlatIsSettled(s: Setup, r: Account, k: nat)
    requires Chargeable(s) && k <= s.last + 1 && Tracked(s, r, k) && Sound(s, r) && r.position.None?
    ensures Settled(s, r.trades, r.cash, r.costs, r.turnover)
  {
  }

  lemma {:induction false} LastSale(s: Setup, r: Account) returns (sold: Account)
    requires Payable(s) && 0 <= s.last && r.position.Some?
    requires Tracked(s, r, s.last + 1) && Before(r.trades, s.last + 1) && Sound(s, r)
    ensures sold == Exited(r, s.last, s.rows[s.last].close, Sale(r.quantity, s.rows[s.last].close, s.cost), Terminal)
    ensures Settled(s, sold.trades, sold.cash, sold.costs, sold.turnover)
  {
    var close, p := s.rows[s.last].close, r.position.value;
    assert ExitAt(p.price, p.bar, s.last, s.rows[s.last], s.hypothesis).None?;
    ExitIsSound(s, r, s.last, close, Terminal);
    assert Tracked(s, r, s.last);
    ExitIsTracked(s, r, s.last, close, Terminal);
    sold := Exited(r, s.last, close, Sale(r.quantity, close, s.cost), Terminal);
    FlatIsSettled(s, sold, s.last);
  }

  lemma {:induction false} LiquidationSettles(s: Setup, r: Run)
    requires Payable(s) && 0 <= s.last && Held(s, r, s.last + 1) && Liquidate(r, s).Some? && r.equity != []
    requires r.account.quantity == 0.0 ==> r.equity[|r.equity| - 1] == r.account.cash
    ensures var n := Liquidate(r, s).value;
      && |n.equity| == |r.equity|
      && Settled(s, n.account.trades, n.equity[|n.equity| - 1], n.account.costs, n.account.turnover)
  {
    if r.account.position.Some? {
      var sold := LastSale(s, r.account);
    } else {
      FlatIsSettled(s, r.account, s.last + 1);
    }
  }

  /**
    The whole backtest: the ledger is a chain of round trips, each closed at the first bar that fired a rule; the
    profits of the exits telescope to the change of the money; the money has grown by the product of the round
    trips; and the costs are the cost rate of everything that was traded.
  */
  lemma {:induction false} BacktestTelescopes(s: Setup)
    requires Payable(s) && Outcome(s).Accepted?
    ensures var r := Outcome(s).simulated;
      && Settled(s, r.trades, r.finalEquity, r.costs, r.turnover)
      && r.closedPnl == r.finalEquity - s.cash && |r.equity| == Bars(s)
  {
    OneMarkPerBar(s, Bars(s));
    if Bars(s) == 0 {
      assert Growth([], s.cost) == 1.0;
    } else {
      var r := RunHolds(s, Bars(s));
      LiquidationSettles(s, r);
    }
  }

  lemma {:induction false} RoundTripIsBounded(s: Setup, t: seq<Leg>, i: nat)
    requires Payable(s) && LedgerOk(s, t) && i < |t| && i % 2 == 1
    ensures t[i - 1].bar <= t[i].bar <= t[i - 1].bar + s.hypothesis.maxHold
  {
    assert LegOk(s, t, i) && LegOk(s, t, i - 1);
    HoldingIsBounded(s, t[i - 1], t[i]);
  }

  /** No round trip of a finished backtest outlasts the maximum holding. */
  lemma {:induction false} HoldingsAreBounded(s: Setup, i: nat)
    requires Payable(s) && Outcome(s).Accepted? && i < |Outcome(s).simulated.trades| && i % 2 == 1
    ensures var t := Outcome(s).simulated.trades;
      t[i - 1].bar <= t[i].bar <= t[i - 1].bar + s.hypothesis.maxHold
  {
    BacktestTelescopes(s);
    RoundTripIsBounded(s, Outcome(s).simulated.trades, i);
  }

  // ----------------------------------------------------------------- drawdown

  lemma {:induction false} PeakIsHighest(initial: real, equity: seq<real>)
    ensures IsPeak(Levels(initial, equity), Peak(initial, equity))
  {
    if equity == [] {
      assert Levels(initial, equity)[0] == initial;
    } else {
      var front, last := equity[..|equity| - 1], equity[|equity| - 1];
      PeakIsHighest(initial, front);
      PeakStep(Levels(initial, front), Peak(initial, front), last);
      assert Levels(initial, equity) == Levels(initial, front) + [last];
    }
  }

  /** The drawdown of one pass is the deepest fall between any two levels in order. */
  lemma {:induction false} DrawdownIsDeepest(initial: real, equity: seq<real>)
    requires initial > 0.0 && forall i :: 0 <= i < |equity| ==> equity[i] >= 0.0
    ensures IsDeepest(Levels(initial, equity), Drawdown(initial, equity))
  {
    if equity == [] {
      assert Levels(initial, equity) == [initial];
      assert Drop([initial], 0, 0) == 0.0;
    } else {
      var front, last := equity[..|equity| - 1], equity[|equity| - 1];
      DrawdownIsDeepest(initial, front);
      PeakIsHighest(initial, equity);
      assert Levels(initial, equity) == Levels(initial, front) + [last];
      OneMoreLevel(Levels(initial, front), last, Peak(initial, equity), Drawdown(initial, front));
    }
  }

  lemma {:induction false} MarksAreNonNegative(s: Setup, n: nat)
    requires Valid(s) && n <= Bars(s) && After(s, n).Some?
    ensures var r := After(s, n).value; forall i :: 0 <= i < |r.equity| ==> r.equity[i] >= 0.0
  {
    if n > 0 { MarksAreNonNegative(s, n - 1); }
  }

  /** The drawdown that a backtest reports is the deepest fall of the equity that it reports. */
  lemma {:induction false} ReportedDrawdown(s: Setup)
    requires Valid(s) && Outcome(s).Accepted?
    ensures var r := Outcome(s).simulated; IsDeepest(Levels(s.cash, r.equity), r.drawdown)
  {
    MarksAreNonNegative(s, Bars(s));
    DrawdownIsDeepest(s.cash, Outcome(s).simulated.equity);
  }

  // ---------------------------------------------------------------- causality

  /** Two setups that agree on everything before bar k, and on when bar k starts. */
  predicate AgreeBefore(s: Setup, s': Setup, k: nat) {
    && s' == s.(rows := s'.rows)
    && k <= |s.rows| && k <= |s'.rows| && s.rows[..k] == s'.rows[..k]
    && (k < |s.rows| && k < |s'.rows| ==> s.rows[k].start == s'.rows[k].start)
  }

  lemma {:induction false} SameChanges(rows: seq<Row>, rows': seq<Row>, i: nat, n: nat, up: bool)
    requires n <= i < |rows| && i < |rows'| && rows[..i + 1] == rows'[..i + 1]
    ensures Changes(rows, i, n, up) == Changes(rows', i, n, up)
  {
    if n > 0 {
      assert rows[i] == rows[..i + 1][i] && rows'[i] == rows'[..i + 1][i];
      assert rows[i - 1] == rows[..i + 1][i - 1] && rows'[i - 1] == rows'[..i + 1][i - 1];
      assert rows[..i] == rows[..i + 1][..i] && rows'[..i] == rows'[..i + 1][..i];
      SameChanges(rows, rows', i - 1, n - 1, up);
    }
  }

  lemma {:induction false} SameSignal(h: Hypothesis, rows: seq<Row>, rows': seq<Row>, i: nat)
    requires i < |rows| && i < |rows'| && rows[..i + 1] == rows'[..i + 1]
    ensures Signal(h, rows, i) == Signal(h, rows', i)
  {
    if i >= 14 {
      assert rows[i] == rows[..i + 1][i] && rows'[i] == rows'[..i + 1][i];
      assert rows[i - 3] == rows[..i + 1][i - 3] && rows'[i - 3] == rows'[..i + 1][i - 3];
      SameChanges(rows, rows', i, 14, true);
      SameChanges(rows, rows', i, 14, false);
    }
  }

  lemma {:induction false} SameGate(s: Setup, s': Setup, i: nat)
    requires i + 1 < |s.rows| && i + 1 < |s'.rows| && AgreeBefore(s, s', i + 1)
    ensures Gate(s, i) == Gate(s', i)
  {
    SameSignal(s.hypothesis, s.rows, s'.rows, i);
    forall j | 0 <= j <= i ensures s.rows[j] == s'.rows[j] {
      assert s.rows[j] == s.rows[..i + 1][j] && s'.rows[j] == s'.rows[..i + 1][j];
    }
  }

  predicate SameAt(s: Setup, s': Setup, k: nat)
    requires Callable(s) && Callable(s') && k <= s.last && k <= s'.last
  {
    && First(s) == First(s') && s.last == s'.last && s.hypothesis == s'.hypothesis && s.cost == s'.cost && s.limit == s'.limit
    && s.rows[k] == s'.rows[k] && SignalAt(s, k) == SignalAt(s', k)
  }

  lemma {:induction false} SameInputs(s: Setup, s': Setup, k: nat)
    requires Callable(s) && Callable(s') && k <= s.last && AgreeBefore(s, s', k + 1)
    ensures SameAt(s, s', k)
  {
    assert s.rows[k] == s.rows[..k + 1][k] && s'.rows[k] == s'.rows[..k + 1][k];
    if k < s.last { SameGate(s, s', k); }
  }

  lemma {:induction false} AgreeEarlier(s: Setup, s': Setup, k: nat)
    requires AgreeBefore(s, s', k + 1)
    ensures AgreeBefore(s, s', k)
  {
    assert s.rows[..k] == s.rows[..k + 1][..k] && s'.rows[..k] == s'.rows[..k + 1][..k];
    assert s.rows[k] == s.rows[..k + 1][k] && s'.rows[k] == s'.rows[..k + 1][k];
  }

  /** A run up to bar k depends on nothing later than the start of bar k: no lookahead. */
  lemma {:induction false} PastDecides(s: Setup, s': Setup, n: nat)
    requires Valid(s) && Valid(s') && n <= Bars(s) && AgreeBefore(s, s', First(s) + n)
    ensures After(s, n) == After(s', n)
  {
    if n > 0 {
      EarlierInputs(s, s', n);
      PastDecides(s, s', n - 1);
      SameStep(s, s', n);
    }
  }

  /** The inputs of bar n - 1, and the agreement before it. */
  lemma {:induction false} EarlierInputs(s: Setup, s': Setup, n: nat)
    requires Valid(s) && Valid(s') && 0 < n <= Bars(s) && AgreeBefore(s, s', First(s) + n)
    ensures n <= Bars(s') && First(s) + n - 1 <= s.last && First(s) + n - 1 <= s'.last
    ensures AgreeBefore(s, s', First(s) + (n - 1)) && SameAt(s, s', First(s) + n - 1)
  {
    var k := First(s) + n - 1;
    AgreeEarlier(s, s', k);
    SameInputs(s, s', k);
  }

  lemma {:induction false} SameStep(s: Setup, s': Setup, n: nat)
    requires Valid(s) && Valid(s') && 0 < n <= Bars(s) && n <= Bars(s')
    requires First(s) + n - 1 <= s.last && First(s) + n - 1 <= s'.last && SameAt(s, s', First(s) + n - 1)
    requires After(s, n - 1) == After(s', n - 1)
    ensures After(s, n) == After(s', n)
  {
    if After(s, n - 1).Some? {
      AfterStep(s, n);
      AfterStep(s', n);
    }
  }
}
