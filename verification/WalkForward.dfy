/** Walk-forward coverage: strategy states over sliding windows, their histogram, transitions and folds. */
module WalkForwards {
  import opened Outcomes
  import opened Calendar

  datatype State = TriggerObserved | RecoveryObserved | NoTriggerObserved | TrendConfirmed | TrendNotConfirmed
                 | InsufficientHistory | InvalidHistory | NotApplicable | OtherState(text: string)

  datatype Strategy = VolatilityBand(lookback: nat, trigger: real)
                    | SlowTrend(short: nat, long: nat, confirmation: nat)
                    | OtherStrategy

  datatype Bar = Bar(symbol: string, date: DateText, close: real)

  /** The parameter ranges of the strategy schemas; anything else is replaced by defaults within them. */
  predicate ValidStrategy(s: Strategy) {
    match s
    case VolatilityBand(lookback, trigger) => 5 <= lookback <= 252 && 1.0 <= trigger <= 15.0
    case SlowTrend(short, long, confirmation) => 10 <= short <= 100 && 60 <= long <= 252 && 1 <= confirmation <= 5 && short < long
    case OtherStrategy => true
  }

  function Supported(s: Strategy): set<State> {
    match s
    case VolatilityBand(_, _) => {TriggerObserved, RecoveryObserved, NoTriggerObserved}
    case SlowTrend(_, _, _) => {TrendConfirmed, TrendNotConfirmed}
    case OtherStrategy => {}
  }

  function Required(s: Strategy): nat
    requires ValidStrategy(s)
  {
    match s
    case VolatilityBand(lookback, _) => lookback
    case SlowTrend(_, long, confirmation) => long + confirmation - 1
    case OtherStrategy => 0
  }

  /** The order of texts, as a place on a line for each text. */
  type Order = DateText -> real

  /** Texts of days are in the order of the days, and no text comes before the empty one. */
  ghost predicate OrdersTexts(order: Order) {
    && (forall d, e :: IsDay(d) && IsDay(e) && d < e ==> order(Iso(d)) < order(Iso(e)))
    && (forall t :: t != OtherText("") ==> order(OtherText("")) < order(t))
  }

  /** Dates are texts in ascending order; whether they tell a day is not checked here. */
  predicate ValidHistory(bars: seq<Bar>, order: Order) {
    && bars != []
    && (forall i :: 0 <= i < |bars| ==> bars[i].symbol == bars[0].symbol && bars[i].close > 0.0)
    && (forall i :: 0 <= i < |bars| ==> order(OtherText("")) < order(bars[i].date))
    && (forall i, j :: 0 <= i < j < |bars| ==> order(bars[i].date) < order(bars[j].date))
  }

  // ----------------------------------------------------------------- states

  predicate Closes(bars: seq<Bar>) { forall i :: 0 <= i < |bars| ==> bars[i].close > 0.0 }

  function PeakClose(bars: seq<Bar>): (peak: real)
    requires bars != [] && Closes(bars)
    ensures peak > 0.0
  {
    var last := bars[|bars| - 1].close;
    if |bars| == 1 then last
    else
      var peak := PeakClose(bars[..|bars| - 1]);
      if last > peak then last else peak
  }

  function Decline(close: real, peak: real): real
    requires peak > 0.0
  {
    (close - peak) / peak * 100.0
  }

  /** The deepest decline of any bar from the peak so far. */
  function DeepestDecline(bars: seq<Bar>): real
    requires Closes(bars)
  {
    if bars == [] then 0.0
    else
      var before := DeepestDecline(bars[..|bars| - 1]);
      var decline := Decline(bars[|bars| - 1].close, PeakClose(bars));
      if decline < before then decline else before
  }

  function BandState(window: seq<Bar>, trigger: real, round: real -> real): State
    requires window != [] && Closes(window)
  {
    if round(Decline(window[|window| - 1].close, PeakClose(window))) <= -trigger then TriggerObserved
    else if round(DeepestDecline(window)) <= -trigger then RecoveryObserved
    else NoTriggerObserved
  }

  function SumClose(bars: seq<Bar>): real {
    if bars == [] then 0.0 else SumClose(bars[..|bars| - 1]) + bars[|bars| - 1].close
  }

  function MeanClose(bars: seq<Bar>): real
    requires bars != []
  {
    SumClose(bars) / |bars| as real
  }

  /** So many bars back, the short average is above the long one. */
  predicate Confirms(bars: seq<Bar>, short: nat, long: nat, back: nat)
    requires 0 < short < long && long + back <= |bars|
  {
    var endpoint := |bars| - back;
    MeanClose(bars[endpoint - short..endpoint]) > MeanClose(bars[endpoint - long..endpoint])
  }

  function Confirmations(bars: seq<Bar>, short: nat, long: nat, confirmation: nat): nat
    requires 0 < short < long && long + confirmation <= |bars| + 1
  {
    if confirmation == 0 then 0
    else Confirmations(bars, short, long, confirmation - 1) + One(Confirms(bars, short, long, confirmation - 1))
  }

  /** What a strategy sees at the end of a series that is long enough. */
  function StateAt(bars: seq<Bar>, s: Strategy, round: real -> real): State
    requires ValidStrategy(s) && !s.OtherStrategy? && |bars| >= Required(s) && Closes(bars)
  {
    match s
    case VolatilityBand(lookback, trigger) => BandState(bars[|bars| - lookback..], trigger, round)
    case SlowTrend(short, long, confirmation) =>
      if Confirmations(bars, short, long, confirmation) == confirmation then TrendConfirmed else TrendNotConfirmed
  }

  /** The state of a series; a series that is too short has none. */
  function StateOf(bars: seq<Bar>, s: Strategy, round: real -> real): State
    requires ValidStrategy(s)
  {
    if s.OtherStrategy? then NotApplicable
    else if |bars| < Required(s) || !Closes(bars) then InsufficientHistory
    else StateAt(bars, s, round)
  }

  /** The loop over the window that tracks the running peak. */
  method ObserveBand(bars: seq<Bar>, lookback: nat, trigger: real, round: real -> real) returns (state: State)
    requires 0 < lookback <= |bars| && Closes(bars)
    ensures state == BandState(bars[|bars| - lookback..], trigger, round)
  {
    var window := bars[|bars| - lookback..];
    var runningPeak, deepest := window[0].close, 0.0;
    assert window[..1] == [window[0]];
    for i := 0 to |window|
      invariant runningPeak == PeakClose(window[..if i == 0 then 1 else i]) && deepest == DeepestDecline(window[..i])
    {
      assert window[..i + 1][..i] == window[..i];
      runningPeak := if window[i].close > runningPeak then window[i].close else runningPeak;
      var decline := Decline(window[i].close, runningPeak);
      deepest := if decline < deepest then decline else deepest;
    }
    assert window[..|window|] == window;
    if round(Decline(window[|window| - 1].close, runningPeak)) <= -trigger { return TriggerObserved; }
    if round(deepest) <= -trigger { return RecoveryObserved; }
    return NoTriggerObserved;
  }

  function HistoryState(bars: seq<Bar>, s: Strategy, order: Order, round: real -> real): State
    requires ValidStrategy(s)
  {
    if !ValidHistory(bars, order) then InvalidHistory
    else StateOf(bars, s, round)
  }

  // ------------------------------------------------------------ histograms

  function Get(counts: map<State, int>, state: State): int { if state in counts then counts[state] else 0 }

  function Tally(states: multiset<State>): map<State, int> { map s | s in states :: states[s] }

  function Histogram(states: seq<State>): map<State, int> { Tally(multiset(states)) }

  function Transitions(states: seq<State>): nat {
    if |states| < 2 then 0
    else Transitions(states[..|states| - 1]) + One(states[|states| - 2] != states[|states| - 1])
  }

  function Merge(a: map<State, int>, b: map<State, int>): map<State, int> {
    map state | state in a.Keys + b.Keys :: Get(a, state) + Get(b, state)
  }

  // ----------------------------------------------------------------- folds

  datatype Fold = Fold(index: int, observations: int, first: DateText, last: DateText, counts: map<State, int>, transitions: int)

  function FoldCount(n: nat): nat { if n < 5 then n else 5 }

  /** The quotient and the remainder of n by its number of folds. */
  function BaseSize(n: nat): nat { if n < 5 then 1 else n / 5 }
  function Extra(n: nat): nat { if n < 5 then 0 else n % 5 }

  lemma {:induction false} DivideIntoFolds(n: nat)
    requires n > 0
    ensures n / FoldCount(n) == BaseSize(n) && n % FoldCount(n) == Extra(n)
  {
    if n < 5 { assert n / n == 1 && n % n == 0; }
  }

  function FoldSize(n: nat, i: nat): nat { BaseSize(n) + One(i < Extra(n)) }

  function FoldStart(n: nat, i: nat): nat {
    if i == 0 then 0 else FoldStart(n, i - 1) + FoldSize(n, i - 1)
  }

  lemma {:induction false} FoldStartClosedForm(n: nat, i: nat)
    requires n > 0 && i <= FoldCount(n)
    ensures FoldStart(n, i) == i * BaseSize(n) + if i < Extra(n) then i else Extra(n)
  {
    if i > 0 {
      FoldStartClosedForm(n, i - 1);
      assert (i - 1) * BaseSize(n) + BaseSize(n) == i * BaseSize(n);
    }
  }

  lemma {:induction false} FoldFits(n: nat, i: nat)
    requires n > 0 && i < FoldCount(n)
    ensures FoldSize(n, i) > 0 && FoldStart(n, i) + FoldSize(n, i) == FoldStart(n, i + 1) <= n
    ensures FoldStart(n, FoldCount(n)) == n
    decreases FoldCount(n) - i
  {
    FoldStartClosedForm(n, FoldCount(n));
    if i + 1 < FoldCount(n) { FoldFits(n, i + 1); }
  }

  function FoldAt(states: seq<State>, dates: seq<DateText>, i: nat): Fold
    requires |states| == |dates| > 0 && i < FoldCount(|states|)
  {
    FoldFits(|states|, i);
    var start, end := FoldStart(|states|, i), FoldStart(|states|, i + 1);
    Fold(i, end - start, dates[start], dates[end - 1], Histogram(states[start..end]), Transitions(states[start..end]))
  }

  /** The first k folds. */
  function FoldsUpTo(states: seq<State>, dates: seq<DateText>, k: nat): (folds: seq<Fold>)
    requires |states| == |dates| > 0 && k <= FoldCount(|states|)
    ensures |folds| == k
  {
    if k == 0 then [] else FoldsUpTo(states, dates, k - 1) + [FoldAt(states, dates, k - 1)]
  }

  function Folds(states: seq<State>, dates: seq<DateText>): seq<Fold>
    requires |states| == |dates| > 0
  {
    FoldsUpTo(states, dates, FoldCount(|states|))
  }

  // ---------------------------------------------------------------- report

  datatype Coverage = Available | Insufficient | Invalid | Inapplicable | OtherCoverage(text: string)

  datatype Labels = Labels(dtoVersion: string, providerCalls: string, accountData: string, executionRoutes: string,
                           candidateIntent: string, performanceClaims: string)

  const LABELS := Labels("strategy-history-walk-forward.v2", "blocked", "absent", "absent", "skip",
                         "historical-state-coverage-only-no-pnl-or-profitability-claim")

  datatype Report = Report(labels: Labels, state: Coverage, observations: int, first: Option<DateText>, last: Option<DateText>,
                           counts: map<State, int>, transitions: int, foldCount: int, folds: seq<Fold>)

  function Unavailable(state: Coverage): Report { Report(LABELS, state, 0, None, None, map[], 0, 0, []) }

  /** The states of the first k windows of the required length. */
  function StatesUpTo(bars: seq<Bar>, required: nat, observe: seq<Bar> -> State, k: nat): (states: seq<State>)
    requires 0 < required && k + required <= |bars| + 1
    ensures |states| == k
  {
    if k == 0 then [] else StatesUpTo(bars, required, observe, k - 1) + [observe(bars[k - 1..k - 1 + required])]
  }

  function States(bars: seq<Bar>, required: nat, observe: seq<Bar> -> State): seq<State>
    requires 0 < required <= |bars|
  {
    StatesUpTo(bars, required, observe, |bars| - required + 1)
  }

  /** The last dates of the first k windows. */
  function DatesUpTo(bars: seq<Bar>, required: nat, k: nat): (dates: seq<DateText>)
    requires 0 < required && k + required <= |bars| + 1
    ensures |dates| == k && forall i :: 0 <= i < k ==> dates[i] == bars[i + required - 1].date
  {
    if k == 0 then [] else DatesUpTo(bars, required, k - 1) + [bars[k + required - 2].date]
  }

  function Dates(bars: seq<Bar>, required: nat): seq<DateText>
    requires 0 < required <= |bars|
  {
    DatesUpTo(bars, required, |bars| - required + 1)
  }

  function Summary(states: seq<State>, dates: seq<DateText>): Report
    requires |states| == |dates| > 0
  {
    Report(LABELS, Available, |states|, Some(dates[0]), Some(dates[|dates| - 1]), Histogram(states),
           Transitions(states), FoldCount(|states|), Folds(states, dates))
  }

  /** The evaluator of a strategy. */
  function Evaluator(s: Strategy, round: real -> real): seq<Bar> -> State
    requires ValidStrategy(s)
  {
    (window: seq<Bar>) => StateOf(window, s, round)
  }

  function WalkForward(bars: seq<Bar>, s: Strategy, order: Order, round: real -> real): Report
    requires ValidStrategy(s)
  {
    if !ValidHistory(bars, order) then Unavailable(Invalid)
    else if s.OtherStrategy? then Unavailable(Inapplicable)
    else if |bars| < Required(s) then Unavailable(Insufficient)
    else Summary(States(bars, Required(s), Evaluator(s, round)), Dates(bars, Required(s)))
  }

  lemma {:induction false} HistogramSnoc(states: seq<State>, s: State)
    ensures Histogram(states + [s]) == Histogram(states)[s := Get(Histogram(states), s) + 1]
  {
    assert multiset(states + [s]) == multiset(states) + multiset{s};
    TallyBumps(multiset(states), s);
  }

  lemma {:induction false} TallyBumps(states: multiset<State>, s: State)
    ensures Tally(states + multiset{s}) == Tally(states)[s := Get(Tally(states), s) + 1]
  {
  }

  lemma {:induction false} TransitionsSnoc(states: seq<State>, s: State)
    ensures Transitions(states + [s]) ==
      Transitions(states) + if states == [] then 0 else One(states[|states| - 1] != s)
  {
    assert (states + [s])[..|states|] == states;
  }

  method CountStates(states: seq<State>) returns (counts: map<State, int>)
    ensures counts == Histogram(states)
  {
    counts := map[];
    for i := 0 to |states|
      invariant counts == Histogram(states[..i])
    {
      HistogramSnoc(states[..i], states[i]);
      assert states[..i + 1] == states[..i] + [states[i]];
      counts := counts[states[i] := Get(counts, states[i]) + 1];
    }
    assert states[..|states|] == states;
  }

  method CountTransitions(states: seq<State>) returns (n: nat)
    ensures n == Transitions(states)
  {
    n := 0;
    for i := 0 to |states|
      invariant n == Transitions(states[..i])
    {
      TransitionsSnoc(states[..i], states[i]);
      assert states[..i + 1] == states[..i] + [states[i]];
      n := n + if i == 0 then 0 else One(states[i - 1] != states[i]);
    }
    assert states[..|states|] == states;
  }

  /** The fold loop: a running start, and a fold size that is one larger for the first folds. */
  method BuildFolds(states: seq<State>, dates: seq<DateText>) returns (folds: seq<Fold>)
    requires |states| == |dates| > 0
    ensures folds == Folds(states, dates)
  {
    var n, count := |states|, FoldCount(|states|);
    DivideIntoFolds(n);
    var base, extra := n / count, n % count;
    var start := 0;
    folds := [];
    for i := 0 to count
      invariant start == FoldStart(n, i) && folds == FoldsUpTo(states, dates, i)
    {
      FoldFits(n, i);
      var size := base + if i < extra then 1 else 0;
      var fold := BuildFold(states, dates, i, start, size);
      folds := folds + [fold];
      start := start + size;
    }
  }

  method BuildFold(states: seq<State>, dates: seq<DateText>, i: nat, start: nat, size: nat) returns (fold: Fold)
    requires |states| == |dates| > 0 && i < FoldCount(|states|)
    requires start == FoldStart(|states|, i) && size == FoldSize(|states|, i)
    ensures fold == FoldAt(states, dates, i)
  {
    FoldFits(|states|, i);
    var end := start + size;
    var counts := CountStates(states[start..end]);
    var transitions := CountTransitions(states[start..end]);
    return Fold(i, size, dates[start], dates[end - 1], counts, transitions);
  }

  method CollectStates(bars: seq<Bar>, required: nat, observe: seq<Bar> -> State) returns (states: seq<State>, dates: seq<DateText>)
    requires 0 < required <= |bars|
    ensures states == States(bars, required, observe) && dates == Dates(bars, required)
  {
    states, dates := [], [];
    for i := 0 to |bars| - required + 1
      invariant states == StatesUpTo(bars, required, observe, i) && dates == DatesUpTo(bars, required, i)
    {
      var window := bars[i..i + required];
      states := states + [observe(window)];
      dates := dates + [window[required - 1].date];
    }
  }

  method Summarize(states: seq<State>, dates: seq<DateText>) returns (r: Report)
    requires |states| == |dates| > 0
    ensures r == Summary(states, dates)
  {
    var counts := CountStates(states);
    var transitions := CountTransitions(states);
    var folds := BuildFolds(states, dates);
    return Report(LABELS, Available, |states|, Some(dates[0]), Some(dates[|dates| - 1]), counts, transitions,
                  FoldCount(|states|), folds);
  }

  method BuildWalkForward(bars: seq<Bar>, s: Strategy, order: Order, round: real -> real) returns (r: Report)
    requires ValidStrategy(s)
    ensures r == WalkForward(bars, s, order, round)
  {
    if !ValidHistory(bars, order) { return Unavailable(Invalid); }
    if s.OtherStrategy? { return Unavailable(Inapplicable); }
    var required := Required(s);
    if |bars| < required { return Unavailable(Insufficient); }
    var states, dates := CollectStates(bars, required, Evaluator(s, round));
    r := Summarize(states, dates);
  }
}
