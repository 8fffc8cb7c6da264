/** The strict validator of walk-forward reports: it accepts what the producer builds when the borders of folds are days. */
module WalkForwardValidator {
  import opened Outcomes
  import opened Calendar
  import opened WalkForwards

  /** The sum of a histogram whose keys are strategy states. */
  function SumOf(counts: map<State, int>): int {
    Get(counts, TriggerObserved) + Get(counts, RecoveryObserved) + Get(counts, NoTriggerObserved)
    + Get(counts, TrendConfirmed) + Get(counts, TrendNotConfirmed)
  }

  predicate CountsOk(counts: map<State, int>, supported: set<State>, n: int) {
    (forall s :: s in counts ==> s in supported && counts[s] > 0) && SumOf(counts) == n
  }

  function AtLeastZero(x: int): int { if x > 0 then x else 0 }

  predicate HeaderOk(r: Report, supported: set<State>) {
    && r.labels == LABELS && !r.state.OtherCoverage? && r.observations >= 0 && r.transitions >= 0
    && CountsOk(r.counts, supported, r.observations) && r.transitions <= AtLeastZero(r.observations - 1)
  }

  function Expected(history: State, supported: set<State>, barCount: nat, required: nat): Coverage {
    if history == InvalidHistory then Invalid
    else if supported == {} then Inapplicable
    else if barCount < required then Insufficient
    else Available
  }

  predicate IsDate(t: DateText) { t.Iso? && IsDay(t.day) }

  predicate DatesOk(r: Report, latest: Option<DateText>) {
    && r.first.Some? && r.last.Some? && IsDate(r.first.value) && IsDate(r.last.value)
    && r.first.value.day <= r.last.value.day && r.last == latest
  }

  predicate FoldCountsOk(fold: Fold, i: nat, size: int, supported: set<State>) {
    && fold.index == i && fold.observations == size && 0 <= fold.transitions <= size - 1
    && CountsOk(fold.counts, supported, size) && fold.transitions >= AtLeastZero(|fold.counts| - 1)
  }

  predicate FoldDatesOk(first: DateText, last: DateText, size: int) {
    && IsDate(first) && IsDate(last) && first.day <= last.day
    && (size == 1 ==> first == last) && (size > 1 ==> first.day < last.day)
  }

  predicate FoldOk(fold: Fold, i: nat, size: int, supported: set<State>) {
    FoldCountsOk(fold, i, size, supported) && FoldDatesOk(fold.first, fold.last, size)
  }

  predicate FoldFollows(folds: seq<Fold>, i: nat, n: nat, supported: set<State>)
    requires i < |folds|
  {
    && n > 0 && FoldOk(folds[i], i, FoldSize(n, i), supported)
    && (i > 0 ==> folds[i - 1].last.Iso? && folds[i - 1].last.day < folds[i].first.day)
  }

  function Aggregate(folds: seq<Fold>): map<State, int> {
    if folds == [] then map[] else Merge(Aggregate(folds[..|folds| - 1]), folds[|folds| - 1].counts)
  }

  function Within(folds: seq<Fold>): int {
    if folds == [] then 0 else Within(folds[..|folds| - 1]) + folds[|folds| - 1].transitions
  }

  function Observed(folds: seq<Fold>): int {
    if folds == [] then 0 else Observed(folds[..|folds| - 1]) + folds[|folds| - 1].observations
  }

  predicate TotalsOk(r: Report)
    requires r.folds != []
  {
    && Some(r.folds[0].first) == r.first && Some(r.folds[|r.folds| - 1].last) == r.last
    && Observed(r.folds) == r.observations && Aggregate(r.folds) == r.counts
    && Within(r.folds) <= r.transitions <= Within(r.folds) + |r.folds| - 1
  }

  predicate FoldsOk(r: Report, supported: set<State>)
    requires r.observations >= 0
  {
    && |r.folds| == r.foldCount
    && r.foldCount == (if r.state == Available then FoldCount(r.observations) else 0)
    && (r.folds != [] ==>
          (forall i :: 0 <= i < |r.folds| ==> FoldFollows(r.folds, i, r.observations, supported)) && TotalsOk(r))
  }

  predicate CoverageOk(r: Report, history: State, latest: Option<DateText>) {
    if r.state == Available then
      history in r.counts && r.transitions >= AtLeastZero(|r.counts| - 1) && DatesOk(r, latest)
    else
      r.first.None? && r.last.None? && r.counts == map[] && r.transitions == 0
  }

  /** Every check of the validator but the comparison with the recomputed report. */
  predicate Consistent(r: Report, supported: set<State>, history: State, barCount: nat, required: nat, latest: Option<DateText>) {
    && HeaderOk(r, supported)
    && r.state == Expected(history, supported, barCount, required)
    && r.observations == (if r.state == Available then AtLeastZero(barCount - required + 1) else 0)
    && CoverageOk(r, history, latest)
    && FoldsOk(r, supported)
  }

  lemma {:induction false} TotalsSnoc(folds: seq<Fold>, fold: Fold)
    ensures Aggregate(folds + [fold]) == Merge(Aggregate(folds), fold.counts)
    ensures Within(folds + [fold]) == Within(folds) + fold.transitions
    ensures Observed(folds + [fold]) == Observed(folds) + fold.observations
  {
    assert (folds + [fold])[..|folds|] == folds;
  }

  /** The checks of one fold against its place and the last date of the fold before it. */
  method CheckFold(folds: seq<Fold>, i: nat, n: nat, supported: set<State>, previousLast: Option<DateText>) returns (ok: bool)
    requires i < |folds| && n > 0 && previousLast == if i == 0 then None else Some(folds[i - 1].last)
    ensures ok <==> FoldFollows(folds, i, n, supported)
  {
    if !FoldOk(folds[i], i, FoldSize(n, i), supported) { return false; }
    return previousLast.None? || (previousLast.value.Iso? && previousLast.value.day < folds[i].first.day);
  }

  predicate Totals(folds: seq<Fold>, aggregate: map<State, int>, within: int, observed: int) {
    aggregate == Aggregate(folds) && within == Within(folds) && observed == Observed(folds)
  }

  lemma {:induction false} TotalsStep(folds: seq<Fold>, i: nat, aggregate: map<State, int>, within: int, observed: int)
    requires i < |folds| && Totals(folds[..i], aggregate, within, observed)
    ensures Totals(folds[..i + 1], Merge(aggregate, folds[i].counts), within + folds[i].transitions, observed + folds[i].observations)
  {
    TotalsSnoc(folds[..i], folds[i]);
    assert folds[..i + 1] == folds[..i] + [folds[i]];
  }

  /** The first k folds pass. */
  predicate FollowUpTo(folds: seq<Fold>, k: nat, n: nat, supported: set<State>)
    requires k <= |folds|
  {
    k == 0 || (FollowUpTo(folds, k - 1, n, supported) && FoldFollows(folds, k - 1, n, supported))
  }

  lemma {:induction false} FollowUpToAll(folds: seq<Fold>, k: nat, n: nat, supported: set<State>)
    requires k <= |folds|
    ensures FollowUpTo(folds, k, n, supported) <==> forall i :: 0 <= i < k ==> FoldFollows(folds, i, n, supported)
  {
    if k > 0 { FollowUpToAll(folds, k - 1, n, supported); }
  }

  lemma {:induction false} FailureStays(folds: seq<Fold>, k: nat, m: nat, n: nat, supported: set<State>)
    requires k <= m <= |folds| && !FollowUpTo(folds, k, n, supported)
    ensures !FollowUpTo(folds, m, n, supported)
  {
    if k < m { FailureStays(folds, k, m - 1, n, supported); }
  }

  lemma {:induction false} FoldTurn(folds: seq<Fold>, i: nat, n: nat, supported: set<State>, ok: bool)
    requires i < |folds| && FollowUpTo(folds, i, n, supported) && (ok <==> FoldFollows(folds, i, n, supported))
    ensures ok ==> FollowUpTo(folds, i + 1, n, supported)
    ensures !ok ==> !FollowUpTo(folds, |folds|, n, supported)
  {
    if !ok { FailureStays(folds, i + 1, |folds|, n, supported); }
  }

  /** The loop over the folds, with its running histogram, transition sum and previous date. */
  method CheckFolds(folds: seq<Fold>, n: nat, supported: set<State>)
    returns (ok: bool, aggregate: map<State, int>, within: int, observed: int)
    requires |folds| == FoldCount(n) && n > 0
    ensures ok <==> FollowUpTo(folds, |folds|, n, supported)
    ensures ok ==> Totals(folds, aggregate, within, observed)
  {
    aggregate, within, observed := map[], 0, 0;
    var previousLast := None;
    for i := 0 to |folds|
      invariant Totals(folds[..i], aggregate, within, observed)
      invariant previousLast == if i == 0 then None else Some(folds[i - 1].last)
      invariant FollowUpTo(folds, i, n, supported)
    {
      var fold := folds[i];
      var ordered := CheckFold(folds, i, n, supported, previousLast);
      FoldTurn(folds, i, n, supported, ordered);
      if !ordered { return false, aggregate, within, observed; }
      TotalsStep(folds, i, aggregate, within, observed);
      previousLast := Some(fold.last);
      aggregate := Merge(aggregate, fold.counts);
      within := within + fold.transitions;
      observed := observed + fold.observations;
    }
    assert folds[..|folds|] == folds;
    ok := true;
  }

  method CheckCoverage(r: Report, history: State, latest: Option<DateText>) returns (ok: bool)
    ensures ok <==> CoverageOk(r, history, latest)
  {
    if r.state == Available {
      if history !in r.counts || r.transitions < AtLeastZero(|r.counts| - 1) { return false; }
      return DatesOk(r, latest);
    }
    return r.first.None? && r.last.None? && r.counts == map[] && r.transitions == 0;
  }

  method CheckAllFolds(r: Report, supported: set<State>) returns (ok: bool)
    requires r.observations >= 0
    ensures ok <==> FoldsOk(r, supported)
  {
    if !(0 <= r.foldCount <= 5) || |r.folds| != r.foldCount { return false; }
    if r.foldCount != (if r.state == Available then FoldCount(r.observations) else 0) { return false; }
    if r.foldCount == 0 { return true; }
    var foldsOk, aggregate, within, observed := CheckFolds(r.folds, r.observations, supported);
    FollowUpToAll(r.folds, |r.folds|, r.observations, supported);
    if !foldsOk { return false; }
    return Some(r.folds[0].first) == r.first && Some(r.folds[|r.folds| - 1].last) == r.last && observed == r.observations
           && aggregate == r.counts && within <= r.transitions <= within + r.foldCount - 1;
  }

  method ValidateWalkForward(r: Report, supported: set<State>, history: State, barCount: nat, required: nat,
                             latest: Option<DateText>, canonical: Report)
    returns (ok: bool)
    ensures ok <==> Consistent(r, supported, history, barCount, required, latest) && r == canonical
  {
    if !HeaderOk(r, supported) { return false; }
    var expected := Expected(history, supported, barCount, required);
    var expectedCount := if expected == Available then AtLeastZero(barCount - required + 1) else 0;
    if r.state != expected || r.observations != expectedCount { return false; }
    var covered := CheckCoverage(r, history, latest);
    if !covered { return false; }
    var folded := CheckAllFolds(r, supported);
    if !folded { return false; }
    return r == canonical;
  }

  // -------------------------------------------------------------- histograms

  predicate Ranked(states: seq<State>, supported: set<State>) { forall i :: 0 <= i < |states| ==> states[i] in supported }

  /** The states of one of the two strategies. */
  predicate StrategyStates(supported: set<State>) {
    forall s :: s in supported ==> s in {TriggerObserved, RecoveryObserved, NoTriggerObserved, TrendConfirmed, TrendNotConfirmed}
  }

  lemma {:induction false} SumBumps(counts: map<State, int>, s: State)
    requires s in {TriggerObserved, RecoveryObserved, NoTriggerObserved, TrendConfirmed, TrendNotConfirmed}
    ensures SumOf(counts[s := Get(counts, s) + 1]) == SumOf(counts) + 1
  {
  }

  lemma {:induction false} CountsSnoc(states: seq<State>, last: State, supported: set<State>)
    requires last in supported && StrategyStates(supported) && CountsOk(Histogram(states), supported, |states|)
    ensures CountsOk(Histogram(states + [last]), supported, |states| + 1)
  {
    HistogramSnoc(states, last);
    SumBumps(Histogram(states), last);
  }

  lemma {:induction false} HistogramCounts(states: seq<State>, supported: set<State>)
    requires Ranked(states, supported) && StrategyStates(supported)
    ensures CountsOk(Histogram(states), supported, |states|)
  {
    if states != [] {
      var front, last := states[..|states| - 1], states[|states| - 1];
      HistogramCounts(front, supported);
      CountsSnoc(front, last, supported);
      assert states == front + [last];
    }
  }

  /** Each state that appears for the first time makes a transition, except the very first. */
  lemma {:induction false} TransitionBounds(states: seq<State>)
    ensures Transitions(states) <= AtLeastZero(|states| - 1)
    ensures AtLeastZero(|Histogram(states)| - 1) <= Transitions(states)
    ensures states != [] ==> states[|states| - 1] in Histogram(states)
  {
    if states != [] {
      var front, last := states[..|states| - 1], states[|states| - 1];
      TransitionBounds(front);
      assert states == front + [last];
      TransitionsSnoc(front, last);
      HistogramSnoc(front, last);
      KeysGrow(Histogram(front), last, Get(Histogram(front), last) + 1);
    }
  }

  lemma {:induction false} KeysGrow(m: map<State, int>, s: State, n: int)
    ensures |m[s := n]| == |m| + if s in m then 0 else 1
  {
    assert m[s := n].Keys == m.Keys + {s};
    if s in m { assert m.Keys + {s} == m.Keys; }
    assert |m.Keys| == |m| && |m[s := n].Keys| == |m[s := n]|;
  }

  lemma {:induction false} TalliesMerge(a: multiset<State>, b: multiset<State>)
    ensures Tally(a + b) == Merge(Tally(a), Tally(b))
  {
  }

  lemma {:induction false} HistogramConcat(a: seq<State>, b: seq<State>)
    ensures Histogram(a + b) == Merge(Histogram(a), Histogram(b))
  {
    assert multiset(a + b) == multiset(a) + multiset(b);
    TalliesMerge(multiset(a), multiset(b));
  }

  lemma {:induction false} TransitionsConcat(a: seq<State>, b: seq<State>)
    requires a != [] && b != []
    ensures Transitions(a + b) == Transitions(a) + Transitions(b) + One(a[|a| - 1] != b[0])
  {
    var front, last := b[..|b| - 1], b[|b| - 1];
    assert a + b == (a + front) + [last] && b == front + [last];
    TransitionsSnoc(a + front, last);
    TransitionsSnoc(front, last);
    if front == [] {
      assert a + front == a;
    } else {
      TransitionsConcat(a, front);
    }
  }

  // ------------------------------------------------------------------- folds

  predicate Ascending(dates: seq<DateText>, order: Order) {
    forall i, j :: 0 <= i < j < |dates| ==> order(dates[i]) < order(dates[j])
  }

  /** The first and the last date of each fold are days. */
  predicate BordersAreDays(dates: seq<DateText>)
    requires dates != []
  {
    forall i :: 0 <= i < FoldCount(|dates|) ==> FoldIsDated(dates, i)
  }

  predicate FoldIsDated(dates: seq<DateText>, i: nat)
    requires i < FoldCount(|dates|)
  {
    FoldFits(|dates|, i);
    IsDate(dates[FoldStart(|dates|, i)]) && IsDate(dates[FoldStart(|dates|, i + 1) - 1])
  }

  lemma {:induction false} LaterTextIsLaterDay(order: Order, a: DateText, b: DateText)
    requires OrdersTexts(order) && order(a) < order(b) && IsDate(a) && IsDate(b)
    ensures a.day < b.day
  {
    assert a == Iso(a.day) && b == Iso(b.day);
  }

  lemma {:induction false} BuiltCountsAreOk(states: seq<State>, dates: seq<DateText>, i: nat, supported: set<State>)
    requires |states| == |dates| > 0 && i < FoldCount(|states|) && Ranked(states, supported) && StrategyStates(supported)
    ensures FoldCountsOk(FoldAt(states, dates, i), i, FoldSize(|states|, i), supported)
  {
    FoldFits(|states|, i);
    var part := states[FoldStart(|states|, i)..FoldStart(|states|, i + 1)];
    HistogramCounts(part, supported);
    TransitionBounds(part);
  }

  lemma {:induction false} BuiltDatesAreOk(order: Order, first: DateText, last: DateText, size: nat)
    requires OrdersTexts(order) && (if size == 1 then first == last else order(first) < order(last))
    ensures FoldDatesOk(first, last, size) <==> IsDate(first) && IsDate(last)
  {
    if IsDate(first) && IsDate(last) && size != 1 { LaterTextIsLaterDay(order, first, last); }
  }

  lemma {:induction false} FoldEnds(states: seq<State>, dates: seq<DateText>, order: Order, i: nat)
    requires |states| == |dates| > 0 && i < FoldCount(|states|) && Ascending(dates, order)
    ensures var fold := FoldAt(states, dates, i);
      && (FoldIsDated(dates, i) <==> IsDate(fold.first) && IsDate(fold.last))
      && (if FoldSize(|states|, i) == 1 then fold.first == fold.last else order(fold.first) < order(fold.last))
  {
    FoldFits(|states|, i);
  }

  lemma {:induction false} BuiltFoldIsOk(states: seq<State>, dates: seq<DateText>, order: Order, i: nat, supported: set<State>)
    requires |states| == |dates| > 0 && i < FoldCount(|states|)
    requires Ranked(states, supported) && StrategyStates(supported) && Ascending(dates, order) && OrdersTexts(order)
    ensures FoldOk(FoldAt(states, dates, i), i, FoldSize(|states|, i), supported) <==> FoldIsDated(dates, i)
  {
    var fold, size := FoldAt(states, dates, i), FoldSize(|states|, i);
    BuiltCountsAreOk(states, dates, i, supported);
    FoldEnds(states, dates, order, i);
    BuiltDatesAreOk(order, fold.first, fold.last, size);
  }

  lemma {:induction false} FoldsAt(states: seq<State>, dates: seq<DateText>, k: nat, i: nat)
    requires |states| == |dates| > 0 && i < k <= FoldCount(|states|)
    ensures FoldsUpTo(states, dates, k)[i] == FoldAt(states, dates, i)
  {
    if i < k - 1 { FoldsAt(states, dates, k - 1, i); }
  }

  /** A fold begins after the last day of the fold before it. */
  lemma {:induction false} BuiltFoldIsLater(states: seq<State>, dates: seq<DateText>, order: Order, i: nat)
    requires |states| == |dates| > 0 && 0 < i < FoldCount(|states|) && Ascending(dates, order) && OrdersTexts(order)
    ensures var last, first := FoldAt(states, dates, i - 1).last, FoldAt(states, dates, i).first;
      IsDate(last) && IsDate(first) ==> last.day < first.day
  {
    FoldFits(|states|, i - 1);
    FoldFits(|states|, i);
    var last, first := FoldAt(states, dates, i - 1).last, FoldAt(states, dates, i).first;
    if IsDate(last) && IsDate(first) { LaterTextIsLaterDay(order, last, first); }
  }

  /** These are the folds of the states and dates. */
  predicate BuiltOf(folds: seq<Fold>, states: seq<State>, dates: seq<DateText>)
    requires |states| == |dates| > 0
  {
    |folds| == FoldCount(|states|) && forall i :: 0 <= i < |folds| ==> folds[i] == FoldAt(states, dates, i)
  }

  lemma {:induction false} FoldsAreBuilt(states: seq<State>, dates: seq<DateText>)
    requires |states| == |dates| > 0
    ensures BuiltOf(Folds(states, dates), states, dates)
  {
    forall i | 0 <= i < FoldCount(|states|) ensures Folds(states, dates)[i] == FoldAt(states, dates, i) {
      FoldsAt(states, dates, FoldCount(|states|), i);
    }
  }

  lemma {:induction false} BorderIsDay(states: seq<State>, dates: seq<DateText>, i: nat)
    requires |states| == |dates| > 0 && i < FoldCount(|states|) && FoldIsDated(dates, i)
    ensures IsDate(FoldAt(states, dates, i).first) && IsDate(FoldAt(states, dates, i).last)
  {
  }

  lemma {:induction false} FollowsPrevious(folds: seq<Fold>, i: nat, n: nat, supported: set<State>)
    requires i < |folds| && n > 0 && FoldOk(folds[i], i, FoldSize(n, i), supported)
    requires i > 0 ==> folds[i - 1].last.Iso? && folds[i - 1].last.day < folds[i].first.day
    ensures FoldFollows(folds, i, n, supported)
  {
  }

  lemma {:induction false} BuiltFoldFollows(folds: seq<Fold>, states: seq<State>, dates: seq<DateText>, order: Order, i: nat,
                                            supported: set<State>)
    requires |states| == |dates| > 0 && i < FoldCount(|states|) && BuiltOf(folds, states, dates) && BordersAreDays(dates)
    requires Ranked(states, supported) && StrategyStates(supported) && Ascending(dates, order) && OrdersTexts(order)
    ensures FoldFollows(folds, i, |states|, supported)
  {
    BuiltFoldIsOk(states, dates, order, i, supported);
    assert FoldIsDated(dates, i);
    if i > 0 { PreviousIsEarlier(folds, states, dates, order, i); }
    FollowsPrevious(folds, i, |states|, supported);
  }

  lemma {:induction false} PreviousIsEarlier(folds: seq<Fold>, states: seq<State>, dates: seq<DateText>, order: Order, i: nat)
    requires |states| == |dates| > 0 && 0 < i < FoldCount(|states|) && BuiltOf(folds, states, dates)
    requires BordersAreDays(dates) && Ascending(dates, order) && OrdersTexts(order)
    ensures folds[i - 1].last.Iso? && folds[i].first.Iso? && folds[i - 1].last.day < folds[i].first.day
  {
    BuiltFoldIsLater(states, dates, order, i);
    assert FoldIsDated(dates, i - 1) && FoldIsDated(dates, i);
    BorderIsDay(states, dates, i - 1);
    BorderIsDay(states, dates, i);
  }

  predicate AllFollow(folds: seq<Fold>, n: nat, supported: set<State>) {
    forall i :: 0 <= i < |folds| ==> FoldFollows(folds, i, n, supported)
  }

  lemma {:induction false} FollowingIsDated(folds: seq<Fold>, states: seq<State>, dates: seq<DateText>, order: Order, i: nat,
                                            supported: set<State>)
    requires |states| == |dates| > 0 && i < FoldCount(|states|) && BuiltOf(folds, states, dates)
    requires Ranked(states, supported) && StrategyStates(supported) && Ascending(dates, order) && OrdersTexts(order)
    requires FoldFollows(folds, i, |states|, supported)
    ensures FoldIsDated(dates, i)
  {
    BuiltFoldIsOk(states, dates, order, i, supported);
    assert folds[i] == FoldAt(states, dates, i);
  }

  lemma {:induction false} BuiltFoldsFollow(folds: seq<Fold>, states: seq<State>, dates: seq<DateText>, order: Order, supported: set<State>)
    requires |states| == |dates| > 0 && BuiltOf(folds, states, dates)
    requires Ranked(states, supported) && StrategyStates(supported) && Ascending(dates, order) && OrdersTexts(order)
    ensures AllFollow(folds, |states|, supported) <==> BordersAreDays(dates)
  {
    if AllFollow(folds, |states|, supported) {
      forall i | 0 <= i < FoldCount(|dates|) ensures FoldIsDated(dates, i) {
        FollowingIsDated(folds, states, dates, order, i, supported);
      }
    }
    if BordersAreDays(dates) {
      forall i | 0 <= i < |folds| ensures FoldFollows(folds, i, |states|, supported) {
        BuiltFoldFollows(folds, states, dates, order, i, supported);
      }
    }
  }

  /** The folds split the observations: their histograms and sizes add up, and only borders hide transitions. */
  predicate AddUp(folds: seq<Fold>, seen: seq<State>) {
    && Aggregate(folds) == Histogram(seen) && Observed(folds) == |seen|
    && Within(folds) <= Transitions(seen) <= Within(folds) + AtLeastZero(|folds| - 1)
  }

  lemma {:induction false} AddUpSnoc(folds: seq<Fold>, seen: seq<State>, fold: Fold, part: seq<State>)
    requires AddUp(folds, seen) && (folds == [] <==> seen == []) && part != []
    requires fold.counts == Histogram(part) && fold.transitions == Transitions(part) && fold.observations == |part|
    ensures AddUp(folds + [fold], seen + part)
  {
    TotalsSnoc(folds, fold);
    HistogramConcat(seen, part);
    if seen == [] {
      assert seen + part == part;
    } else {
      TransitionsConcat(seen, part);
    }
  }

  lemma {:induction false} FoldsAddUp(states: seq<State>, dates: seq<DateText>, k: nat)
    requires |states| == |dates| > 0 && k <= FoldCount(|states|)
    ensures FoldStart(|states|, k) <= |states| && (k == 0 <==> FoldStart(|states|, k) == 0)
    ensures AddUp(FoldsUpTo(states, dates, k), states[..FoldStart(|states|, k)])
  {
    if k > 0 {
      var fold, part := FoldOfPart(states, dates, k - 1);
      FoldsAddUp(states, dates, k - 1);
      AddUpSnoc(FoldsUpTo(states, dates, k - 1), states[..FoldStart(|states|, k - 1)], fold, part);
    }
  }

  lemma {:induction false} SplitPrefix(states: seq<State>, a: nat, b: nat)
    requires a <= b <= |states|
    ensures states[..b] == states[..a] + states[a..b]
  {
  }

  lemma {:induction false} FoldOfPart(states: seq<State>, dates: seq<DateText>, i: nat) returns (fold: Fold, part: seq<State>)
    requires |states| == |dates| > 0 && i < FoldCount(|states|)
    ensures FoldStart(|states|, i) < FoldStart(|states|, i + 1) <= |states|
    ensures FoldsUpTo(states, dates, i + 1) == FoldsUpTo(states, dates, i) + [fold]
    ensures states[..FoldStart(|states|, i + 1)] == states[..FoldStart(|states|, i)] + part
    ensures fold.counts == Histogram(part) && fold.transitions == Transitions(part) && fold.observations == |part| > 0
  {
    FoldFits(|states|, i);
    var a, b := FoldStart(|states|, i), FoldStart(|states|, i + 1);
    SplitPrefix(states, a, b);
    fold, part := FoldAt(states, dates, i), states[a..b];
  }

  // -------------------------------------------------------------- acceptance

  lemma {:induction false} EndsAreBorders(dates: seq<DateText>, order: Order)
    requires dates != [] && Ascending(dates, order) && OrdersTexts(order) && BordersAreDays(dates)
    ensures IsDate(dates[0]) && IsDate(dates[|dates| - 1]) && dates[0].day <= dates[|dates| - 1].day
  {
    var count := FoldCount(|dates|);
    FoldFits(|dates|, count - 1);
    assert FoldIsDated(dates, 0) && FoldIsDated(dates, count - 1);
    if |dates| > 1 { LaterTextIsLaterDay(order, dates[0], dates[|dates| - 1]); }
  }

  lemma {:induction false} SummaryIsConsistent(states: seq<State>, dates: seq<DateText>, order: Order, supported: set<State>,
                                               history: State, barCount: nat, required: nat)
    requires |states| == |dates| > 0 && Ranked(states, supported) && StrategyStates(supported)
    requires Ascending(dates, order) && OrdersTexts(order)
    requires history == states[|states| - 1] && history != InvalidHistory && supported != {}
    requires barCount >= required && |states| == barCount - required + 1
    ensures BordersAreDays(dates) <==>
            Consistent(Summary(states, dates), supported, history, barCount, required, Some(dates[|dates| - 1]))
  {
    var r := Summary(states, dates);
    FoldsAreBuilt(states, dates);
    BuiltFoldsFollow(r.folds, states, dates, order, supported);
    SummaryTotals(states, dates);
    FoldsOkMeans(r, supported);
    SummaryCovers(states, dates, order, supported);
  }

  lemma {:induction false} SummaryCovers(states: seq<State>, dates: seq<DateText>, order: Order, supported: set<State>)
    requires |states| == |dates| > 0 && Ranked(states, supported) && StrategyStates(supported)
    requires Ascending(dates, order) && OrdersTexts(order)
    ensures HeaderOk(Summary(states, dates), supported)
    ensures BordersAreDays(dates) ==> CoverageOk(Summary(states, dates), states[|states| - 1], Some(dates[|dates| - 1]))
  {
    HistogramCounts(states, supported);
    TransitionBounds(states);
    if BordersAreDays(dates) { EndsAreBorders(dates, order); }
  }

  lemma {:induction false} FoldsOkMeans(r: Report, supported: set<State>)
    requires r.observations > 0 && r.folds != [] && TotalsOk(r) && r.state == Available
    requires |r.folds| == r.foldCount == FoldCount(r.observations)
    ensures FoldsOk(r, supported) <==> AllFollow(r.folds, r.observations, supported)
  {
  }

  lemma {:induction false} SummaryTotals(states: seq<State>, dates: seq<DateText>)
    requires |states| == |dates| > 0
    ensures Folds(states, dates) != [] && TotalsOk(Summary(states, dates))
  {
    var n, count := |states|, FoldCount(|states|);
    FoldFits(n, 0);
    FoldFits(n, count - 1);
    FoldsAddUp(states, dates, count);
    assert states[..n] == states;
    FoldsAt(states, dates, count, 0);
    FoldsAt(states, dates, count, count - 1);
  }

  // ---------------------------------------------------------------- meaning

  /** The peak is the highest close. */
  lemma {:induction false} PeakIsHighest(bars: seq<Bar>) returns (k: nat)
    requires Closes(bars) && bars != []
    ensures k < |bars| && bars[k].close == PeakClose(bars)
    ensures forall i :: 0 <= i < |bars| ==> bars[i].close <= PeakClose(bars)
  {
    k := |bars| - 1;
    if |bars| > 1 {
      var front := bars[..|bars| - 1];
      var before := PeakIsHighest(front);
      assert forall i :: 0 <= i < |front| ==> front[i] == bars[i];
      if bars[k].close <= PeakClose(front) { k := before; }
    }
  }

  /** A trend is confirmed exactly when the short average is above the long one at every confirmation bar. */
  lemma {:induction false} ConfirmedMeansAll(bars: seq<Bar>, short: nat, long: nat, confirmation: nat)
    requires 0 < short < long && long + confirmation <= |bars| + 1
    ensures Confirmations(bars, short, long, confirmation) <= confirmation
    ensures Confirmations(bars, short, long, confirmation) == confirmation <==>
            forall back :: 0 <= back < confirmation ==> Confirms(bars, short, long, back)
  {
    if confirmation > 0 { ConfirmedMeansAll(bars, short, long, confirmation - 1); }
  }

  // ---------------------------------------------------------------- locality

  lemma {:induction false} ConfirmsIsLocal(bars: seq<Bar>, tail: seq<Bar>, short: nat, long: nat, back: nat)
    requires 0 < short < long && |tail| <= |bars| && tail == bars[|bars| - |tail|..] && long + back <= |tail|
    ensures Confirms(bars, short, long, back) == Confirms(tail, short, long, back)
  {
    var e, f := |bars| - back, |tail| - back;
    assert bars[e - short..e] == tail[f - short..f] && bars[e - long..e] == tail[f - long..f];
  }

  lemma {:induction false} ConfirmationsAreLocal(bars: seq<Bar>, tail: seq<Bar>, short: nat, long: nat, confirmation: nat)
    requires 0 < short < long && |tail| <= |bars| && tail == bars[|bars| - |tail|..] && long + confirmation <= |tail| + 1
    ensures Confirmations(bars, short, long, confirmation) == Confirmations(tail, short, long, confirmation)
  {
    if confirmation > 0 {
      ConfirmationsAreLocal(bars, tail, short, long, confirmation - 1);
      ConfirmsIsLocal(bars, tail, short, long, confirmation - 1);
    }
  }

  lemma {:induction false} SameWindow(bars: seq<Bar>, lookback: nat)
    requires lookback <= |bars|
    ensures var tail := bars[|bars| - lookback..]; tail[|tail| - lookback..] == tail
  {
  }

  lemma {:induction false} BandIsLocal(bars: seq<Bar>, lookback: nat, trigger: real, round: real -> real)
    requires ValidStrategy(VolatilityBand(lookback, trigger)) && |bars| >= lookback && Closes(bars)
    ensures StateAt(bars[|bars| - lookback..], VolatilityBand(lookback, trigger), round) == StateAt(bars, VolatilityBand(lookback, trigger), round)
  {
    SameWindow(bars, lookback);
  }

  lemma {:induction false} TrendIsLocal(bars: seq<Bar>, short: nat, long: nat, confirmation: nat, round: real -> real)
    requires ValidStrategy(SlowTrend(short, long, confirmation)) && |bars| >= long + confirmation - 1 && Closes(bars)
    ensures StateAt(bars[|bars| - (long + confirmation - 1)..], SlowTrend(short, long, confirmation), round)
         == StateAt(bars, SlowTrend(short, long, confirmation), round)
  {
    ConfirmationsAreLocal(bars, bars[|bars| - (long + confirmation - 1)..], short, long, confirmation);
  }

  /** A strategy sees no further back than the bars it requires. */
  lemma {:induction false} StateIsLocal(bars: seq<Bar>, s: Strategy, round: real -> real)
    requires ValidStrategy(s) && !s.OtherStrategy? && |bars| >= Required(s) && Closes(bars)
    ensures StateAt(bars[|bars| - Required(s)..], s, round) == StateAt(bars, s, round)
  {
    match s
    case VolatilityBand(lookback, trigger) => BandIsLocal(bars, lookback, trigger, round);
    case SlowTrend(short, long, confirmation) => TrendIsLocal(bars, short, long, confirmation, round);
  }

  lemma {:induction false} StateIsSupported(bars: seq<Bar>, s: Strategy, round: real -> real)
    requires ValidStrategy(s) && !s.OtherStrategy? && |bars| >= Required(s) && Closes(bars)
    ensures Evaluator(s, round)(bars) == StateOf(bars, s, round) && StateOf(bars, s, round) in Supported(s)
  {
  }

  /** The state of the whole history is the state of the last window. */
  lemma {:induction false} HistoryStateIsLast(bars: seq<Bar>, s: Strategy, round: real -> real)
    requires ValidStrategy(s) && !s.OtherStrategy? && |bars| >= Required(s) && Closes(bars)
    ensures Evaluator(s, round)(bars[|bars| - Required(s)..]) == StateOf(bars, s, round)
  {
    var tail := bars[|bars| - Required(s)..];
    StateIsLocal(bars, s, round);
    StateIsSupported(tail, s, round);
  }

  lemma {:induction false} LastState(bars: seq<Bar>, required: nat, observe: seq<Bar> -> State)
    requires 0 < required <= |bars|
    ensures var states := States(bars, required, observe); states[|states| - 1] == observe(bars[|bars| - required..])
  {
    assert bars[|bars| - required..|bars|] == bars[|bars| - required..];
  }

  /** Every window of positive closes and of the required length is observed to be in a supported state. */
  ghost predicate Observes(required: nat, observe: seq<Bar> -> State, supported: set<State>) {
    forall window: seq<Bar> :: |window| == required && Closes(window) ==> observe(window) in supported
  }

  lemma {:induction false} EvaluatorObserves(s: Strategy, round: real -> real)
    requires ValidStrategy(s) && !s.OtherStrategy?
    ensures Observes(Required(s), Evaluator(s, round), Supported(s)) && StrategyStates(Supported(s))
  {
    forall window: seq<Bar> | |window| == Required(s) && Closes(window) ensures Evaluator(s, round)(window) in Supported(s) {
      StateIsSupported(window, s, round);
    }
  }

  lemma {:induction false} StatesAreSupported(bars: seq<Bar>, required: nat, observe: seq<Bar> -> State, supported: set<State>, k: nat)
    requires 0 < required && k + required <= |bars| + 1 && Closes(bars) && Observes(required, observe, supported)
    ensures Ranked(StatesUpTo(bars, required, observe, k), supported)
  {
    if k > 0 { StatesAreSupported(bars, required, observe, supported, k - 1); }
  }

  function Latest(bars: seq<Bar>): Option<DateText> {
    if bars == [] then None else Some(bars[|bars| - 1].date)
  }

  /** The number of required bars that the history report carries. */
  function RequiredBars(bars: seq<Bar>, s: Strategy, order: Order): nat
    requires ValidStrategy(s)
  {
    if !ValidHistory(bars, order) then 1 else Required(s)
  }

  lemma {:induction false} LastStateIs(bars: seq<Bar>, required: nat, observe: seq<Bar> -> State, last: State)
    requires 0 < required <= |bars| && observe(bars[|bars| - required..]) == last
    ensures var states := States(bars, required, observe); states != [] && states[|states| - 1] == last
  {
    LastState(bars, required, observe);
  }

  lemma {:induction false} LastStateOfHistory(bars: seq<Bar>, s: Strategy, round: real -> real)
    requires ValidStrategy(s) && !s.OtherStrategy? && |bars| >= Required(s) && Closes(bars)
    ensures var states := States(bars, Required(s), Evaluator(s, round)); states[|states| - 1] == StateOf(bars, s, round)
  {
    HistoryStateIsLast(bars, s, round);
    LastStateIs(bars, Required(s), Evaluator(s, round), StateOf(bars, s, round));
  }

  /** The states of a long enough history are supported, and the last of them is the state of the history. */
  lemma {:induction false} StatesOfHistory(bars: seq<Bar>, s: Strategy, round: real -> real) returns (states: seq<State>)
    requires ValidStrategy(s) && !s.OtherStrategy? && |bars| >= Required(s) && Closes(bars)
    ensures states == States(bars, Required(s), Evaluator(s, round)) && Ranked(states, Supported(s))
    ensures states[|states| - 1] == StateOf(bars, s, round)
  {
    LastStateOfHistory(bars, s, round);
    EvaluatorObserves(s, round);
    StatesAreSupported(bars, Required(s), Evaluator(s, round), Supported(s), |bars| - Required(s) + 1);
    states := States(bars, Required(s), Evaluator(s, round));
  }

  lemma {:induction false} AvailableIsConsistent(bars: seq<Bar>, s: Strategy, order: Order, round: real -> real)
    requires ValidStrategy(s) && !s.OtherStrategy? && |bars| >= Required(s) && ValidHistory(bars, order) && OrdersTexts(order)
    ensures BordersAreDays(Dates(bars, Required(s))) <==>
            Consistent(Summary(States(bars, Required(s), Evaluator(s, round)), Dates(bars, Required(s))), Supported(s),
                       StateOf(bars, s, round), |bars|, Required(s), Latest(bars))
  {
    var states := StatesOfHistory(bars, s, round);
    DatesAscend(bars, order, Required(s));
    SummaryIsConsistent(states, Dates(bars, Required(s)), order, Supported(s), states[|states| - 1], |bars|, Required(s));
  }

  lemma {:induction false} DatesAscend(bars: seq<Bar>, order: Order, required: nat)
    requires 0 < required <= |bars| && ValidHistory(bars, order)
    ensures Ascending(Dates(bars, required), order) && Latest(bars) == Some(Dates(bars, required)[|bars| - required])
  {
  }

  lemma {:induction false} UnavailableIsConsistent(state: Coverage, supported: set<State>, history: State, barCount: nat,
                                                   required: nat, latest: Option<DateText>)
    requires state == Expected(history, supported, barCount, required) && state != Available
    ensures Consistent(Unavailable(state), supported, history, barCount, required, latest)
  {
  }

  /** The history is valid and long enough for a strategy that the report covers. */
  predicate Covered(bars: seq<Bar>, s: Strategy, order: Order)
    requires ValidStrategy(s)
  {
    ValidHistory(bars, order) && !s.OtherStrategy? && |bars| >= Required(s)
  }

  /**
    The checks of the validator accept a report that the producer builds exactly when the borders of its folds are days,
    so then it accepts exactly that report. A history of days always has such borders.
  */
  lemma {:induction false} ProducedIsConsistent(bars: seq<Bar>, s: Strategy, order: Order, round: real -> real)
    requires ValidStrategy(s) && OrdersTexts(order)
    ensures (Covered(bars, s, order) ==> BordersAreDays(Dates(bars, Required(s)))) <==>
            Consistent(WalkForward(bars, s, order, round), Supported(s), HistoryState(bars, s, order, round), |bars|,
                       RequiredBars(bars, s, order), Latest(bars))
    ensures Covered(bars, s, order) && (forall i :: 0 <= i < |bars| ==> IsDate(bars[i].date)) ==> BordersAreDays(Dates(bars, Required(s)))
  {
    if Covered(bars, s, order) {
      AvailableIsConsistent(bars, s, order, round);
      DaysHaveDatedBorders(bars, Required(s));
    } else {
      var state := WalkForward(bars, s, order, round).state;
      UnavailableIsConsistent(state, Supported(s), HistoryState(bars, s, order, round), |bars|, RequiredBars(bars, s, order), Latest(bars));
    }
  }

  lemma {:induction false} DaysHaveDatedBorders(bars: seq<Bar>, required: nat)
    requires 0 < required <= |bars|
    ensures (forall i :: 0 <= i < |bars| ==> IsDate(bars[i].date)) ==> BordersAreDays(Dates(bars, required))
  {
    var dates := Dates(bars, required);
    forall i | 0 <= i < FoldCount(|dates|) && forall k :: 0 <= k < |bars| ==> IsDate(bars[k].date)
      ensures FoldIsDated(dates, i)
    {
      FoldFits(|dates|, i);
    }
  }

  // ------------------------------------------------------------ other texts

  /** So many days, and then one bar whose date is no day. */
  function Undated(n: nat): (bars: seq<Bar>)
    ensures |bars| == n + 1 && bars[n] == Bar("ETF", OtherText("unknown"), 1.0)
    ensures forall i :: 0 <= i < n ==> bars[i] == Bar("ETF", Iso(i + 1), 1.0)
  {
    seq(n, i => Bar("ETF", Iso(i + 1), 1.0)) + [Bar("ETF", OtherText("unknown"), 1.0)]
  }

  lemma {:induction false} UndatedIsCovered(n: nat, s: Strategy, order: Order)
    requires ValidStrategy(s) && !s.OtherStrategy? && Required(s) <= n <= LAST_DAY && OrdersTexts(order)
    requires forall d :: IsDay(d) ==> order(Iso(d)) < order(OtherText("unknown"))
    ensures Covered(Undated(n), s, order)
  {
  }

  lemma {:induction false} LastIsNoBorderDay(dates: seq<DateText>)
    requires dates != [] && !IsDate(dates[|dates| - 1])
    ensures !BordersAreDays(dates)
  {
    var last := FoldCount(|dates|) - 1;
    FoldFits(|dates|, last);
    assert !FoldIsDated(dates, last);
  }

  /** A letter comes after every digit: the producer covers this history, and the validator refuses the report. */
  lemma {:induction false} OtherTextIsRefused(n: nat, s: Strategy, order: Order, round: real -> real)
    requires ValidStrategy(s) && !s.OtherStrategy? && Required(s) <= n <= LAST_DAY && OrdersTexts(order)
    requires forall d :: IsDay(d) ==> order(Iso(d)) < order(OtherText("unknown"))
    ensures Covered(Undated(n), s, order)
    ensures !Consistent(WalkForward(Undated(n), s, order, round), Supported(s), HistoryState(Undated(n), s, order, round), n + 1,
                        RequiredBars(Undated(n), s, order), Latest(Undated(n)))
  {
    UndatedIsCovered(n, s, order);
    ProducedIsConsistent(Undated(n), s, order, round);
    LastIsNoBorderDay(Dates(Undated(n), Required(s)));
  }
}
