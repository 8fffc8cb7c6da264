/** Purged chronological splits, fitting by state, selection of a candidate, and the plan that predicts the splits. */
module Learning {
  import opened Outcomes
  import opened Calendar
  import opened WalkForwards
  import opened WalkForwardValidator

  // ------------------------------------------------------------------ splits

  /** The numbers from a up to, and not including, b. */
  function Range(a: int, b: int): (r: seq<int>)
    ensures |r| == if a < b then b - a else 0
    ensures forall k :: 0 <= k < |r| ==> r[k] == a + k
    decreases b - a
  {
    if a >= b then [] else Range(a, b - 1) + [b - 1]
  }

  function Larger(a: int, b: int): int { if a < b then b else a }

  /** The splits of n bars by the places of the cutoffs: each label is `horizon` bars after its feature. */
  function TrainRange(warmup: int, horizon: int, trainEnd: int): seq<int> { Range(warmup - 1, trainEnd - horizon + 1) }
  function ValidationRange(warmup: int, horizon: int, trainEnd: int, validationEnd: int): seq<int> {
    Range(Larger(warmup - 1, trainEnd + 1), validationEnd - horizon + 1)
  }
  function HoldoutRange(warmup: int, horizon: int, validationEnd: int, n: int): seq<int> {
    Range(Larger(warmup - 1, validationEnd + 1), n - horizon)
  }

  datatype Splits = Splits(train: seq<int>, validation: seq<int>, holdout: seq<int>, purged: nat)

  predicate Chronological(bars: seq<Bar>, order: Order) { forall a, b :: 0 <= a < b < |bars| ==> order(bars[a].date) < order(bars[b].date) }

  /** The endpoints before a place, sorted into splits; the rest of them is purged. */
  predicate SplitsBefore(s: Splits, i: int, warmup: int, horizon: int, trainEnd: int, validationEnd: int) {
    && s.train == Range(warmup - 1, if i < trainEnd - horizon + 1 then i else trainEnd - horizon + 1)
    && s.validation == Range(Larger(warmup - 1, trainEnd + 1), if i < validationEnd - horizon + 1 then i else validationEnd - horizon + 1)
    && s.holdout == Range(Larger(warmup - 1, validationEnd + 1), i)
    && |s.train| + |s.validation| + |s.holdout| + s.purged == i - (warmup - 1)
  }

  /** Where one endpoint goes. */
  function Place(s: Splits, i: int, horizon: int, trainEnd: int, validationEnd: int): Splits {
    if i <= trainEnd then
      if i + horizon <= trainEnd then s.(train := s.train + [i]) else s.(purged := s.purged + 1)
    else if i <= validationEnd then
      if i + horizon <= validationEnd then s.(validation := s.validation + [i]) else s.(purged := s.purged + 1)
    else s.(holdout := s.holdout + [i])
  }

  lemma {:induction false} PlaceKeeps(s: Splits, i: int, warmup: int, horizon: int, trainEnd: int, validationEnd: int)
    requires horizon > 0 && trainEnd < validationEnd && warmup - 1 <= i && SplitsBefore(s, i, warmup, horizon, trainEnd, validationEnd)
    ensures SplitsBefore(Place(s, i, horizon, trainEnd, validationEnd), i + 1, warmup, horizon, trainEnd, validationEnd)
  {
  }

  lemma {:induction false} DateTellsPlace(bars: seq<Bar>, order: Order, a: nat, b: nat)
    requires Chronological(bars, order) && a < |bars| && b < |bars|
    ensures order(bars[a].date) <= order(bars[b].date) <==> a <= b
  {
  }

  /** One turn of the split loop: the dates of the endpoint and of its outcome against the two cutoffs. */
  method SplitEndpoint(s: Splits, bars: seq<Bar>, order: Order, i: nat, horizon: nat, trainEnd: nat, validationEnd: nat) returns (r: Splits)
    requires Chronological(bars, order) && trainEnd < validationEnd < |bars| && i + horizon < |bars|
    ensures r == Place(s, i, horizon, trainEnd, validationEnd)
  {
    var feature, outcome := order(bars[i].date), order(bars[i + horizon].date);
    var trainDate, validationDate := order(bars[trainEnd].date), order(bars[validationEnd].date);
    DateTellsPlace(bars, order, i, trainEnd);
    DateTellsPlace(bars, order, i + horizon, trainEnd);
    DateTellsPlace(bars, order, i, validationEnd);
    DateTellsPlace(bars, order, i + horizon, validationEnd);
    if feature <= trainDate {
      if outcome <= trainDate { return s.(train := s.train + [i]); } else { return s.(purged := s.purged + 1); }
    } else if feature <= validationDate {
      if outcome <= validationDate { return s.(validation := s.validation + [i]); } else { return s.(purged := s.purged + 1); }
    } else {
      return s.(holdout := s.holdout + [i]);
    }
  }

  /** The split loop on dates. Its endpoints are the ranges, and those around the cutoffs are purged. */
  method SplitEndpoints(bars: seq<Bar>, order: Order, warmup: nat, horizon: nat, trainEnd: nat, validationEnd: nat) returns (s: Splits)
    requires Chronological(bars, order) && warmup > 0 && horizon > 0 && trainEnd < validationEnd < |bars|
    ensures s.train == TrainRange(warmup, horizon, trainEnd)
    ensures s.validation == ValidationRange(warmup, horizon, trainEnd, validationEnd)
    ensures s.holdout == HoldoutRange(warmup, horizon, validationEnd, |bars|)
    ensures |s.train| + |s.validation| + |s.holdout| + s.purged == if warmup - 1 < |bars| - horizon then |bars| - horizon - (warmup - 1) else 0
  {
    s := Splits([], [], [], 0);
    var i := warmup - 1;
    while i < |bars| - horizon
      invariant warmup - 1 <= i && (i <= |bars| - horizon || i == warmup - 1)
      invariant SplitsBefore(s, i, warmup, horizon, trainEnd, validationEnd)
    {
      PlaceKeeps(s, i, warmup, horizon, trainEnd, validationEnd);
      s := SplitEndpoint(s, bars, order, i, horizon, trainEnd, validationEnd);
      i := i + 1;
    }
  }

  /** At most one horizon is purged at each of the two cutoffs, and every bar is accounted for. */
  lemma {:induction false} EndpointsAreCounted(n: nat, warmup: nat, horizon: nat, trainEnd: nat, validationEnd: nat, purged: int)
    requires warmup > 0 && horizon > 0 && trainEnd < validationEnd < n && warmup - 1 < n - horizon
    requires |TrainRange(warmup, horizon, trainEnd)| + |ValidationRange(warmup, horizon, trainEnd, validationEnd)|
             + |HoldoutRange(warmup, horizon, validationEnd, n)| + purged == n - horizon - (warmup - 1)
    ensures 0 <= purged <= 2 * horizon
    ensures |TrainRange(warmup, horizon, trainEnd)| + |ValidationRange(warmup, horizon, trainEnd, validationEnd)|
            + |HoldoutRange(warmup, horizon, validationEnd, n)| + (warmup - 1) + purged + horizon == n
  {
  }

  /** Every label of one split comes before every feature of the next. */
  lemma {:induction false} LabelsPrecedeFeatures(n: nat, warmup: nat, horizon: nat, trainEnd: nat, validationEnd: nat, a: nat, b: nat)
    requires warmup > 0 && horizon > 0 && trainEnd < validationEnd < n
    ensures var train, validation, holdout := TrainRange(warmup, horizon, trainEnd),
              ValidationRange(warmup, horizon, trainEnd, validationEnd), HoldoutRange(warmup, horizon, validationEnd, n);
      && (a < |train| && b < |validation| ==> train[a] + horizon <= trainEnd < validation[b])
      && (a < |validation| && b < |holdout| ==> validation[a] + horizon <= validationEnd < holdout[b])
      && (a < |holdout| ==> 0 <= holdout[a] && holdout[a] + horizon < n)
      && (a < |train| ==> 0 <= train[a]) && (a < |validation| ==> 0 <= validation[a])
  {
  }

  // -------------------------------------------------------------- make_plan

  const HORIZON := 5

  /** The cutoffs of the plan: three and four fifths of the rows. */
  function TrainCut(n: nat): int { n * 3 / 5 - 1 }
  function ValidationCut(n: nat): int { n * 4 / 5 - 1 }

  function PlannedTrain(n: nat, warmup: nat): int { TrainCut(n) - HORIZON - warmup + 2 }
  function PlannedValidation(n: nat): int { ValidationCut(n) - TrainCut(n) - HORIZON }
  function PlannedHoldout(n: nat): int { n - ValidationCut(n) - HORIZON - 1 }

  predicate EnoughPlanned(n: nat, warmup: nat) {
    PlannedTrain(n, warmup) >= 20 && PlannedValidation(n) >= 10 && PlannedHoldout(n) >= 10
  }

  predicate EnoughSplit(n: nat, warmup: nat) {
    && |TrainRange(warmup, HORIZON, TrainCut(n))| >= 20
    && |ValidationRange(warmup, HORIZON, TrainCut(n), ValidationCut(n))| >= 10
    && |HoldoutRange(warmup, HORIZON, ValidationCut(n), n)| >= 10
  }

  /** The plan's arithmetic accepts exactly what the training would accept, and then it is exact. */
  lemma {:induction false} PlanPredictsTraining(n: nat, warmup: nat)
    requires warmup > 0
    ensures EnoughPlanned(n, warmup) <==> EnoughSplit(n, warmup)
    ensures EnoughPlanned(n, warmup) ==>
      && 0 <= TrainCut(n) < ValidationCut(n) < n
      && PlannedTrain(n, warmup) == |TrainRange(warmup, HORIZON, TrainCut(n))|
      && PlannedValidation(n) == |ValidationRange(warmup, HORIZON, TrainCut(n), ValidationCut(n))|
      && PlannedHoldout(n) == |HoldoutRange(warmup, HORIZON, ValidationCut(n), n)|
  {
    CutsAreOrdered(n);
  }

  lemma {:induction false} CutsAreOrdered(n: nat)
    ensures -1 <= TrainCut(n) <= ValidationCut(n) < n || n == 0
    ensures n >= 5 ==> 0 <= TrainCut(n) < ValidationCut(n) < n
  {
  }

  // ------------------------------------------------------------------ fitting

  const MIN_STATE_SUPPORT := 5

  datatype Cell = Cell(support: nat, positives: nat, usesPrior: bool, probability: real)
  datatype Fit = Fit(support: nat, positives: nat, prior: real, cells: map<State, Cell>)

  function Sum(labels: seq<nat>): nat { if labels == [] then 0 else Sum(labels[..|labels| - 1]) + labels[|labels| - 1] }

  /** The labels of one state, in order. */
  function Selected(states: seq<State>, labels: seq<nat>, s: State): seq<nat>
    requires |states| == |labels|
  {
    if states == [] then []
    else
      Selected(states[..|states| - 1], labels[..|labels| - 1], s)
      + if states[|states| - 1] == s then [labels[|labels| - 1]] else []
  }

  /** Add-one smoothing. */
  function Smoothed(positives: nat, support: nat): real { (positives + 1) as real / (support + 2) as real }

  function CellOf(states: seq<State>, labels: seq<nat>, s: State): Cell
    requires |states| == |labels|
  {
    var selected := Selected(states, labels, s);
    var thin := |selected| < MIN_STATE_SUPPORT;
    Cell(|selected|, Sum(selected), thin, if thin then Smoothed(Sum(labels), |labels|) else Smoothed(Sum(selected), |selected|))
  }

  function FitOf(states: seq<State>, labels: seq<nat>, ranked: set<State>): Fit
    requires |states| == |labels|
  {
    Fit(|labels|, Sum(labels), Smoothed(Sum(labels), |labels|), map s | s in ranked :: CellOf(states, labels, s))
  }

  method SelectLabels(states: seq<State>, labels: seq<nat>, s: State) returns (selected: seq<nat>, positives: nat)
    requires |states| == |labels|
    ensures selected == Selected(states, labels, s) && positives == Sum(selected)
  {
    selected, positives := [], 0;
    for i := 0 to |states|
      invariant selected == Selected(states[..i], labels[..i], s) && positives == Sum(selected)
    {
      assert states[..i + 1][..i] == states[..i] && labels[..i + 1][..i] == labels[..i];
      if states[i] == s {
        assert (selected + [labels[i]])[..|selected|] == selected;
        selected, positives := selected + [labels[i]], positives + labels[i];
      }
    }
    assert states[..|states|] == states && labels[..|labels|] == labels;
  }

  // ---------------------------------------------------------------- selection

  /** What a candidate sees at its bars: it looks back over its own warm-up and no further. */
  function StatesAt(bars: seq<Bar>, indices: seq<int>, required: nat, observe: seq<Bar> -> State): (states: seq<State>)
    requires 0 < required && forall k :: 0 <= k < |indices| ==> required - 1 <= indices[k] < |bars|
    ensures |states| == |indices|
  {
    if indices == [] then []
    else
      var i := indices[|indices| - 1];
      StatesAt(bars, indices[..|indices| - 1], required, observe) + [observe(bars[i + 1 - required..i + 1])]
  }

  function LabelAt(bars: seq<Bar>, i: int, horizon: nat): nat
    requires 0 <= i && i + horizon < |bars|
  {
    One(bars[i + horizon].close > bars[i].close)
  }

  function LabelsAt(bars: seq<Bar>, indices: seq<int>, horizon: nat): (labels: seq<nat>)
    requires forall k :: 0 <= k < |indices| ==> 0 <= indices[k] && indices[k] + horizon < |bars|
    ensures |labels| == |indices|
  {
    if indices == [] then [] else LabelsAt(bars, indices[..|indices| - 1], horizon) + [LabelAt(bars, indices[|indices| - 1], horizon)]
  }

  /** The sum of the squared errors of the forecasts. */
  function SquaredErrors(fit: Fit, states: seq<State>, labels: seq<nat>): real
    requires |states| == |labels| && forall k :: 0 <= k < |states| ==> states[k] in fit.cells
  {
    if states == [] then 0.0
    else
      var last := |states| - 1;
      var error := fit.cells[states[last]].probability - labels[last] as real;
      SquaredErrors(fit, states[..last], labels[..last]) + error * error
  }

  /** A place of the smallest score, and the first one. */
  function Winner(scores: seq<real>): (w: nat)
    requires scores != []
    ensures w < |scores| && forall k :: 0 <= k < |scores| ==> scores[w] <= scores[k] && (k < w ==> scores[w] < scores[k])
  {
    if |scores| == 1 then 0
    else
      var w := Winner(scores[..|scores| - 1]);
      if scores[|scores| - 1] < scores[w] then |scores| - 1 else w
  }

  /** A candidate's fit on the training labels, and its mean squared error on the validation labels. */
  datatype Candidate = Candidate(fit: Fit, brier: real)

  predicate InBars(indices: seq<int>, required: nat, horizon: nat, n: nat) {
    forall k :: 0 <= k < |indices| ==> 0 <= indices[k] && required - 1 <= indices[k] && indices[k] + horizon < n
  }

  function CandidateOf(bars: seq<Bar>, train: seq<int>, validation: seq<int>, horizon: nat, required: nat,
                       observe: seq<Bar> -> State, ranked: set<State>): Candidate
    requires 0 < required && validation != [] && Closes(bars) && Observes(required, observe, ranked)
    requires InBars(train, required, horizon, |bars|) && InBars(validation, required, horizon, |bars|)
  {
    var fit := FitOf(StatesAt(bars, train, required, observe), LabelsAt(bars, train, horizon), ranked);
    StatesAreRanked(bars, validation, required, observe, ranked);
    Candidate(fit, SquaredErrors(fit, StatesAt(bars, validation, required, observe), LabelsAt(bars, validation, horizon)) / |validation| as real)
  }

  lemma {:induction false} StatesAreRanked(bars: seq<Bar>, indices: seq<int>, required: nat, observe: seq<Bar> -> State, ranked: set<State>)
    requires 0 < required && Closes(bars) && Observes(required, observe, ranked)
    requires forall k :: 0 <= k < |indices| ==> required - 1 <= indices[k] < |bars|
    ensures forall k :: 0 <= k < |indices| ==> StatesAt(bars, indices, required, observe)[k] in ranked
  {
    if indices != [] { StatesAreRanked(bars, indices[..|indices| - 1], required, observe, ranked); }
  }

  predicate ValidGrid(grid: seq<Strategy>, warmup: nat) {
    && grid != []
    && forall i :: 0 <= i < |grid| ==> ValidStrategy(grid[i]) && !grid[i].OtherStrategy? && Required(grid[i]) <= warmup
  }

  /** The candidate of one place in the grid. */
  function CandidateAt(bars: seq<Bar>, train: seq<int>, validation: seq<int>, horizon: nat, grid: seq<Strategy>, warmup: nat,
                       round: real -> real, i: nat): Candidate
    requires ValidGrid(grid, warmup) && i < |grid| && validation != [] && Closes(bars)
    requires InBars(train, warmup, horizon, |bars|) && InBars(validation, warmup, horizon, |bars|)
  {
    EvaluatorObserves(grid[i], round);
    CandidateOf(bars, train, validation, horizon, Required(grid[i]), Evaluator(grid[i], round), Supported(grid[i]))
  }

  function CandidateFor(bars: seq<Bar>, train: seq<int>, validation: seq<int>, horizon: nat, grid: seq<Strategy>, warmup: nat,
                        round: real -> real): (one: nat --> Candidate)
    requires ValidGrid(grid, warmup) && validation != [] && Closes(bars)
    requires InBars(train, warmup, horizon, |bars|) && InBars(validation, warmup, horizon, |bars|)
    ensures forall i: nat :: i < |grid| ==> one.requires(i)
  {
    (i: nat) requires i < |grid| => CandidateAt(bars, train, validation, horizon, grid, warmup, round, i)
  }

  function Collected(one: nat --> Candidate, k: nat): (c: seq<Candidate>)
    requires forall i: nat :: i < k ==> one.requires(i)
    ensures |c| == k
  {
    if k == 0 then [] else Collected(one, k - 1) + [one(k - 1)]
  }

  lemma {:induction false} SameCollected(one: nat --> Candidate, other: nat --> Candidate, k: nat)
    requires forall i: nat :: i < k ==> one.requires(i) && other.requires(i) && one(i) == other(i)
    ensures Collected(one, k) == Collected(other, k)
  {
    if k > 0 { SameCollected(one, other, k - 1); }
  }

  /** The candidates of the first k places of a grid, in its order. */
  function Candidates(bars: seq<Bar>, train: seq<int>, validation: seq<int>, horizon: nat, grid: seq<Strategy>, warmup: nat,
                      round: real -> real, k: nat): (c: seq<Candidate>)
    requires ValidGrid(grid, warmup) && k <= |grid| && validation != [] && Closes(bars)
    requires InBars(train, warmup, horizon, |bars|) && InBars(validation, warmup, horizon, |bars|)
    ensures |c| == k
  {
    Collected(CandidateFor(bars, train, validation, horizon, grid, warmup, round), k)
  }

  function Scores(candidates: seq<Candidate>): (scores: seq<real>)
    ensures |scores| == |candidates|
  {
    if candidates == [] then [] else Scores(candidates[..|candidates| - 1]) + [candidates[|candidates| - 1].brier]
  }

  datatype Selection = Selection(candidates: seq<Candidate>, winner: nat)

  /** Fitting and selection see the train and validation splits, and nothing else. */
  function Select(bars: seq<Bar>, train: seq<int>, validation: seq<int>, horizon: nat, grid: seq<Strategy>, warmup: nat,
                  round: real -> real): Selection
    requires ValidGrid(grid, warmup) && validation != [] && Closes(bars)
    requires InBars(train, warmup, horizon, |bars|) && InBars(validation, warmup, horizon, |bars|)
  {
    var candidates := Candidates(bars, train, validation, horizon, grid, warmup, round, |grid|);
    Selection(candidates, Winner(Scores(candidates)))
  }

  /** The two grids of the source, and the longest warm-up of each. */
  function BandGrid(): seq<Strategy> {
    [VolatilityBand(10, 2.0), VolatilityBand(10, 3.0), VolatilityBand(10, 5.0), VolatilityBand(20, 2.0), VolatilityBand(20, 3.0),
     VolatilityBand(20, 5.0), VolatilityBand(40, 2.0), VolatilityBand(40, 3.0), VolatilityBand(40, 5.0)]
  }

  function TrendGrid(): seq<Strategy> { [SlowTrend(10, 60, 1), SlowTrend(20, 100, 3), SlowTrend(50, 200, 3)] }

  lemma {:induction false} GridsAreValid()
    ensures ValidGrid(BandGrid(), 40) && ValidGrid(TrendGrid(), 202)
    ensures exists i, k :: 0 <= i < |BandGrid()| && 0 <= k < |TrendGrid()| && ValidStrategy(BandGrid()[i]) && ValidStrategy(TrendGrid()[k])
                           && Required(BandGrid()[i]) == 40 && Required(TrendGrid()[k]) == 202
  {
    assert ValidStrategy(BandGrid()[8]) && Required(BandGrid()[8]) == 40;
    assert ValidStrategy(TrendGrid()[2]) && Required(TrendGrid()[2]) == 202;
  }

  method FirstSmallest(scores: seq<real>) returns (w: nat)
    requires scores != []
    ensures w == Winner(scores)
  {
    w := 0;
    assert scores[..1] == [scores[0]];
    for i := 1 to |scores|
      invariant w < i && w == Winner(scores[..i])
    {
      assert scores[..i + 1][..i] == scores[..i];
      if scores[i] < scores[w] { w := i; }
    }
    assert scores[..|scores|] == scores;
  }

  /** The loop over the grid. */
  method SelectCandidate(bars: seq<Bar>, train: seq<int>, validation: seq<int>, horizon: nat, grid: seq<Strategy>, warmup: nat,
                         round: real -> real) returns (selection: Selection)
    requires ValidGrid(grid, warmup) && validation != [] && Closes(bars)
    requires InBars(train, warmup, horizon, |bars|) && InBars(validation, warmup, horizon, |bars|)
    ensures selection == Select(bars, train, validation, horizon, grid, warmup, round)
  {
    var candidates, scores := [], [];
    for index := 0 to |grid|
      invariant candidates == Candidates(bars, train, validation, horizon, grid, warmup, round, index)
      invariant scores == Scores(candidates)
    {
      var candidate := CandidateAt(bars, train, validation, horizon, grid, warmup, round, index);
      assert (candidates + [candidate])[..index] == candidates;
      candidates, scores := candidates + [candidate], scores + [candidate.brier];
    }
    var winner := FirstSmallest(scores);
    return Selection(candidates, winner);
  }

  // ------------------------------------------------------------ independence

  /** Two histories that agree on their first n bars have the same bars, and the same windows, in there. */
  lemma {:induction false} SameBar(bars: seq<Bar>, bars': seq<Bar>, n: nat, i: nat)
    requires i < n <= |bars| && n <= |bars'| && bars[..n] == bars'[..n]
    ensures bars[i] == bars'[i]
  {
    assert bars[i] == bars[..n][i] && bars'[i] == bars'[..n][i];
  }

  lemma {:induction false} SameSlice(bars: seq<Bar>, bars': seq<Bar>, n: nat, lo: nat, hi: nat)
    requires lo <= hi <= n <= |bars| && n <= |bars'| && bars[..n] == bars'[..n]
    ensures bars[lo..hi] == bars'[lo..hi]
  {
    var a, b := bars[lo..hi], bars'[lo..hi];
    forall i | 0 <= i < hi - lo ensures a[i] == b[i] {
      assert a[i] == bars[lo + i] && b[i] == bars'[lo + i];
      SameBar(bars, bars', n, lo + i);
    }
  }

  lemma {:induction false} SameStates(bars: seq<Bar>, bars': seq<Bar>, n: nat, indices: seq<int>, required: nat, observe: seq<Bar> -> State)
    requires n <= |bars| && n <= |bars'| && bars[..n] == bars'[..n] && 0 < required
    requires forall k :: 0 <= k < |indices| ==> required - 1 <= indices[k] < n
    ensures StatesAt(bars, indices, required, observe) == StatesAt(bars', indices, required, observe)
  {
    if indices != [] {
      var i := indices[|indices| - 1];
      SameStates(bars, bars', n, indices[..|indices| - 1], required, observe);
      SameSlice(bars, bars', n, i + 1 - required, i + 1);
    }
  }

  lemma {:induction false} SameLabels(bars: seq<Bar>, bars': seq<Bar>, n: nat, indices: seq<int>, horizon: nat)
    requires n <= |bars| && n <= |bars'| && bars[..n] == bars'[..n]
    requires forall k :: 0 <= k < |indices| ==> 0 <= indices[k] && indices[k] + horizon < n
    ensures LabelsAt(bars, indices, horizon) == LabelsAt(bars', indices, horizon)
  {
    if indices != [] {
      var i := indices[|indices| - 1];
      SameLabels(bars, bars', n, indices[..|indices| - 1], horizon);
      SameBar(bars, bars', n, i);
      SameBar(bars, bars', n, i + horizon);
    }
  }

  lemma {:induction false} SameCandidate(bars: seq<Bar>, bars': seq<Bar>, n: nat, train: seq<int>, validation: seq<int>, horizon: nat,
                                         required: nat, observe: seq<Bar> -> State, supported: set<State>)
    requires n <= |bars| && n <= |bars'| && bars[..n] == bars'[..n] && validation != [] && 0 < required
    requires InBars(train, required, horizon, n) && InBars(validation, required, horizon, n)
    requires Observes(required, observe, supported) && Closes(bars) && Closes(bars')
    ensures CandidateOf(bars, train, validation, horizon, required, observe, supported)
         == CandidateOf(bars', train, validation, horizon, required, observe, supported)
  {
    SameStates(bars, bars', n, train, required, observe);
    SameStates(bars, bars', n, validation, required, observe);
    SameLabels(bars, bars', n, train, horizon);
    SameLabels(bars, bars', n, validation, horizon);
  }

  lemma {:induction false} ShorterWarmup(indices: seq<int>, warmup: nat, required: nat, horizon: nat, n: nat)
    requires InBars(indices, warmup, horizon, n) && required <= warmup
    ensures InBars(indices, required, horizon, n)
  {
  }

  /** The candidate of one place in the grid. */
  lemma {:induction false} SamePlace(bars: seq<Bar>, bars': seq<Bar>, n: nat, train: seq<int>, validation: seq<int>, horizon: nat,
                                     grid: seq<Strategy>, warmup: nat, round: real -> real, i: nat)
    requires n <= |bars| && n <= |bars'| && bars[..n] == bars'[..n] && Closes(bars) && Closes(bars')
    requires ValidGrid(grid, warmup) && i < |grid| && validation != []
    requires InBars(train, warmup, horizon, n) && InBars(validation, warmup, horizon, n)
    ensures CandidateAt(bars, train, validation, horizon, grid, warmup, round, i)
         == CandidateAt(bars', train, validation, horizon, grid, warmup, round, i)
  {
    var s := grid[i];
    EvaluatorObserves(s, round);
    ShorterWarmup(train, warmup, Required(s), horizon, n);
    ShorterWarmup(validation, warmup, Required(s), horizon, n);
    SameCandidate(bars, bars', n, train, validation, horizon, Required(s), Evaluator(s, round), Supported(s));
  }

  lemma {:induction false} SameCandidates(bars: seq<Bar>, bars': seq<Bar>, n: nat, train: seq<int>, validation: seq<int>, horizon: nat,
                                          grid: seq<Strategy>, warmup: nat, round: real -> real)
    requires n <= |bars| && n <= |bars'| && bars[..n] == bars'[..n] && Closes(bars) && Closes(bars')
    requires ValidGrid(grid, warmup) && validation != []
    requires InBars(train, warmup, horizon, n) && InBars(validation, warmup, horizon, n)
    ensures Candidates(bars, train, validation, horizon, grid, warmup, round, |grid|)
         == Candidates(bars', train, validation, horizon, grid, warmup, round, |grid|)
  {
    var one := CandidateFor(bars, train, validation, horizon, grid, warmup, round);
    var other := CandidateFor(bars', train, validation, horizon, grid, warmup, round);
    forall i: nat | i < |grid| ensures one(i) == other(i) {
      SamePlace(bars, bars', n, train, validation, horizon, grid, warmup, round, i);
    }
    SameCollected(one, other, |grid|);
  }

  lemma {:induction false} SplitsStayBefore(warmup: nat, horizon: nat, trainEnd: nat, validationEnd: nat)
    requires warmup > 0 && horizon > 0 && trainEnd < validationEnd
    ensures InBars(TrainRange(warmup, horizon, trainEnd), warmup, horizon, validationEnd + 1)
    ensures InBars(ValidationRange(warmup, horizon, trainEnd, validationEnd), warmup, horizon, validationEnd + 1)
  {
  }

  /** Two histories that agree through the validation cutoff get the same fits, the same scores and the same winner. */
  lemma {:induction false} HoldoutIsIndependent(bars: seq<Bar>, bars': seq<Bar>, warmup: nat, horizon: nat, trainEnd: nat, validationEnd: nat,
                                                grid: seq<Strategy>, round: real -> real)
    requires warmup > 0 && horizon > 0 && trainEnd < validationEnd < |bars| && validationEnd < |bars'|
    requires bars[..validationEnd + 1] == bars'[..validationEnd + 1] && Closes(bars) && Closes(bars') && ValidGrid(grid, warmup)
    requires ValidationRange(warmup, horizon, trainEnd, validationEnd) != []
    ensures var train, validation := TrainRange(warmup, horizon, trainEnd), ValidationRange(warmup, horizon, trainEnd, validationEnd);
      && InBars(train, warmup, horizon, |bars|) && InBars(validation, warmup, horizon, |bars|)
      && InBars(train, warmup, horizon, |bars'|) && InBars(validation, warmup, horizon, |bars'|)
      && Select(bars, train, validation, horizon, grid, warmup, round) == Select(bars', train, validation, horizon, grid, warmup, round)
  {
    SplitsStayBefore(warmup, horizon, trainEnd, validationEnd);
    SameCandidates(bars, bars', validationEnd + 1, TrainRange(warmup, horizon, trainEnd),
                   ValidationRange(warmup, horizon, trainEnd, validationEnd), horizon, grid, warmup, round);
  }

  /** Training on either grid of the source, with the warm-up of its longest candidate, never sees the holdout. */
  lemma {:induction false} TrainingIgnoresHoldout(trend: bool, bars: seq<Bar>, bars': seq<Bar>, horizon: nat, trainEnd: nat,
                                                  validationEnd: nat, round: real -> real)
    requires horizon > 0 && trainEnd < validationEnd < |bars| && validationEnd < |bars'|
    requires bars[..validationEnd + 1] == bars'[..validationEnd + 1] && Closes(bars) && Closes(bars')
    requires ValidationRange(if trend then 202 else 40, horizon, trainEnd, validationEnd) != []
    ensures var grid, warmup := if trend then TrendGrid() else BandGrid(), if trend then 202 else 40;
      var train, validation := TrainRange(warmup, horizon, trainEnd), ValidationRange(warmup, horizon, trainEnd, validationEnd);
      && ValidGrid(grid, warmup)
      && InBars(train, warmup, horizon, |bars|) && InBars(validation, warmup, horizon, |bars|)
      && InBars(train, warmup, horizon, |bars'|) && InBars(validation, warmup, horizon, |bars'|)
      && Select(bars, train, validation, horizon, grid, warmup, round) == Select(bars', train, validation, horizon, grid, warmup, round)
  {
    GridsAreValid();
    HoldoutIsIndependent(bars, bars', if trend then 202 else 40, horizon, trainEnd, validationEnd,
                         if trend then TrendGrid() else BandGrid(), round);
  }

  // ------------------------------------------------------------ valid fits

  /** The states of the positive examples. */
  function Positives(states: seq<State>, labels: seq<nat>): seq<State>
    requires |states| == |labels|
  {
    if states == [] then []
    else
      Positives(states[..|states| - 1], labels[..|labels| - 1])
      + if labels[|labels| - 1] == 1 then [states[|states| - 1]] else []
  }

  predicate Binary(labels: seq<nat>) { forall k :: 0 <= k < |labels| ==> labels[k] <= 1 }

  lemma {:induction false} SelectedLength(states: seq<State>, labels: seq<nat>, s: State)
    requires |states| == |labels|
    ensures |Selected(states, labels, s)| == multiset(states)[s]
  {
    if states != [] {
      var n := |states| - 1;
      SelectedLength(states[..n], labels[..n], s);
      assert states == states[..n] + [states[n]];
    }
  }

  lemma {:induction false} SumSnoc(labels: seq<nat>, x: nat)
    ensures Sum(labels + [x]) == Sum(labels) + x
  {
    assert (labels + [x])[..|labels|] == labels;
  }

  lemma {:induction false} SelectedSum(states: seq<State>, labels: seq<nat>, s: State)
    requires |states| == |labels| && Binary(labels)
    ensures Sum(Selected(states, labels, s)) == multiset(Positives(states, labels))[s] <= |Selected(states, labels, s)|
  {
    if states != [] {
      var n := |states| - 1;
      var selected, positives := Selected(states[..n], labels[..n], s), Positives(states[..n], labels[..n]);
      SelectedSum(states[..n], labels[..n], s);
      SumSnoc(selected, labels[n]);
      assert multiset(positives + [states[n]]) == multiset(positives) + multiset{states[n]};
      assert Selected(states, labels, s) == selected + (if states[n] == s then [labels[n]] else []);
      assert Positives(states, labels) == positives + (if labels[n] == 1 then [states[n]] else []);
      assert selected + [] == selected && positives + [] == positives;
    }
  }

  lemma {:induction false} PositivesAreCounted(states: seq<State>, labels: seq<nat>, ranked: set<State>)
    requires |states| == |labels| && Binary(labels) && Ranked(states, ranked)
    ensures Sum(labels) == |Positives(states, labels)| <= |states| && Ranked(Positives(states, labels), ranked)
  {
    if states != [] {
      var n := |states| - 1;
      PositivesAreCounted(states[..n], labels[..n], ranked);
    }
  }

  function CellCount(fit: Fit, s: State, positives: bool): int {
    if s !in fit.cells then 0 else if positives then fit.cells[s].positives else fit.cells[s].support
  }

  function Total(fit: Fit, positives: bool): int {
    CellCount(fit, TriggerObserved, positives) + CellCount(fit, RecoveryObserved, positives)
    + CellCount(fit, NoTriggerObserved, positives) + CellCount(fit, TrendConfirmed, positives)
    + CellCount(fit, TrendNotConfirmed, positives)
  }

  /** What the artifact validator demands of the counts of a fit. */
  predicate FitAddsUp(fit: Fit) {
    && Total(fit, false) == fit.support && Total(fit, true) == fit.positives
    && (forall s :: s in fit.cells ==> fit.cells[s].positives <= fit.cells[s].support <= fit.support)
  }

  lemma {:induction false} CellCounts(states: seq<State>, labels: seq<nat>, ranked: set<State>, s: State)
    requires |states| == |labels| && Binary(labels) && Ranked(states, ranked)
    ensures CellCount(FitOf(states, labels, ranked), s, false) == Get(Histogram(states), s) <= |states|
    ensures CellCount(FitOf(states, labels, ranked), s, true) == Get(Histogram(Positives(states, labels)), s)
    ensures s in ranked ==> CellOf(states, labels, s).positives <= CellOf(states, labels, s).support
  {
    SelectedLength(states, labels, s);
    SelectedSum(states, labels, s);
    PositivesAreCounted(states, labels, ranked);
    if s !in ranked {
      NotThere(states, ranked, s);
      NotThere(Positives(states, labels), ranked, s);
    }
    AtMostAll(states, s);
  }

  lemma {:induction false} NotThere(states: seq<State>, ranked: set<State>, s: State)
    requires Ranked(states, ranked) && s !in ranked
    ensures multiset(states)[s] == 0
  {
    assert s !in states;
  }

  lemma {:induction false} AtMostAll(states: seq<State>, s: State)
    ensures multiset(states)[s] <= |states|
  {
    if states != [] {
      AtMostAll(states[..|states| - 1], s);
      assert states == states[..|states| - 1] + [states[|states| - 1]];
    }
  }

  lemma {:induction false} TotalIsSum(states: seq<State>, labels: seq<nat>, ranked: set<State>)
    requires |states| == |labels| && Binary(labels) && Ranked(states, ranked)
    ensures Total(FitOf(states, labels, ranked), false) == SumOf(Histogram(states))
    ensures Total(FitOf(states, labels, ranked), true) == SumOf(Histogram(Positives(states, labels)))
  {
    CellCounts(states, labels, ranked, TriggerObserved);
    CellCounts(states, labels, ranked, RecoveryObserved);
    CellCounts(states, labels, ranked, NoTriggerObserved);
    CellCounts(states, labels, ranked, TrendConfirmed);
    CellCounts(states, labels, ranked, TrendNotConfirmed);
  }

  /** Every fit that the training makes passes the validator's count checks. */
  lemma {:induction false} EveryFitAddsUp(states: seq<State>, labels: seq<nat>, ranked: set<State>)
    requires |states| == |labels| && Binary(labels) && Ranked(states, ranked) && StrategyStates(ranked)
    ensures FitAddsUp(FitOf(states, labels, ranked))
  {
    TotalIsSum(states, labels, ranked);
    PositivesAreCounted(states, labels, ranked);
    HistogramCounts(states, ranked);
    HistogramCounts(Positives(states, labels), ranked);
    var fit := FitOf(states, labels, ranked);
    forall s | s in fit.cells ensures fit.cells[s].positives <= fit.cells[s].support <= fit.support {
      CellCounts(states, labels, ranked, s);
    }
  }
}
