/** The sampling-quality report of a series of observation dates: its producer, and its strict validator. */
module Sampling {
  import opened Outcomes
  import opened Calendar

  datatype State = InsufficientHistory | WeekdayGridCovered | PotentialWeekdayGaps | NonWeekdayObservations
                 | MixedIrregularSampling | OtherState(text: string)

  /** The fields that never vary. */
  datatype Labels = Labels(dtoVersion: string, calendarBasis: string, weekdayGapCaveat: string, providerCalls: string,
                           accountData: string, execution: string, candidateIntent: string, claimBoundary: string)

  const LABELS := Labels("market-history-sampling-quality.v1", "weekday-grid-not-exchange-calendar",
                         "potential weekday gaps are not proof of missing market sessions because holidays and exchange calendars are not modeled",
                         "blocked", "absent", "blocked", "skip",
                         "sampling-coverage-only-no-financial-or-session-completeness-claim")

  datatype Report = Report(state: State, observations: int, intervals: int, gaps: seq<int>,
                           first: Option<DateText>, last: Option<DateText>, span: int, weekdays: int, weekends: int,
                           missing: int, long: int, maxGap: int, labels: Labels)

  // ---------------------------------------------------------------- producer

  predicate Chronological(dates: seq<int>) {
    && (forall i :: 0 <= i < |dates| ==> IsDay(dates[i]))
    && (forall i, j :: 0 <= i < j < |dates| ==> dates[i] < dates[j])
  }

  function Gaps(dates: seq<int>): seq<int> {
    if |dates| < 2 then [] else Gaps(dates[..|dates| - 1]) + [dates[|dates| - 1] - dates[|dates| - 2]]
  }

  function WeekdaysIn(dates: seq<int>): nat {
    if dates == [] then 0 else WeekdaysIn(dates[..|dates| - 1]) + One(IsWeekday(dates[|dates| - 1]))
  }

  function MissingIn(dates: seq<int>): nat {
    if |dates| < 2 then 0
    else MissingIn(dates[..|dates| - 1]) + WeekdaysStrictlyBetween(dates[|dates| - 2], dates[|dates| - 1])
  }

  function LongIn(gaps: seq<int>): nat {
    if gaps == [] then 0 else LongIn(gaps[..|gaps| - 1]) + One(gaps[|gaps| - 1] > 3)
  }

  function Greatest(gaps: seq<int>): int {
    if gaps == [] then 0
    else if gaps[|gaps| - 1] > Greatest(gaps[..|gaps| - 1]) then gaps[|gaps| - 1] else Greatest(gaps[..|gaps| - 1])
  }

  function StateOf(observations: int, missing: int, weekends: int): State {
    if observations < 2 then InsufficientHistory
    else if missing != 0 && weekends != 0 then MixedIrregularSampling
    else if missing != 0 then PotentialWeekdayGaps
    else if weekends != 0 then NonWeekdayObservations
    else WeekdayGridCovered
  }

  function Build(dates: seq<int>): Report {
    var n, gaps := |dates|, Gaps(dates);
    Report(StateOf(n, MissingIn(dates), n - WeekdaysIn(dates)), n, if n == 0 then 0 else n - 1, gaps,
           if n == 0 then None else Some(Iso(dates[0])), if n == 0 then None else Some(Iso(dates[n - 1])),
           if n == 0 then 0 else dates[n - 1] - dates[0], WeekdaysIn(dates), n - WeekdaysIn(dates),
           MissingIn(dates), LongIn(gaps), Greatest(gaps), LABELS)
  }

  function Days(bars: seq<DateText>): seq<int> {
    seq(|bars|, i requires 0 <= i < |bars| => if bars[i].Iso? then bars[i].day else 0)
  }

  lemma {:induction false} SnocWeekdays(dates: seq<int>, d: int)
    ensures WeekdaysIn(dates + [d]) == WeekdaysIn(dates) + One(IsWeekday(d))
  {
    assert (dates + [d])[..|dates|] == dates;
  }

  lemma {:induction false} SnocMissing(dates: seq<int>, d: int)
    requires dates != []
    ensures MissingIn(dates + [d]) == MissingIn(dates) + WeekdaysStrictlyBetween(dates[|dates| - 1], d)
  {
    assert (dates + [d])[..|dates|] == dates;
  }

  lemma {:induction false} SnocGaps(dates: seq<int>, d: int)
    requires dates != []
    ensures Gaps(dates + [d]) == Gaps(dates) + [d - dates[|dates| - 1]]
  {
    assert (dates + [d])[..|dates|] == dates;
  }

  lemma {:induction false} SnocExtremes(gaps: seq<int>, g: int)
    ensures LongIn(gaps + [g]) == LongIn(gaps) + One(g > 3)
    ensures Greatest(gaps + [g]) == if g > Greatest(gaps) then g else Greatest(gaps)
  {
    assert (gaps + [g])[..|gaps|] == gaps;
  }

  /** What the interval loop gathers about a non-empty run of dates. */
  predicate Measured(dates: seq<int>, gaps: seq<int>, missing: int, long: int, maxGap: int) {
    gaps == Gaps(dates) && missing == MissingIn(dates) && long == LongIn(gaps) && maxGap == Greatest(gaps)
  }

  lemma {:induction false} SnocMeasured(dates: seq<int>, d: int, gaps: seq<int>, missing: int, long: int, maxGap: int)
    requires dates != [] && Measured(dates, gaps, missing, long, maxGap)
    ensures var start := dates[|dates| - 1];
      Measured(dates + [d], gaps + [d - start], missing + WeekdaysStrictlyBetween(start, d),
               long + One(d - start > 3), if d - start > maxGap then d - start else maxGap)
  {
    var g := d - dates[|dates| - 1];
    SnocExtremes(gaps, g);
    SnocGaps(dates, d);
    SnocMissing(dates, d);
  }

  /** The dates of the bars: refused unless they are canonical and strictly increasing. */
  method ParseDates(bars: seq<DateText>) returns (r: Option<seq<int>>)
    ensures r.Some? <==> (forall i :: 0 <= i < |bars| ==> bars[i].Iso?) && Chronological(Days(bars))
    ensures r.Some? ==> r.value == Days(bars)
  {
    var dates: seq<int> := [];
    for k := 0 to |bars|
      invariant |dates| == k && dates == Days(bars)[..k] && Chronological(dates)
      invariant forall i :: 0 <= i < k ==> bars[i].Iso?
    {
      assert Days(bars)[k] == if bars[k].Iso? then bars[k].day else 0;
      assert k > 0 ==> dates[k - 1] == Days(bars)[k - 1];
      if bars[k].OtherText? || !IsDay(bars[k].day) || (k > 0 && bars[k].day <= dates[k - 1]) { return None; }
      assert Days(bars)[..k + 1] == Days(bars)[..k] + [Days(bars)[k]];
      dates := dates + [bars[k].day];
    }
    assert dates == Days(bars);
    return Some(dates);
  }

  method MeasureIntervals(dates: seq<int>) returns (gaps: seq<int>, missing: int, long: int, maxGap: int)
    ensures Measured(dates, gaps, missing, long, maxGap)
  {
    gaps, missing, long, maxGap := [], 0, 0, 0;
    if dates == [] { return; }
    for k := 1 to |dates|
      invariant Measured(dates[..k], gaps, missing, long, maxGap)
    {
      var start, end := dates[k - 1], dates[k];
      SnocMeasured(dates[..k], end, gaps, missing, long, maxGap);
      assert dates[..k + 1] == dates[..k] + [end];
      gaps := gaps + [end - start];
      missing := missing + WeekdaysStrictlyBetween(start, end);
      long := long + One(end - start > 3);
      maxGap := if end - start > maxGap then end - start else maxGap;
    }
    assert dates[..|dates|] == dates;
  }

  method CountObservedWeekdays(dates: seq<int>) returns (weekdays: nat)
    ensures weekdays == WeekdaysIn(dates)
  {
    weekdays := 0;
    for k := 0 to |dates|
      invariant weekdays == WeekdaysIn(dates[..k])
    {
      SnocWeekdays(dates[..k], dates[k]);
      assert dates[..k + 1] == dates[..k] + [dates[k]];
      weekdays := weekdays + One(IsWeekday(dates[k]));
    }
    assert dates[..|dates|] == dates;
  }

  /** The producer of the report. */
  method BuildReport(bars: seq<DateText>) returns (r: Option<Report>)
    ensures r.Some? <==> (forall i :: 0 <= i < |bars| ==> bars[i].Iso?) && Chronological(Days(bars))
    ensures r.Some? ==> r.value == Build(Days(bars))
  {
    var parsed := ParseDates(bars);
    if parsed.None? { return None; }
    var dates := parsed.value;
    var n := |dates|;
    var weekdays := CountObservedWeekdays(dates);
    var gaps, missing, long, maxGap := MeasureIntervals(dates);
    return Some(Report(StateOf(n, missing, n - weekdays), n, if n == 0 then 0 else n - 1, gaps,
                       if n == 0 then None else Some(Iso(dates[0])), if n == 0 then None else Some(Iso(dates[n - 1])),
                       if n == 0 then 0 else dates[n - 1] - dates[0], weekdays, n - weekdays, missing, long, maxGap, LABELS));
  }
}
