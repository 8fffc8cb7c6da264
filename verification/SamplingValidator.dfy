/** The strict validator of sampling-quality reports, and the proof that it accepts exactly what the producer builds. */
module SamplingValidator {
  import opened Outcomes
  import opened Calendar
  import opened Sampling

  /** The dates that a first date and the gaps stand for. */
  function Reconstruct(first: int, gaps: seq<int>): (dates: seq<int>)
    ensures |dates| == |gaps| + 1 && dates[0] == first
  {
    if gaps == [] then [first]
    else
      var dates := Reconstruct(first, gaps[..|gaps| - 1]);
      dates + [dates[|dates| - 1] + gaps[|gaps| - 1]]
  }

  predicate Dated(r: Report) {
    && r.first.Some? && r.first.value.Iso? && IsDay(r.first.value.day)
    && r.last.Some? && r.last.value.Iso? && IsDay(r.last.value.day)
    && r.first.value.day <= r.last.value.day && r.last.value.day - r.first.value.day == r.span
  }

  predicate WellFormed(r: Report) {
    && !r.state.OtherState?
    && r.observations >= 0 && r.intervals >= 0 && r.span >= 0 && r.weekdays >= 0 && r.weekends >= 0
    && r.missing >= 0 && r.long >= 0 && r.maxGap >= 0
    && r.intervals == (if r.observations > 0 then r.observations - 1 else 0)
    && r.weekdays + r.weekends == r.observations && r.long <= r.intervals && r.labels == LABELS
    && |r.gaps| == r.intervals && (forall i :: 0 <= i < |r.gaps| ==> r.gaps[i] > 0)
  }

  predicate InCalendar(dates: seq<int>) { forall i :: 0 <= i < |dates| ==> IsDay(dates[i]) }

  /** The walk over the intervals agrees with the totals of the report. */
  predicate WalkAgrees(r: Report, dates: seq<int>)
    requires |dates| == |r.gaps| + 1
  {
    && InCalendar(dates)
    && dates[|dates| - 1] - dates[0] == r.span && r.last == Some(Iso(dates[|dates| - 1]))
    && WeekdaysIn(dates) == r.weekdays && |dates| - WeekdaysIn(dates) == r.weekends
    && MissingIn(dates) == r.missing && LongIn(r.gaps) == r.long && Greatest(r.gaps) == r.maxGap
  }

  predicate Accepts(r: Report) {
    && WellFormed(r)
    && (if r.observations == 0 then r.first.None? && r.last.None? && r.span == 0 else Dated(r))
    && (r.observations == 1 ==>
          r.first == r.last && r.span == 0 && r.weekdays == One(IsWeekday(r.first.value.day)) && r.weekends == 1 - r.weekdays)
    && (r.observations >= 2 ==>
          r.first.value.day < r.last.value.day && WalkAgrees(r, Reconstruct(r.first.value.day, r.gaps)))
    && (r.intervals == 0 ==> r.missing == 0 && r.long == 0 && r.maxGap == 0)
    && r.state == StateOf(r.observations, r.missing, r.weekends)
  }

  datatype Walk = Walk(span: int, last: int, weekdays: int, weekends: int, missing: int, long: int, maxGap: int)

  predicate Walked(w: Walk, first: int, gaps: seq<int>) {
    var dates := Reconstruct(first, gaps);
    && w.last == dates[|dates| - 1] && w.span == w.last - first
    && w.weekdays == WeekdaysIn(dates) && w.weekends == |dates| - WeekdaysIn(dates)
    && w.missing == MissingIn(dates) && w.long == LongIn(gaps) && w.maxGap == Greatest(gaps)
  }

  /** One turn of the walk: an interval of g days. */
  function Advance(w: Walk, g: int): Walk {
    var next := w.last + g;
    Walk(w.span + g, next, w.weekdays + One(IsWeekday(next)), w.weekends + One(!IsWeekday(next)),
         w.missing + WeekdaysStrictlyBetween(w.last, next), w.long + One(g > 3), if g > w.maxGap then g else w.maxGap)
  }

  lemma {:induction false} WalkStep(w: Walk, first: int, gaps: seq<int>, g: int)
    requires Walked(w, first, gaps)
    ensures Reconstruct(first, gaps + [g]) == Reconstruct(first, gaps) + [w.last + g]
    ensures Walked(Advance(w, g), first, gaps + [g])
  {
    var dates := Reconstruct(first, gaps);
    assert (gaps + [g])[..|gaps|] == gaps;
    SnocWeekdays(dates, w.last + g);
    SnocMissing(dates, w.last + g);
    SnocExtremes(gaps, g);
  }

  lemma {:induction false} EarlierDates(first: int, gaps: seq<int>, k: nat)
    requires k <= |gaps|
    ensures Reconstruct(first, gaps[..k]) == Reconstruct(first, gaps)[..k + 1]
    decreases |gaps|
  {
    if k < |gaps| {
      var front := gaps[..|gaps| - 1];
      EarlierDates(first, front, k);
      assert front[..k] == gaps[..k];
      assert Reconstruct(first, gaps)[..k + 1] == Reconstruct(first, front)[..k + 1];
    } else {
      assert gaps[..k] == gaps;
    }
  }

  lemma {:induction false} WalkOnwards(w: Walk, first: int, gaps: seq<int>, k: nat)
    requires k < |gaps| && Walked(w, first, gaps[..k]) && InCalendar(Reconstruct(first, gaps[..k]))
    ensures Walked(Advance(w, gaps[k]), first, gaps[..k + 1])
    ensures InCalendar(Reconstruct(first, gaps[..k + 1])) <==> IsDay(w.last + gaps[k])
    ensures !IsDay(w.last + gaps[k]) ==> !InCalendar(Reconstruct(first, gaps))
  {
    WalkStep(w, first, gaps[..k], gaps[k]);
    assert gaps[..k + 1] == gaps[..k] + [gaps[k]];
    EarlierDates(first, gaps, k + 1);
    assert Reconstruct(first, gaps)[k + 1] == Reconstruct(first, gaps)[..k + 2][k + 1];
  }

  /** The loop of the validator: it fails exactly when a reconstructed date leaves the calendar. */
  method WalkIntervals(first: int, gaps: seq<int>) returns (o: Option<Walk>)
    requires IsDay(first)
    ensures o.Some? <==> InCalendar(Reconstruct(first, gaps))
    ensures o.Some? ==> Walked(o.value, first, gaps)
  {
    var w := Walk(0, first, One(IsWeekday(first)), 1 - One(IsWeekday(first)), 0, 0, 0);
    assert gaps[..0] == [];
    StartsWalked(first);
    for k := 0 to |gaps|
      invariant Walked(w, first, gaps[..k]) && InCalendar(Reconstruct(first, gaps[..k]))
    {
      WalkOnwards(w, first, gaps, k);
      if !IsDay(w.last + gaps[k]) { return None; }
      w := Advance(w, gaps[k]);
    }
    assert gaps[..|gaps|] == gaps;
    return Some(w);
  }

  lemma {:induction false} StartsWalked(first: int)
    ensures Walked(Walk(0, first, One(IsWeekday(first)), 1 - One(IsWeekday(first)), 0, 0, 0), first, [])
  {
    assert [first] == [] + [first];
    SnocWeekdays([], first);
  }

  method ValidateReport(r: Report) returns (ok: bool)
    ensures ok <==> Accepts(r)
    ensures ok <==> exists dates :: Chronological(dates) && r == Build(dates)
  {
    AcceptsExactlyBuilt(r);
    if !WellFormed(r) { return false; }
    if r.observations == 0 {
      if r.first.Some? || r.last.Some? || r.span != 0 { return false; }
    } else {
      if !Dated(r) { return false; }
    }
    if r.observations == 1 {
      var expected := One(IsWeekday(r.first.value.day));
      if r.first != r.last || r.span != 0 || r.weekdays != expected || r.weekends != 1 - expected { return false; }
    } else if r.observations >= 2 {
      if r.first.value.day >= r.last.value.day { return false; }
      var walk := WalkIntervals(r.first.value.day, r.gaps);
      if walk.None? { return false; }
      var w := walk.value;
      if w.span != r.span || w.last != r.last.value.day || w.weekdays != r.weekdays || w.weekends != r.weekends
         || w.missing != r.missing || w.long != r.long || w.maxGap != r.maxGap { return false; }
    }
    if r.intervals == 0 && (r.missing != 0 || r.long != 0 || r.maxGap != 0) { return false; }
    return r.state == StateOf(r.observations, r.missing, r.weekends);
  }

  // ------------------------------------------------------------- exactness

  lemma {:induction false} ReconstructSnoc(first: int, gaps: seq<int>, g: int)
    ensures var dates := Reconstruct(first, gaps);
      dates != [] && Reconstruct(first, gaps + [g]) == dates + [dates[|dates| - 1] + g]
  {
    assert (gaps + [g])[..|gaps|] == gaps;
  }

  lemma {:induction false} OneMoreGap(first: int, gaps: seq<int>, g: int)
    requires Gaps(Reconstruct(first, gaps)) == gaps
    ensures Gaps(Reconstruct(first, gaps + [g])) == gaps + [g]
  {
    ReconstructSnoc(first, gaps, g);
    var dates := Reconstruct(first, gaps);
    SnocGaps(dates, dates[|dates| - 1] + g);
  }

  lemma {:induction false} ReconstructedGaps(first: int, gaps: seq<int>)
    ensures Gaps(Reconstruct(first, gaps)) == gaps
  {
    if gaps != [] {
      var front, g := gaps[..|gaps| - 1], gaps[|gaps| - 1];
      ReconstructedGaps(first, front);
      OneMoreGap(first, front, g);
      assert front + [g] == gaps;
    }
  }

  lemma {:induction false} LaterLast(dates: seq<int>, g: int)
    requires dates != [] && g > 0 && forall i, j :: 0 <= i < j < |dates| ==> dates[i] < dates[j]
    ensures var n := dates + [dates[|dates| - 1] + g]; forall i, j :: 0 <= i < j < |n| ==> n[i] < n[j]
  {
  }

  lemma {:induction false} ReconstructedOrder(first: int, gaps: seq<int>)
    requires forall i :: 0 <= i < |gaps| ==> gaps[i] > 0
    ensures var dates := Reconstruct(first, gaps); forall i, j :: 0 <= i < j < |dates| ==> dates[i] < dates[j]
  {
    if gaps != [] {
      var front, g := gaps[..|gaps| - 1], gaps[|gaps| - 1];
      assert front + [g] == gaps;
      ReconstructedOrder(first, front);
      ReconstructSnoc(first, front, g);
      LaterLast(Reconstruct(first, front), g);
    }
  }

  lemma {:induction false} ReconstructBuilds(first: int, gaps: seq<int>)
    requires forall i :: 0 <= i < |gaps| ==> gaps[i] > 0
    ensures var dates := Reconstruct(first, gaps);
      Gaps(dates) == gaps && forall i, j :: 0 <= i < j < |dates| ==> dates[i] < dates[j]
  {
    ReconstructedGaps(first, gaps);
    ReconstructedOrder(first, gaps);
  }

  lemma {:induction false} ReconstructInverts(dates: seq<int>)
    requires dates != []
    ensures Reconstruct(dates[0], Gaps(dates)) == dates
  {
    if |dates| == 1 {
      assert Gaps(dates) == [];
    } else {
      var front, last := dates[..|dates| - 1], dates[|dates| - 1];
      assert front + [last] == dates;
      ReconstructInverts(front);
      SnocGaps(front, last);
      ReconstructSnoc(front[0], Gaps(front), last - front[|front| - 1]);
    }
  }

  lemma {:induction false} WeekdaysAtMost(dates: seq<int>)
    ensures WeekdaysIn(dates) <= |dates|
  {
    if dates != [] { WeekdaysAtMost(dates[..|dates| - 1]); }
  }

  lemma {:induction false} ExtremesBounded(gaps: seq<int>)
    ensures LongIn(gaps) <= |gaps| && Greatest(gaps) >= 0
  {
    if gaps != [] { ExtremesBounded(gaps[..|gaps| - 1]); }
  }

  lemma {:induction false} GapsArePositive(dates: seq<int>)
    requires Chronological(dates)
    ensures |Gaps(dates)| == (if dates == [] then 0 else |dates| - 1)
    ensures forall i :: 0 <= i < |Gaps(dates)| ==> Gaps(dates)[i] > 0
  {
    if |dates| > 1 { GapsArePositive(dates[..|dates| - 1]); }
  }

  lemma {:induction false} BuiltIsWellFormed(dates: seq<int>)
    requires Chronological(dates)
    ensures WellFormed(Build(dates)) && (dates != [] ==> Dated(Build(dates)))
  {
    WeekdaysAtMost(dates);
    ExtremesBounded(Gaps(dates));
    GapsArePositive(dates);
  }

  /** Every report that the producer builds is accepted. */
  lemma {:induction false} BuiltIsAccepted(dates: seq<int>)
    requires Chronological(dates)
    ensures Accepts(Build(dates))
  {
    BuiltIsWellFormed(dates);
    if |dates| == 1 {
      assert dates == [] + [dates[0]];
      SnocWeekdays([], dates[0]);
    } else if |dates| > 1 {
      ReconstructInverts(dates);
    }
  }

  lemma {:induction false} OneDateIsBuilt(r: Report)
    requires Accepts(r) && r.observations == 1
    ensures r == Build([r.first.value.day])
  {
    assert [r.first.value.day] == [] + [r.first.value.day];
    SnocWeekdays([], r.first.value.day);
  }

  lemma {:induction false} ManyDatesAreBuilt(r: Report, dates: seq<int>)
    requires WellFormed(r) && r.observations >= 2 && Dated(r) && |dates| == r.observations && dates[0] == r.first.value.day
    requires WalkAgrees(r, dates) && Gaps(dates) == r.gaps && r.state == StateOf(r.observations, r.missing, r.weekends)
    ensures r == Build(dates)
  {
  }

  /** An accepted report is the build of the dates that its intervals stand for. */
  lemma {:induction false} AcceptedIsBuilt(r: Report)
    requires Accepts(r)
    ensures var dates := if r.observations == 0 then [] else Reconstruct(r.first.value.day, r.gaps);
      Chronological(dates) && r == Build(dates)
  {
    if r.observations > 0 {
      ReconstructBuilds(r.first.value.day, r.gaps);
      if r.observations == 1 {
        OneDateIsBuilt(r);
      } else {
        ManyDatesAreBuilt(r, Reconstruct(r.first.value.day, r.gaps));
      }
    }
  }

  /** The validator accepts exactly the image of the producer. */
  lemma {:induction false} AcceptsExactlyBuilt(r: Report)
    ensures Accepts(r) <==> exists dates :: Chronological(dates) && r == Build(dates)
  {
    if Accepts(r) { AcceptedIsBuilt(r); }
    forall dates | Chronological(dates) && r == Build(dates) ensures Accepts(r) {
      BuiltIsAccepted(dates);
    }
  }

  // ------------------------------------------------- what the report means

  lemma {:induction false} SpanGrows(first: int, before: int, last: int)
    requires first <= before < last
    ensures CountWeekdays(first, last + 1)
         == CountWeekdays(first, before + 1) + WeekdaysStrictlyBetween(before, last) + One(IsWeekday(last))
  {
    ClosedFormCounts(before, last);
    CountAppends(first, before + 1, last);
    CountAppends(first, last, last + 1);
    assert CountWeekdays(last, last + 1) == One(IsWeekday(last));
  }

  lemma {:induction false} ConserveSnoc(front: seq<int>, last: int)
    requires front != [] && front[0] <= front[|front| - 1] < last
    requires WeekdaysIn(front) + MissingIn(front) == CountWeekdays(front[0], front[|front| - 1] + 1)
    ensures WeekdaysIn(front + [last]) + MissingIn(front + [last]) == CountWeekdays(front[0], last + 1)
  {
    SnocWeekdays(front, last);
    SnocMissing(front, last);
    SpanGrows(front[0], front[|front| - 1], last);
  }

  lemma {:induction false} OneDateConserves(d: int)
    ensures WeekdaysIn([d]) + MissingIn([d]) == CountWeekdays(d, d + 1)
  {
    assert [d] == [] + [d];
    SnocWeekdays([], d);
    assert CountWeekdays(d + 1, d + 1) == 0;
  }

  lemma {:induction false} FrontIsChronological(dates: seq<int>)
    requires Chronological(dates) && |dates| > 1
    ensures Chronological(dates[..|dates| - 1])
  {
  }

  /** The weekdays seen and the weekdays missing are all the weekdays of the span. */
  lemma {:induction false} WeekdaysAreConserved(dates: seq<int>)
    requires Chronological(dates) && dates != []
    ensures WeekdaysIn(dates) + MissingIn(dates) == CountWeekdays(dates[0], dates[|dates| - 1] + 1)
  {
    var front, last := dates[..|dates| - 1], dates[|dates| - 1];
    assert dates == front + [last];
    if |dates| == 1 {
      OneDateConserves(last);
    } else {
      FrontIsChronological(dates);
      WeekdaysAreConserved(front);
      ConserveSnoc(front, last);
    }
  }

  lemma {:induction false} AllWeekdays(dates: seq<int>)
    ensures WeekdaysIn(dates) == |dates| <==> forall i :: 0 <= i < |dates| ==> IsWeekday(dates[i])
  {
    if dates != [] {
      var front, last := dates[..|dates| - 1], dates[|dates| - 1];
      AllWeekdays(front);
      WeekdaysAtMost(front);
      assert WeekdaysIn(dates) == WeekdaysIn(front) + One(IsWeekday(last));
      assert forall i :: 0 <= i < |front| ==> front[i] == dates[i];
    }
  }

  predicate Inside(dates: seq<int>, i: nat, d: int)
    requires 0 < i < |dates|
  {
    dates[i - 1] < d < dates[i]
  }

  /** No weekday lies strictly between two consecutive dates. */
  ghost predicate GapFree(dates: seq<int>) {
    forall i, d :: 0 < i < |dates| && Inside(dates, i, d) ==> !IsWeekday(d)
  }

  lemma {:induction false} NoneMissing(dates: seq<int>)
    ensures MissingIn(dates) == 0 <==> GapFree(dates)
  {
    if |dates| > 1 {
      var front, last := dates[..|dates| - 1], dates[|dates| - 1];
      NoneMissing(front);
      assert front + [last] == dates;
      SnocMissing(front, last);
      ClosedFormCounts(front[|front| - 1], last);
      NoneCounted(front[|front| - 1] + 1, last);
      GapFreeSnoc(front, last);
    }
  }

  lemma {:induction false} GapFreeSnoc(dates: seq<int>, last: int)
    requires dates != []
    ensures GapFree(dates + [last]) <==>
            GapFree(dates) && forall d :: dates[|dates| - 1] + 1 <= d < last ==> !IsWeekday(d)
  {
    var longer := dates + [last];
    if GapFree(longer) {
      forall i, d | 0 < i < |dates| && Inside(dates, i, d) ensures !IsWeekday(d) {
        assert Inside(longer, i, d);
      }
      forall d | dates[|dates| - 1] + 1 <= d < last ensures !IsWeekday(d) {
        assert Inside(longer, |dates|, d);
      }
    }
    if GapFree(dates) && forall d :: dates[|dates| - 1] + 1 <= d < last ==> !IsWeekday(d) {
      forall i, d | 0 < i < |longer| && Inside(longer, i, d) ensures !IsWeekday(d) {
        assert i < |dates| ==> Inside(dates, i, d);
      }
    }
  }

  /** A day of the span that was not observed lies between two consecutive dates. */
  lemma {:induction false} FallsInGap(dates: seq<int>, d: int) returns (i: nat)
    requires Chronological(dates) && dates != [] && dates[0] <= d <= dates[|dates| - 1] && d !in dates
    ensures 0 < i < |dates| && Inside(dates, i, d)
  {
    var front := dates[..|dates| - 1];
    assert dates[0] in dates && dates[|dates| - 1] in dates;
    if d < dates[|dates| - 2] {
      assert dates[|dates| - 2] == front[|front| - 1];
      i := FallsInGap(front, d);
    } else {
      assert dates[|dates| - 2] in dates;
      i := |dates| - 1;
    }
  }

  lemma {:induction false} NotObserved(dates: seq<int>, i: nat, d: int)
    requires Chronological(dates) && 0 < i < |dates| && Inside(dates, i, d)
    ensures d !in dates && dates[0] <= d <= dates[|dates| - 1]
  {
  }

  /** The dates are exactly the weekdays of their span. */
  predicate IsWeekdayGrid(dates: seq<int>)
    requires dates != []
  {
    forall d :: dates[0] <= d <= dates[|dates| - 1] ==> (d in dates <==> IsWeekday(d))
  }

  /** A report says that the weekday grid is covered exactly when the dates are the weekdays of their span. */
  lemma {:induction false} CoveredMeansEveryWeekday(dates: seq<int>)
    requires Chronological(dates) && |dates| >= 2
    ensures Build(dates).state == WeekdayGridCovered <==> IsWeekdayGrid(dates)
  {
    AllWeekdays(dates);
    NoneMissing(dates);
    if Build(dates).state == WeekdayGridCovered {
      forall d | dates[0] <= d <= dates[|dates| - 1] ensures d in dates <==> IsWeekday(d) {
        if d !in dates { var i := FallsInGap(dates, d); }
      }
    }
    if IsWeekdayGrid(dates) {
      forall i | 0 <= i < |dates| ensures IsWeekday(dates[i]) {
        assert dates[i] in dates;
      }
      forall i, d | 0 < i < |dates| && Inside(dates, i, d) ensures !IsWeekday(d) { NotObserved(dates, i, d); }
    }
  }
}
