/**
  Scores of matured forecasts, and the availability of their outcomes. A record of the evidence store is its own
  name (the source names it by its digest), so a score that supersedes another holds it. Each forecast has its own
  track of scores and events; the rows of a forecast stand for their digest.
*/
module ForwardScores {
  import opened Outcomes
  import opened Calendar

  const HORIZON := 5

  datatype Bar = Bar(date: int, body: int)
  datatype Forecast = Forecast(series: int, createdAt: int, asOf: int, features: seq<Bar>, retention: int)

  datatype Score = Score(window: seq<Bar>, featuresRevised: bool, revision: nat, supersedes: Option<Score>,
                         createdAt: int, retrievedAt: int)
  datatype Event = Event(available: bool, recordedAt: int, retrievedAt: int, retention: int)
  datatype Track = Track(scores: seq<Score>, events: seq<Event>)

  /** The tracks stand in the order of the forecasts. */
  type Journal = seq<Track>

  datatype Pass = Pass(series: int, bars: seq<Bar>, withdrawn: set<int>, retention: int, retrievedAt: int, now: int)

  predicate Chronological(bars: seq<Bar>) { forall a, b :: 0 <= a < b < |bars| ==> bars[a].date < bars[b].date }

  /** What the pass refuses before it reads the store. */
  predicate Admissible(q: Pass) {
    && Chronological(q.bars) && q.retrievedAt <= q.now
    && forall i :: 0 <= i < |q.bars| ==> q.bars[i].date < DayOf(q.retrievedAt)
  }

  function Last<T>(s: seq<T>): Option<T> { if s == [] then None else Some(s[|s| - 1]) }

  // ---------------------------------------------------------------- outcomes

  function IndexOf(bars: seq<Bar>, date: int): Option<nat> {
    if bars == [] then None
    else if bars[|bars| - 1].date == date then Some(|bars| - 1)
    else IndexOf(bars[..|bars| - 1], date)
  }

  lemma {:induction false} IndexOfFinds(bars: seq<Bar>, date: int)
    ensures IndexOf(bars, date).Some? ==> IndexOf(bars, date).value < |bars| && bars[IndexOf(bars, date).value].date == date
  {
    if bars != [] { IndexOfFinds(bars[..|bars| - 1], date); }
  }

  datatype Outcome = Missing | Observed(window: seq<Bar>, featuresRevised: bool)

  /** The outcome of a forecast in the rows of a pass: missing if its window is not complete, or touches a withdrawn date. */
  function OutcomeOf(q: Pass, f: Forecast): Outcome {
    var i := IndexOf(q.bars, f.asOf);
    if i.None? || i.value + HORIZON >= |q.bars| then Missing
    else if exists d :: d in q.withdrawn && q.bars[i.value].date <= d <= q.bars[i.value + HORIZON].date then Missing
    else Observed(q.bars[i.value..i.value + HORIZON + 1], q.bars[..i.value + 1] != f.features)
  }

  // -------------------------------------------------------------------- a pass

  datatype Write = PutScore(k: nat, score: Score) | PutEvent(k: nat, event: Event)

  predicate Withdrawn(t: Track) { t.events != [] && !t.events[|t.events| - 1].available }

  predicate UpToDate(t: Track, outcome: Outcome) {
    && outcome.Observed? && t.scores != []
    && t.scores[|t.scores| - 1].window == outcome.window && t.scores[|t.scores| - 1].featuresRevised == outcome.featuresRevised
  }

  function NextScore(t: Track, outcome: Outcome, q: Pass): Score
    requires outcome.Observed?
  {
    Score(outcome.window, outcome.featuresRevised, |t.scores|, Last(t.scores), q.now, q.retrievedAt)
  }

  /** The records that an outcome calls for, in order: a restoration only after the score it restores. */
  function WritesOf(t: Track, k: nat, outcome: Outcome, q: Pass): seq<Write> {
    if outcome.Missing? then
      if (t.scores != [] || t.events != []) && !Withdrawn(t) then [PutEvent(k, Event(false, q.now, q.retrievedAt, q.retention))] else []
    else
      (if UpToDate(t, outcome) then [] else [PutScore(k, NextScore(t, outcome, q))])
      + (if Withdrawn(t) then [PutEvent(k, Event(true, q.now, q.retrievedAt, q.retention))] else [])
  }

  /** The records that the pass writes for one forecast. */
  function WritesFor(t: Track, k: nat, f: Forecast, q: Pass): seq<Write> {
    if f.series != q.series then [] else WritesOf(t, k, OutcomeOf(q, f), q)
  }

  function Put(t: Track, w: Write): Track {
    match w
    case PutScore(_, score) => t.(scores := t.scores + [score])
    case PutEvent(_, event) => t.(events := t.events + [event])
  }

  function PutAll(t: Track, writes: seq<Write>): Track {
    if writes == [] then t else Put(PutAll(t, writes[..|writes| - 1]), writes[|writes| - 1])
  }

  // --------------------------------------------------------------- validators

  predicate ScoreOk(f: Forecast, s: Score) {
    && |s.window| == HORIZON + 1 && Chronological(s.window) && s.window[0].date == f.asOf
    && s.window[HORIZON].date < DayOf(s.retrievedAt) && f.createdAt <= s.createdAt && s.retrievedAt <= s.createdAt
  }

  /** Revisions count from zero, and each score supersedes the one before it. */
  predicate ScoresOk(f: Forecast, scores: seq<Score>) {
    forall i :: 0 <= i < |scores| ==>
      ScoreOk(f, scores[i]) && scores[i].revision == i && scores[i].supersedes == Last(scores[..i])
  }

  predicate EventOk(f: Forecast, e: Event) { e.retrievedAt <= e.recordedAt && e.retention == f.retention }

  /** A chain of events starts with a withdrawal and alternates, at strictly increasing times. */
  predicate EventsOk(f: Forecast, events: seq<Event>) {
    && (forall i :: 0 <= i < |events| ==> EventOk(f, events[i]) && events[i].available == (i % 2 == 1))
    && (forall a, b :: 0 <= a < b < |events| ==> events[a].recordedAt < events[b].recordedAt)
  }

  predicate TrackOk(f: Forecast, t: Track) { ScoresOk(f, t.scores) && EventsOk(f, t.events) }

  predicate JournalOk(forecasts: seq<Forecast>, j: Journal) {
    |j| == |forecasts| && forall k :: 0 <= k < |j| ==> TrackOk(forecasts[k], j[k])
  }

  method ValidateEvents(f: Forecast, events: seq<Event>) returns (ok: bool)
    ensures ok <==> EventsOk(f, events)
  {
    for i := 0 to |events|
      invariant EventsOk(f, events[..i])
    {
      if !EventOk(f, events[i]) { return false; }
      if i > 0 {
        if events[i - 1].recordedAt >= events[i].recordedAt || events[i - 1].available == events[i].available {
          assert events[..i][i - 1] == events[i - 1];
          return false;
        }
        assert events[..i][i - 1] == events[i - 1];
      } else if events[0].available {
        return false;
      }
    }
    assert events[..|events|] == events;
    return true;
  }

  method ValidateScores(f: Forecast, scores: seq<Score>) returns (ok: bool)
    ensures ok <==> ScoresOk(f, scores)
  {
    for i := 0 to |scores|
      invariant forall x :: 0 <= x < i ==> ScoreOk(f, scores[x]) && scores[x].revision == x && scores[x].supersedes == Last(scores[..x])
    {
      var expected := if i == 0 then None else Some(scores[i - 1]);
      assert expected == Last(scores[..i]);
      if !ScoreOk(f, scores[i]) || scores[i].revision != i || scores[i].supersedes != expected { return false; }
    }
    return true;
  }

  // --------------------------------------------------- what one pass keeps

  /** The pass is later than the forecast, and than every event of its track. */
  predicate Later(f: Forecast, t: Track, q: Pass) {
    && f.createdAt <= q.now && (forall i :: 0 <= i < |t.events| ==> t.events[i].recordedAt < q.now)
  }

  predicate WritesEvent(writes: seq<Write>) { exists i :: 0 <= i < |writes| && writes[i].PutEvent? }

  lemma {:induction false} ObservedWindowIsOk(q: Pass, f: Forecast)
    requires Admissible(q) && OutcomeOf(q, f).Observed?
    ensures var w := OutcomeOf(q, f).window;
      |w| == HORIZON + 1 && Chronological(w) && w[0].date == f.asOf && w[HORIZON].date < DayOf(q.retrievedAt)
  {
    IndexOfFinds(q.bars, f.asOf);
  }

  lemma {:induction false} NextScoreIsOk(f: Forecast, t: Track, q: Pass)
    requires Admissible(q) && ScoresOk(f, t.scores) && Later(f, t, q) && OutcomeOf(q, f).Observed?
    ensures ScoresOk(f, t.scores + [NextScore(t, OutcomeOf(q, f), q)])
  {
    ObservedWindowIsOk(q, f);
    var n := t.scores + [NextScore(t, OutcomeOf(q, f), q)];
    forall i | 0 <= i < |n| ensures ScoreOk(f, n[i]) && n[i].revision == i && n[i].supersedes == Last(n[..i]) {
      assert i <= |t.scores| && n[..i] == t.scores[..i];
      assert i == |t.scores| ==> t.scores[..i] == t.scores;
    }
  }

  /** An event that turns the availability around is accepted exactly when its retention terms are those of the forecast. */
  lemma {:induction false} NextEventIsOk(f: Forecast, t: Track, q: Pass, available: bool)
    requires Admissible(q) && EventsOk(f, t.events) && Later(f, t, q) && available == Withdrawn(t)
    ensures EventsOk(f, t.events + [Event(available, q.now, q.retrievedAt, q.retention)]) <==> q.retention == f.retention
  {
    var n := t.events + [Event(available, q.now, q.retrievedAt, q.retention)];
    var k := |t.events|;
    assert k > 0 ==> t.events[k - 1].available == ((k - 1) % 2 == 1);
    assert n[k].available == (k % 2 == 1);
  }

  lemma {:induction false} PutSome(t: Track, writes: seq<Write>)
    ensures PutAll(t, []) == t
    ensures |writes| >= 1 ==> PutAll(t, writes[..1]) == Put(t, writes[0])
    ensures |writes| >= 2 ==> PutAll(t, writes[..2]) == Put(Put(t, writes[0]), writes[1])
  {
    if |writes| >= 1 { assert writes[..1][..0] == []; }
    if |writes| >= 2 { assert writes[..2][..1] == writes[..1]; }
  }

  /** One write out of those of a pass keeps the track in order. */
  lemma {:induction false} WriteKeepsTrack(f: Forecast, t: Track, q: Pass, w: Write)
    requires Admissible(q) && TrackOk(f, t) && Later(f, t, q)
    requires w.PutScore? ==> OutcomeOf(q, f).Observed? && w.score == NextScore(t, OutcomeOf(q, f), q)
    requires w.PutEvent? ==> q.retention == f.retention && w.event == Event(Withdrawn(t), q.now, q.retrievedAt, q.retention)
    ensures TrackOk(f, Put(t, w))
  {
    if w.PutScore? {
      NextScoreIsOk(f, t, q);
    } else {
      NextEventIsOk(f, t, q, Withdrawn(t));
    }
  }

  /** After any number of the writes for one forecast its track is in order. */
  lemma {:induction false} WritesKeepTrack(f: Forecast, t: Track, k: nat, q: Pass, cut: nat)
    requires Admissible(q) && TrackOk(f, t) && Later(f, t, q) && cut <= |WritesFor(t, k, f, q)|
    requires WritesEvent(WritesFor(t, k, f, q)) ==> q.retention == f.retention
    ensures TrackOk(f, PutAll(t, WritesFor(t, k, f, q)[..cut]))
  {
    var writes := WritesFor(t, k, f, q);
    PutSome(t, writes);
    if cut == 0 {
      assert writes[..0] == [];
    } else {
      WriteKeepsTrack(f, t, q, writes[0]);
      if cut == 2 { WriteKeepsTrack(f, Put(t, writes[0]), q, writes[1]); }
    }
  }

  // -------------------------------------------------------------- settlement

  /** What a track says about an outcome once a pass is through. */
  predicate Settled(t: Track, outcome: Outcome) {
    if outcome.Missing? then (t.scores == [] && t.events == []) || Withdrawn(t)
    else UpToDate(t, outcome) && !Withdrawn(t)
  }

  /** A track is settled exactly when there is nothing to write. */
  lemma {:induction false} NothingToWrite(f: Forecast, t: Track, k: nat, q: Pass)
    requires f.series == q.series
    ensures WritesFor(t, k, f, q) == [] <==> Settled(t, OutcomeOf(q, f))
  {
  }

  lemma {:induction false} WritesSettle(t: Track, k: nat, outcome: Outcome, q: Pass)
    ensures Settled(PutAll(t, WritesOf(t, k, outcome, q)), outcome)
  {
    var writes := WritesOf(t, k, outcome, q);
    PutSome(t, writes);
    assert writes[..|writes|] == writes;
    if outcome.Observed? && !UpToDate(t, outcome) { ScoreBringsUpToDate(t, outcome, q); }
  }

  /** A completed pass settles the track, so the same rows write nothing more. */
  lemma {:induction false} PassSettles(f: Forecast, t: Track, k: nat, q: Pass)
    requires f.series == q.series
    ensures Settled(PutAll(t, WritesFor(t, k, f, q)), OutcomeOf(q, f))
  {
    WritesSettle(t, k, OutcomeOf(q, f), q);
  }

  lemma {:induction false} ScoreBringsUpToDate(t: Track, outcome: Outcome, q: Pass)
    requires outcome.Observed?
    ensures UpToDate(t.(scores := t.scores + [NextScore(t, outcome, q)]), outcome)
  {
  }

  /** A restoration is written only when the score of the current rows is already in the track. */
  lemma {:induction false} RestorationFollowsScore(f: Forecast, t: Track, k: nat, q: Pass, i: nat)
    requires i < |WritesFor(t, k, f, q)| && WritesFor(t, k, f, q)[i].PutEvent? && WritesFor(t, k, f, q)[i].event.available
    ensures UpToDate(PutAll(t, WritesFor(t, k, f, q)[..i]), OutcomeOf(q, f))
  {
    var writes, outcome := WritesFor(t, k, f, q), OutcomeOf(q, f);
    PutSome(t, writes);
    assert writes[..0] == [];
    if !UpToDate(t, outcome) { ScoreBringsUpToDate(t, outcome, q); }
  }

  /** When a completed pass writes an event, the validators go on to accept the track exactly under the forecast's own terms. */
  lemma {:induction false} EventNeedsForecastTerms(f: Forecast, t: Track, k: nat, q: Pass)
    requires Admissible(q) && TrackOk(f, t) && Later(f, t, q) && WritesEvent(WritesFor(t, k, f, q))
    ensures TrackOk(f, PutAll(t, WritesFor(t, k, f, q))) <==> q.retention == f.retention
  {
    var writes := WritesFor(t, k, f, q);
    PutSome(t, writes);
    assert writes[..|writes|] == writes;
    NextEventIsOk(f, t, q, Withdrawn(t));
    if q.retention == f.retention { WritesKeepTrack(f, t, k, q, |writes|); }
  }

  // -------------------------------------------------------------- whole runs

  /** A pass that was stopped after it finished the forecasts before m and made so many writes for forecast m. */
  function Interrupted(forecasts: seq<Forecast>, j: Journal, q: Pass, m: nat, cut: nat): (n: Journal)
    requires |j| == |forecasts|
    ensures |n| == |j|
  {
    seq(|j|, k requires 0 <= k < |j| =>
      var writes := WritesFor(j[k], k, forecasts[k], q);
      if k < m then PutAll(j[k], writes) else if k == m && cut <= |writes| then PutAll(j[k], writes[..cut]) else j[k])
  }

  function Completed(forecasts: seq<Forecast>, j: Journal, q: Pass): Journal
    requires |j| == |forecasts|
  {
    Interrupted(forecasts, j, q, |j|, 0)
  }

  predicate Before(j: Journal, time: int) {
    forall k, i :: 0 <= k < |j| && 0 <= i < |j[k].events| ==> j[k].events[i].recordedAt < time
  }

  /** A pass that comes after every forecast of the store, under the retention terms of those it scores. */
  predicate Fits(forecasts: seq<Forecast>, q: Pass) {
    Admissible(q) && forall k :: 0 <= k < |forecasts| ==>
      forecasts[k].createdAt <= q.now && (forecasts[k].series == q.series ==> forecasts[k].retention == q.retention)
  }

  lemma {:induction false} WrittenTrack(f: Forecast, t: Track, k: nat, q: Pass, cut: nat)
    requires Admissible(q) && TrackOk(f, t) && Later(f, t, q) && cut <= |WritesFor(t, k, f, q)|
    requires f.series == q.series ==> f.retention == q.retention
    ensures var n := PutAll(t, WritesFor(t, k, f, q)[..cut]);
      TrackOk(f, n) && forall i :: 0 <= i < |n.events| ==> n.events[i].recordedAt <= q.now
  {
    WritesKeepTrack(f, t, k, q, cut);
    PutSome(t, WritesFor(t, k, f, q));
    assert WritesFor(t, k, f, q)[..0] == [];
  }

  /** Wherever a pass stops, both validators accept the journal, and its events are no later than the pass. */
  lemma {:induction false} PassKeepsJournal(forecasts: seq<Forecast>, j: Journal, q: Pass, m: nat, cut: nat)
    requires JournalOk(forecasts, j) && Fits(forecasts, q) && Before(j, q.now)
    ensures JournalOk(forecasts, Interrupted(forecasts, j, q, m, cut))
    ensures Before(Interrupted(forecasts, j, q, m, cut), q.now + 1)
  {
    var n := Interrupted(forecasts, j, q, m, cut);
    forall k | 0 <= k < |j|
      ensures TrackOk(forecasts[k], n[k]) && forall i :: 0 <= i < |n[k].events| ==> n[k].events[i].recordedAt <= q.now
    {
      var writes := WritesFor(j[k], k, forecasts[k], q);
      WrittenTrack(forecasts[k], j[k], k, q, |writes|);
      assert writes[..|writes|] == writes;
      if cut <= |writes| { WrittenTrack(forecasts[k], j[k], k, q, cut); }
    }
  }

  datatype Call = Call(pass: Pass, m: nat, cut: nat)

  function AfterCalls(forecasts: seq<Forecast>, j: Journal, calls: seq<Call>): Journal
    requires |j| == |forecasts|
    decreases |calls|
  {
    if calls == [] then j
    else AfterCalls(forecasts, Interrupted(forecasts, j, calls[0].pass, calls[0].m, calls[0].cut), calls[1..])
  }

  predicate Increasing(calls: seq<Call>) { forall a, b :: 0 <= a < b < |calls| ==> calls[a].pass.now < calls[b].pass.now }

  /**
    Any number of passes on a strictly increasing clock, each stopped anywhere, over any corrections, withdrawals
    and restorations: the validators accept what is left.
  */
  lemma {:induction false} RunKeepsJournal(forecasts: seq<Forecast>, j: Journal, calls: seq<Call>)
    requires JournalOk(forecasts, j) && Increasing(calls) && (calls != [] ==> Before(j, calls[0].pass.now))
    requires forall c :: c in calls ==> Fits(forecasts, c.pass)
    ensures JournalOk(forecasts, AfterCalls(forecasts, j, calls))
    decreases |calls|
  {
    if calls != [] {
      var c, rest := calls[0], calls[1..];
      assert c in calls && forall x :: x in rest ==> x in calls;
      PassKeepsJournal(forecasts, j, c.pass, c.m, c.cut);
      var n := Interrupted(forecasts, j, c.pass, c.m, c.cut);
      if rest != [] { assert rest[0] == calls[1] && Before(n, rest[0].pass.now); }
      RunKeepsJournal(forecasts, n, rest);
    }
  }

  /** After a completed pass every forecast of the series is settled, whatever was interrupted before. */
  lemma {:induction false} CompletedPassSettles(forecasts: seq<Forecast>, j: Journal, q: Pass, k: nat)
    requires |j| == |forecasts| && k < |j| && forecasts[k].series == q.series
    ensures Settled(Completed(forecasts, j, q)[k], OutcomeOf(q, forecasts[k]))
    ensures WritesFor(Completed(forecasts, j, q)[k], k, forecasts[k], q) == []
  {
    PassSettles(forecasts[k], j[k], k, q);
    NothingToWrite(forecasts[k], Completed(forecasts, j, q)[k], k, q);
  }

  // ---------------------------------------------- a pass under other retention terms

  /** One bar a day, for n days. */
  function Daily(n: nat): (bars: seq<Bar>)
    ensures |bars| == n && forall i :: 0 <= i < n ==> bars[i] == Bar(i + 1, 0)
  {
    if n == 0 then [] else Daily(n - 1) + [Bar(n, 0)]
  }

  /** A forecast on the first n days, created on the day after the last of them. */
  function ForecastOn(n: nat): Forecast { Forecast(0, n * DAY, n, Daily(n), 1) }

  /** A pass over five more days, and one on the next day that withdraws one of them, under other terms than the forecast's. */
  function Matured(n: nat): Pass { Pass(0, Daily(n + HORIZON), {}, 1, (n + 10) * DAY, (n + 10) * DAY) }
  function Withdrew(n: nat): Pass { Pass(0, Daily(n + HORIZON), {n + 2}, 2, (n + 11) * DAY, (n + 11) * DAY) }

  function Window(n: nat): seq<Bar>
    requires n > 0
  {
    Daily(n + HORIZON)[n - 1..n + HORIZON]
  }

  lemma {:induction false} OutcomesOfDays(n: nat)
    requires n > 0
    ensures OutcomeOf(Matured(n), ForecastOn(n)) == Observed(Window(n), false)
    ensures OutcomeOf(Withdrew(n), ForecastOn(n)) == Missing
  {
    DayIndex(n, n + HORIZON);
    assert Daily(n + HORIZON)[..n] == Daily(n);
    assert n + 2 in Withdrew(n).withdrawn;
  }

  lemma {:induction false} DayIndex(day: nat, n: nat)
    requires 1 <= day <= n
    ensures IndexOf(Daily(n), day) == Some(day - 1)
  {
    if day < n {
      assert Daily(n)[..n - 1] == Daily(n - 1);
      DayIndex(day, n - 1);
    }
  }

  lemma {:induction false} CompletedOne(f: Forecast, t: Track, q: Pass)
    ensures Completed([f], [t], q) == [PutAll(t, WritesFor(t, 0, f, q))]
  {
  }

  lemma {:induction false} PassesAreAdmissible(n: nat)
    ensures Admissible(Matured(n)) && Admissible(Withdrew(n)) && Matured(n).now < Withdrew(n).now
    ensures forall i :: 0 <= i < |ForecastOn(n).features| ==> ForecastOn(n).features[i].date < DayOf(ForecastOn(n).createdAt)
    ensures DayOf(ForecastOn(n).createdAt) == n + 1 && ForecastOn(n).createdAt <= Matured(n).now
  {
  }

  /** What the first pass leaves: one score, and no event. */
  lemma {:induction false} FirstPassScores(n: nat) returns (t: Track)
    requires n > 0
    ensures Completed([ForecastOn(n)], [Track([], [])], Matured(n)) == [t]
    ensures t.scores != [] && t.events == [] && TrackOk(ForecastOn(n), t)
  {
    PassesAreAdmissible(n);
    OutcomesOfDays(n);
    var f, q, start := ForecastOn(n), Matured(n), Track([], []);
    CompletedOne(f, start, q);
    var writes := WritesFor(start, 0, f, q);
    assert writes == [PutScore(0, NextScore(start, Observed(Window(n), false), q))];
    PutSome(start, writes);
    assert writes[..1] == writes;
    t := PutAll(start, writes);
    WritesKeepTrack(f, start, 0, q, 1);
  }

  /** The next pass writes a withdrawal under its own terms. */
  lemma {:induction false} NextPassWithdraws(n: nat, t: Track)
    requires n > 0 && t.scores != [] && t.events == [] && TrackOk(ForecastOn(n), t)
    ensures !TrackOk(ForecastOn(n), Completed([ForecastOn(n)], [t], Withdrew(n))[0])
  {
    PassesAreAdmissible(n);
    OutcomesOfDays(n);
    CompletedOne(ForecastOn(n), t, Withdrew(n));
    assert WritesFor(t, 0, ForecastOn(n), Withdrew(n))[0].PutEvent?;
    EventNeedsForecastTerms(ForecastOn(n), t, 0, Withdrew(n));
  }

  /**
    For any length of history: a forecast created after its last day; a pass over five more days that scores it; and a
    later pass that withdraws its outcome under other retention terms. Both passes are admissible and in order, and
    still the second leaves a journal that refuses every later pass.
  */
  lemma {:induction false} OtherTermsSpoilJournal(n: nat)
    requires n > 0
    ensures Admissible(Matured(n)) && Admissible(Withdrew(n)) && Matured(n).now < Withdrew(n).now
    ensures n < DayOf(ForecastOn(n).createdAt) && ForecastOn(n).createdAt <= Matured(n).now
    ensures var scored := Completed([ForecastOn(n)], [Track([], [])], Matured(n));
      && JournalOk([ForecastOn(n)], scored) && Before(scored, Withdrew(n).now)
      && !JournalOk([ForecastOn(n)], Completed([ForecastOn(n)], scored, Withdrew(n)))
  {
    PassesAreAdmissible(n);
    var t := FirstPassScores(n);
    NextPassWithdraws(n, t);
  }

  class EvidenceStore {
    const forecasts: seq<Forecast>
    var tracks: Journal

    constructor (forecasts: seq<Forecast>)
      ensures this.forecasts == forecasts && tracks == seq(|forecasts|, k => Track([], []))
    {
      this.forecasts := forecasts;
      tracks := seq(|forecasts|, k => Track([], []));
    }

    method ValidateJournal() returns (ok: bool)
      requires |tracks| == |forecasts|
      ensures ok <==> JournalOk(forecasts, tracks)
    {
      for k := 0 to |tracks|
        invariant forall i :: 0 <= i < k ==> TrackOk(forecasts[i], tracks[i])
      {
        var scoresOk := ValidateScores(forecasts[k], tracks[k].scores);
        if !scoresOk { return false; }
        var eventsOk := ValidateEvents(forecasts[k], tracks[k].events);
        if !eventsOk { return false; }
      }
      return true;
    }

    method PutRecord(k: nat, w: Write)
      requires k < |tracks|
      modifies this`tracks
      ensures tracks == old(tracks)[k := Put(old(tracks)[k], w)]
    {
      match w
      case PutScore(_, score) => tracks := tracks[k := tracks[k].(scores := tracks[k].scores + [score])];
      case PutEvent(_, event) => tracks := tracks[k := tracks[k].(events := tracks[k].events + [event])];
    }

    /** The records for one forecast, each put as soon as it is known. */
    method ScoreForecast(k: nat, q: Pass)
      requires k < |tracks| == |forecasts|
      modifies this`tracks
      ensures tracks == old(tracks)[k := PutAll(old(tracks)[k], WritesFor(old(tracks)[k], k, forecasts[k], q))]
    {
      var f, t := forecasts[k], tracks[k];
      ghost var writes := WritesFor(t, k, f, q);
      PutSome(t, writes);
      assert writes[..|writes|] == writes;
      if f.series != q.series { return; }
      var outcome := OutcomeOf(q, f);
      if outcome.Missing? {
        if (t.scores != [] || t.events != []) && !Withdrawn(t) {
          PutRecord(k, PutEvent(k, Event(false, q.now, q.retrievedAt, q.retention)));
        }
        return;
      }
      if !UpToDate(t, outcome) {
        PutRecord(k, PutScore(k, NextScore(t, outcome, q)));
      }
      if Withdrawn(t) {
        PutRecord(k, PutEvent(k, Event(true, q.now, q.retrievedAt, q.retention)));
      }
    }

    method ScoreMatured(q: Pass) returns (ok: bool)
      requires |tracks| == |forecasts|
      modifies this`tracks
      ensures ok <==> Admissible(q) && JournalOk(forecasts, old(tracks))
      ensures tracks == if ok then Completed(forecasts, old(tracks), q) else old(tracks)
    {
      ok := Admissible(q);
      if !ok { return; }
      ok := ValidateJournal();
      if !ok { return; }
      ghost var before := tracks;
      var k := 0;
      while k < |forecasts|
        invariant k <= |forecasts| == |tracks| && tracks == Interrupted(forecasts, before, q, k, 0)
      {
        NextForecast(forecasts, before, q, k);
        ScoreForecast(k, q);
        k := k + 1;
      }
    }
  }

  lemma {:induction false} NextForecast(forecasts: seq<Forecast>, j: Journal, q: Pass, k: nat)
    requires k < |j| == |forecasts|
    ensures Interrupted(forecasts, j, q, k, 0)[k] == j[k]
    ensures Interrupted(forecasts, j, q, k + 1, 0)
         == Interrupted(forecasts, j, q, k, 0)[k := PutAll(j[k], WritesFor(j[k], k, forecasts[k], q))]
  {
    assert forall i :: 0 <= i < |j| ==> WritesFor(j[i], i, forecasts[i], q)[..0] == [];
  }
}
