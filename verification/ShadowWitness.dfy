/**
  Two journals of the shadow portfolio, under the modelled scoring: one on which repeated checkpoints promote and
  retract, and one that a clock which steps back leaves with a score that does not replay.
*/
module ShadowWitness {
  import opened Outcomes
  import opened Shadow
  import opened ShadowReplay
  import opened ShadowLaws
  import opened ShadowRepeats
  import opened ShadowScoring
  import opened ShadowClock

  /** The source fixes the confirmation window at 105 rows; here it is the five rows of one outcome. */
  const ORACLES := Scoring(HORIZON)

  /** The days that the decision saw, and five later ones. */
  function Later(n: nat): Packet { History(n + 6) }

  /** The decision on the new observation, made at the midnight after it. */
  function Decided(n: nat): Record {
    Record(Decision(0, 1, n + 1, History(n + 1), Midnight(n + 1), 4, 0), Midnight(n + 1))
  }

  /** The older observation n, which the features used, is withdrawn. */
  function Withdraws(n: nat): Record { Record(Availability(n, false, None), Midnight(n + 1) + HOUR) }

  function Enters(n: nat): Record { Record(Input(Later(n)), Midnight(n + 6)) }

  function Value(n: nat): ScoreValue {
    ScoreValue(Scored, {5}, {n + 2, n + 3, n + 4, n + 5, n + 6}, [6], Some(n + 6), Some(n + 6), true, 0, 0)
  }

  function Scores(n: nat, v: ScoreValue): Record { Record(Score(1, Later(n), v, None), Midnight(n + 6)) }

  /** The checkpoint; the call was interrupted before it wrote the promotion. */
  function Judges(n: nat): Record { Record(Checkpoint(1, 8, Qualified, Some(4), None), Midnight(n + 6) + HOUR) }

  function DecidedOn(n: nat): Journal { Before(n) + [Decided(n)] }
  function WithdrawnOn(n: nat): Journal { DecidedOn(n) + [Withdraws(n)] }
  function EnteredOn(n: nat): Journal { WithdrawnOn(n) + [Enters(n)] }
  function ScoredOn(n: nat): Journal { EnteredOn(n) + [Scores(n, Value(n))] }
  function JudgedOn(n: nat): Journal { ScoredOn(n) + [Judges(n)] }

  /** When the target row is available, and all rows before it. */
  function Reported(n: nat): int { Midnight(n + 5) + 22 * HOUR }

  function AllRows(n: nat): set<int> { Visible(Later(n), Reported(n)) }

  // ------------------------------------------------------------------ searching

  lemma {:induction false} Nowhere(j: Journal, p: Event -> bool)
    requires forall i :: 0 <= i < |j| ==> !p(j[i].event)
    ensures LastWhere(j, p).None? && FirstWhere(j, p).None?
  {
  }

  lemma {:induction false} Carried(j: Journal, r: Record, p: Event -> bool, at: Option<nat>)
    requires LastWhere(j, p) == at && !p(r.event)
    ensures LastWhere(j + [r], p) == at
  {
    LastWhereSnoc(j, r, p);
  }

  lemma {:induction false} HasStays(j: Journal, r: Record, e: Event)
    requires Has(j, e)
    ensures Has(j + [r], e)
  {
    FirstWhereSnoc(j, r, Is(e));
  }

  // ------------------------------------------------------- up to the withdrawal

  lemma {:induction false} DecidedIsWellFormed(n: nat)
    ensures WellFormed(ORACLES, DecidedOn(n))
  {
    BeforeIsWellFormed(ORACLES, n);
    Searches(n, ResultOf(0));
    Searches(n, Is(Input(History(n + 1))));
    Searches(n, DecisionAt(1, n + 1));
    Searches(n, Is(Decided(n).event));
    assert Accepts(ORACLES, Before(n), Decided(n));
    SnocKeepsWellFormed(ORACLES, Before(n), Decided(n));
  }

  lemma {:induction false} WithdrawnIsWellFormed(n: nat)
    ensures WellFormed(ORACLES, WithdrawnOn(n))
  {
    DecidedIsWellFormed(n);
    Nowhere(DecidedOn(n), OfDate(n));
    Nowhere(DecidedOn(n), Is(Withdraws(n).event));
    SnocKeepsWellFormed(ORACLES, DecidedOn(n), Withdraws(n));
  }

  lemma {:induction false} EnteredIsWellFormed(n: nat)
    ensures WellFormed(ORACLES, EnteredOn(n))
  {
    WithdrawnIsWellFormed(n);
    NotYetEntered(n);
    SnocKeepsWellFormed(ORACLES, WithdrawnOn(n), Enters(n));
  }

  lemma {:induction false} NotYetEntered(n: nat)
    ensures !Has(WithdrawnOn(n), Input(Later(n)))
  {
    assert |History(n + 1).rows| != |Later(n).rows|;
    Nowhere(WithdrawnOn(n), Is(Input(Later(n))));
  }

  // ------------------------------------------------------------------- the score

  lemma {:induction false} RowOfIs(rows: seq<PacketRow>, i: nat)
    requires i < |rows| && forall k :: 0 <= k < |rows| && k != i ==> rows[k].date != rows[i].date
    ensures RowOf(rows, rows[i].date) == Some(i)
  {
    if i < |rows| - 1 {
      RowOfIs(rows[..|rows| - 1], i);
    } else {
      RowOfNone(rows[..i], rows[i].date);
    }
  }

  lemma {:induction false} RowOfNone(rows: seq<PacketRow>, date: int)
    requires forall k :: 0 <= k < |rows| ==> rows[k].date != date
    ensures RowOf(rows, date).None?
  {
    if rows != [] { RowOfNone(rows[..|rows| - 1], date); }
  }

  lemma {:induction false} HistoryExtends(n: nat, k: nat)
    requires n <= k
    ensures Observations(k)[..n] == Observations(n)
  {
  }

  lemma {:induction false} OriginRow(n: nat)
    ensures RowOf(Later(n).rows, n + 1) == Some(n) && Later(n).rows[..n + 1] == History(n + 1).rows
  {
    RowOfIs(Later(n).rows, n);
    HistoryExtends(n + 1, n + 6);
  }

  lemma {:induction false} IsProspective(n: nat)
    ensures Prospective(Later(n).rows, n, n + 5, Midnight(n + 1))
  {
    forall r | n < r <= n + 5 ensures Later(n).rows[r].availableAt > Midnight(n + 1) { InOrder(n + 1, r); }
  }

  lemma {:induction false} AllAreVisible(n: nat, at: int)
    ensures at >= Reported(n) ==> Visible(Later(n), at) == AllRows(n)
    ensures at < Reported(n) ==> n + 5 !in Visible(Later(n), at)
    ensures n + 5 in AllRows(n)
  {
    var rows := Later(n).rows;
    assert rows[n + 5] == Observation(n + 5);
    forall r | 0 <= r < n + 6 ensures rows[r].availableAt <= Reported(n) { InOrder(r, n + 5); }
  }

  lemma {:induction false} OnlyOneIsWithdrawn(j: Journal, n: nat, date: int)
    requires j in {WithdrawnOn(n), EnteredOn(n), ScoredOn(n), JudgedOn(n)} && date != n
    ensures !Withdrawn(j, date)
  {
    Nowhere(j, OfDate(date));
  }

  lemma {:induction false} InputStays(n: nat)
    ensures Has(EnteredOn(n), Input(History(n + 1))) && Has(ScoredOn(n), Input(History(n + 1)))
    ensures EnteredOn(n)[5] == Decided(n) && ScoredOn(n)[5] == Decided(n)
  {
    Searches(n, Is(Input(History(n + 1))));
    HasStays(Before(n), Decided(n), Input(History(n + 1)));
    HasStays(DecidedOn(n), Withdraws(n), Input(History(n + 1)));
    HasStays(WithdrawnOn(n), Enters(n), Input(History(n + 1)));
    HasStays(EnteredOn(n), Scores(n, Value(n)), Input(History(n + 1)));
  }

  lemma {:induction false} DecisionStands(n: nat, visible: set<int>)
    ensures StandingOf(EnteredOn(n), Later(n), 5, visible) == if n + 5 in visible then Chosen(n, n + 5) else Awaited(n, n + 5)
  {
    InputStays(n);
    OriginRow(n);
    IsProspective(n);
    forall date | n < date ensures !Withdrawn(EnteredOn(n), date) { OnlyOneIsWithdrawn(EnteredOn(n), n, date); }
  }

  lemma {:induction false} OnlyDecision(n: nat, d: nat)
    requires d < |EnteredOn(n)|
    ensures DecisionOf(1)(EnteredOn(n)[d].event) <==> d == 5
  {
  }

  lemma {:induction false} SpanOfOne(j: Journal, packet: Packet, m: nat, visible: set<int>, k: nat, only: nat)
    requires k <= |j| && only < |j| && DecisionOf(m)(j[only].event)
    requires forall d :: 0 <= d < |j| ==> (DecisionOf(m)(j[d].event) <==> d == only)
    ensures Span(j, packet, m, visible, k) ==
      if k > only && StandingOf(j, packet, only, visible).Chosen?
      then Some((StandingOf(j, packet, only, visible).origin, StandingOf(j, packet, only, visible).last)) else None
  {
    if k > 0 {
      SpanOfOne(j, packet, m, visible, k - 1, only);
    }
  }

  lemma {:induction false} SpanIs(n: nat, visible: set<int>)
    ensures Span(EnteredOn(n), Later(n), 1, visible, |EnteredOn(n)|) == if n + 5 in visible then Some((n, n + 5)) else None
  {
    forall d | 0 <= d < |EnteredOn(n)| ensures DecisionOf(1)(EnteredOn(n)[d].event) <==> d == 5 { OnlyDecision(n, d); }
    SpanOfOne(EnteredOn(n), Later(n), 1, visible, |EnteredOn(n)|, 5);
    DecisionStands(n, visible);
  }

  lemma {:induction false} NothingSpoils(n: nat, visible: set<int>)
    ensures !AnySpoils(EnteredOn(n), Later(n), 1, visible)
  {
    forall d | 0 <= d < |EnteredOn(n)| && DecisionOf(1)(EnteredOn(n)[d].event)
      ensures !Spoils(StandingOf(EnteredOn(n), Later(n), d, visible))
    {
      OnlyDecision(n, d);
      DecisionStands(n, visible);
    }
  }

  lemma {:induction false} DecisionIsSelected(n: nat, end: int)
    requires end >= n + 5
    ensures Selected(EnteredOn(n), Later(n), 1, AllRows(n), end) == {5}
  {
    AllAreVisible(n, Reported(n));
    DecisionStands(n, AllRows(n));
    forall d: nat | d < |EnteredOn(n)| ensures d in Selected(EnteredOn(n), Later(n), 1, AllRows(n), end) <==> d == 5 {
      OnlyDecision(n, d);
    }
  }

  function Dates(rows: seq<PacketRow>, after: nat, last: nat): set<int>
    requires last < |rows|
  {
    set r | after < r <= last :: rows[r].date
  }

  lemma {:induction false} BoundOfOne(j: Journal, packet: Packet, visible: set<int>, d: nat, s: Standing)
    requires d < |j| && j[d].event.Decision? && StandingOf(j, packet, d, visible) == s && s.Chosen? && s.last < |packet.rows|
    ensures Bound(j, packet, visible, {d}) == Dates(packet.rows, s.origin, s.last)
  {
    forall r | s.origin < r <= s.last ensures packet.rows[r].date in Bound(j, packet, visible, {d}) {
      assert Binds(StandingOf(j, packet, d, visible), r);
    }
  }

  lemma {:induction false} LaterDates(n: nat)
    ensures Dates(Later(n).rows, n, n + 5) == {n + 2, n + 3, n + 4, n + 5, n + 6}
  {
    var rows := Later(n).rows;
    assert rows[n + 1].date == n + 2 && rows[n + 2].date == n + 3 && rows[n + 3].date == n + 4;
    assert rows[n + 4].date == n + 5 && rows[n + 5].date == n + 6;
  }

  lemma {:induction false} OutcomeDates(n: nat)
    ensures Bound(EnteredOn(n), Later(n), AllRows(n), {5}) == Value(n).outcomeDates
  {
    AllAreVisible(n, Reported(n));
    DecisionStands(n, AllRows(n));
    LaterDates(n);
    BoundOfOne(EnteredOn(n), Later(n), AllRows(n), 5, Chosen(n, n + 5));
  }

  lemma {:induction false} NoRevisions(j: Journal, cutoff: Option<int>)
    requires forall i :: 0 <= i < |j| ==> !j[i].event.Availability?
    ensures RevisionsUpTo(j, cutoff) == []
  {
    if j != [] { NoRevisions(j[..|j| - 1], cutoff); }
  }

  lemma {:induction false} RevisionsSnoc(j: Journal, r: Record, cutoff: Option<int>)
    ensures RevisionsUpTo(j + [r], cutoff) == RevisionsUpTo(j, cutoff)
            + if r.event.Availability? && (cutoff.None? || r.event.date <= cutoff.value) then [|j|] else []
  {
    assert (j + [r])[..|j|] == j;
  }

  lemma {:induction false} OneRevision(n: nat)
    ensures RevisionsUpTo(EnteredOn(n), Some(n + 6)) == [6] && RevisionsUpTo(ScoredOn(n), Some(n + 6)) == [6]
  {
    NoRevisions(DecidedOn(n), Some(n + 6));
    RevisionsSnoc(DecidedOn(n), Withdraws(n), Some(n + 6));
    RevisionsSnoc(WithdrawnOn(n), Enters(n), Some(n + 6));
    RevisionsSnoc(EnteredOn(n), Scores(n, Value(n)), Some(n + 6));
  }

  lemma {:induction false} OutcomeRowsStand(n: nat)
    ensures !AnyRowWithdrawn(EnteredOn(n), Later(n).rows, n + 1, n + 5)
  {
    forall r | n + 1 <= r <= n + 5 ensures !Withdrawn(EnteredOn(n), Later(n).rows[r].date) {
      OnlyOneIsWithdrawn(EnteredOn(n), n, Later(n).rows[r].date);
    }
  }

  lemma {:induction false} ScoredValue(n: nat)
    ensures FirstScore(EnteredOn(n), Later(n), 1, AllRows(n), HORIZON) == Value(n)
  {
    AllAreVisible(n, Reported(n));
    NothingSpoils(n, AllRows(n));
    SpanIs(n, AllRows(n));
    DecisionIsSelected(n, n + 5);
    DecisionIsSelected(n, n + 6);
    OutcomeDates(n);
    OneRevision(n);
    OutcomeRowsStand(n);
  }

  lemma {:induction false} DecisionIsThere(n: nat)
    ensures LastWhere(EnteredOn(n), DecisionOf(1)) == Some(5) && IsModel(EnteredOn(n), 1)
  {
    LastWhereSnoc(Before(n), Decided(n), DecisionOf(1));
    Carried(DecidedOn(n), Withdraws(n), DecisionOf(1), Some(5));
    Carried(WithdrawnOn(n), Enters(n), DecisionOf(1), Some(5));
  }

  lemma {:induction false} AwaitedIsPending(n: nat, visible: set<int>)
    requires n + 5 !in visible
    ensures FirstScore(EnteredOn(n), Later(n), 1, visible, HORIZON).status == Pending
  {
    NothingSpoils(n, visible);
    SpanIs(n, visible);
  }

  /** The scoring of the journal at any time: scored once the target row is available. */
  lemma {:induction false} ScoreIs(n: nat, at: int)
    ensures var v := ScoreAt(EnteredOn(n), ORACLES, Later(n), 1, at);
      v.Some? && (if at >= Reported(n) then v.value == Value(n) else v.value.status == Pending)
  {
    DecisionIsThere(n);
    ScoringAt(EnteredOn(n), Later(n), 1, at, HORIZON);
    AllAreVisible(n, at);
    if at >= Reported(n) {
      ScoredValue(n);
    } else {
      AwaitedIsPending(n, Visible(Later(n), at));
    }
  }

  lemma {:induction false} ScoreOfEntered(n: nat, at: int) returns (v: ScoreValue)
    ensures ScoreAt(EnteredOn(n), ORACLES, Later(n), 1, at) == Some(v)
    ensures if at >= Reported(n) then v == Value(n) else v.status == Pending
  {
    ScoreIs(n, at);
    v := ScoreAt(EnteredOn(n), ORACLES, Later(n), 1, at).value;
  }

  // ---------------------------------------------------------- the active reference

  lemma {:induction false} ActiveStays(j: Journal, r: Record)
    requires Active(j) == Some(4) && !r.event.Reference?
    ensures Active(j + [r]) == Some(4)
  {
    Carried(j, r, AnyReference(), Some(4));
  }

  lemma {:induction false} ActiveIsCash(n: nat)
    ensures Active(DecidedOn(n)) == Some(4) && Active(WithdrawnOn(n)) == Some(4) && Active(EnteredOn(n)) == Some(4)
    ensures Active(ScoredOn(n)) == Some(4) && Active(JudgedOn(n)) == Some(4)
  {
    Searches(n, AnyReference());
    ActiveStays(Before(n), Decided(n));
    ActiveStays(DecidedOn(n), Withdraws(n));
    ActiveStays(WithdrawnOn(n), Enters(n));
    ActiveStays(EnteredOn(n), Scores(n, Value(n)));
    ActiveStays(ScoredOn(n), Judges(n));
  }

  lemma {:induction false} CashNeedsNoRepair(j: Journal, clock: Clock)
    requires Active(j) == Some(4) && 4 < |j| && j[4].event.Reference? && j[4].event.promoted.None?
    ensures Repair(j, clock) == Step(j, 0, true) && SoundReference(j)
  {
  }

  // ------------------------------------------------------------ a score that does not replay

  /** The call starts and writes at midnight, and scores three hours before, when the target row was not available yet. */
  function ScoredEarly(n: nat): Clock {
    Clock(Midnight(n + 6), (k: nat) => Midnight(n + 5) + 21 * HOUR, (k: nat) => Midnight(n + 6))
  }

  lemma {:induction false} LaterIsEntered(n: nat)
    ensures FirstWhere(EnteredOn(n), Is(Input(Later(n)))) == Some(7)
  {
    NotYetEntered(n);
    FirstWhereSnoc(WithdrawnOn(n), Enters(n), Is(Input(Later(n))));
  }

  lemma {:induction false} LaterIsEligible(n: nat)
    requires Known(n)
    ensures Eligible(Later(n), Midnight(n + 6))
  {
    HistoryIsEligible(n + 6, Midnight(n + 6));
  }

  /** A scoring call on the entered packet writes the score of its scoring instant. */
  lemma {:induction false} ScoringWrites(n: nat, clock: Clock, v: ScoreValue) returns (j: Journal)
    requires ScoreAt(EnteredOn(n), ORACLES, Later(n), 1, clock.scoring(8)) == Some(v) && clock.appending(8) == Midnight(n + 6)
    ensures j == EnteredOn(n) + [Scores(n, v)]
    ensures ScoreModels(EnteredOn(n), ORACLES, Later(n), [1], clock) == Step(j, 0, true)
  {
    Nowhere(EnteredOn(n), ScoreOf(1));
    Nowhere(EnteredOn(n), Is(Scores(n, v).event));
    j := EnteredOn(n) + [Scores(n, v)];
    assert ScoreModel(EnteredOn(n), ORACLES, Later(n), 1, clock) == Step(j, 8, true);
    assert [1][1..] == [];
    assert ScoreModels(j, ORACLES, Later(n), [], clock) == Step(j, 0, true);
  }

  lemma {:induction false} WrongScoreIsRejected(o: Oracles, j: Journal, packet: Packet, m: nat, v: ScoreValue, at: int)
    requires ScoreAt(j, o, packet, m, at).Some? && ScoreAt(j, o, packet, m, at).value.status != v.status
    ensures !Accepts(o, j, Record(Score(m, packet, v, None), at))
  {
  }

  lemma {:induction false} EarlyScoreIsRejected(n: nat, v: ScoreValue)
    requires v.status != Scored
    ensures !Accepts(ORACLES, EnteredOn(n), Scores(n, v))
  {
    var later := ScoreOfEntered(n, Midnight(n + 6));
    WrongScoreIsRejected(ORACLES, EnteredOn(n), Later(n), 1, v, Midnight(n + 6));
  }

  lemma {:induction false} EarlyScoreLeaves(n: nat, v: ScoreValue) returns (j: Journal)
    requires Known(n) && ScoreAt(EnteredOn(n), ORACLES, Later(n), 1, ScoredEarly(n).scoring(8)) == Some(v)
    ensures j == EnteredOn(n) + [Scores(n, v)]
    ensures ScoreLater(EnteredOn(n), ORACLES, Later(n), [1], ScoredEarly(n)) == Step(j, 0, true)
  {
    LaterIsEntered(n);
    LaterIsEligible(n);
    j := ScoringWrites(n, ScoredEarly(n), v);
    ScoreLaterIs(ORACLES, EnteredOn(n), Later(n), [1], ScoredEarly(n), Step(EnteredOn(n), 7, true), Step(j, 0, true));
    ActiveIsCash(n);
    ActiveStays(EnteredOn(n), Scores(n, v));
    CashNeedsNoRepair(j, ScoredEarly(n));
  }

  lemma {:induction false} ScoreLaterIs(o: Oracles, j: Journal, packet: Packet, models: seq<nat>, clock: Clock, a: Step, b: Step)
    requires Eligible(packet, clock.start) && Append(j, Input(packet), clock.appending(|j|)) == a && a.ok
    requires ScoreModels(a.journal, o, packet, models, clock) == b && b.ok
    ensures ScoreLater(j, o, packet, models, clock) == Repair(b.journal, clock)
  {
  }

  /** A scoring call on a clock that steps back completes, and leaves a score that the replay rejects for good. */
  lemma {:induction false} EarlyScoreBreaksReplay(n: nat)
    requires Known(n)
    ensures WellFormed(ORACLES, EnteredOn(n)) && Eligible(Later(n), ScoredEarly(n).start)
    ensures var s := ScoreLater(EnteredOn(n), ORACLES, Later(n), [1], ScoredEarly(n)); s.ok && !Replayable(ORACLES, s.journal)
  {
    EnteredIsWellFormed(n);
    LaterIsEligible(n);
    var v := ScoreOfEntered(n, ScoredEarly(n).scoring(8));
    var j := EarlyScoreLeaves(n, v);
    EarlyScoreIsRejected(n, v);
    RejectedLast(EnteredOn(n), Scores(n, v));
  }

  lemma {:induction false} RejectedLast(j: Journal, r: Record)
    requires !Accepts(ORACLES, j, r)
    ensures !Replayable(ORACLES, j + [r])
  {
    var n := j + [r];
    assert n[..|j|] == j && n[|j|] == r;
  }

  // ------------------------------------------------------ a checkpoint that keeps flapping

  lemma {:induction false} FirstScoreIsAccepted(o: Oracles, j: Journal, packet: Packet, m: nat, v: ScoreValue, at: int)
    requires IsModel(j, m) && Has(j, Input(packet)) && ScoreAt(j, o, packet, m, at) == Some(v) && LastWhere(j, ScoreOf(m)).None?
    ensures Accepts(o, j, Record(Score(m, packet, v, None), at))
  {
  }

  lemma {:induction false} ScoredIsWellFormed(n: nat)
    ensures WellFormed(ORACLES, ScoredOn(n))
  {
    EnteredIsWellFormed(n);
    LaterIsEntered(n);
    DecisionIsThere(n);
    Nowhere(EnteredOn(n), ScoreOf(1));
    Nowhere(EnteredOn(n), Is(Scores(n, Value(n)).event));
    var v := ScoreOfEntered(n, Midnight(n + 6));
    FirstScoreIsAccepted(ORACLES, EnteredOn(n), Later(n), 1, v, Midnight(n + 6));
    SnocKeepsWellFormed(ORACLES, EnteredOn(n), Scores(n, v));
  }

  lemma {:induction false} CheckpointIsExpected(n: nat)
    ensures LastWhere(ScoredOn(n), ScoreOf(1)) == Some(8) && LastWhere(ScoredOn(n), CheckpointOf(1)).None?
    ensures CheckpointFor(ScoredOn(n), ORACLES, 1) == Judges(n).event
    ensures StatusOf(ScoredOn(n), ORACLES, 1, Value(n)) == Qualified
  {
    LastWhereSnoc(EnteredOn(n), Scores(n, Value(n)), ScoreOf(1));
    Nowhere(ScoredOn(n), CheckpointOf(1));
    ActiveIsCash(n);
    OneRevision(n);
  }

  lemma {:induction false} WithdrawalStays(n: nat)
    ensures Withdrawn(ScoredOn(n), n)
  {
    LastWhereSnoc(DecidedOn(n), Withdraws(n), OfDate(n));
    Carried(WithdrawnOn(n), Enters(n), OfDate(n), Some(6));
    Carried(EnteredOn(n), Scores(n, Value(n)), OfDate(n), Some(6));
  }

  lemma {:induction false} RestsOnOlder(n: nat)
    requires n > 0
    ensures RestsOnWithdrawn(ScoredOn(n), Value(n))
  {
    WithdrawalStays(n);
    InputStays(n);
    assert History(n + 1).rows[n - 1].date == n;
    assert Covers(ScoredOn(n), Value(n), 5, n);
    RelevantMeans(ScoredOn(n), Value(n), n);
    assert Withdrawn(ScoredOn(n), n) && Relevant(ScoredOn(n), Value(n), n);
  }

  lemma {:induction false} JudgedIsWellFormed(n: nat)
    ensures WellFormed(ORACLES, JudgedOn(n))
  {
    ScoredIsWellFormed(n);
    CheckpointIsExpected(n);
    Nowhere(ScoredOn(n), Is(Judges(n).event));
    SnocKeepsWellFormed(ORACLES, ScoredOn(n), Judges(n));
  }

  lemma {:induction false} ScoreQualifiesOnWithdrawn(n: nat)
    requires n > 0
    ensures LastWhere(ScoredOn(n), ScoreOf(1)).Some? && QualifiesOnWithdrawn(ORACLES, ScoredOn(n), 1)
  {
    CheckpointIsExpected(n);
    RestsOnOlder(n);
    assert ScoredOn(n)[8].event.value == Value(n);
  }

  lemma {:induction false} ScoringGateReadsEvidence(window: nat)
    ensures GateReadsEvidence(Scoring(window))
  {
  }

  lemma {:induction false} JudgedIsJudged(n: nat)
    requires n > 0
    ensures GateReadsEvidence(ORACLES) && Judged(ORACLES, JudgedOn(n), 1) && QualifiesOnWithdrawn(ORACLES, JudgedOn(n), 1)
  {
    ScoringGateReadsEvidence(HORIZON);
    ScoredIsWellFormed(n);
    ScoreQualifiesOnWithdrawn(n);
    CheckpointIsExpected(n);
    RecordJudges(ORACLES, ScoredOn(n), Judges(n), 1);
  }

  lemma {:induction false} JudgedIsSound(n: nat)
    ensures SoundReference(JudgedOn(n))
  {
    ActiveIsCash(n);
    CashNeedsNoRepair(JudgedOn(n), ScoredEarly(n));
  }

  /**
    The journal is replayable and its reference is sound, and still every further checkpoint call, however many there
    are, adds a promotion and the retraction that supersedes it.
  */
  lemma {:induction false} CheckpointKeepsFlapping(n: nat, clocks: seq<Clock>)
    requires Known(n) && OnwardFrom(clocks, 10, Midnight(n + 6) + HOUR)
    ensures WellFormed(ORACLES, JudgedOn(n)) && SoundReference(JudgedOn(n))
    ensures Flapping(JudgedOn(n), Repeated(ORACLES, JudgedOn(n), 1, clocks), 1, |clocks|)
  {
    JudgedIsWellFormed(n);
    JudgedIsJudged(n);
    JudgedIsSound(n);
    RepeatsKeepFlapping(ORACLES, JudgedOn(n), 1, clocks);
  }

  // --------------------------------------------------------- how the journal comes about

  function At(t: int): Clock { Clock(t, (k: nat) => t, (k: nat) => t) }

  /** The research of one protocol with one model. */
  function Studied(n: nat): Journal { Before(n)[..3] }

  lemma {:induction false} WritesNew(j: Journal, e: Event, at: int)
    requires forall i :: 0 <= i < |j| ==> j[i].event != e
    requires j != [] ==> j[|j| - 1].createdAt <= at
    ensures Append(j, e, at) == Step(j + [Record(e, at)], |j|, true)
  {
    Nowhere(j, Is(e));
  }

  lemma {:induction false} Studies(n: nat, k: nat)
    requires k < 3
    ensures Interrupted(Before(n)[..k], ORACLES, Research(Before(n)[k].event, Midnight(n))) == Before(n)[..k + 1]
  {
    var b := Before(n);
    var j := b[..k];
    assert forall i :: 0 <= i < k ==> j[i] == b[i];
    assert k > 0 ==> j[0] == b[0];
    WritesNew(j, b[k].event, Midnight(n));
    assert Accepts(ORACLES, j, b[k]);
    assert j + [b[k]] == b[..k + 1];
  }

  lemma {:induction false} Decides(n: nat)
    ensures DecideModels(Before(n), ORACLES, History(n + 1), [1], 4, At(Midnight(n + 1))) == Step(DecidedOn(n), 0, true)
  {
    var at := Midnight(n + 1);
    ModelIsChosen(n, at);
    Searches(n, Is(Decided(n).event));
    assert Append(Before(n), Decided(n).event, at) == Step(DecidedOn(n), 5, true);
    assert [1][1..] == [];
    assert DecideModels(DecidedOn(n), ORACLES, History(n + 1), [], 4, At(at)) == Step(DecidedOn(n), 0, true);
  }

  lemma {:induction false} EntersAndReferences(n: nat)
    ensures Append(Studied(n), Input(History(n + 1)), Midnight(n + 1)) == Step(Before(n)[..4], 3, true)
    ensures EnsureReference(Before(n)[..4], At(Midnight(n + 1))) == Step(Before(n), 4, true)
  {
    var b, at := Before(n), Midnight(n + 1);
    WritesNew(b[..3], b[3].event, at);
    assert b[..3] + [b[3]] == b[..4];
    Nowhere(b[..4], AnyReference());
    WritesNew(b[..4], b[4].event, at);
    assert b[..4] + [b[4]] == b;
  }

  lemma {:induction false} ResultIsLast(n: nat)
    ensures LastWhere(Studied(n), ResultOf(0)) == Some(2)
  {
    Taken(Before(n), 2, ResultOf(0));
  }

  /** A decision call that needs no repair, while cash is active. */
  lemma {:induction false} DecidingIs(o: Oracles, j: Journal, packet: Packet, protocol: nat, clock: Clock, entered: Step, referenced: Step,
                                      selected: nat, decided: Step)
    requires Eligible(packet, clock.start) && IsProtocol(j, protocol) && LastWhere(j, ResultOf(protocol)).Some?
    requires j[LastWhere(j, ResultOf(protocol)).value].event.selected == Some(selected)
    requires Append(j, Input(packet), clock.appending(|j|)) == entered && entered.ok
    requires EnsureReference(entered.journal, clock) == referenced && referenced.ok
    requires Repair(referenced.journal, clock) == Step(referenced.journal, 0, true)
    requires Active(referenced.journal).Some? && ActiveModel(referenced.journal).None?
    requires DecideModels(referenced.journal, o, packet, [selected], Active(referenced.journal).value, clock) == decided
    ensures RecordDecisions(j, o, packet, protocol, clock) == decided
  {
  }

  lemma {:induction false} DecisionCall(n: nat)
    requires Known(n)
    ensures Interrupted(Studied(n), ORACLES, Call(RecordDecisionsFor(History(n + 1), 0), At(Midnight(n + 1)), 9)) == DecidedOn(n)
  {
    var at := Midnight(n + 1);
    HistoryIsEligible(n + 1, at);
    ResultIsLast(n);
    EntersAndReferences(n);
    Searches(n, AnyReference());
    CashNeedsNoRepair(Before(n), At(at));
    Decides(n);
    assert Studied(n)[0] == Before(n)[0] && Studied(n)[2] == Before(n)[2];
    DecidingIs(ORACLES, Studied(n), History(n + 1), 0, At(at), Step(Before(n)[..4], 3, true), Step(Before(n), 4, true), 1, Step(DecidedOn(n), 0, true));
    Uncut(ORACLES, Studied(n), RecordDecisionsFor(History(n + 1), 0), At(at), DecidedOn(n));
  }

  lemma {:induction false} WithdrawalMarks(n: nat, clock: Clock)
    requires clock == At(Midnight(n + 1) + HOUR)
    ensures MarkDates(DecidedOn(n), DecidedOn(n), [n], false, clock) == Step(WithdrawnOn(n), 0, true)
  {
    Nowhere(DecidedOn(n), OfDate(n));
    WritesNew(DecidedOn(n), Withdraws(n).event, Midnight(n + 1) + HOUR);
    assert [n][1..] == [];
    assert MarkDate(DecidedOn(n), DecidedOn(n), n, false, clock) == Step(WithdrawnOn(n), 6, true);
    assert MarkDates(DecidedOn(n), WithdrawnOn(n), [], false, clock) == Step(WithdrawnOn(n), 0, true);
  }

  lemma {:induction false} WithdrawalCall(n: nat)
    ensures Interrupted(DecidedOn(n), ORACLES, Call(SetAvailabilityOf([n], false), At(Midnight(n + 1) + HOUR), 9)) == WithdrawnOn(n)
  {
    var clock := At(Midnight(n + 1) + HOUR);
    WithdrawalMarks(n, clock);
    ActiveIsCash(n);
    CashNeedsNoRepair(WithdrawnOn(n), clock);
    Uncut(ORACLES, DecidedOn(n), SetAvailabilityOf([n], false), clock, WithdrawnOn(n));
  }

  lemma {:induction false} ScoringWritesValue(n: nat)
    ensures ScoreModels(EnteredOn(n), ORACLES, Later(n), [1], At(Midnight(n + 6))) == Step(ScoredOn(n), 0, true)
  {
    var v := ScoreOfEntered(n, Midnight(n + 6));
    var j := ScoredOnTime(n, v);
  }

  lemma {:induction false} ScoredOnTime(n: nat, v: ScoreValue) returns (j: Journal)
    requires ScoreAt(EnteredOn(n), ORACLES, Later(n), 1, Midnight(n + 6)) == Some(v)
    ensures j == EnteredOn(n) + [Scores(n, v)]
    ensures ScoreModels(EnteredOn(n), ORACLES, Later(n), [1], At(Midnight(n + 6))) == Step(j, 0, true)
  {
    j := ScoringWrites(n, At(Midnight(n + 6)), v);
  }

  lemma {:induction false} WritesLater(n: nat)
    ensures Append(WithdrawnOn(n), Input(Later(n)), Midnight(n + 6)) == Step(EnteredOn(n), 7, true)
  {
    NotYetEntered(n);
  }

  lemma {:induction false} ScoringPerforms(n: nat, clock: Clock)
    requires Known(n) && clock == At(Midnight(n + 6))
    ensures ScoreLater(WithdrawnOn(n), ORACLES, Later(n), [1], clock) == Step(ScoredOn(n), 0, true)
  {
    WritesLater(n);
    LaterIsEligible(n);
    ScoringWritesValue(n);
    ScoreLaterIs(ORACLES, WithdrawnOn(n), Later(n), [1], clock, Step(EnteredOn(n), 7, true), Step(ScoredOn(n), 0, true));
    ActiveIsCash(n);
    CashNeedsNoRepair(ScoredOn(n), clock);
  }

  lemma {:induction false} ScoringCall(n: nat)
    requires Known(n)
    ensures Interrupted(WithdrawnOn(n), ORACLES, Call(ScoreLaterWith(Later(n), [1]), At(Midnight(n + 6)), 9)) == ScoredOn(n)
  {
    ScoringPerforms(n, At(Midnight(n + 6)));
    Uncut(ORACLES, WithdrawnOn(n), ScoreLaterWith(Later(n), [1]), At(Midnight(n + 6)), ScoredOn(n));
  }

  lemma {:induction false} RecordsCheckpoint(n: nat)
    ensures RecordCheckpoint(ScoredOn(n), ORACLES, 1, At(Midnight(n + 6) + HOUR)) == Step(JudgedOn(n), 9, true)
  {
    CheckpointIsExpected(n);
    Nowhere(ScoredOn(n), Is(Judges(n).event));
    assert Append(ScoredOn(n), Judges(n).event, Midnight(n + 6) + HOUR) == Step(JudgedOn(n), 9, true);
  }

  /** The checkpoint is written, and the promotion that the call would write next is not. */
  lemma {:induction false} CheckpointCall(n: nat)
    ensures Interrupted(ScoredOn(n), ORACLES, Call(TakeCheckpointOf(1), At(Midnight(n + 6) + HOUR), 1)) == JudgedOn(n)
  {
    var clock := At(Midnight(n + 6) + HOUR);
    RecordsCheckpoint(n);
    TakeExtends(n, clock);
    CutAfterOne(ORACLES, ScoredOn(n), JudgedOn(n), 1, clock);
  }

  lemma {:induction false} CutAfterOne(o: Oracles, j: Journal, next: Journal, m: nat, clock: Clock)
    requires Extends(next, TakeCheckpoint(j, o, m, clock).journal) && |next| == |j| + 1
    ensures Interrupted(j, o, Call(TakeCheckpointOf(m), clock, 1)) == next
  {
  }

  lemma {:induction false} Uncut(o: Oracles, j: Journal, op: Operation, clock: Clock, n: Journal)
    requires Perform(j, o, op, clock).journal == n && |n| <= |j| + 9
    ensures Interrupted(j, o, Call(op, clock, 9)) == n
  {
  }

  lemma {:induction false} TakeExtends(n: nat, clock: Clock)
    requires RecordCheckpoint(ScoredOn(n), ORACLES, 1, clock) == Step(JudgedOn(n), 9, true)
    ensures LastWhere(ScoredOn(n), ScoreOf(1)).Some? && Extends(JudgedOn(n), TakeCheckpoint(ScoredOn(n), ORACLES, 1, clock).journal)
  {
    CheckpointIsExpected(n);
    JudgedIsWellFormed(n);
    PromoteKeeps(ORACLES, JudgedOn(n), 1, 9, clock);
    var promoted := Promote(JudgedOn(n), 1, 9, clock);
    RepairKeeps(ORACLES, promoted.journal, clock);
    ExtendsThrough(JudgedOn(n), promoted.journal, Repair(promoted.journal, clock).journal);
  }

  lemma {:induction false} Runs(j: Journal, n: Journal, call: Call, rest: seq<Call>)
    requires Interrupted(j, ORACLES, call) == n
    ensures RunOf(j, ORACLES, [call] + rest) == RunOf(n, ORACLES, rest)
  {
    assert ([call] + rest)[1..] == rest;
  }

  /** Research, a decision, a withdrawal, a score, and a checkpoint call that is interrupted: the journal is reached. */
  lemma {:induction false} JudgedIsReached(n: nat) returns (calls: seq<Call>)
    requires Known(n)
    ensures RunOf([], ORACLES, calls) == JudgedOn(n)
  {
    var decide := Call(RecordDecisionsFor(History(n + 1), 0), At(Midnight(n + 1)), 9);
    var withdraw := Call(SetAvailabilityOf([n], false), At(Midnight(n + 1) + HOUR), 9);
    var score := Call(ScoreLaterWith(Later(n), [1]), At(Midnight(n + 6)), 9);
    var judge := Call(TakeCheckpointOf(1), At(Midnight(n + 6) + HOUR), 1);
    CheckpointCall(n);
    Runs(ScoredOn(n), JudgedOn(n), judge, []);
    ScoringCall(n);
    Runs(WithdrawnOn(n), ScoredOn(n), score, [judge] + []);
    WithdrawalCall(n);
    Runs(DecidedOn(n), WithdrawnOn(n), withdraw, [score] + ([judge] + []));
    DecisionCall(n);
    Runs(Studied(n), DecidedOn(n), decide, [withdraw] + ([score] + ([judge] + [])));
    calls := ReachedAfter(n, [decide] + ([withdraw] + ([score] + ([judge] + []))));
  }

  lemma {:induction false} ReachedAfter(n: nat, later: seq<Call>) returns (calls: seq<Call>)
    ensures RunOf([], ORACLES, calls) == RunOf(Studied(n), ORACLES, later)
  {
    var j, at := Before(n), Midnight(n);
    var a, b, c := Research(j[0].event, at), Research(j[1].event, at), Research(j[2].event, at);
    assert j[..0] == [];
    Studies(n, 2);
    Runs(j[..2], j[..3], c, later);
    Studies(n, 1);
    Runs(j[..1], j[..2], b, [c] + later);
    Studies(n, 0);
    Runs([], j[..1], a, [b] + ([c] + later));
    calls := [a] + ([b] + ([c] + later));
  }
}
