/**
  A run that leaves a model active whose newest checkpoint does not qualify it: the withdrawn observation is restored
  while the model is promoted, and the checkpoint call that then asks for a new score is stopped before its retraction.
*/
module ShadowRejection {
  import opened Outcomes
  import opened Shadow
  import opened ShadowReplay
  import opened ShadowLaws
  import opened ShadowRepeats
  import opened ShadowScoring
  import opened ShadowStanding
  import opened ShadowClock
  import opened ShadowWitness

  /** So many hours after the midnight of the score. */
  function Hour(n: nat, h: nat): int { Midnight(n + 6) + h * HOUR }

  function Promoted(n: nat): Record { Record(Reference(Some(1), FrozenEconomic, Some(9), Some(4)), Hour(n, 2)) }
  function Restored(n: nat): Record { Record(Availability(n, true, Some(6)), Hour(n, 3)) }
  function Rejected(n: nat): Record { Record(Checkpoint(1, 8, RestorationNeedsScore, Some(4), Some(9)), Hour(n, 4)) }

  function PromotedOn(n: nat): Journal { JudgedOn(n) + [Promoted(n)] }
  function RestoredOn(n: nat): Journal { PromotedOn(n) + [Restored(n)] }
  function RejectedOn(n: nat): Journal { RestoredOn(n) + [Rejected(n)] }

  // ------------------------------------------------------------- the promotion

  lemma {:induction false} JudgedSearches(n: nat)
    ensures LastWhere(JudgedOn(n), CheckpointOf(1)) == Some(9) && LastWhere(JudgedOn(n), ScoreOf(1)) == Some(8)
    ensures LastWhere(JudgedOn(n), OfDate(n)) == Some(6) && Active(JudgedOn(n)) == Some(4)
  {
    CheckpointIsExpected(n);
    LastWhereSnoc(ScoredOn(n), Judges(n), CheckpointOf(1));
    LastWhereSnoc(ScoredOn(n), Judges(n), ScoreOf(1));
    LastWhereSnoc(DecidedOn(n), Withdraws(n), OfDate(n));
    Carried(WithdrawnOn(n), Enters(n), OfDate(n), Some(6));
    Carried(EnteredOn(n), Scores(n, Value(n)), OfDate(n), Some(6));
    Carried(ScoredOn(n), Judges(n), OfDate(n), Some(6));
    ActiveIsCash(n);
  }

  lemma {:induction false} PromotionIsNew(n: nat)
    ensures !Has(JudgedOn(n), Promoted(n).event)
  {
    Nowhere(JudgedOn(n), Is(Promoted(n).event));
  }

  lemma {:induction false} Promoting(n: nat)
    ensures Promote(JudgedOn(n), 1, 9, At(Hour(n, 2))) == Step(PromotedOn(n), 10, true)
  {
    JudgedSearches(n);
    PromotionIsNew(n);
    assert JudgedOn(n)[9] == Judges(n) && JudgedOn(n)[4] == Before(n)[4];
  }

  lemma {:induction false} PromotionCall(n: nat)
    requires Known(n)
    ensures Interrupted(JudgedOn(n), ORACLES, Call(TakeCheckpointOf(1), At(Hour(n, 2)), 1)) == PromotedOn(n)
  {
    var clock := At(Hour(n, 2));
    JudgedIsWellFormed(n);
    JudgedIsJudged(n);
    JudgedSearches(n);
    Promoting(n);
    JudgedTakes(ORACLES, JudgedOn(n), 1, 9, clock);
    PromoteKeeps(ORACLES, JudgedOn(n), 1, 9, clock);
    RepairKeeps(ORACLES, PromotedOn(n), clock);
    CutAfterOne(ORACLES, JudgedOn(n), PromotedOn(n), 1, clock);
  }

  // ----------------------------------------------------------- the restoration

  lemma {:induction false} RestoredSearches(n: nat)
    ensures LastWhere(PromotedOn(n), OfDate(n)) == Some(6)
    ensures LastWhere(RestoredOn(n), CheckpointOf(1)) == Some(9) && LastWhere(RestoredOn(n), ScoreOf(1)) == Some(8)
    ensures LastWhere(RestoredOn(n), OfDate(n)) == Some(11) && Active(RestoredOn(n)) == Some(10)
  {
    JudgedSearches(n);
    Carried(JudgedOn(n), Promoted(n), CheckpointOf(1), Some(9));
    Carried(JudgedOn(n), Promoted(n), ScoreOf(1), Some(8));
    Carried(JudgedOn(n), Promoted(n), OfDate(n), Some(6));
    LastWhereSnoc(JudgedOn(n), Promoted(n), AnyReference());
    Carried(PromotedOn(n), Restored(n), CheckpointOf(1), Some(9));
    Carried(PromotedOn(n), Restored(n), ScoreOf(1), Some(8));
    Carried(PromotedOn(n), Restored(n), AnyReference(), Some(10));
    LastWhereSnoc(PromotedOn(n), Restored(n), OfDate(n));
  }

  lemma {:induction false} NothingIsWithdrawn(n: nat, date: int)
    ensures !Withdrawn(RestoredOn(n), date)
  {
    RestoredSearches(n);
    if date != n { Nowhere(RestoredOn(n), OfDate(date)); }
  }

  lemma {:induction false} RestoredPlaces(n: nat)
    ensures RestoredOn(n)[8] == Scores(n, Value(n)) && RestoredOn(n)[9] == Judges(n) && RestoredOn(n)[10] == Promoted(n)
  {
  }

  lemma {:induction false} RestoredIsSound(n: nat)
    ensures SoundReference(RestoredOn(n)) && ActiveModel(RestoredOn(n)) == Some(1) && Earned(RestoredOn(n))
  {
    RestoredSearches(n);
    RestoredPlaces(n);
    forall date ensures !Withdrawn(RestoredOn(n), date) { NothingIsWithdrawn(n, date); }
  }

  lemma {:induction false} SoundNeedsNoRepair(j: Journal, clock: Clock)
    requires SoundReference(j)
    ensures Repair(j, clock) == Step(j, 0, true)
  {
  }

  lemma {:induction false} RestorationMarks(n: nat, clock: Clock)
    requires clock == At(Hour(n, 3))
    ensures MarkDates(PromotedOn(n), PromotedOn(n), [n], true, clock) == Step(RestoredOn(n), 0, true)
  {
    RestoredSearches(n);
    assert PromotedOn(n)[6] == Withdraws(n);
    WritesNew(PromotedOn(n), Restored(n).event, Hour(n, 3));
    assert [n][1..] == [];
    assert MarkDate(PromotedOn(n), PromotedOn(n), n, true, clock) == Step(RestoredOn(n), 11, true);
    assert MarkDates(PromotedOn(n), RestoredOn(n), [], true, clock) == Step(RestoredOn(n), 0, true);
  }

  lemma {:induction false} RestorationCall(n: nat)
    ensures Interrupted(PromotedOn(n), ORACLES, Call(SetAvailabilityOf([n], true), At(Hour(n, 3)), 9)) == RestoredOn(n)
  {
    var clock := At(Hour(n, 3));
    RestorationMarks(n, clock);
    RestoredIsSound(n);
    SoundNeedsNoRepair(RestoredOn(n), clock);
    Uncut(ORACLES, PromotedOn(n), SetAvailabilityOf([n], true), clock, RestoredOn(n));
  }

  // -------------------------------------------------------------- the rejection

  lemma {:induction false} TwoRevisions(n: nat)
    ensures RevisionsUpTo(RestoredOn(n), Some(n + 6)) == [6, 11]
  {
    OneRevision(n);
    RevisionsSnoc(ScoredOn(n), Judges(n), Some(n + 6));
    RevisionsSnoc(JudgedOn(n), Promoted(n), Some(n + 6));
    RevisionsSnoc(PromotedOn(n), Restored(n), Some(n + 6));
  }

  lemma {:induction false} ComparesWithCash(n: nat)
    ensures Comparison(RestoredOn(n), 1) == Some(4)
  {
    Nowhere(ScoredOn(n), CheckpointOf(1));
    FirstWhereSnoc(ScoredOn(n), Judges(n), CheckpointOf(1));
    FirstWhereSnoc(JudgedOn(n), Promoted(n), CheckpointOf(1));
    FirstWhereSnoc(PromotedOn(n), Restored(n), CheckpointOf(1));
    RestoredPlaces(n);
  }

  lemma {:induction false} RejectionIsExpected(n: nat)
    ensures LastWhere(RestoredOn(n), ScoreOf(1)).Some? && CheckpointFor(RestoredOn(n), ORACLES, 1) == Rejected(n).event
  {
    RestoredSearches(n);
    RestoredPlaces(n);
    TwoRevisions(n);
    ComparesWithCash(n);
  }

  lemma {:induction false} RecordingIs(o: Oracles, j: Journal, m: nat, clock: Clock, e: Event, previous: nat, s: Step)
    requires LastWhere(j, ScoreOf(m)).Some? && LastWhere(j, CheckpointOf(m)) == Some(previous)
    requires CheckpointFor(j, o, m) == e && !SaysTheSame(j[previous].event, e) && Append(j, e, clock.appending(|j|)) == s
    ensures RecordCheckpoint(j, o, m, clock) == s
  {
  }

  lemma {:induction false} RecordsRejection(n: nat)
    ensures LastWhere(RestoredOn(n), ScoreOf(1)).Some?
    ensures RecordCheckpoint(RestoredOn(n), ORACLES, 1, At(Hour(n, 4))) == Step(RejectedOn(n), 12, true)
  {
    var e, at := Rejected(n).event, Hour(n, 4);
    assert Append(RestoredOn(n), e, at) == Step(RejectedOn(n), 12, true) by { WritesNew(RestoredOn(n), e, at); }
    assert RestoredOn(n)[9].event == Judges(n).event by { RestoredPlaces(n); }
    assert !SaysTheSame(Judges(n).event, e);
    RestoredSearches(n);
    RejectionIsExpected(n);
    RecordingIs(ORACLES, RestoredOn(n), 1, At(at), e, 9, Step(RejectedOn(n), 12, true));
  }

  lemma {:induction false} TakeKeepsRecorded(o: Oracles, j: Journal, m: nat, clock: Clock)
    requires WellFormed(o, j) && LastWhere(j, ScoreOf(m)).Some? && RecordCheckpoint(j, o, m, clock).ok
    ensures Extends(RecordCheckpoint(j, o, m, clock).journal, TakeCheckpoint(j, o, m, clock).journal)
  {
    RecordCheckpointKeeps(o, j, m, clock);
    var a := RecordCheckpoint(j, o, m, clock);
    PromoteKeeps(o, a.journal, m, a.id, clock);
    var p := Promote(a.journal, m, a.id, clock);
    RepairKeeps(o, p.journal, clock);
    ExtendsThrough(a.journal, p.journal, Repair(p.journal, clock).journal);
  }

  lemma {:induction false} RejectionCall(n: nat)
    requires WellFormed(ORACLES, RestoredOn(n))
    ensures Interrupted(RestoredOn(n), ORACLES, Call(TakeCheckpointOf(1), At(Hour(n, 4)), 1)) == RejectedOn(n)
  {
    var clock := At(Hour(n, 4));
    RejectionIsExpected(n);
    RecordsRejection(n);
    TakeKeepsRecorded(ORACLES, RestoredOn(n), 1, clock);
    CutAfterOne(ORACLES, RestoredOn(n), RejectedOn(n), 1, clock);
  }

  lemma {:induction false} RestoredIsWellFormed(n: nat)
    requires Known(n)
    ensures WellFormed(ORACLES, RestoredOn(n))
  {
    JudgedIsWellFormed(n);
    PromotionCall(n);
    RestorationCall(n);
    InterruptedKeeps(ORACLES, JudgedOn(n), Call(TakeCheckpointOf(1), At(Hour(n, 2)), 1));
    InterruptedKeeps(ORACLES, PromotedOn(n), Call(SetAvailabilityOf([n], true), At(Hour(n, 3)), 9));
  }

  lemma {:induction false} RejectedIsUnearned(n: nat)
    ensures ActiveModel(RejectedOn(n)) == Some(1) && !Earned(RejectedOn(n))
  {
    RestoredIsSound(n);
    CheckpointAndEarned(RestoredOn(n), Rejected(n));
    ActiveAfter(RestoredOn(n), Rejected(n));
  }

  lemma {:induction false} RunsThrough(j: Journal, calls: seq<Call>, n: Journal, call: Call)
    requires RunOf(j, ORACLES, calls) == n
    ensures RunOf(j, ORACLES, calls + [call]) == Interrupted(n, ORACLES, call)
    decreases |calls|
  {
    if calls == [] {
      assert calls + [call] == [call] && [call][1..] == [];
    } else {
      assert (calls + [call])[1..] == calls[1..] + [call];
      RunsThrough(Interrupted(j, ORACLES, calls[0]), calls[1..], n, call);
    }
  }

  /** The run from the empty journal to an active model whose newest checkpoint does not qualify it. */
  lemma {:induction false} UnearnedIsReached(n: nat) returns (calls: seq<Call>)
    requires Known(n)
    ensures RunOf([], ORACLES, calls) == RejectedOn(n) && ActiveModel(RejectedOn(n)) == Some(1) && !Earned(RejectedOn(n))
  {
    RestoredIsWellFormed(n);
    PromotionCall(n);
    RestorationCall(n);
    RejectionCall(n);
    RejectedIsUnearned(n);
    var judged := JudgedIsReached(n);
    var a := Call(TakeCheckpointOf(1), At(Hour(n, 2)), 1);
    var b := Call(SetAvailabilityOf([n], true), At(Hour(n, 3)), 9);
    var c := Call(TakeCheckpointOf(1), At(Hour(n, 4)), 1);
    RunsThrough([], judged, JudgedOn(n), a);
    RunsThrough([], judged + [a], PromotedOn(n), b);
    RunsThrough([], judged + [a] + [b], RestoredOn(n), c);
    calls := judged + [a] + [b] + [c];
  }
}
