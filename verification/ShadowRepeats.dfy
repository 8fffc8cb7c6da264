/** What a repeated checkpoint does: nothing, or a promotion and its retraction. */
module ShadowRepeats {
  import opened Outcomes
  import opened Shadow
  import opened ShadowReplay
  import opened ShadowLaws

  /** Checkpoints and references: what a checkpoint call writes, and what no evidence rests on. */
  predicate Verdict(e: Event) { e.Checkpoint? || e.Reference? }

  /** The economic gate reads the evidence, and of the verdicts only the comparison reference that it is given. */
  ghost predicate GateReadsEvidence(o: Oracles) {
    forall j: Journal, r: Record, m: nat, v: ScoreValue, c: Option<nat> ::
      Verdict(r.event) && (c.Some? ==> c.value < |j|) ==> o.gate(j + [r], m, v, c) == o.gate(j, m, v, c)
  }

  /** A date that the score rests on is withdrawn. */
  ghost predicate RestsOnWithdrawn(j: Journal, v: ScoreValue) {
    exists date :: Withdrawn(j, date) && Relevant(j, v, date)
  }

  /** The model's newest score passes the gate, and rests on a date that is withdrawn. */
  ghost predicate QualifiesOnWithdrawn(o: Oracles, j: Journal, m: nat) {
    var score := LastWhere(j, ScoreOf(m));
    score.Some? && StatusOf(j, o, m, j[score.value].event.value) == Qualified && RestsOnWithdrawn(j, j[score.value].event.value)
  }

  /** The model's last checkpoint says what a new one would say. */
  predicate Judged(o: Oracles, j: Journal, m: nat) {
    var checkpoint := LastWhere(j, CheckpointOf(m));
    LastWhere(j, ScoreOf(m)).Some? && checkpoint.Some? && SaysTheSame(j[checkpoint.value].event, CheckpointFor(j, o, m))
  }

  // ------------------------------------------------- one more verdict, same evidence

  lemma {:induction false} SameWithdrawn(j: Journal, r: Record, date: int)
    requires Verdict(r.event)
    ensures Withdrawn(j + [r], date) == Withdrawn(j, date)
  {
    LastWhereSnoc(j, r, OfDate(date));
  }

  lemma {:induction false} SameInput(j: Journal, r: Record, packet: Packet)
    requires Verdict(r.event)
    ensures Has(j + [r], Input(packet)) == Has(j, Input(packet))
  {
    FirstWhereSnoc(j, r, Is(Input(packet)));
  }

  /** Decision d is one of the score's, and the date is in its input. */
  predicate Covers(j: Journal, v: ScoreValue, d: nat, date: int) {
    && d < |j| && d in v.decisions && j[d].event.Decision? && Has(j, Input(j[d].event.packet))
    && exists q :: 0 <= q < |j[d].event.packet.rows| && j[d].event.packet.rows[q].date == date
  }

  lemma {:induction false} RelevantMeans(j: Journal, v: ScoreValue, date: int)
    ensures Relevant(j, v, date) <==> date in v.outcomeDates || exists d: nat :: Covers(j, v, d, date)
  {
    if Relevant(j, v, date) && date !in v.outcomeDates {
      var d :| 0 <= d < |j| && d in v.decisions && j[d].event.Decision? && Has(j, Input(j[d].event.packet))
               && exists q :: 0 <= q < |j[d].event.packet.rows| && j[d].event.packet.rows[q].date == date;
      assert Covers(j, v, d, date);
    }
  }

  lemma {:induction false} SameCovers(j: Journal, r: Record, v: ScoreValue, d: nat, date: int)
    requires Verdict(r.event)
    ensures Covers(j + [r], v, d, date) == Covers(j, v, d, date)
  {
    if d < |j| {
      assert (j + [r])[d] == j[d];
      if j[d].event.Decision? { SameInput(j, r, j[d].event.packet); }
    } else if d == |j| {
      assert (j + [r])[d] == r;
    }
  }

  lemma {:induction false} SameRelevant(j: Journal, r: Record, v: ScoreValue, date: int)
    requires Verdict(r.event)
    ensures Relevant(j + [r], v, date) == Relevant(j, v, date)
  {
    RelevantMeans(j, v, date);
    RelevantMeans(j + [r], v, date);
    forall d: nat ensures Covers(j + [r], v, d, date) == Covers(j, v, d, date) { SameCovers(j, r, v, d, date); }
  }

  lemma {:induction false} SameRest(j: Journal, r: Record, v: ScoreValue)
    requires Verdict(r.event)
    ensures RestsOnWithdrawn(j + [r], v) == RestsOnWithdrawn(j, v)
  {
    forall date ensures Withdrawn(j + [r], date) == Withdrawn(j, date) && Relevant(j + [r], v, date) == Relevant(j, v, date) {
      SameWithdrawn(j, r, date);
      SameRelevant(j, r, v, date);
    }
  }

  lemma {:induction false} SameRevisions(j: Journal, r: Record, cutoff: Option<int>)
    requires Verdict(r.event)
    ensures RevisionsUpTo(j + [r], cutoff) == RevisionsUpTo(j, cutoff)
  {
    assert (j + [r])[..|j|] == j;
  }

  lemma {:induction false} SameStatus(o: Oracles, j: Journal, r: Record, m: nat, v: ScoreValue)
    requires GateReadsEvidence(o) && Verdict(r.event) && Comparison(j + [r], m) == Comparison(j, m)
    requires Comparison(j, m).Some? ==> Comparison(j, m).value < |j|
    ensures StatusOf(j + [r], o, m, v) == StatusOf(j, o, m, v)
  {
    SameRevisions(j, r, if v.windowEnd.Some? then v.windowEnd else v.lastDate);
  }

  /** All that a new checkpoint would say is as it was before the verdict. */
  lemma {:induction false} SameJudgement(o: Oracles, j: Journal, r: Record, m: nat)
    requires GateReadsEvidence(o) && Verdict(r.event) && Comparison(j + [r], m) == Comparison(j, m)
    requires Comparison(j, m).Some? ==> Comparison(j, m).value < |j|
    requires LastWhere(j, ScoreOf(m)).Some?
    ensures LastWhere(j + [r], ScoreOf(m)) == LastWhere(j, ScoreOf(m))
    ensures SaysTheSame(CheckpointFor(j + [r], o, m), CheckpointFor(j, o, m))
    ensures QualifiesOnWithdrawn(o, j + [r], m) == QualifiesOnWithdrawn(o, j, m)
  {
    LastWhereSnoc(j, r, ScoreOf(m));
    var score := LastWhere(j, ScoreOf(m)).value;
    assert (j + [r])[score] == j[score];
    SameStatus(o, j, r, m, j[score].event.value);
    SameRest(j, r, j[score].event.value);
  }

  // ----------------------------------------------------- the comparison reference

  lemma {:induction false} NoneBeforeFirst(j: Journal, p: Event -> bool)
    requires FirstWhere(j, p).Some?
    ensures var i := FirstWhere(j, p).value; FirstWhere(j[..i], p).None? && LastWhere(j[..i], p).None?
  {
    FirstWhereFinds(j, p);
    var i := FirstWhere(j, p).value;
    assert forall k :: 0 <= k < i ==> !p(j[..i][k].event);
  }

  lemma {:induction false} ComparisonIsEarlier(o: Oracles, j: Journal, m: nat)
    requires Replayable(o, j)
    ensures Comparison(j, m).Some? ==> Comparison(j, m).value < |j|
  {
    var first := FirstWhere(j, CheckpointOf(m));
    if first.Some? {
      NoneBeforeFirst(j, CheckpointOf(m));
      assert Accepts(o, j[..first.value], j[first.value]);
    }
  }

  lemma {:induction false} SomeFirst(j: Journal, p: Event -> bool)
    requires LastWhere(j, p).Some?
    ensures FirstWhere(j, p).Some?
  {
    FirstWhereFinds(j, p);
  }

  lemma {:induction false} SameComparison(j: Journal, r: Record, m: nat)
    requires if LastWhere(j, CheckpointOf(m)).Some? then Verdict(r.event)
             else CheckpointOf(m)(r.event) && r.event.comparison == Comparison(j, m)
    ensures Comparison(j + [r], m) == Comparison(j, m)
  {
    FirstWhereSnoc(j, r, CheckpointOf(m));
    if LastWhere(j, CheckpointOf(m)).Some? {
      SomeFirst(j, CheckpointOf(m));
      assert (j + [r])[FirstWhere(j, CheckpointOf(m)).value] == j[FirstWhere(j, CheckpointOf(m)).value];
    } else {
      NoneFirst(j, CheckpointOf(m));
    }
  }

  lemma {:induction false} NoneFirst(j: Journal, p: Event -> bool)
    requires LastWhere(j, p).None?
    ensures FirstWhere(j, p).None?
  {
    LastWhereIsLast(j, p);
  }

  // -------------------------------------------------------------- the three steps

  lemma {:induction false} ReferenceKeepsJudged(o: Oracles, j: Journal, r: Record, m: nat)
    requires Replayable(o, j) && GateReadsEvidence(o) && Judged(o, j, m) && r.event.Reference?
    ensures Judged(o, j + [r], m) && LastWhere(j + [r], CheckpointOf(m)) == LastWhere(j, CheckpointOf(m))
    ensures QualifiesOnWithdrawn(o, j + [r], m) == QualifiesOnWithdrawn(o, j, m)
    ensures ActiveModel(j + [r]) == r.event.promoted
  {
    ComparisonIsEarlier(o, j, m);
    SameComparison(j, r, m);
    SameJudgement(o, j, r, m);
    LastWhereSnoc(j, r, CheckpointOf(m));
    LastWhereSnoc(j, r, AnyReference());
    var checkpoint := LastWhere(j, CheckpointOf(m)).value;
    assert (j + [r])[checkpoint] == j[checkpoint];
  }

  lemma {:induction false} CheckpointMakesJudged(o: Oracles, j: Journal, at: int, m: nat)
    requires Replayable(o, j) && GateReadsEvidence(o) && LastWhere(j, ScoreOf(m)).Some?
    ensures var n := j + [Record(CheckpointFor(j, o, m), at)];
      && Judged(o, n, m) && LastWhere(n, CheckpointOf(m)) == Some(|j|)
      && QualifiesOnWithdrawn(o, n, m) == QualifiesOnWithdrawn(o, j, m)
  {
    var r := Record(CheckpointFor(j, o, m), at);
    ComparisonIsEarlier(o, j, m);
    SameComparison(j, r, m);
    SameJudgement(o, j, r, m);
    LastWhereSnoc(j, r, CheckpointOf(m));
  }

  lemma {:induction false} RecordJudges(o: Oracles, j: Journal, r: Record, m: nat)
    requires WellFormed(o, j) && GateReadsEvidence(o) && LastWhere(j, ScoreOf(m)).Some? && r.event == CheckpointFor(j, o, m)
    ensures Judged(o, j + [r], m) && QualifiesOnWithdrawn(o, j + [r], m) == QualifiesOnWithdrawn(o, j, m)
  {
    CheckpointMakesJudged(o, j, r.createdAt, m);
  }

  lemma {:induction false} NewCheckpointIsWritten(o: Oracles, j: Journal, m: nat, clock: Clock)
    requires WellFormed(o, j) && LastWhere(j, ScoreOf(m)).Some? && !Judged(o, j, m) && RecordCheckpoint(j, o, m, clock).ok
    ensures RecordCheckpoint(j, o, m, clock) == Step(j + [Record(CheckpointFor(j, o, m), clock.appending(|j|))], |j|, true)
  {
    CheckpointsAreChained(o, j, m);
    ChainEventIsNew(j, CheckpointFor(j, o, m), CheckpointOf(m));
  }

  lemma {:induction false} FoundCheckpoint(o: Oracles, j: Journal, m: nat, clock: Clock)
    requires Judged(o, j, m)
    ensures RecordCheckpoint(j, o, m, clock) == Step(j, LastWhere(j, CheckpointOf(m)).value, true)
  {
  }

  lemma {:induction false} RecordedIsJudged(o: Oracles, j: Journal, m: nat, clock: Clock) returns (n: Journal)
    requires WellFormed(o, j) && GateReadsEvidence(o) && LastWhere(j, ScoreOf(m)).Some? && RecordCheckpoint(j, o, m, clock).ok
    ensures n == RecordCheckpoint(j, o, m, clock).journal && WellFormed(o, n) && Judged(o, n, m)
    ensures LastWhere(n, CheckpointOf(m)) == Some(RecordCheckpoint(j, o, m, clock).id)
    ensures QualifiesOnWithdrawn(o, n, m) == QualifiesOnWithdrawn(o, j, m)
  {
    RecordCheckpointKeeps(o, j, m, clock);
    if Judged(o, j, m) {
      FoundCheckpoint(o, j, m, clock);
      n := j;
    } else {
      NewCheckpointIsWritten(o, j, m, clock);
      CheckpointMakesJudged(o, j, clock.appending(|j|), m);
      n := j + [Record(CheckpointFor(j, o, m), clock.appending(|j|))];
    }
  }

  /** A repeated checkpoint call finds its checkpoint, and goes on with it. */
  lemma {:induction false} JudgedTakes(o: Oracles, j: Journal, m: nat, c: nat, clock: Clock)
    requires Judged(o, j, m) && LastWhere(j, CheckpointOf(m)) == Some(c)
    ensures var p := Promote(j, m, c, clock);
      TakeCheckpoint(j, o, m, clock) == if p.ok then Repair(p.journal, clock) else p
  {
    FoundCheckpoint(o, j, m, clock);
  }

  /** Promotion is one new reference, or nothing. */
  lemma {:induction false} Promotes(o: Oracles, j: Journal, m: nat, c: nat, clock: Clock) returns (n: Journal)
    requires WellFormed(o, j) && GateReadsEvidence(o) && Judged(o, j, m) && LastWhere(j, CheckpointOf(m)) == Some(c)
    requires Promote(j, m, c, clock).ok
    ensures n == Promote(j, m, c, clock).journal && WellFormed(o, n) && Judged(o, n, m) && LastWhere(n, CheckpointOf(m)) == Some(c)
    ensures QualifiesOnWithdrawn(o, n, m) == QualifiesOnWithdrawn(o, j, m)
    ensures j[c].event.status == Qualified ==> ActiveModel(n) == Some(m)
    ensures n[..|j|] == j
    ensures if j[c].event.status != Qualified || ActiveModel(j) == Some(m) then n == j
            else |n| == |j| + 1 && n[|j|].event.Reference? && n[|j|].event.promoted == Some(m)
                 && Active(n) == Some(|j|) && n[|j|].createdAt == clock.appending(|j|)
  {
    n := Promote(j, m, c, clock).journal;
    PromoteKeeps(o, j, m, c, clock);
    if j[c].event.status == Qualified && ActiveModel(j) != Some(m) {
      var e := Reference(Some(m), FrozenEconomic, Some(c), Active(j));
      var r := Record(e, clock.appending(|j|));
      ReferencesAreChained(o, j);
      ChainEventIsNew(j, e, AnyReference());
      assert n == j + [r];
      ReferenceKeepsJudged(o, j, r, m);
      LastWhereSnoc(j, r, AnyReference());
    }
  }

  /** Repair is one more reference to cash, when the active one is invalid, or nothing. */
  lemma {:induction false} Repairs(o: Oracles, j: Journal, m: nat, clock: Clock) returns (n: Journal)
    requires WellFormed(o, j) && GateReadsEvidence(o) && Judged(o, j, m) && Repair(j, clock).ok
    ensures n == Repair(j, clock).journal && WellFormed(o, n) && Judged(o, n, m) && SoundReference(n)
    ensures QualifiesOnWithdrawn(o, n, m) == QualifiesOnWithdrawn(o, j, m)
    ensures LastWhere(n, CheckpointOf(m)) == LastWhere(j, CheckpointOf(m))
    ensures n[..|j|] == j && (SoundReference(j) ==> n == j)
    ensures !SoundReference(j) ==>
      |n| == |j| + 1 && n[|j|].event.Reference? && n[|j|].event.promoted.None? && n[|j|].event.supersedes == Active(j)
      && n[|j|].createdAt == clock.appending(|j|)
  {
    n := Repair(j, clock).journal;
    RepairKeeps(o, j, clock);
    if !SoundReference(j) {
      var e := Reference(None, CashAfterRetraction, j[Active(j).value].event.checkpoint, Active(j));
      ReferencesAreChained(o, j);
      ChainEventIsNew(j, e, AnyReference());
      assert n == j + [Record(e, clock.appending(|j|))];
      ReferenceKeepsJudged(o, j, Record(e, clock.appending(|j|)), m);
    }
  }

  /** A qualified checkpoint of the newest score leaves only one way for the model to be invalid. */
  lemma {:induction false} InvalidByWithdrawal(o: Oracles, j: Journal, m: nat)
    requires Judged(o, j, m) && j[LastWhere(j, CheckpointOf(m)).value].event.status == Qualified
    ensures Invalid(j, m) <==> QualifiesOnWithdrawn(o, j, m)
  {
  }

  lemma {:induction false} QualifiedByCheckpoint(o: Oracles, j: Journal, m: nat)
    requires Judged(o, j, m) && QualifiesOnWithdrawn(o, j, m)
    ensures j[LastWhere(j, CheckpointOf(m)).value].event.status == Qualified
  {
  }

  // ------------------------------------------------------------------ the repeat

  /** A completed call completed its three steps. */
  lemma {:induction false} TakeCompletes(o: Oracles, j: Journal, m: nat, clock: Clock)
    requires TakeCheckpoint(j, o, m, clock).ok
    ensures LastWhere(j, ScoreOf(m)).Some?
    ensures var a := RecordCheckpoint(j, o, m, clock);
      && a.ok && a.id < |a.journal| && a.journal[a.id].event.Checkpoint?
      && var b := Promote(a.journal, m, a.id, clock); b.ok && TakeCheckpoint(j, o, m, clock) == Repair(b.journal, clock)
  {
    RecordedCheckpoint(j, o, m, clock);
  }

  lemma {:induction false} KeptUnlessWithdrawn(o: Oracles, j: Journal, m: nat)
    requires Judged(o, j, m) && !QualifiesOnWithdrawn(o, j, m) && ActiveModel(j) == Some(m)
    requires j[LastWhere(j, CheckpointOf(m)).value].event.status == Qualified
    ensures SoundReference(j)
  {
    InvalidByWithdrawal(o, j, m);
  }

  /** What a completed checkpoint call leaves. */
  lemma {:induction false} TakenIsJudged(o: Oracles, j: Journal, m: nat, clock: Clock) returns (n: Journal, c: nat)
    requires WellFormed(o, j) && GateReadsEvidence(o) && TakeCheckpoint(j, o, m, clock).ok
    ensures n == TakeCheckpoint(j, o, m, clock).journal && WellFormed(o, n) && Judged(o, n, m) && SoundReference(n)
    ensures QualifiesOnWithdrawn(o, n, m) == QualifiesOnWithdrawn(o, j, m) && LastWhere(n, CheckpointOf(m)) == Some(c)
    ensures !QualifiesOnWithdrawn(o, j, m) && n[c].event.status == Qualified ==> ActiveModel(n) == Some(m)
  {
    TakeCompletes(o, j, m, clock);
    var a := RecordedIsJudged(o, j, m, clock);
    c := LastWhere(a, CheckpointOf(m)).value;
    var b := Promotes(o, a, m, c, clock);
    n := Repairs(o, b, m, clock);
    assert n[c] == b[c];
    if !QualifiesOnWithdrawn(o, b, m) && b[c].event.status == Qualified {
      KeptUnlessWithdrawn(o, b, m);
    }
  }

  /**
    A checkpoint call that follows a completed one for the same model changes nothing exactly when the newest score
    does not qualify on a withdrawn date.
  */
  lemma {:induction false} RepeatChangesNothing(o: Oracles, j: Journal, m: nat, clock: Clock, again: Clock)
    requires WellFormed(o, j) && GateReadsEvidence(o) && TakeCheckpoint(j, o, m, clock).ok
    ensures var n := TakeCheckpoint(j, o, m, clock).journal; var s := TakeCheckpoint(n, o, m, again);
      s.ok && s.journal == n <==> !QualifiesOnWithdrawn(o, j, m)
  {
    var n, c := TakenIsJudged(o, j, m, clock);
    JudgedTakes(o, n, m, c, again);
    if QualifiesOnWithdrawn(o, n, m) {
      QualifiedByCheckpoint(o, n, m);
      InvalidByWithdrawal(o, n, m);
      if TakeCheckpoint(n, o, m, again).ok {
        var p := Promotes(o, n, m, c, again);
        var q := Repairs(o, p, m, again);
        assert |q| > |n|;
      }
    }
  }

  /** Two references behind a journal: a promotion, and the retraction that supersedes it. */
  predicate FlapsAfter(j: Journal, e: Journal, m: nat) {
    && |e| == |j| + 2 && Extends(j, e)
    && e[|j|].event.Reference? && e[|j|].event.promoted == Some(m)
    && e[|j| + 1].event.Reference? && e[|j| + 1].event.promoted.None? && e[|j| + 1].event.supersedes == Some(|j|)
  }

  lemma {:induction false} TwoMore(j: Journal, n: Journal, e: Journal)
    requires |n| == |j| + 1 && n[..|j|] == j && |e| == |n| + 1 && e[..|n|] == n
    ensures |e| == |j| + 2 && Extends(j, e) && e[|j|] == n[|j|] && e[|j| + 1] == e[|n|]
  {
    assert e[..|j|] == e[..|n|][..|j|];
    assert e[|j|] == e[..|n|][|j|];
  }

  lemma {:induction false} PromoteCompletes(j: Journal, m: nat, c: nat, clock: Clock)
    requires c < |j| && j[c].event.Checkpoint? && j[|j| - 1].createdAt <= clock.appending(|j|)
    ensures Promote(j, m, c, clock).ok
  {
  }

  lemma {:induction false} RepairCompletes(j: Journal, clock: Clock)
    requires j != [] && j[|j| - 1].createdAt <= clock.appending(|j|)
    ensures Repair(j, clock).ok
  {
  }

  /** Behind a promotion that rests on a withdrawn date, the repair writes the retraction. */
  lemma {:induction false} RetractedNext(o: Oracles, j: Journal, p: Journal, m: nat, clock: Clock)
    requires WellFormed(o, p) && GateReadsEvidence(o) && Judged(o, p, m) && QualifiesOnWithdrawn(o, p, m)
    requires |p| == |j| + 1 && p[..|j|] == j && p[|j|].event.Reference? && p[|j|].event.promoted == Some(m)
    requires Active(p) == Some(|j|) && p[|j|].createdAt <= clock.appending(|j| + 1)
    ensures Repair(p, clock).ok && FlapsAfter(j, Repair(p, clock).journal, m)
    ensures Repair(p, clock).journal[|j| + 1].createdAt == clock.appending(|j| + 1)
  {
    QualifiedByCheckpoint(o, p, m);
    InvalidByWithdrawal(o, p, m);
    RepairCompletes(p, clock);
    var q := Repairs(o, p, m, clock);
    TwoMore(j, p, q);
  }

  /** Otherwise it promotes the model and retracts it again: two more references in every call. */
  lemma {:induction false} RepeatPromotesAndRetracts(o: Oracles, j: Journal, m: nat, clock: Clock)
    requires WellFormed(o, j) && GateReadsEvidence(o) && Judged(o, j, m) && SoundReference(j) && QualifiesOnWithdrawn(o, j, m)
    requires j[|j| - 1].createdAt <= clock.appending(|j|) <= clock.appending(|j| + 1)
    ensures TakeCheckpoint(j, o, m, clock).ok && FlapsAfter(j, TakeCheckpoint(j, o, m, clock).journal, m)
    ensures TakeCheckpoint(j, o, m, clock).journal[|j| + 1].createdAt == clock.appending(|j| + 1)
  {
    var c := LastWhere(j, CheckpointOf(m)).value;
    QualifiedByCheckpoint(o, j, m);
    InvalidByWithdrawal(o, j, m);
    JudgedTakes(o, j, m, c, clock);
    PromoteCompletes(j, m, c, clock);
    var p := Promotes(o, j, m, c, clock);
    RetractedNext(o, j, p, m, clock);
  }

  // ------------------------------------------------------------- any number of repeats

  /** The journal after a step for each clock. */
  function RepeatedBy(step: (Journal, Clock) -> Journal, j: Journal, clocks: seq<Clock>): Journal
    decreases |clocks|
  {
    if clocks == [] then j else RepeatedBy(step, step(j, clocks[0]), clocks[1..])
  }

  ghost function Taking(o: Oracles, m: nat): (Journal, Clock) -> Journal {
    (j: Journal, clock: Clock) => TakeCheckpoint(j, o, m, clock).journal
  }

  /** The journal after one checkpoint call for each clock. */
  ghost function Repeated(o: Oracles, j: Journal, m: nat, clocks: seq<Clock>): Journal { RepeatedBy(Taking(o, m), j, clocks) }

  /** From a journal of that length and last time on, no clock reading falls behind: each call reads its clock twice. */
  predicate OnwardFrom(clocks: seq<Clock>, length: nat, last: int)
    decreases |clocks|
  {
    clocks == [] || (last <= clocks[0].appending(length) <= clocks[0].appending(length + 1)
                     && OnwardFrom(clocks[1..], length + 2, clocks[0].appending(length + 1)))
  }

  /** So many pairs behind a journal: each a promotion, and the reference to cash that supersedes it. */
  predicate Flapping(j: Journal, e: Journal, m: nat, pairs: nat) {
    && |e| == |j| + 2 * pairs && Extends(j, e)
    && forall k :: 0 <= k < pairs ==> PairAt(e, |j| + 2 * k, m)
  }

  predicate PairAt(e: Journal, i: nat, m: nat) {
    && i + 1 < |e| && e[i].event.Reference? && e[i].event.promoted == Some(m)
    && e[i + 1].event.Reference? && e[i + 1].event.promoted.None? && e[i + 1].event.supersedes == Some(i)
  }

  lemma {:induction false} PairsBehind(j: Journal, n: Journal, e: Journal, m: nat, pairs: nat)
    requires FlapsAfter(j, n, m) && Flapping(n, e, m, pairs)
    ensures Flapping(j, e, m, pairs + 1)
  {
    ExtendsThrough(j, n, e);
    assert e[..|n|][|j|] == n[|j|] && e[..|n|][|j| + 1] == n[|j| + 1];
    forall k | 0 <= k < pairs + 1 ensures PairAt(e, |j| + 2 * k, m) {
      if k > 0 { assert PairAt(e, |n| + 2 * (k - 1), m); }
    }
  }

  predicate InTime(j: Journal, clock: Clock) {
    j != [] && j[|j| - 1].createdAt <= clock.appending(|j|) <= clock.appending(|j| + 1)
  }

  /** From a journal that is ready, a step flaps and leaves one that is ready. */
  ghost predicate KeepsReady(step: (Journal, Clock) -> Journal, ready: Journal -> bool, m: nat) {
    forall j: Journal, clock: Clock :: ready(j) && InTime(j, clock) ==>
      && FlapsAfter(j, step(j, clock), m) && ready(step(j, clock))
      && step(j, clock)[|j| + 1].createdAt == clock.appending(|j| + 1)
  }

  lemma {:induction false} StepsFlap(step: (Journal, Clock) -> Journal, ready: Journal -> bool, m: nat, j: Journal, clocks: seq<Clock>)
    requires KeepsReady(step, ready, m) && ready(j) && j != [] && OnwardFrom(clocks, |j|, j[|j| - 1].createdAt)
    ensures Flapping(j, RepeatedBy(step, j, clocks), m, |clocks|)
    decreases |clocks|
  {
    if clocks != [] {
      assert InTime(j, clocks[0]);
      var n := step(j, clocks[0]);
      StepsFlap(step, ready, m, n, clocks[1..]);
      PairsBehind(j, n, RepeatedBy(step, n, clocks[1..]), m, |clocks| - 1);
    }
  }

  /** A replayable journal with a sound reference, in which the model is judged on a withdrawn date. */
  ghost predicate Restless(o: Oracles, j: Journal, m: nat) {
    WellFormed(o, j) && GateReadsEvidence(o) && Judged(o, j, m) && SoundReference(j) && QualifiesOnWithdrawn(o, j, m)
  }

  /** What one more call leaves for the next. */
  lemma {:induction false} NextRepeat(o: Oracles, j: Journal, m: nat, clock: Clock) returns (n: Journal)
    requires Restless(o, j, m)
    requires InTime(j, clock)
    ensures TakeCheckpoint(j, o, m, clock).ok && n == TakeCheckpoint(j, o, m, clock).journal && FlapsAfter(j, n, m)
    ensures Restless(o, n, m) && n[|n| - 1].createdAt == clock.appending(|j| + 1)
  {
    RepeatPromotesAndRetracts(o, j, m, clock);
    var c;
    n, c := TakenIsJudged(o, j, m, clock);
  }

  /**
    Any number of checkpoint calls, one after another, on a score that qualifies on a withdrawn date: every one of them
    promotes the model and retracts it again.
  */
  lemma {:induction false} RepeatsKeepFlapping(o: Oracles, j: Journal, m: nat, clocks: seq<Clock>)
    requires Restless(o, j, m) && j != []
    requires OnwardFrom(clocks, |j|, j[|j| - 1].createdAt)
    ensures Flapping(j, Repeated(o, j, m, clocks), m, |clocks|)
  {
    var ready := (x: Journal) => Restless(o, x, m);
    forall x: Journal, clock: Clock | ready(x) && InTime(x, clock)
      ensures var n := Taking(o, m)(x, clock);
        FlapsAfter(x, n, m) && ready(n) && n[|x| + 1].createdAt == clock.appending(|x| + 1)
    {
      var n := NextRepeat(o, x, m, clock);
    }
    StepsFlap(Taking(o, m), ready, m, j, clocks);
  }
}
