/** When the active model stands on a qualified checkpoint: after every completed call, and exactly when after an interrupted one. */
module ShadowStanding {
  import opened Outcomes
  import opened Shadow
  import opened ShadowReplay
  import opened ShadowLaws

  /** The newest checkpoint of the active model is a qualified one. */
  predicate Earned(j: Journal) {
    var active := ActiveModel(j);
    active.Some? ==>
      var c := LastWhere(j, CheckpointOf(active.value));
      c.Some? && j[c.value].event.status == Qualified
  }

  // ------------------------------------------------------------- one record

  /** Records that promote nothing and judge nothing. */
  predicate Quiet(e: Event) { !e.Checkpoint? && (e.Reference? ==> e.promoted.None?) }

  lemma {:induction false} LastStays(j: Journal, r: Record, p: Event -> bool)
    requires !p(r.event)
    ensures LastWhere(j + [r], p) == LastWhere(j, p)
    ensures LastWhere(j, p).Some? ==> (j + [r])[LastWhere(j, p).value] == j[LastWhere(j, p).value]
  {
    LastWhereSnoc(j, r, p);
  }

  lemma {:induction false} ActiveAfter(j: Journal, r: Record)
    ensures ActiveModel(j + [r]) == if r.event.Reference? then r.event.promoted else ActiveModel(j)
  {
    LastWhereSnoc(j, r, AnyReference());
    if !r.event.Reference? { LastStays(j, r, AnyReference()); }
  }

  lemma {:induction false} QuietKeepsEarned(j: Journal, r: Record)
    requires Earned(j) && Quiet(r.event)
    ensures Earned(j + [r])
  {
    ActiveAfter(j, r);
    if !r.event.Reference? && ActiveModel(j).Some? { LastStays(j, r, CheckpointOf(ActiveModel(j).value)); }
  }

  /** A checkpoint leaves the active model on a qualified one exactly when it is of another model, or qualified. */
  lemma {:induction false} CheckpointAndEarned(j: Journal, r: Record)
    requires Earned(j) && r.event.Checkpoint?
    ensures Earned(j + [r]) <==> ActiveModel(j) != Some(r.event.model) || r.event.status == Qualified
  {
    ActiveAfter(j, r);
    if ActiveModel(j) == Some(r.event.model) {
      LastWhereSnoc(j, r, CheckpointOf(r.event.model));
    } else if ActiveModel(j).Some? {
      LastStays(j, r, CheckpointOf(ActiveModel(j).value));
    }
  }

  lemma {:induction false} PromotionIsEarnedNow(j: Journal, r: Record, m: nat)
    requires r.event.Reference? && r.event.promoted == Some(m)
    requires LastWhere(j, CheckpointOf(m)).Some? && j[LastWhere(j, CheckpointOf(m)).value].event.status == Qualified
    ensures Earned(j + [r])
  {
    ActiveAfter(j, r);
    LastStays(j, r, CheckpointOf(m));
  }

  // ---------------------------------------------------------- calls that judge nothing

  predicate QuietSince(j: Journal, n: Journal) {
    Extends(j, n) && forall i :: |j| <= i < |n| ==> Quiet(n[i].event)
  }

  lemma {:induction false} QuietRun(j: Journal, n: Journal, k: nat)
    requires Earned(j) && QuietSince(j, n) && |j| <= k <= |n|
    ensures Earned(n[..k])
  {
    if k == |j| {
      assert n[..k] == j;
    } else {
      QuietRun(j, n, k - 1);
      QuietKeepsEarned(n[..k - 1], n[k - 1]);
      assert n[..k] == n[..k - 1] + [n[k - 1]];
    }
  }

  lemma {:induction false} QuietThrough(j: Journal, m: Journal, n: Journal)
    requires QuietSince(j, m) && QuietSince(m, n)
    ensures QuietSince(j, n)
  {
    ExtendsThrough(j, m, n);
    forall i | |j| <= i < |n| ensures Quiet(n[i].event) {
      assert i < |m| ==> n[..|m|][i] == m[i];
    }
  }

  lemma {:induction false} AppendIsQuiet(j: Journal, e: Event, at: int)
    requires Quiet(e)
    ensures QuietSince(j, Append(j, e, at).journal)
  {
  }

  lemma {:induction false} RepairIsQuiet(j: Journal, clock: Clock)
    ensures QuietSince(j, Repair(j, clock).journal)
  {
    if Active(j).Some? {
      AppendIsQuiet(j, Reference(None, CashAfterRetraction, j[Active(j).value].event.checkpoint, Active(j)), clock.appending(|j|));
    }
  }

  lemma {:induction false} MarkingIsQuiet(prior: Journal, j: Journal, dates: seq<int>, available: bool, clock: Clock)
    ensures QuietSince(j, MarkDates(prior, j, dates, available, clock).journal)
    decreases |dates|
  {
    if dates != [] {
      var s := MarkDate(prior, j, dates[0], available, clock);
      AppendIsQuiet(j, Availability(dates[0], available, LastWhere(prior, OfDate(dates[0]))), clock.appending(|j|));
      if s.ok {
        MarkingIsQuiet(prior, s.journal, dates[1..], available, clock);
        QuietThrough(j, s.journal, MarkDates(prior, s.journal, dates[1..], available, clock).journal);
      }
    }
  }

  lemma {:induction false} OneScoreIsQuiet(j: Journal, o: Oracles, packet: Packet, m: nat, clock: Clock)
    ensures QuietSince(j, ScoreModel(j, o, packet, m, clock).journal)
  {
    var v := ScoreAt(j, o, packet, m, clock.scoring(|j|));
    if v.Some? { AppendIsQuiet(j, Score(m, packet, v.value, LastWhere(j, ScoreOf(m))), clock.appending(|j|)); }
  }

  lemma {:induction false} ScoringIsQuiet(j: Journal, o: Oracles, packet: Packet, models: seq<nat>, clock: Clock)
    ensures QuietSince(j, ScoreModels(j, o, packet, models, clock).journal)
    decreases |models|
  {
    if models != [] {
      var s := ScoreModel(j, o, packet, models[0], clock);
      OneScoreIsQuiet(j, o, packet, models[0], clock);
      if s.ok {
        ScoringIsQuiet(s.journal, o, packet, models[1..], clock);
        QuietThrough(j, s.journal, ScoreModels(s.journal, o, packet, models[1..], clock).journal);
      }
    }
  }

  lemma {:induction false} DecidingIsQuiet(j: Journal, o: Oracles, packet: Packet, models: seq<nat>, active: nat, clock: Clock)
    requires packet.rows != []
    ensures QuietSince(j, DecideModels(j, o, packet, models, active, clock).journal)
    decreases |models|
  {
    if models != [] {
      match Choose(j, packet, models[0], clock.start)
      case Refuse =>
      case Skip => DecidingIsQuiet(j, o, packet, models[1..], active, clock);
      case Decide =>
        var e := DecisionFor(j, o, packet, models[0], active, clock.start);
        AppendIsQuiet(j, e, clock.appending(|j|));
        var s := Append(j, e, clock.appending(|j|));
        if s.ok && s.journal[s.id].createdAt >= clock.start {
          DecidingIsQuiet(s.journal, o, packet, models[1..], active, clock);
          QuietThrough(j, s.journal, DecideModels(s.journal, o, packet, models[1..], active, clock).journal);
        }
    }
  }

  lemma {:induction false} AvailabilityIsQuiet(j: Journal, dates: seq<int>, available: bool, clock: Clock)
    ensures QuietSince(j, SetAvailability(j, dates, available, clock).journal)
  {
    if SortedDates(dates) {
      var s := MarkDates(j, j, dates, available, clock);
      MarkingIsQuiet(j, j, dates, available, clock);
      if s.ok {
        RepairIsQuiet(s.journal, clock);
        QuietThrough(j, s.journal, Repair(s.journal, clock).journal);
      }
    }
  }

  lemma {:induction false} ScoreCallIsQuiet(j: Journal, o: Oracles, packet: Packet, models: seq<nat>, clock: Clock)
    ensures QuietSince(j, ScoreLater(j, o, packet, models, clock).journal)
  {
    if Eligible(packet, clock.start) {
      AppendIsQuiet(j, Input(packet), clock.appending(|j|));
      var a := Append(j, Input(packet), clock.appending(|j|));
      if a.ok {
        ScoringIsQuiet(a.journal, o, packet, models, clock);
        var b := ScoreModels(a.journal, o, packet, models, clock);
        QuietThrough(j, a.journal, b.journal);
        if b.ok {
          RepairIsQuiet(b.journal, clock);
          QuietThrough(j, b.journal, Repair(b.journal, clock).journal);
        }
      }
    }
  }

  lemma {:induction false} ReferenceIsQuiet(j: Journal, clock: Clock)
    ensures QuietSince(j, EnsureReference(j, clock).journal)
  {
    AppendIsQuiet(j, Reference(None, CashPending, None, None), clock.appending(|j|));
  }

  lemma {:induction false} DecisionCallIsQuiet(j: Journal, o: Oracles, packet: Packet, protocol: nat, clock: Clock)
    ensures QuietSince(j, RecordDecisions(j, o, packet, protocol, clock).journal)
  {
    var result := LastWhere(j, ResultOf(protocol));
    if Eligible(packet, clock.start) && IsProtocol(j, protocol) && result.Some? {
      AppendIsQuiet(j, Input(packet), clock.appending(|j|));
      var a := Append(j, Input(packet), clock.appending(|j|));
      if a.ok {
        ReferenceIsQuiet(a.journal, clock);
        var b := EnsureReference(a.journal, clock);
        QuietThrough(j, a.journal, b.journal);
        if b.ok {
          RepairIsQuiet(b.journal, clock);
          var c := Repair(b.journal, clock);
          QuietThrough(j, b.journal, c.journal);
          var selected := j[result.value].event.selected;
          if c.ok && selected.Some? && Active(c.journal).Some? {
            var models := Deciders(o, selected.value, ActiveModel(c.journal));
            DecidingIsQuiet(c.journal, o, packet, models, Active(c.journal).value, clock);
            QuietThrough(j, c.journal, DecideModels(c.journal, o, packet, models, Active(c.journal).value, clock).journal);
          }
        }
      }
    }
  }

  // ------------------------------------------------------------- the checkpoint call

  /** Every journal from one to the other, record by record, is earned. */
  predicate AllEarned(j: Journal, n: Journal) { Extends(j, n) && forall k :: |j| <= k <= |n| ==> Earned(n[..k]) }

  lemma {:induction false} QuietIsEarned(j: Journal, n: Journal)
    requires Earned(j) && QuietSince(j, n)
    ensures AllEarned(j, n)
  {
    forall k | |j| <= k <= |n| ensures Earned(n[..k]) { QuietRun(j, n, k); }
  }

  lemma {:induction false} AllEarnedThrough(j: Journal, m: Journal, n: Journal)
    requires AllEarned(j, m) && AllEarned(m, n)
    ensures AllEarned(j, n)
  {
    ExtendsThrough(j, m, n);
    forall k | |j| <= k <= |n| ensures Earned(n[..k]) {
      if k <= |m| { assert n[..k] == n[..|m|][..k]; }
    }
  }

  lemma {:induction false} OneEarned(j: Journal, r: Record)
    requires Earned(j) && Earned(j + [r])
    ensures AllEarned(j, j + [r])
  {
    var n := j + [r];
    assert n[..|j|] == j && n[..|j| + 1] == n;
  }

  /** What a call writes once its checkpoint stands at that place. */
  ghost function Rest(a: Journal, m: nat, checkpoint: nat, clock: Clock): Journal
    requires checkpoint < |a| && a[checkpoint].event.Checkpoint?
  {
    var p := Promote(a, m, checkpoint, clock);
    if p.ok then Repair(p.journal, clock).journal else p.journal
  }

  lemma {:induction false} PromotionKeepsEarned(a: Journal, m: nat, checkpoint: nat, clock: Clock)
    requires Earned(a) && LastWhere(a, CheckpointOf(m)) == Some(checkpoint)
    ensures AllEarned(a, Promote(a, m, checkpoint, clock).journal)
  {
    var r := Record(Reference(Some(m), FrozenEconomic, Some(checkpoint), Active(a)), clock.appending(|a|));
    assert a[..|a|] == a;
    if a[checkpoint].event.status == Qualified {
      PromotionIsEarnedNow(a, r, m);
      OneEarned(a, r);
    }
  }

  lemma {:induction false} RestIsEarned(a: Journal, m: nat, checkpoint: nat, clock: Clock)
    requires Earned(a) && LastWhere(a, CheckpointOf(m)) == Some(checkpoint)
    ensures AllEarned(a, Rest(a, m, checkpoint, clock))
  {
    var p := Promote(a, m, checkpoint, clock);
    PromotionKeepsEarned(a, m, checkpoint, clock);
    if p.ok {
      assert Earned(p.journal) by { assert p.journal[..|p.journal|] == p.journal; }
      RepairIsQuiet(p.journal, clock);
      QuietIsEarned(p.journal, Repair(p.journal, clock).journal);
      AllEarnedThrough(a, p.journal, Repair(p.journal, clock).journal);
    }
  }

  lemma {:induction false} RejectedIsInvalid(a: Journal, m: nat, checkpoint: nat)
    requires LastWhere(a, CheckpointOf(m)) == Some(checkpoint) && a[checkpoint].event.status != Qualified
    requires LastWhere(a, ScoreOf(m)) == Some(a[checkpoint].event.score)
    ensures Invalid(a, m)
  {
    assert RejectedCurrent(a, m);
  }

  /** The repair of an invalid reference is one record, unless the clock has stepped back. */
  lemma {:induction false} RetractionIsOneRecord(o: Oracles, a: Journal, m: nat, clock: Clock)
    requires WellFormed(o, a) && ActiveModel(a) == Some(m) && Invalid(a, m)
    ensures Repair(a, clock).ok <==> a[|a| - 1].createdAt <= clock.appending(|a|)
    ensures !Repair(a, clock).ok ==> Repair(a, clock).journal == a
    ensures Repair(a, clock).ok ==> |Repair(a, clock).journal| == |a| + 1 && ActiveModel(Repair(a, clock).journal).None?
  {
    var e := Reference(None, CashAfterRetraction, a[Active(a).value].event.checkpoint, Active(a));
    ReferencesAreChained(o, a);
    ChainEventIsNew(a, e, AnyReference());
    ActiveAfter(a, Record(e, clock.appending(|a|)));
  }

  /** A checkpoint that rejects the active model's newest score: what is left to write is the retraction. */
  lemma {:induction false} RejectedIsRetracted(o: Oracles, a: Journal, m: nat, checkpoint: nat, clock: Clock)
    requires WellFormed(o, a) && ActiveModel(a) == Some(m) && LastWhere(a, CheckpointOf(m)) == Some(checkpoint)
    requires a[checkpoint].event.status != Qualified && LastWhere(a, ScoreOf(m)) == Some(a[checkpoint].event.score)
    ensures var p := Promote(a, m, checkpoint, clock); p.ok && p.journal == a
    ensures Repair(a, clock).ok <==> a[|a| - 1].createdAt <= clock.appending(|a|)
    ensures !Repair(a, clock).ok ==> Rest(a, m, checkpoint, clock) == a
    ensures Repair(a, clock).ok ==> |Rest(a, m, checkpoint, clock)| == |a| + 1 && Earned(Rest(a, m, checkpoint, clock))
  {
    RejectedIsInvalid(a, m, checkpoint);
    RetractionIsOneRecord(o, a, m, clock);
  }

  /** The call writes a checkpoint that does not qualify the active model, and does not get to its retraction. */
  ghost predicate Unretracted(o: Oracles, j: Journal, call: Call) {
    && call.Call? && call.op.TakeCheckpointOf?
    && var m, clock := call.op.model, call.clock;
    && ActiveModel(j) == Some(m) && LastWhere(j, ScoreOf(m)).Some? && CheckpointFor(j, o, m).status != Qualified
    && RecordCheckpoint(j, o, m, clock).ok && |RecordCheckpoint(j, o, m, clock).journal| > |j|
    && (call.written == 1 || (call.written > 1 && clock.appending(|j| + 1) < clock.appending(|j|)))
  }

  lemma {:induction false} TakeIs(o: Oracles, j: Journal, m: nat, clock: Clock)
    requires LastWhere(j, ScoreOf(m)).Some? && RecordCheckpoint(j, o, m, clock).ok
    ensures var a := RecordCheckpoint(j, o, m, clock);
      && a.id < |a.journal| && a.journal[a.id].event.Checkpoint?
      && TakeCheckpoint(j, o, m, clock).journal == Rest(a.journal, m, a.id, clock)
  {
    RecordedCheckpoint(j, o, m, clock);
  }

  /** The checkpoint that a call records: one that is there already, or one more record. */
  lemma {:induction false} RecordsOrFinds(o: Oracles, j: Journal, m: nat, clock: Clock)
    requires WellFormed(o, j) && LastWhere(j, ScoreOf(m)).Some?
    ensures var a := RecordCheckpoint(j, o, m, clock);
      if !a.ok then a.journal == j
      else if |a.journal| == |j| then a.journal == j && LastWhere(j, CheckpointOf(m)) == Some(a.id)
      else a == Step(j + [Record(CheckpointFor(j, o, m), clock.appending(|j|))], |j|, true)
  {
    CheckpointsAreChained(o, j, m);
    if !RecordCheckpoint(j, o, m, clock).ok || |RecordCheckpoint(j, o, m, clock).journal| == |j| {
      NotSwallowed(o, j, m, clock);
    } else {
      ChainEventIsNew(j, CheckpointFor(j, o, m), CheckpointOf(m));
    }
  }

  lemma {:induction false} NotSwallowed(o: Oracles, j: Journal, m: nat, clock: Clock)
    requires WellFormed(o, j) && LastWhere(j, ScoreOf(m)).Some?
    requires !RecordCheckpoint(j, o, m, clock).ok || |RecordCheckpoint(j, o, m, clock).journal| == |j|
    ensures RecordCheckpoint(j, o, m, clock).journal == j
    ensures RecordCheckpoint(j, o, m, clock).ok ==> LastWhere(j, CheckpointOf(m)) == Some(RecordCheckpoint(j, o, m, clock).id)
  {
    var e, previous := CheckpointFor(j, o, m), LastWhere(j, CheckpointOf(m));
    if !(previous.Some? && SaysTheSame(j[previous.value].event, e)) {
      CheckpointsAreChained(o, j, m);
      ChainEventIsNew(j, e, CheckpointOf(m));
    }
  }

  /** A new checkpoint that leaves the active model on a qualified one: so does every record after it. */
  lemma {:induction false} NewCheckpointEarned(o: Oracles, j: Journal, m: nat, clock: Clock)
    requires Earned(j) && LastWhere(j, ScoreOf(m)).Some?
    requires var r := Record(CheckpointFor(j, o, m), clock.appending(|j|));
      RecordCheckpoint(j, o, m, clock) == Step(j + [r], |j|, true) && Earned(j + [r])
    ensures AllEarned(j, TakeCheckpoint(j, o, m, clock).journal)
  {
    var r := Record(CheckpointFor(j, o, m), clock.appending(|j|));
    TakeIs(o, j, m, clock);
    LastWhereSnoc(j, r, CheckpointOf(m));
    OneEarned(j, r);
    RestIsEarned(j + [r], m, |j|, clock);
    AllEarnedThrough(j, j + [r], Rest(j + [r], m, |j|, clock));
  }

  lemma {:induction false} FoundCheckpointEarned(o: Oracles, j: Journal, m: nat, clock: Clock)
    requires Earned(j) && LastWhere(j, ScoreOf(m)).Some? && RecordCheckpoint(j, o, m, clock).ok
    requires RecordCheckpoint(j, o, m, clock).journal == j && LastWhere(j, CheckpointOf(m)) == Some(RecordCheckpoint(j, o, m, clock).id)
    ensures AllEarned(j, TakeCheckpoint(j, o, m, clock).journal)
  {
    TakeIs(o, j, m, clock);
    RestIsEarned(j, m, RecordCheckpoint(j, o, m, clock).id, clock);
  }

  lemma {:induction false} CutIsEarned(j: Journal, n: Journal, written: nat)
    requires AllEarned(j, n)
    ensures Earned(Cut(j, n, written))
  {
    assert n[..|n|] == n;
  }

  /** The journal with a new checkpoint in it that rejects the active model. */
  ghost predicate RejectedAt(o: Oracles, a: Journal, m: nat, checkpoint: nat) {
    && WellFormed(o, a) && ActiveModel(a) == Some(m) && LastWhere(a, CheckpointOf(m)) == Some(checkpoint)
    && a[checkpoint].event.status != Qualified && LastWhere(a, ScoreOf(m)) == Some(a[checkpoint].event.score)
  }

  lemma {:induction false} NewRejection(o: Oracles, j: Journal, m: nat, r: Record)
    requires WellFormed(o, j + [r]) && Earned(j) && ActiveModel(j) == Some(m) && LastWhere(j, ScoreOf(m)).Some?
    requires r.event == CheckpointFor(j, o, m) && r.event.status != Qualified
    ensures RejectedAt(o, j + [r], m, |j|) && !Earned(j + [r])
  {
    CheckpointAndEarned(j, r);
    ActiveAfter(j, r);
    LastWhereSnoc(j, r, CheckpointOf(m));
    LastStays(j, r, ScoreOf(m));
  }

  lemma {:induction false} TakeGoesOn(o: Oracles, j: Journal, m: nat, clock: Clock, a: Journal)
    requires LastWhere(j, ScoreOf(m)).Some? && RecordCheckpoint(j, o, m, clock) == Step(a, |j|, true)
    requires |j| < |a| && a[|j|].event.Checkpoint? && Promote(a, m, |j|, clock).ok && Promote(a, m, |j|, clock).journal == a
    ensures TakeCheckpoint(j, o, m, clock) == Repair(a, clock) && Rest(a, m, |j|, clock) == Repair(a, clock).journal
  {
    RecordedCheckpoint(j, o, m, clock);
  }

  /** Behind the rejection there is the retraction, unless the clock has stepped back. */
  lemma {:induction false} CutOfRejection(o: Oracles, j: Journal, a: Journal, m: nat, clock: Clock, written: nat)
    requires RejectedAt(o, a, m, |j|) && !Earned(a) && Earned(j) && |a| == |j| + 1 && a[..|j|] == j
    ensures Earned(Cut(j, Rest(a, m, |j|, clock), written))
            <==> !(written == 1 || (written > 1 && clock.appending(|a|) < a[|j|].createdAt))
    ensures Repair(a, clock).ok <==> a[|j|].createdAt <= clock.appending(|a|)
  {
    RejectedIsRetracted(o, a, m, |j|, clock);
    RestExtends(o, a, m, |j|, clock);
    CutPlaces(j, a, Rest(a, m, |j|, clock), written);
  }

  lemma {:induction false} RecordedIsWellFormed(o: Oracles, j: Journal, m: nat, clock: Clock, r: Record)
    requires WellFormed(o, j) && LastWhere(j, ScoreOf(m)).Some? && RecordCheckpoint(j, o, m, clock) == Step(j + [r], |j|, true)
    ensures WellFormed(o, j + [r])
  {
    RecordCheckpointKeeps(o, j, m, clock);
  }

  /** The call records a checkpoint that rejects the active model. */
  ghost predicate Rejects(o: Oracles, j: Journal, m: nat, clock: Clock, r: Record) {
    && WellFormed(o, j) && Earned(j) && ActiveModel(j) == Some(m) && LastWhere(j, ScoreOf(m)).Some?
    && r.event == CheckpointFor(j, o, m) && r.event.status != Qualified && r.createdAt == clock.appending(|j|)
    && RecordCheckpoint(j, o, m, clock) == Step(j + [r], |j|, true)
  }

  lemma {:induction false} RejectionRecorded(o: Oracles, j: Journal, m: nat, clock: Clock, r: Record) returns (a: Journal)
    requires Rejects(o, j, m, clock, r)
    ensures a == j + [r] && RejectedAt(o, a, m, |j|) && !Earned(a)
    ensures |a| == |j| + 1 && a[..|j|] == j && a[|j|].createdAt == clock.appending(|j|)
  {
    RecordedIsWellFormed(o, j, m, clock, r);
    NewRejection(o, j, m, r);
    a := j + [r];
  }

  lemma {:induction false} RejectionTaken(o: Oracles, j: Journal, m: nat, clock: Clock, r: Record, a: Journal)
    requires Rejects(o, j, m, clock, r) && a == j + [r] && RejectedAt(o, a, m, |j|)
    ensures TakeCheckpoint(j, o, m, clock) == Repair(a, clock) && Rest(a, m, |j|, clock) == Repair(a, clock).journal
  {
    RejectedIsRetracted(o, a, m, |j|, clock);
    TakeGoesOn(o, j, m, clock, a);
  }

  /** A new checkpoint that rejects the active model: the journal is earned before it, and again behind the retraction. */
  lemma {:induction false} RejectionIsCut(o: Oracles, j: Journal, m: nat, clock: Clock, r: Record, written: nat)
    requires Rejects(o, j, m, clock, r)
    ensures Earned(Cut(j, TakeCheckpoint(j, o, m, clock).journal, written))
            <==> !(written == 1 || (written > 1 && clock.appending(|j| + 1) < clock.appending(|j|)))
    ensures TakeCheckpoint(j, o, m, clock).ok ==> clock.appending(|j|) <= clock.appending(|j| + 1)
  {
    var a := RejectionRecorded(o, j, m, clock, r);
    RejectionTaken(o, j, m, clock, r, a);
    CutOfRejection(o, j, a, m, clock, written);
  }

  lemma {:induction false} RestExtends(o: Oracles, a: Journal, m: nat, checkpoint: nat, clock: Clock)
    requires checkpoint < |a| && a[checkpoint].event.Checkpoint?
    requires Promote(a, m, checkpoint, clock).ok && Promote(a, m, checkpoint, clock).journal == a
    ensures Extends(a, Rest(a, m, checkpoint, clock))
  {
    RepairIsQuiet(a, clock);
  }

  lemma {:induction false} CutPlaces(j: Journal, a: Journal, n: Journal, written: nat)
    requires |a| == |j| + 1 && a[..|j|] == j && |a| <= |n| <= |a| + 1 && n[..|a|] == a
    ensures Cut(j, n, written) == if written == 0 then j else if written == 1 || |n| == |a| then a else n
  {
    assert n[..|j|] == n[..|a|][..|j|];
    if written == 1 { assert n[..|j| + 1] == a; }
  }

  // ----------------------------------------------------------------- steps and runs

  lemma {:induction false} TakeCallIsEarned(o: Oracles, j: Journal, m: nat, clock: Clock, written: nat)
    requires WellFormed(o, j) && Earned(j)
    ensures Earned(Cut(j, TakeCheckpoint(j, o, m, clock).journal, written))
            <==> !Unretracted(o, j, Call(TakeCheckpointOf(m), clock, written))
    ensures TakeCheckpoint(j, o, m, clock).ok ==> Earned(TakeCheckpoint(j, o, m, clock).journal)
  {
    var n := TakeCheckpoint(j, o, m, clock).journal;
    assert Cut(j, n, |n|) == n;
    if LastWhere(j, ScoreOf(m)).Some? {
      RecordsOrFinds(o, j, m, clock);
      var a := RecordCheckpoint(j, o, m, clock);
      if a.ok && |a.journal| == |j| {
        FoundCheckpointEarned(o, j, m, clock);
        CutIsEarned(j, n, written);
        CutIsEarned(j, n, |n|);
      } else if a.ok {
        CheckpointAndEarned(j, Record(CheckpointFor(j, o, m), clock.appending(|j|)));
        if ActiveModel(j) == Some(m) && CheckpointFor(j, o, m).status != Qualified {
          var r := Record(CheckpointFor(j, o, m), clock.appending(|j|));
          RejectionIsCut(o, j, m, clock, r, written);
          RejectionIsCut(o, j, m, clock, r, |n| + 2);
        } else {
          NewCheckpointEarned(o, j, m, clock);
          CutIsEarned(j, n, written);
          CutIsEarned(j, n, |n|);
        }
      }
    }
  }

  lemma {:induction false} QuietCallIsEarned(j: Journal, n: Journal, written: nat)
    requires Earned(j) && QuietSince(j, n)
    ensures Earned(Cut(j, n, written)) && Earned(n)
  {
    QuietIsEarned(j, n);
    CutIsEarned(j, n, written);
    CutIsEarned(j, n, |n|);
  }

  /**
    From a journal whose active model stands on a qualified checkpoint, the same holds of what one interrupted call, or
    one record of research, leaves, if and only if it is not a checkpoint call that rejects the active model and is
    stopped before it retracts it.
  */
  lemma {:induction false} StepIsEarned(o: Oracles, j: Journal, call: Call)
    requires WellFormed(o, j) && Earned(j)
    ensures Earned(Interrupted(j, o, call)) <==> !Unretracted(o, j, call)
  {
    match call
    case Research(e, at) =>
      if Researches(o, j, Record(e, at)) {
        AppendIsQuiet(j, e, at);
        QuietCallIsEarned(j, Append(j, e, at).journal, 0);
      }
    case Call(op, clock, written) =>
      match op {
        case SetAvailabilityOf(dates, available) =>
          AvailabilityIsQuiet(j, dates, available, clock);
          QuietCallIsEarned(j, SetAvailability(j, dates, available, clock).journal, written);
        case RecordDecisionsFor(packet, protocol) =>
          DecisionCallIsQuiet(j, o, packet, protocol, clock);
          QuietCallIsEarned(j, RecordDecisions(j, o, packet, protocol, clock).journal, written);
        case ScoreLaterWith(packet, models) =>
          ScoreCallIsQuiet(j, o, packet, models, clock);
          QuietCallIsEarned(j, ScoreLater(j, o, packet, models, clock).journal, written);
        case TakeCheckpointOf(m) => TakeCallIsEarned(o, j, m, clock, written);
      }
  }

  /** A call that completes leaves the active model on a qualified checkpoint. */
  lemma {:induction false} CompletedIsEarned(o: Oracles, j: Journal, op: Operation, clock: Clock)
    requires WellFormed(o, j) && Earned(j) && Perform(j, o, op, clock).ok
    ensures Earned(Perform(j, o, op, clock).journal)
  {
    match op
    case SetAvailabilityOf(dates, available) =>
      AvailabilityIsQuiet(j, dates, available, clock);
      QuietCallIsEarned(j, SetAvailability(j, dates, available, clock).journal, 0);
    case RecordDecisionsFor(packet, protocol) =>
      DecisionCallIsQuiet(j, o, packet, protocol, clock);
      QuietCallIsEarned(j, RecordDecisions(j, o, packet, protocol, clock).journal, 0);
    case ScoreLaterWith(packet, models) =>
      ScoreCallIsQuiet(j, o, packet, models, clock);
      QuietCallIsEarned(j, ScoreLater(j, o, packet, models, clock).journal, 0);
    case TakeCheckpointOf(m) => TakeCallIsEarned(o, j, m, clock, 0);
  }

  ghost predicate RetractingRun(o: Oracles, j: Journal, calls: seq<Call>)
    decreases |calls|
  {
    calls == [] || (!Unretracted(o, j, calls[0]) && RetractingRun(o, Interrupted(j, o, calls[0]), calls[1..]))
  }

  /** Every journal along the run. */
  ghost predicate EarnedAlong(o: Oracles, j: Journal, calls: seq<Call>)
    decreases |calls|
  {
    Earned(j) && (calls == [] || EarnedAlong(o, Interrupted(j, o, calls[0]), calls[1..]))
  }

  lemma {:induction false} AlongMeansAll(o: Oracles, j: Journal, calls: seq<Call>)
    ensures EarnedAlong(o, j, calls) <==> forall k :: 0 <= k <= |calls| ==> Earned(RunOf(j, o, calls[..k]))
    decreases |calls|
  {
    if calls == [] {
      assert calls[..0] == [] && RunOf(j, o, calls[..0]) == j;
    } else {
      var n, rest := Interrupted(j, o, calls[0]), calls[1..];
      AlongMeansAll(o, n, rest);
      assert calls[..0] == [];
      forall k | 0 <= k <= |rest| ensures RunOf(n, o, rest[..k]) == RunOf(j, o, calls[..k + 1]) {
        assert calls[..k + 1][1..] == rest[..k];
      }
      AlongFirst(o, j, n, calls);
    }
  }

  lemma {:induction false} AlongFirst(o: Oracles, j: Journal, n: Journal, calls: seq<Call>)
    requires calls != [] && RunOf(j, o, calls[..0]) == j
    requires forall k :: 0 <= k <= |calls[1..]| ==> RunOf(n, o, calls[1..][..k]) == RunOf(j, o, calls[..k + 1])
    ensures (Earned(j) && forall k :: 0 <= k <= |calls[1..]| ==> Earned(RunOf(n, o, calls[1..][..k])))
            <==> forall k :: 0 <= k <= |calls| ==> Earned(RunOf(j, o, calls[..k]))
  {
    if Earned(j) && forall k :: 0 <= k <= |calls[1..]| ==> Earned(RunOf(n, o, calls[1..][..k])) {
      forall k | 0 <= k <= |calls| ensures Earned(RunOf(j, o, calls[..k])) {
        if k > 0 { assert Earned(RunOf(n, o, calls[1..][..k - 1])); }
      }
    }
    if forall k :: 0 <= k <= |calls| ==> Earned(RunOf(j, o, calls[..k])) {
      assert Earned(RunOf(j, o, calls[..0]));
      forall k | 0 <= k <= |calls[1..]| ensures Earned(RunOf(n, o, calls[1..][..k])) {
        assert Earned(RunOf(j, o, calls[..k + 1]));
      }
    }
  }

  /**
    All along a run, with research between the calls and any interruptions, the active model stands on a qualified
    checkpoint if and only if no call rejects it and is stopped before it retracts it.
  */
  lemma {:induction false} RunIsEarned(o: Oracles, j: Journal, calls: seq<Call>)
    requires WellFormed(o, j) && Earned(j) && forall c :: c in calls ==> Steady(c)
    ensures (forall k :: 0 <= k <= |calls| ==> Earned(RunOf(j, o, calls[..k]))) <==> RetractingRun(o, j, calls)
  {
    AlongIsRetracting(o, j, calls);
    AlongMeansAll(o, j, calls);
  }

  lemma {:induction false} AlongIsRetracting(o: Oracles, j: Journal, calls: seq<Call>)
    requires WellFormed(o, j) && Earned(j) && forall c :: c in calls ==> Steady(c)
    ensures EarnedAlong(o, j, calls) <==> RetractingRun(o, j, calls)
    decreases |calls|
  {
    if calls != [] {
      assert calls[0] in calls && forall c :: c in calls[1..] ==> c in calls;
      StepIsEarned(o, j, calls[0]);
      InterruptedKeeps(o, j, calls[0]);
      if !Unretracted(o, j, calls[0]) { AlongIsRetracting(o, Interrupted(j, o, calls[0]), calls[1..]); }
    }
  }

  /** A reference that is sound and yet does not stand on a qualified checkpoint: that checkpoint judged an older, materially equal score. */
  lemma {:induction false} SoundButUnearned(j: Journal, m: nat)
    requires SoundReference(j) && ActiveModel(j) == Some(m) && LastWhere(j, CheckpointOf(m)).Some? && !Earned(j)
    ensures LastWhere(j, ScoreOf(m)).Some? && j[LastWhere(j, CheckpointOf(m)).value].event.score != LastWhere(j, ScoreOf(m)).value
  {
    assert !RejectedCurrent(j, m);
  }

  /** A new score of the same material hides a rejection that was not retracted: the reference is sound again, and not earned. */
  lemma {:induction false} EqualScoreHidesRejection(j: Journal, r: Record, m: nat, c: nat)
    requires ActiveModel(j) == Some(m) && LastWhere(j, CheckpointOf(m)) == Some(c) && j[c].event.status != Qualified
    requires j[c].event.score < |j| && ScoreOf(m)(j[j[c].event.score].event)
    requires ScoreOf(m)(r.event) && r.event.value.status == Scored && SameMaterial(r.event.value, j[j[c].event.score].event.value)
    requires forall date :: !(Withdrawn(j + [r], date) && Relevant(j + [r], r.event.value, date))
    ensures SoundReference(j + [r]) && !Earned(j + [r])
  {
    ActiveAfter(j, r);
    LastStays(j, r, CheckpointOf(m));
    LastWhereSnoc(j, r, ScoreOf(m));
    assert (j + [r])[j[c].event.score] == j[j[c].event.score];
  }
}
