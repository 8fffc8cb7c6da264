/** Whatever the shadow operations write, interrupted or not, the replay accepts. */
module ShadowLaws {
  import opened Outcomes
  import opened Shadow
  import opened ShadowReplay

  predicate Extends(j: Journal, n: Journal) { |j| <= |n| && n[..|j|] == j }

  lemma {:induction false} ExtendsThrough(j: Journal, m: Journal, n: Journal)
    requires Extends(j, m) && Extends(m, n)
    ensures Extends(j, n)
  {
    assert n[..|j|] == n[..|m|][..|j|];
  }

  /** No clock reading within an operation precedes the one at its start. */
  ghost predicate NeverBefore(clock: Clock) {
    (forall n: nat :: clock.scoring(n) >= clock.start) && (forall n: nat :: clock.appending(n) >= clock.start)
  }

  lemma {:induction false} SnocKeepsWellFormed(o: Oracles, j: Journal, r: Record)
    requires WellFormed(o, j) && Accepts(o, j, r) && !Has(j, r.event)
    requires j != [] ==> j[|j| - 1].createdAt <= r.createdAt
    ensures WellFormed(o, j + [r]) && Extends(j, j + [r])
  {
    var n := j + [r];
    AbsentEverywhere(j, r.event);
    forall i | 0 <= i < |n| ensures Accepts(o, n[..i], n[i]) {
      if i < |j| {
        assert n[..i] == j[..i] && n[i] == j[i];
      } else {
        assert n[..i] == j;
      }
    }
  }

  /** An append writes the record it is asked for, unless an equal event is there already. */
  lemma {:induction false} AppendKeeps(o: Oracles, j: Journal, e: Event, at: int)
    requires WellFormed(o, j) && (!Has(j, e) ==> Accepts(o, j, Record(e, at)))
    ensures var s := Append(j, e, at);
      && WellFormed(o, s.journal) && Extends(j, s.journal)
      && (s.ok ==> s.id < |s.journal| && s.journal[s.id].event == e && Has(s.journal, e))
      && (s.ok && !Has(j, e) ==> s.journal == j + [Record(e, at)])
  {
    var s := Append(j, e, at);
    if !Has(j, e) && s.ok {
      SnocKeepsWellFormed(o, j, Record(e, at));
      FirstWhereSnoc(j, Record(e, at), Is(e));
    }
  }

  // ------------------------------------------------------------ the reference

  /** The retraction that a repair writes is a new record, and makes cash active. */
  lemma {:induction false} RetractionKeeps(o: Oracles, j: Journal, e: Event, at: int)
    requires WellFormed(o, j) && Active(j).Some?
    requires e == Reference(None, CashAfterRetraction, j[Active(j).value].event.checkpoint, Active(j))
    ensures var s := Append(j, e, at);
      && WellFormed(o, s.journal) && Extends(j, s.journal)
      && (s.ok ==> s.journal == j + [Record(e, at)] && Active(s.journal) == Some(|j|))
      && (!s.ok ==> s.journal == j)
  {
    ReferencesAreChained(o, j);
    ChainEventIsNew(j, e, AnyReference());
    AppendKeeps(o, j, e, at);
    LastWhereSnoc(j, Record(e, at), AnyReference());
  }

  lemma {:induction false} HasAfter(j: Journal, r: Record, x: Event)
    requires Has(j, x)
    ensures Has(j + [r], x)
  {
    FirstWhereSnoc(j, r, Is(x));
  }

  lemma {:induction false} RepairKeeps(o: Oracles, j: Journal, clock: Clock)
    requires WellFormed(o, j)
    ensures var s := Repair(j, clock);
      && WellFormed(o, s.journal) && Extends(j, s.journal) && (s.ok ==> SoundReference(s.journal))
      && (s.ok && Active(j).Some? ==> Active(s.journal).Some?)
      && (forall e :: Has(j, e) ==> Has(s.journal, e))
  {
    var active := Active(j);
    if active.Some? && ActiveModel(j).Some? && Invalid(j, ActiveModel(j).value) {
      var e := Reference(None, CashAfterRetraction, j[active.value].event.checkpoint, active);
      var r := Record(e, clock.appending(|j|));
      RetractionKeeps(o, j, e, clock.appending(|j|));
      forall x | Has(j, x) ensures Has(j + [r], x) { HasAfter(j, r, x); }
    }
  }

  // ------------------------------------------------------------- availability

  lemma {:induction false} SameEarlier(prior: Journal, j: Journal, i: nat)
    requires Extends(prior, j) && i < |prior|
    ensures i < |j| && j[i] == prior[i]
  {
    assert j[..|prior|][i] == prior[i];
  }

  /** The event of one date leaves the other dates as they were. */
  lemma {:induction false} OtherDatesStay(prior: Journal, j: Journal, r: Record, dates: seq<int>)
    requires r.event.Availability? && r.event.date !in dates
    requires forall d :: d in dates ==> LastWhere(j, OfDate(d)) == LastWhere(prior, OfDate(d))
    ensures forall d :: d in dates ==> LastWhere(j + [r], OfDate(d)) == LastWhere(prior, OfDate(d))
  {
    forall d | d in dates ensures LastWhere(j + [r], OfDate(d)) == LastWhere(prior, OfDate(d)) { LastWhereSnoc(j, r, OfDate(d)); }
  }

  lemma {:induction false} NewEventKeeps(o: Oracles, j: Journal, d: int, available: bool, latest: Option<nat>, clock: Clock)
    requires WellFormed(o, j) && latest == LastWhere(j, OfDate(d))
    requires latest.Some? ==> j[latest.value].event.available != available
    ensures var e := Availability(d, available, latest); var s := Append(j, e, clock.appending(|j|));
      && WellFormed(o, s.journal) && Extends(j, s.journal) && !Has(j, e)
      && (s.ok ==> s.journal == j + [Record(e, clock.appending(|j|))])
  {
    var e := Availability(d, available, latest);
    AvailabilityIsChained(o, j, d);
    ChainEventIsNew(j, e, OfDate(d));
    AppendKeeps(o, j, e, clock.appending(|j|));
  }

  /** The dates have no event since the operation began. */
  predicate Unmarked(prior: Journal, j: Journal, dates: seq<int>) {
    Extends(prior, j) && forall d :: d in dates ==> LastWhere(j, OfDate(d)) == LastWhere(prior, OfDate(d))
  }

  lemma {:induction false} MarkDateKeeps(o: Oracles, prior: Journal, j: Journal, d: int, rest: seq<int>, available: bool, clock: Clock)
    requires WellFormed(o, j) && Unmarked(prior, j, [d] + rest) && d !in rest
    ensures var s := MarkDate(prior, j, d, available, clock);
      WellFormed(o, s.journal) && Extends(j, s.journal) && (s.ok ==> Unmarked(prior, s.journal, rest))
  {
    var latest := LastWhere(prior, OfDate(d));
    assert ([d] + rest)[0] == d && forall x :: x in rest ==> x in [d] + rest;
    if latest.Some? { SameEarlier(prior, j, latest.value); }
    if latest.None? || prior[latest.value].event.available != available {
      var r := Record(Availability(d, available, latest), clock.appending(|j|));
      NewEventKeeps(o, j, d, available, latest, clock);
      ExtendsThrough(prior, j, j + [r]);
      OtherDatesStay(prior, j, r, rest);
    }
  }

  lemma {:induction false} MarkDatesKeeps(o: Oracles, prior: Journal, j: Journal, dates: seq<int>, available: bool, clock: Clock)
    requires WellFormed(o, j) && Unmarked(prior, j, dates) && SortedDates(dates)
    ensures var s := MarkDates(prior, j, dates, available, clock); WellFormed(o, s.journal) && Extends(j, s.journal)
    decreases |dates|
  {
    if dates != [] {
      var d, rest := dates[0], dates[1..];
      assert dates == [d] + rest;
      MarkDateKeeps(o, prior, j, d, rest, available, clock);
      var s := MarkDate(prior, j, d, available, clock);
      if s.ok {
        MarkDatesKeeps(o, prior, s.journal, rest, available, clock);
        ExtendsThrough(j, s.journal, MarkDates(prior, s.journal, rest, available, clock).journal);
      }
    }
  }

  lemma {:induction false} SetAvailabilityKeeps(o: Oracles, j: Journal, dates: seq<int>, available: bool, clock: Clock)
    requires WellFormed(o, j)
    ensures var s := SetAvailability(j, dates, available, clock);
      WellFormed(o, s.journal) && Extends(j, s.journal) && (s.ok ==> SoundReference(s.journal))
  {
    if SortedDates(dates) {
      MarkDatesKeeps(o, j, j, dates, available, clock);
      var marked := MarkDates(j, j, dates, available, clock);
      if marked.ok {
        RepairKeeps(o, marked.journal, clock);
        ExtendsThrough(j, marked.journal, Repair(marked.journal, clock).journal);
      }
    }
  }

  // ------------------------------------------------------------------ scoring

  lemma {:induction false} AllVisible(packet: Packet, start: int, at: int)
    requires Eligible(packet, start) && start <= at
    ensures Visible(packet, at) == Visible(packet, start)
  {
  }

  lemma {:induction false} InputKeeps(o: Oracles, j: Journal, packet: Packet, clock: Clock)
    requires WellFormed(o, j)
    ensures var s := Append(j, Input(packet), clock.appending(|j|));
      WellFormed(o, s.journal) && Extends(j, s.journal) && (s.ok ==> Has(s.journal, Input(packet)))
  {
    AppendKeeps(o, j, Input(packet), clock.appending(|j|));
  }

  /** The score that was made at one time is accepted by the replay when its record was created at another. */
  predicate ScoreAccepted(o: Oracles, j: Journal, packet: Packet, m: nat, scoredAt: int, createdAt: int) {
    ScoreAt(j, o, packet, m, scoredAt).Some? ==>
      Accepts(o, j, Record(Score(m, packet, ScoreAt(j, o, packet, m, scoredAt).value, LastWhere(j, ScoreOf(m))), createdAt))
  }

  lemma {:induction false} SameRowsReplay(o: Oracles, j: Journal, packet: Packet, m: nat, scoredAt: int, createdAt: int)
    requires Has(j, Input(packet)) && Visible(packet, createdAt) == Visible(packet, scoredAt)
    ensures ScoreAccepted(o, j, packet, m, scoredAt, createdAt)
  {
    assert ScoreAt(j, o, packet, m, createdAt) == ScoreAt(j, o, packet, m, scoredAt);
  }

  const BLANK := ScoreValue(Pending, {}, {}, [], None, None, false, 0, 0)

  /** The same scoring, except that for this journal and packet it tells whether it sees these rows or others. */
  function Telling(o: Oracles, j: Journal, packet: Packet, rows: set<int>): Oracles {
    o.(score := (k: Journal, p: Packet, m: nat, seen: set<int>) =>
         if k == j && p == packet then Some(BLANK.(detail := if seen == rows then 0 else 1)) else o.score(k, p, m, seen))
  }

  lemma {:induction false} TellingAccepts(o: Oracles, j: Journal, packet: Packet, rows: set<int>, k: Journal, r: Record)
    requires k != j && Accepts(o, k, r)
    ensures Accepts(Telling(o, j, packet, rows), k, r)
  {
    match r.event
    case Score(_, _, _, _) =>
    case Checkpoint(_, _, _, _, _) =>
    case _ =>
  }

  lemma {:induction false} TellingKeepsWellFormed(o: Oracles, j: Journal, packet: Packet, rows: set<int>)
    requires WellFormed(o, j)
    ensures WellFormed(Telling(o, j, packet, rows), j)
  {
    forall i | 0 <= i < |j| ensures Accepts(Telling(o, j, packet, rows), j[..i], j[i]) {
      assert |j[..i]| != |j|;
      TellingAccepts(o, j, packet, rows, j[..i], j[i]);
    }
  }

  /** A scoring that tells what it saw is caught by a creation time that sees something else. */
  lemma {:induction false} TellingIsCaught(o: Oracles, j: Journal, packet: Packet, m: nat, scoredAt: int, createdAt: int)
    requires LastWhere(j, DecisionOf(m)).Some? && IsModel(j, m) && Visible(packet, createdAt) != Visible(packet, scoredAt)
    ensures !ScoreAccepted(Telling(o, j, packet, Visible(packet, scoredAt)), j, packet, m, scoredAt, createdAt)
  {
    var t := Telling(o, j, packet, Visible(packet, scoredAt));
    assert ScoreAt(j, t, packet, m, scoredAt).value.detail == 0 && ScoreAt(j, t, packet, m, createdAt).value.detail == 1;
  }

  /**
    Scores replay, whatever the scoring is, if and only if their creation time sees exactly the rows that the scoring
    saw. When it sees others there is a scoring under which the same journal is replayable and the score is not.
  */
  lemma {:induction false} ScoreReplays(o: Oracles, j: Journal, packet: Packet, m: nat, scoredAt: int, createdAt: int)
    requires WellFormed(o, j) && Has(j, Input(packet)) && LastWhere(j, DecisionOf(m)).Some? && IsModel(j, m)
    ensures (forall p: Oracles :: WellFormed(p, j) ==> ScoreAccepted(p, j, packet, m, scoredAt, createdAt))
            <==> Visible(packet, createdAt) == Visible(packet, scoredAt)
  {
    if Visible(packet, createdAt) == Visible(packet, scoredAt) {
      forall p: Oracles | WellFormed(p, j) ensures ScoreAccepted(p, j, packet, m, scoredAt, createdAt) {
        SameRowsReplay(p, j, packet, m, scoredAt, createdAt);
      }
    } else {
      TellingKeepsWellFormed(o, j, packet, Visible(packet, scoredAt));
      TellingIsCaught(o, j, packet, m, scoredAt, createdAt);
    }
  }

  lemma {:induction false} NewScoreKeeps(o: Oracles, j: Journal, packet: Packet, m: nat, v: ScoreValue, clock: Clock)
    requires WellFormed(o, j) && Has(j, Input(packet)) && Eligible(packet, clock.start) && NeverBefore(clock)
    requires ScoreAt(j, o, packet, m, clock.scoring(|j|)) == Some(v)
    ensures var e := Score(m, packet, v, LastWhere(j, ScoreOf(m))); var s := Append(j, e, clock.appending(|j|));
      && WellFormed(o, s.journal) && Extends(j, s.journal) && !Has(j, e)
      && (s.ok ==> Has(s.journal, Input(packet)))
  {
    var e := Score(m, packet, v, LastWhere(j, ScoreOf(m)));
    AllVisible(packet, clock.start, clock.scoring(|j|));
    AllVisible(packet, clock.start, clock.appending(|j|));
    SameRowsReplay(o, j, packet, m, clock.scoring(|j|), clock.appending(|j|));
    ScoresAreChained(o, j, m);
    ChainEventIsNew(j, e, ScoreOf(m));
    AppendKeeps(o, j, e, clock.appending(|j|));
    FirstWhereSnoc(j, Record(e, clock.appending(|j|)), Is(Input(packet)));
  }

  lemma {:induction false} ScoreModelKeeps(o: Oracles, j: Journal, packet: Packet, m: nat, clock: Clock)
    requires WellFormed(o, j) && Has(j, Input(packet)) && Eligible(packet, clock.start) && NeverBefore(clock)
    ensures var s := ScoreModel(j, o, packet, m, clock);
      WellFormed(o, s.journal) && Extends(j, s.journal) && (s.ok ==> Has(s.journal, Input(packet)))
  {
    var v := ScoreAt(j, o, packet, m, clock.scoring(|j|));
    if v.Some? { NewScoreKeeps(o, j, packet, m, v.value, clock); }
  }

  lemma {:induction false} ScoreModelsKeeps(o: Oracles, j: Journal, packet: Packet, models: seq<nat>, clock: Clock)
    requires WellFormed(o, j) && Has(j, Input(packet)) && Eligible(packet, clock.start) && NeverBefore(clock)
    ensures var s := ScoreModels(j, o, packet, models, clock); WellFormed(o, s.journal) && Extends(j, s.journal)
    decreases |models|
  {
    if models != [] {
      ScoreModelKeeps(o, j, packet, models[0], clock);
      var s := ScoreModel(j, o, packet, models[0], clock);
      if s.ok {
        ScoreModelsKeeps(o, s.journal, packet, models[1..], clock);
        ExtendsThrough(j, s.journal, ScoreModels(s.journal, o, packet, models[1..], clock).journal);
      }
    }
  }

  lemma {:induction false} ScoreLaterKeeps(o: Oracles, j: Journal, packet: Packet, models: seq<nat>, clock: Clock)
    requires WellFormed(o, j) && NeverBefore(clock)
    ensures var s := ScoreLater(j, o, packet, models, clock);
      WellFormed(o, s.journal) && Extends(j, s.journal) && (s.ok ==> SoundReference(s.journal))
  {
    if Eligible(packet, clock.start) {
      InputKeeps(o, j, packet, clock);
      var entered := Append(j, Input(packet), clock.appending(|j|));
      if entered.ok {
        ScoreModelsKeeps(o, entered.journal, packet, models, clock);
        var scored := ScoreModels(entered.journal, o, packet, models, clock);
        ExtendsThrough(j, entered.journal, scored.journal);
        if scored.ok {
          RepairKeeps(o, scored.journal, clock);
          ExtendsThrough(j, scored.journal, Repair(scored.journal, clock).journal);
        }
      }
    }
  }

  // --------------------------------------------------------------- checkpoint

  lemma {:induction false} RecordCheckpointKeeps(o: Oracles, j: Journal, m: nat, clock: Clock)
    requires WellFormed(o, j) && LastWhere(j, ScoreOf(m)).Some?
    ensures var s := RecordCheckpoint(j, o, m, clock);
      && WellFormed(o, s.journal) && Extends(j, s.journal)
      && (s.ok ==> s.id < |s.journal| && s.journal[s.id].event.Checkpoint? && s.journal[s.id].event.model == m)
  {
    var e, previous := CheckpointFor(j, o, m), LastWhere(j, CheckpointOf(m));
    if !(previous.Some? && SaysTheSame(j[previous.value].event, e)) {
      CheckpointsAreChained(o, j, m);
      ChainEventIsNew(j, e, CheckpointOf(m));
      AppendKeeps(o, j, e, clock.appending(|j|));
    }
  }

  lemma {:induction false} PromoteKeeps(o: Oracles, j: Journal, m: nat, checkpoint: nat, clock: Clock)
    requires WellFormed(o, j) && checkpoint < |j| && j[checkpoint].event.Checkpoint? && j[checkpoint].event.model == m
    ensures var s := Promote(j, m, checkpoint, clock); WellFormed(o, s.journal) && Extends(j, s.journal)
  {
    if j[checkpoint].event.status == Qualified && ActiveModel(j) != Some(m) {
      var e := Reference(Some(m), FrozenEconomic, Some(checkpoint), Active(j));
      ReferencesAreChained(o, j);
      ChainEventIsNew(j, e, AnyReference());
      AppendKeeps(o, j, e, clock.appending(|j|));
    }
  }

  lemma {:induction false} TakeCheckpointKeeps(o: Oracles, j: Journal, m: nat, clock: Clock)
    requires WellFormed(o, j)
    ensures var s := TakeCheckpoint(j, o, m, clock);
      WellFormed(o, s.journal) && Extends(j, s.journal) && (s.ok ==> SoundReference(s.journal))
  {
    if LastWhere(j, ScoreOf(m)).Some? {
      RecordCheckpointKeeps(o, j, m, clock);
      var recorded := RecordCheckpoint(j, o, m, clock);
      if recorded.ok {
        PromoteKeeps(o, recorded.journal, m, recorded.id, clock);
        var promoted := Promote(recorded.journal, m, recorded.id, clock);
        ExtendsThrough(j, recorded.journal, promoted.journal);
        if promoted.ok {
          RepairKeeps(o, promoted.journal, clock);
          ExtendsThrough(j, promoted.journal, Repair(promoted.journal, clock).journal);
        }
      }
    }
  }

  // ---------------------------------------------------------------- decisions

  /** The research of the model's protocol is complete. */
  predicate Researched(j: Journal, m: nat) {
    IsModel(j, m) ==> LastWhere(j, ResultOf(j[m].event.protocol)).Some?
  }

  lemma {:induction false} StaysThere(j: Journal, n: Journal, p: Event -> bool)
    requires Extends(j, n) && LastWhere(j, p).Some?
    ensures LastWhere(n, p).Some?
  {
    LastWhereIsLast(n, p);
    var i := LastWhere(j, p).value;
    assert n[..|j|][i] == n[i];
  }

  lemma {:induction false} StaysResearched(j: Journal, n: Journal, m: nat)
    requires Extends(j, n) && IsModel(j, m) && Researched(j, m)
    ensures IsModel(n, m) && Researched(n, m)
  {
    assert n[..|j|][m] == n[m];
    StaysThere(j, n, ResultOf(j[m].event.protocol));
  }

  lemma {:induction false} DecisionIsResearched(o: Oracles, j: Journal, m: nat)
    requires Replayable(o, j) && LastWhere(j, DecisionOf(m)).Some?
    ensures IsModel(j, m) && Researched(j, m)
  {
    var d := LastWhere(j, DecisionOf(m)).value;
    assert Accepts(o, j[..d], j[d]);
    StaysResearched(j[..d], j, m);
  }

  /** The active model was promoted on a score, which rests on decisions, which rest on complete research. */
  lemma {:induction false} ActiveIsResearched(o: Oracles, j: Journal)
    requires Replayable(o, j) && ActiveModel(j).Some?
    ensures IsModel(j, ActiveModel(j).value) && Researched(j, ActiveModel(j).value)
  {
    var m, a := ActiveModel(j).value, Active(j).value;
    assert Accepts(o, j[..a], j[a]);
    var c := j[a].event.checkpoint.value;
    assert j[..a][c] == j[c];
    assert Accepts(o, j[..c], j[c]);
    var s := j[c].event.score;
    assert j[..c][s] == j[s];
    assert Accepts(o, j[..s], j[s]);
    StaysThere(j[..s], j, DecisionOf(m));
    DecisionIsResearched(o, j, m);
  }

  lemma {:induction false} SelectedIsResearched(o: Oracles, j: Journal, protocol: nat)
    requires Replayable(o, j) && LastWhere(j, ResultOf(protocol)).Some?
    ensures var selected := j[LastWhere(j, ResultOf(protocol)).value].event.selected;
      selected.Some? ==> IsModel(j, selected.value) && Researched(j, selected.value)
  {
    var r := LastWhere(j, ResultOf(protocol)).value;
    assert Accepts(o, j[..r], j[r]);
    var selected := j[r].event.selected;
    if selected.Some? { assert j[..r][selected.value] == j[selected.value]; }
  }

  /** What a decision event needs besides the clock. */
  predicate Decidable(o: Oracles, j: Journal, packet: Packet, m: nat, active: nat, at: int) {
    && IsModel(j, m) && Researched(j, m) && Has(j, Input(packet)) && Eligible(packet, at)
    && active < |j| && j[active].event.Reference?
    && var latest := packet.rows[|packet.rows| - 1];
       LastWhere(j, DecisionAt(m, latest.date)).None? && latest.date > j[m].event.knownHistoryEnd
  }

  /** A decision replays exactly when its record was not created before it was decided. */
  lemma {:induction false} DecisionReplays(o: Oracles, j: Journal, packet: Packet, m: nat, active: nat, decidedAt: int, createdAt: int)
    requires Decidable(o, j, packet, m, active, decidedAt)
    ensures Accepts(o, j, Record(DecisionFor(j, o, packet, m, active, decidedAt), createdAt)) <==> decidedAt <= createdAt
  {
  }

  lemma {:induction false} DecisionIsNew(o: Oracles, j: Journal, packet: Packet, m: nat, active: nat, at: int)
    requires Decidable(o, j, packet, m, active, at)
    ensures !Has(j, DecisionFor(j, o, packet, m, active, at))
  {
    var e := DecisionFor(j, o, packet, m, active, at);
    AbsentEverywhere(j, e);
    LastWhereIsLast(j, DecisionAt(m, e.originDate));
    forall i | 0 <= i < |j| ensures j[i].event != e {
      assert !DecisionAt(m, e.originDate)(j[i].event);
    }
  }

  lemma {:induction false} DecideOneKeeps(o: Oracles, j: Journal, packet: Packet, m: nat, active: nat, clock: Clock)
    requires WellFormed(o, j) && Decidable(o, j, packet, m, active, clock.start) && NeverBefore(clock)
    ensures var e := DecisionFor(j, o, packet, m, active, clock.start); var s := Append(j, e, clock.appending(|j|));
      && WellFormed(o, s.journal) && Extends(j, s.journal)
      && (s.ok ==> s.journal == j + [Record(e, clock.appending(|j|))])
  {
    DecisionIsNew(o, j, packet, m, active, clock.start);
    DecisionReplays(o, j, packet, m, active, clock.start, clock.appending(|j|));
    AppendKeeps(o, j, DecisionFor(j, o, packet, m, active, clock.start), clock.appending(|j|));
  }

  lemma {:induction false} DecisionKeepsContext(o: Oracles, j: Journal, packet: Packet, r: Record)
    requires Replayable(o, j) && r.event.Decision? && SoundReference(j) && Has(j, Input(packet))
    ensures SoundReference(j + [r]) && Has(j + [r], Input(packet))
  {
    FirstWhereSnoc(j, r, Is(Input(packet)));
    DecisionKeepsSound(o, j, r);
  }

  /** A new decision takes no part in a score that is already there. */
  lemma {:induction false} DecisionKeepsSound(o: Oracles, j: Journal, r: Record)
    requires Replayable(o, j) && r.event.Decision? && SoundReference(j)
    ensures SoundReference(j + [r])
  {
    var n := j + [r];
    LastWhereSnoc(j, r, AnyReference());
    if ActiveModel(j).Some? {
      var m := ActiveModel(j).value;
      LastWhereSnoc(j, r, ScoreOf(m));
      LastWhereSnoc(j, r, CheckpointOf(m));
      var v := j[LastWhere(j, ScoreOf(m)).value].event.value;
      forall date | Withdrawn(n, date) ensures Withdrawn(j, date) { LastWhereSnoc(j, r, OfDate(date)); }
      forall date | Relevant(n, v, date) ensures Relevant(j, v, date) { RelevantStays(o, j, r, m, date); }
    }
  }

  lemma {:induction false} RelevantStays(o: Oracles, j: Journal, r: Record, m: nat, date: int)
    requires Replayable(o, j) && r.event.Decision? && LastWhere(j, ScoreOf(m)).Some?
    requires var v := j[LastWhere(j, ScoreOf(m)).value].event.value; Relevant(j + [r], v, date)
    ensures var v := j[LastWhere(j, ScoreOf(m)).value].event.value; Relevant(j, v, date)
  {
    var n, s := j + [r], LastWhere(j, ScoreOf(m)).value;
    var v := j[s].event.value;
    assert Accepts(o, j[..s], j[s]);
    if date !in v.outcomeDates {
      var d :| 0 <= d < |n| && d in v.decisions && n[d].event.Decision? && Has(n, Input(n[d].event.packet))
               && exists q :: 0 <= q < |n[d].event.packet.rows| && n[d].event.packet.rows[q].date == date;
      assert d < s;
      FirstWhereSnoc(j, r, Is(Input(n[d].event.packet)));
    }
  }

  /** Where the decision loop stands before each of its models. */
  ghost predicate Deciding(o: Oracles, j: Journal, packet: Packet, models: seq<nat>, active: nat, clock: Clock) {
    && WellFormed(o, j) && NeverBefore(clock) && Eligible(packet, clock.start) && Has(j, Input(packet))
    && active < |j| && j[active].event.Reference? && SoundReference(j)
    && (forall m :: m in models ==> IsModel(j, m) && Researched(j, m))
  }

  lemma {:induction false} DecidingSkips(o: Oracles, j: Journal, packet: Packet, models: seq<nat>, active: nat, clock: Clock)
    requires Deciding(o, j, packet, models, active, clock) && models != []
    ensures Deciding(o, j, packet, models[1..], active, clock)
  {
    assert forall x :: x in models[1..] ==> x in models;
  }

  lemma {:induction false} DecidingGoesOn(o: Oracles, j: Journal, packet: Packet, models: seq<nat>, active: nat, clock: Clock)
    requires Deciding(o, j, packet, models, active, clock) && models != []
    requires IsModel(j, models[0]) && Decidable(o, j, packet, models[0], active, clock.start)
    requires Append(j, DecisionFor(j, o, packet, models[0], active, clock.start), clock.appending(|j|)).ok
    ensures var n := Append(j, DecisionFor(j, o, packet, models[0], active, clock.start), clock.appending(|j|)).journal;
      Deciding(o, n, packet, models[1..], active, clock) && Extends(j, n)
  {
    DecideOneKeeps(o, j, packet, models[0], active, clock);
    var n := Append(j, DecisionFor(j, o, packet, models[0], active, clock.start), clock.appending(|j|)).journal;
    DecisionKeepsContext(o, j, packet, n[|j|]);
    forall x | x in models[1..] ensures IsModel(n, x) && Researched(n, x) {
      assert x in models;
      StaysResearched(j, n, x);
    }
  }

  lemma {:induction false} ChosenIsDecidable(o: Oracles, j: Journal, packet: Packet, models: seq<nat>, active: nat, clock: Clock)
    requires Deciding(o, j, packet, models, active, clock) && models != []
    requires Choose(j, packet, models[0], clock.start) == Decide
    ensures Decidable(o, j, packet, models[0], active, clock.start)
  {
    assert models[0] in models;
  }

  lemma {:induction false} DecideStep(o: Oracles, j: Journal, packet: Packet, models: seq<nat>, active: nat, clock: Clock)
    returns (appended: Step)
    requires Deciding(o, j, packet, models, active, clock) && models != []
    requires Choose(j, packet, models[0], clock.start) == Decide
    ensures appended == Append(j, DecisionFor(j, o, packet, models[0], active, clock.start), clock.appending(|j|))
    ensures WellFormed(o, appended.journal) && Extends(j, appended.journal) && SoundReference(appended.journal)
    ensures appended.ok ==> Deciding(o, appended.journal, packet, models[1..], active, clock)
  {
    ChosenIsDecidable(o, j, packet, models, active, clock);
    DecideOneKeeps(o, j, packet, models[0], active, clock);
    DecisionStepKeepsSound(o, j, packet, models[0], active, clock);
    appended := Append(j, DecisionFor(j, o, packet, models[0], active, clock.start), clock.appending(|j|));
    if appended.ok { DecidingGoesOn(o, j, packet, models, active, clock); }
  }

  lemma {:induction false} DecideModelsKeeps(o: Oracles, j: Journal, packet: Packet, models: seq<nat>, active: nat, clock: Clock)
    requires Deciding(o, j, packet, models, active, clock)
    ensures var s := DecideModels(j, o, packet, models, active, clock);
      WellFormed(o, s.journal) && Extends(j, s.journal) && SoundReference(s.journal)
    decreases |models|
  {
    if models != [] {
      match Choose(j, packet, models[0], clock.start)
      case Refuse =>
      case Skip =>
        DecidingSkips(o, j, packet, models, active, clock);
        DecideModelsKeeps(o, j, packet, models[1..], active, clock);
      case Decide =>
        var appended := DecideStep(o, j, packet, models, active, clock);
        if appended.ok {
          DecideModelsKeeps(o, appended.journal, packet, models[1..], active, clock);
          ExtendsThrough(j, appended.journal, DecideModels(appended.journal, o, packet, models[1..], active, clock).journal);
        }
    }
  }

  lemma {:induction false} DecisionStepKeepsSound(o: Oracles, j: Journal, packet: Packet, m: nat, active: nat, clock: Clock)
    requires WellFormed(o, j) && Decidable(o, j, packet, m, active, clock.start) && NeverBefore(clock) && SoundReference(j)
    ensures SoundReference(Append(j, DecisionFor(j, o, packet, m, active, clock.start), clock.appending(|j|)).journal)
  {
    var e := DecisionFor(j, o, packet, m, active, clock.start);
    DecideOneKeeps(o, j, packet, m, active, clock);
    DecisionKeepsContext(o, j, packet, Record(e, clock.appending(|j|)));
  }

  lemma {:induction false} EnsureReferenceKeeps(o: Oracles, j: Journal, clock: Clock)
    requires WellFormed(o, j)
    ensures var s := EnsureReference(j, clock);
      && WellFormed(o, s.journal) && Extends(j, s.journal) && (s.ok ==> Active(s.journal).Some?)
      && (forall e :: Has(j, e) ==> Has(s.journal, e))
  {
    if Active(j).None? {
      var e := Reference(None, CashPending, None, None);
      var r := Record(e, clock.appending(|j|));
      ReferencesAreChained(o, j);
      ChainEventIsNew(j, e, AnyReference());
      AppendKeeps(o, j, e, clock.appending(|j|));
      LastWhereSnoc(j, r, AnyReference());
      forall x | Has(j, x) ensures Has(EnsureReference(j, clock).journal, x) { FirstWhereSnoc(j, r, Is(x)); }
    }
  }

  lemma {:induction false} DecidersAreResearched(o: Oracles, j: Journal, n: Journal, protocol: nat, selected: nat)
    requires Replayable(o, j) && Replayable(o, n) && Extends(j, n) && LastWhere(j, ResultOf(protocol)).Some?
    requires j[LastWhere(j, ResultOf(protocol)).value].event.selected == Some(selected)
    ensures forall m :: m in Deciders(o, selected, ActiveModel(n)) ==> IsModel(n, m) && Researched(n, m)
  {
    SelectedIsResearched(o, j, protocol);
    StaysResearched(j, n, selected);
    if ActiveModel(n).Some? { ActiveIsResearched(o, n); }
  }

  lemma {:induction false} RecordDecisionsKeeps(o: Oracles, j: Journal, packet: Packet, protocol: nat, clock: Clock)
    requires WellFormed(o, j) && NeverBefore(clock)
    ensures var s := RecordDecisions(j, o, packet, protocol, clock);
      WellFormed(o, s.journal) && Extends(j, s.journal) && (s.ok ==> SoundReference(s.journal))
  {
    var result := LastWhere(j, ResultOf(protocol));
    if Eligible(packet, clock.start) && IsProtocol(j, protocol) && result.Some? {
      InputKeeps(o, j, packet, clock);
      var entered := Append(j, Input(packet), clock.appending(|j|));
      if entered.ok {
        EnsureReferenceKeeps(o, entered.journal, clock);
        var referenced := EnsureReference(entered.journal, clock);
        ExtendsThrough(j, entered.journal, referenced.journal);
        if referenced.ok {
          RepairKeeps(o, referenced.journal, clock);
          var repaired := Repair(referenced.journal, clock);
          ExtendsThrough(j, referenced.journal, repaired.journal);
          var selected := j[result.value].event.selected;
          if repaired.ok && selected.Some? {
            DecidersAreResearched(o, j, repaired.journal, protocol, selected.value);
            var models := Deciders(o, selected.value, ActiveModel(repaired.journal));
            DecideModelsKeeps(o, repaired.journal, packet, models, Active(repaired.journal).value, clock);
            ExtendsThrough(j, repaired.journal,
                           DecideModels(repaired.journal, o, packet, models, Active(repaired.journal).value, clock).journal);
          }
        }
      }
    }
  }

  // --------------------------------------------------------------- whole runs

  datatype Operation =
    | SetAvailabilityOf(dates: seq<int>, available: bool)
    | RecordDecisionsFor(packet: Packet, protocol: nat)
    | ScoreLaterWith(packet: Packet, models: seq<nat>)
    | TakeCheckpointOf(model: nat)

  ghost function Perform(j: Journal, o: Oracles, op: Operation, clock: Clock): Step {
    match op
    case SetAvailabilityOf(dates, available) => SetAvailability(j, dates, available, clock)
    case RecordDecisionsFor(packet, protocol) => RecordDecisions(j, o, packet, protocol, clock)
    case ScoreLaterWith(packet, models) => ScoreLater(j, o, packet, models, clock)
    case TakeCheckpointOf(m) => TakeCheckpoint(j, o, m, clock)
  }

  /** Every operation keeps the journal well-formed, only adds to it, and if it completes leaves a sound reference. */
  lemma {:induction false} OperationKeeps(o: Oracles, j: Journal, op: Operation, clock: Clock)
    requires WellFormed(o, j) && NeverBefore(clock)
    ensures var s := Perform(j, o, op, clock);
      WellFormed(o, s.journal) && Extends(j, s.journal) && (s.ok ==> SoundReference(s.journal))
  {
    match op
    case SetAvailabilityOf(dates, available) => SetAvailabilityKeeps(o, j, dates, available, clock);
    case RecordDecisionsFor(packet, protocol) => RecordDecisionsKeeps(o, j, packet, protocol, clock);
    case ScoreLaterWith(packet, models) => ScoreLaterKeeps(o, j, packet, models, clock);
    case TakeCheckpointOf(m) => TakeCheckpointKeeps(o, j, m, clock);
  }

  /**
    What happens to the journal: a call, cut off after some of its records were written, or one record of the research
    that runs between the calls.
  */
  datatype Call = Call(op: Operation, clock: Clock, written: nat) | Research(event: Event, at: int)

  ghost predicate Steady(call: Call) { call.Call? ==> NeverBefore(call.clock) }

  /** Research writes inputs, protocols, models, results and its other records, as its own producer computes them. */
  predicate Researches(o: Oracles, j: Journal, r: Record) {
    (r.event.Input? || r.event.Protocol? || r.event.Model? || r.event.ResearchResult? || r.event.OtherEvent?) && Accepts(o, j, r)
  }

  /** What is left of a longer journal when only so many of its new records were written. */
  function Cut(j: Journal, n: Journal, written: nat): Journal { if |j| + written < |n| then n[..|j| + written] else n }

  /** What is left of a call that was interrupted after it had written that many records. */
  ghost function Interrupted(j: Journal, o: Oracles, call: Call): Journal {
    match call
    case Call(op, clock, written) => Cut(j, Perform(j, o, op, clock).journal, written)
    case Research(e, at) => if Researches(o, j, Record(e, at)) then Append(j, e, at).journal else j
  }

  ghost function RunOf(j: Journal, o: Oracles, calls: seq<Call>): Journal
    decreases |calls|
  {
    if calls == [] then j else RunOf(Interrupted(j, o, calls[0]), o, calls[1..])
  }

  lemma {:induction false} CutKeeps(o: Oracles, j: Journal, n: Journal, written: nat)
    requires WellFormed(o, n) && Extends(j, n)
    ensures WellFormed(o, Cut(j, n, written)) && Extends(j, Cut(j, n, written))
  {
    if |j| + written < |n| {
      PrefixIsWellFormed(o, n, |j| + written);
      assert n[..|j| + written][..|j|] == n[..|j|];
    }
  }

  lemma {:induction false} InterruptedKeeps(o: Oracles, j: Journal, call: Call)
    requires WellFormed(o, j) && Steady(call)
    ensures WellFormed(o, Interrupted(j, o, call)) && Extends(j, Interrupted(j, o, call))
  {
    match call
    case Call(op, clock, written) =>
      OperationKeeps(o, j, op, clock);
      CutKeeps(o, j, Perform(j, o, op, clock).journal, written);
    case Research(e, at) =>
      if Researches(o, j, Record(e, at)) { AppendKeeps(o, j, e, at); }
  }

  /** Any calls and any research, each call interrupted anywhere: the journal only grows, and the replay accepts it. */
  lemma {:induction false} RunIsReplayable(o: Oracles, j: Journal, calls: seq<Call>)
    requires WellFormed(o, j) && forall c :: c in calls ==> Steady(c)
    ensures WellFormed(o, RunOf(j, o, calls)) && Extends(j, RunOf(j, o, calls))
    decreases |calls|
  {
    if calls != [] {
      assert calls[0] in calls && forall c :: c in calls[1..] ==> c in calls;
      InterruptedKeeps(o, j, calls[0]);
      var n := Interrupted(j, o, calls[0]);
      RunIsReplayable(o, n, calls[1..]);
      ExtendsThrough(j, n, RunOf(n, o, calls[1..]));
    }
  }

  /** After any interruptions, the next call that completes leaves a sound reference. */
  lemma {:induction false} NextCallRestoresReference(o: Oracles, j: Journal, calls: seq<Call>, op: Operation, clock: Clock)
    requires WellFormed(o, j) && (forall c :: c in calls ==> Steady(c)) && NeverBefore(clock)
    requires Perform(RunOf(j, o, calls), o, op, clock).ok
    ensures SoundReference(Perform(RunOf(j, o, calls), o, op, clock).journal)
  {
    RunIsReplayable(o, j, calls);
    OperationKeeps(o, RunOf(j, o, calls), op, clock);
  }
}
