/** The independent replay of a shadow journal: each record against exactly the records before it. */
module ShadowReplay {
  import opened Outcomes
  import opened Shadow

  /** What re-running the checkpoint producer on the prefix returns. */
  function ExpectedCheckpoint(j: Journal, o: Oracles, m: nat): Event
    requires LastWhere(j, ScoreOf(m)).Some?
  {
    var previous, e := LastWhere(j, CheckpointOf(m)), CheckpointFor(j, o, m);
    if previous.Some? && SaysTheSame(j[previous.value].event, e) then j[previous.value].event else e
  }

  predicate AcceptsDecision(o: Oracles, j: Journal, r: Record)
    requires r.event.Decision?
  {
    var e := r.event;
    && IsModel(j, e.model) && j[e.model].event.protocol == e.protocol && LastWhere(j, ResultOf(e.protocol)).Some?
    && Has(j, Input(e.packet)) && e.packet.rows != []
    && var last := e.packet.rows[|e.packet.rows| - 1];
    && e.probability == o.forecast(e.model, e.packet) && e.originDate == last.date
    && e.originDate > j[e.model].event.knownHistoryEnd
    && e.reference < |j| && j[e.reference].event.Reference?
    && last.availableAt <= e.decisionAt <= r.createdAt
    && LastWhere(j, DecisionAt(e.model, e.originDate)).None?
  }

  predicate AcceptsAvailability(j: Journal, e: Event)
    requires e.Availability?
  {
    var prior := LastWhere(j, OfDate(e.date));
    e.supersedes == prior && (prior.Some? ==> j[prior.value].event.available != e.available)
  }

  predicate AcceptsScore(o: Oracles, j: Journal, r: Record)
    requires r.event.Score?
  {
    var e := r.event;
    && IsModel(j, e.model) && Has(j, Input(e.packet))
    && ScoreAt(j, o, e.packet, e.model, r.createdAt) == Some(e.value)
    && e.supersedes == LastWhere(j, ScoreOf(e.model))
  }

  predicate AcceptsCheckpoint(o: Oracles, j: Journal, e: Event)
    requires e.Checkpoint?
  {
    LastWhere(j, ScoreOf(e.model)) == Some(e.score) && e == ExpectedCheckpoint(j, o, e.model)
  }

  predicate AcceptsReference(j: Journal, e: Event)
    requires e.Reference?
  {
    && e.supersedes == Active(j)
    && (if e.promoted.None? then e.standing in {CashPending, CashAfterRetraction}
        else
          && e.checkpoint.Some? && e.checkpoint.value < |j|
          && var c := j[e.checkpoint.value].event;
             c.Checkpoint? && c.status == Qualified && c.model == e.promoted.value)
  }

  /** The replayer's check of one record against the prefix before it. */
  predicate Accepts(o: Oracles, j: Journal, r: Record) {
    match r.event
    case Input(_) => true
    case Protocol(_, _) => o.research(j, r.event)
    case Model(protocol, _, _) => IsProtocol(j, protocol) && o.research(j, r.event)
    case ResearchResult(protocol, selected, _) =>
      && IsProtocol(j, protocol) && o.research(j, r.event)
      && (selected.Some? ==> IsModel(j, selected.value) && j[selected.value].event.protocol == protocol)
    case Decision(_, _, _, _, _, _, _) => AcceptsDecision(o, j, r)
    case Availability(_, _, _) => AcceptsAvailability(j, r.event)
    case Score(_, _, _, _) => AcceptsScore(o, j, r)
    case Checkpoint(_, _, _, _, _) => AcceptsCheckpoint(o, j, r.event)
    case Reference(_, _, _, _) => AcceptsReference(j, r.event)
    case OtherEvent(_, _) => o.research(j, r.event)
  }

  predicate Replayable(o: Oracles, j: Journal) { forall i :: 0 <= i < |j| ==> Accepts(o, j[..i], j[i]) }

  /** The replay loop. */
  method Replay(o: Oracles, records: Journal) returns (matched: bool)
    ensures matched <==> Replayable(o, records)
  {
    for index := 0 to |records|
      invariant forall i :: 0 <= i < index ==> Accepts(o, records[..i], records[i])
    {
      if !Accepts(o, records[..index], records[index]) { return false; }
    }
    return true;
  }

  predicate Distinct(j: Journal) { forall a, b :: 0 <= a < b < |j| ==> j[a].event != j[b].event }

  predicate Timely(j: Journal) { forall a, b :: 0 <= a < b < |j| ==> j[a].createdAt <= j[b].createdAt }

  /** Replayable, without a repeated event, and in the order of the clock. */
  predicate WellFormed(o: Oracles, j: Journal) { Replayable(o, j) && Distinct(j) && Timely(j) }

  lemma {:induction false} PrefixIsWellFormed(o: Oracles, j: Journal, k: nat)
    requires WellFormed(o, j) && k <= |j|
    ensures WellFormed(o, j[..k])
  {
    forall i | 0 <= i < k ensures Accepts(o, j[..k][..i], j[..k][i]) {
      assert j[..k][..i] == j[..i];
    }
  }

  // ------------------------------------------------------------- searching

  lemma {:induction false} LastWhereIsLast(j: Journal, p: Event -> bool)
    ensures var last := LastWhere(j, p);
      forall i :: 0 <= i < |j| && p(j[i].event) ==> last.Some? && i <= last.value
  {
    if j != [] {
      LastWhereIsLast(j[..|j| - 1], p);
      forall i | 0 <= i < |j| && p(j[i].event) ensures LastWhere(j, p).Some? && i <= LastWhere(j, p).value {
        if i < |j| - 1 { assert j[..|j| - 1][i] == j[i]; }
      }
    }
  }

  lemma {:induction false} LastWhereSnoc(j: Journal, r: Record, p: Event -> bool)
    ensures LastWhere(j + [r], p) == if p(r.event) then Some(|j|) else LastWhere(j, p)
  {
    assert (j + [r])[..|j|] == j;
  }

  lemma {:induction false} FirstWhereFinds(j: Journal, p: Event -> bool)
    ensures FirstWhere(j, p).None? ==> forall i :: 0 <= i < |j| ==> !p(j[i].event)
    ensures FirstWhere(j, p).Some? ==> forall i :: 0 <= i < FirstWhere(j, p).value ==> !p(j[i].event)
  {
    if j != [] {
      FirstWhereFinds(j[..|j| - 1], p);
      assert forall i :: 0 <= i < |j| - 1 ==> j[..|j| - 1][i] == j[i];
    }
  }

  lemma {:induction false} FirstWhereSnoc(j: Journal, r: Record, p: Event -> bool)
    ensures FirstWhere(j, p).Some? ==> FirstWhere(j + [r], p) == FirstWhere(j, p)
    ensures FirstWhere(j, p).None? ==> FirstWhere(j + [r], p) == if p(r.event) then Some(|j|) else None
  {
    assert (j + [r])[..|j|] == j;
  }

  lemma {:induction false} AbsentEverywhere(j: Journal, e: Event)
    ensures !Has(j, e) <==> forall i :: 0 <= i < |j| ==> j[i].event != e
  {
    FirstWhereFinds(j, Is(e));
    if !Has(j, e) {
      forall i | 0 <= i < |j| ensures j[i].event != e {
        assert !Is(e)(j[i].event);
      }
    }
  }

  // ------------------------------------------------------------ the chains

  function Supersedes(e: Event): Option<nat> {
    if e.Availability? || e.Score? || e.Checkpoint? || e.Reference? then e.supersedes else None
  }

  /** Every event of a chain supersedes the last event of that chain before it. */
  predicate Chained(j: Journal, p: Event -> bool) {
    forall i :: 0 <= i < |j| && p(j[i].event) ==> Supersedes(j[i].event) == LastWhere(j[..i], p)
  }

  /** The next event of a chain is never equal to one that was written before, so it is never swallowed. */
  lemma {:induction false} ChainEventIsNew(j: Journal, e: Event, p: Event -> bool)
    requires Chained(j, p) && p(e) && Supersedes(e) == LastWhere(j, p)
    ensures !Has(j, e)
  {
    AbsentEverywhere(j, e);
    LastWhereIsLast(j, p);
    forall i | 0 <= i < |j| ensures j[i].event != e {
      assert p(j[i].event) ==> Supersedes(j[i].event) == LastWhere(j[..i], p);
    }
  }

  lemma {:induction false} AvailabilityIsChained(o: Oracles, j: Journal, date: int)
    requires Replayable(o, j)
    ensures Chained(j, OfDate(date))
  {
    forall i | 0 <= i < |j| && OfDate(date)(j[i].event) ensures Supersedes(j[i].event) == LastWhere(j[..i], OfDate(date)) {
      assert Accepts(o, j[..i], j[i]);
    }
  }

  lemma {:induction false} ScoresAreChained(o: Oracles, j: Journal, m: nat)
    requires Replayable(o, j)
    ensures Chained(j, ScoreOf(m))
  {
    forall i | 0 <= i < |j| && ScoreOf(m)(j[i].event) ensures Supersedes(j[i].event) == LastWhere(j[..i], ScoreOf(m)) {
      assert Accepts(o, j[..i], j[i]);
    }
  }

  lemma {:induction false} ReferencesAreChained(o: Oracles, j: Journal)
    requires Replayable(o, j)
    ensures Chained(j, AnyReference())
  {
    forall i | 0 <= i < |j| && AnyReference()(j[i].event) ensures Supersedes(j[i].event) == LastWhere(j[..i], AnyReference()) {
      assert Accepts(o, j[..i], j[i]);
    }
  }

  /** Replay alone would accept a repeated checkpoint; the append never writes one. */
  lemma {:induction false} CheckpointsAreChained(o: Oracles, j: Journal, m: nat)
    requires Replayable(o, j) && Distinct(j)
    ensures Chained(j, CheckpointOf(m))
  {
    forall i | 0 <= i < |j| && CheckpointOf(m)(j[i].event) ensures Supersedes(j[i].event) == LastWhere(j[..i], CheckpointOf(m)) {
      assert Accepts(o, j[..i], j[i]);
      var previous := LastWhere(j[..i], CheckpointOf(m));
      if previous.Some? {
        assert j[..i][previous.value] == j[previous.value];
        assert j[previous.value].event != j[i].event;
      }
    }
  }

  // ---------------------------------------------- what a replayable journal says

  /** Successive events of one date alternate. */
  lemma {:induction false} AvailabilityAlternates(o: Oracles, j: Journal, a: nat, b: nat)
    requires Replayable(o, j) && a < b < |j| && j[a].event.Availability? && OfDate(j[a].event.date)(j[b].event)
    requires forall i :: a < i < b ==> !OfDate(j[a].event.date)(j[i].event)
    ensures j[b].event.available == !j[a].event.available && j[b].event.supersedes == Some(a)
  {
    assert Accepts(o, j[..b], j[b]);
    NewestBefore(j, OfDate(j[a].event.date), a, b);
  }

  lemma {:induction false} NewestBefore(j: Journal, p: Event -> bool, a: nat, b: nat)
    requires a < b <= |j| && p(j[a].event) && forall i :: a < i < b ==> !p(j[i].event)
    ensures LastWhere(j[..b], p) == Some(a)
  {
    LastWhereIsLast(j[..b], p);
    assert j[..b][a] == j[a];
    var last := LastWhere(j[..b], p).value;
    assert j[..b][last] == j[last];
  }

  /** The references form one chain: each supersedes the one right before it. */
  lemma {:induction false} ReferencesAreOneChain(o: Oracles, j: Journal, a: nat, b: nat)
    requires Replayable(o, j) && a < b < |j| && j[a].event.Reference? && j[b].event.Reference?
    requires forall i :: a < i < b ==> !j[i].event.Reference?
    ensures j[b].event.supersedes == Some(a)
  {
    assert Accepts(o, j[..b], j[b]);
    NewestBefore(j, AnyReference(), a, b);
  }

  /**
    A model is promoted only on a qualified checkpoint of its own, and that checkpoint judged a scored, genuine
    result that was the model's newest at the time and rested on the current availability.
  */
  lemma {:induction false} PromotionIsEarned(o: Oracles, j: Journal, i: nat) returns (checkpoint: nat, score: nat)
    requires WellFormed(o, j) && i < |j| && j[i].event.Reference? && j[i].event.promoted.Some?
    ensures score < checkpoint < i && j[i].event.checkpoint == Some(checkpoint)
    ensures j[checkpoint].event.Checkpoint? && j[checkpoint].event.model == j[i].event.promoted.value
    ensures j[checkpoint].event.status == Qualified && j[checkpoint].event.score == score
    ensures LastWhere(j[..checkpoint], ScoreOf(j[checkpoint].event.model)) == Some(score)
    ensures j[score].event.Score?
    ensures var v := j[score].event.value;
      && v.status == Scored && v.genuine
      && v.revisions == RevisionsUpTo(j[..checkpoint], if v.windowEnd.Some? then v.windowEnd else v.lastDate)
      && o.gate(j[..checkpoint], j[checkpoint].event.model, v, Comparison(j[..checkpoint], j[checkpoint].event.model)) == Passes
  {
    assert Accepts(o, j[..i], j[i]);
    checkpoint := j[i].event.checkpoint.value;
    assert j[..i][checkpoint] == j[checkpoint];
    assert Accepts(o, j[..checkpoint], j[checkpoint]);
    score := j[checkpoint].event.score;
    assert j[..checkpoint][score] == j[score];
    var before, m := j[..checkpoint], j[checkpoint].event.model;
    var previous := LastWhere(before, CheckpointOf(m));
    assert previous.Some? ==> before[previous.value].event != j[checkpoint].event;
  }
}
