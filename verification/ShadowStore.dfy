/** The journal as a store that the shadow operations append to, record by record. */
module ShadowStores {
  import opened Outcomes
  import opened Shadow
  import opened ShadowReplay
  import opened ShadowLaws

  lemma {:induction false} SearchedOn(j: Journal, i: nat, p: Event -> bool)
    requires i < |j|
    ensures LastWhere(j[..i + 1], p) == if p(j[i].event) then Some(i) else LastWhere(j[..i], p)
    ensures FirstWhere(j[..i], p).Some? ==> FirstWhere(j[..i + 1], p) == FirstWhere(j[..i], p)
    ensures FirstWhere(j[..i], p).None? ==> FirstWhere(j[..i + 1], p) == if p(j[i].event) then Some(i) else None
  {
    assert j[..i + 1] == j[..i] + [j[i]];
    LastWhereSnoc(j[..i], j[i], p);
    FirstWhereSnoc(j[..i], j[i], p);
  }

  /** The dictionary of the latest availability event of each date. */
  ghost predicate IsLatest(j: Journal, latest: map<int, nat>) {
    forall date :: (date in latest <==> LastWhere(j, OfDate(date)).Some?)
                   && (date in latest ==> Some(latest[date]) == LastWhere(j, OfDate(date)))
  }

  method LatestAvailability(j: Journal) returns (latest: map<int, nat>)
    ensures IsLatest(j, latest)
  {
    latest := map[];
    for i := 0 to |j|
      invariant IsLatest(j[..i], latest)
    {
      var e := j[i].event;
      forall date ensures LastWhere(j[..i + 1], OfDate(date)) == if OfDate(date)(e) then Some(i) else LastWhere(j[..i], OfDate(date)) {
        SearchedOn(j, i, OfDate(date));
      }
      if e.Availability? { latest := latest[e.date := i]; }
    }
    assert j[..|j|] == j;
  }

  method UnavailableDates(j: Journal) returns (dates: set<int>)
    ensures forall date :: date in dates <==> Withdrawn(j, date)
  {
    var latest := LatestAvailability(j);
    forall date | date in latest ensures latest[date] < |j| && j[latest[date]].event.Availability? {
      assert Some(latest[date]) == LastWhere(j, OfDate(date));
    }
    dates := set date | date in latest && !j[latest[date]].event.available;
  }

  /** The dates of one decision's input, if that input is in the journal. */
  function InputDates(j: Journal, d: nat): set<int>
    requires d < |j| && j[d].event.Decision?
  {
    var rows := j[d].event.packet.rows;
    if Has(j, Input(j[d].event.packet)) then set r | 0 <= r < |rows| :: rows[r].date else {}
  }

  method RelevantDates(j: Journal, v: ScoreValue) returns (dates: set<int>)
    ensures forall date :: date in dates <==> Relevant(j, v, date)
  {
    dates := {};
    for d := 0 to |j|
      invariant forall date :: date in dates <==> exists i :: 0 <= i < d && i in v.decisions && j[i].event.Decision? && date in InputDates(j, i)
    {
      if d in v.decisions && j[d].event.Decision? { dates := dates + InputDates(j, d); }
    }
    dates := dates + v.outcomeDates;
  }

  /** The validity of the active model's evidence, as the repair computes it. */
  method IsInvalid(j: Journal, m: nat) returns (invalid: bool)
    ensures invalid <==> Invalid(j, m)
  {
    var score := LastWhere(j, ScoreOf(m));
    if score.None? { return true; }
    var v := j[score.value].event.value;
    if v.status != Scored { return true; }
    var withdrawn := UnavailableDates(j);
    var relevant := RelevantDates(j, v);
    if exists date :: date in withdrawn && date in relevant { return true; }
    return MaterialRevision(j, m) || RejectedCurrent(j, m);
  }

  /** One turn of the scoring loop. */
  lemma {:induction false} ScoreTurn(j: Journal, o: Oracles, packet: Packet, models: seq<nat>, i: nat, clock: Clock)
    requires i < |models|
    ensures var scored := ScoreModel(j, o, packet, models[i], clock);
      ScoreModels(j, o, packet, models[i..], clock)
      == if !scored.ok then scored else ScoreModels(scored.journal, o, packet, models[i + 1..], clock)
  {
    assert models[i..][0] == models[i] && models[i..][1..] == models[i + 1..];
  }

  class Store {
    var records: Journal

    constructor ()
      ensures records == []
    {
      records := [];
    }

    /** The first equal event is returned if there is one; otherwise the event is written after the others. */
    method Append(e: Event, at: int) returns (id: nat, ok: bool)
      modifies this
      ensures Step(records, id, ok) == Shadow.Append(old(records), e, at)
    {
      var i := 0;
      while i < |records|
        invariant i <= |records| && records == old(records) && FirstWhere(records[..i], Is(e)).None?
      {
        SearchedOn(records, i, Is(e));
        if records[i].event == e {
          FirstStays(records, i + 1, Is(e));
          return i, true;
        }
        i := i + 1;
      }
      assert records[..|records|] == records;
      if records != [] && at < records[|records| - 1].createdAt { return 0, false; }
      records := records + [Record(e, at)];
      return |records| - 1, true;
    }

    method RepairReference(clock: Clock) returns (ok: bool)
      modifies this
      ensures records == Repair(old(records), clock).journal && ok == Repair(old(records), clock).ok
    {
      var active := Active(records);
      if active.None? || records[active.value].event.promoted.None? { return true; }
      var invalid := IsInvalid(records, records[active.value].event.promoted.value);
      if !invalid { return true; }
      var id;
      id, ok := Append(Reference(None, CashAfterRetraction, records[active.value].event.checkpoint, active), clock.appending(|records|));
    }

    method SetDateAvailable(prior: Journal, latest: map<int, nat>, date: int, available: bool, clock: Clock) returns (ok: bool)
      requires IsLatest(prior, latest)
      modifies this
      ensures records == MarkDate(prior, old(records), date, available, clock).journal
      ensures ok == MarkDate(prior, old(records), date, available, clock).ok
    {
      if date in latest && prior[latest[date]].event.available == available { return true; }
      var id;
      id, ok := Append(Availability(date, available, if date in latest then Some(latest[date]) else None), clock.appending(|records|));
    }

    method SetDatesAvailable(dates: seq<int>, available: bool, clock: Clock) returns (ok: bool)
      modifies this
      ensures records == SetAvailability(old(records), dates, available, clock).journal
      ensures ok == SetAvailability(old(records), dates, available, clock).ok
    {
      if !SortedDates(dates) { return false; }
      var prior := records;
      var latest := LatestAvailability(prior);
      for i := 0 to |dates|
        invariant MarkDates(prior, prior, dates, available, clock) == MarkDates(prior, records, dates[i..], available, clock)
      {
        assert dates[i..][0] == dates[i] && dates[i..][1..] == dates[i + 1..];
        ok := SetDateAvailable(prior, latest, dates[i], available, clock);
        if !ok { return; }
      }
      assert dates[|dates|..] == [];
      ok := RepairReference(clock);
    }

    method ScoreModelNow(o: Oracles, packet: Packet, m: nat, clock: Clock) returns (ok: bool)
      modifies this
      ensures records == ScoreModel(old(records), o, packet, m, clock).journal
      ensures ok == ScoreModel(old(records), o, packet, m, clock).ok
    {
      var v, latest := ScoreAt(records, o, packet, m, clock.scoring(|records|)), LastWhere(records, ScoreOf(m));
      if v.None? { return false; }
      if latest.Some? && records[latest.value].event.packet == packet && records[latest.value].event.value == v.value { return true; }
      var id;
      id, ok := Append(Score(m, packet, v.value, latest), clock.appending(|records|));
    }

    method ScoreModelsNow(o: Oracles, packet: Packet, models: seq<nat>, clock: Clock) returns (ok: bool)
      modifies this
      ensures records == ScoreModels(old(records), o, packet, models, clock).journal
      ensures ok == ScoreModels(old(records), o, packet, models, clock).ok
    {
      ghost var before := records;
      for i := 0 to |models|
        invariant ScoreModels(before, o, packet, models, clock) == ScoreModels(records, o, packet, models[i..], clock)
      {
        ScoreTurn(records, o, packet, models, i, clock);
        ok := ScoreModelNow(o, packet, models[i], clock);
        if !ok { return; }
      }
      return true;
    }

    method ScoreNow(o: Oracles, packet: Packet, models: seq<nat>, clock: Clock) returns (ok: bool)
      modifies this
      ensures records == ScoreLater(old(records), o, packet, models, clock).journal
      ensures ok == ScoreLater(old(records), o, packet, models, clock).ok
    {
      if !Eligible(packet, clock.start) { return false; }
      var id;
      id, ok := Append(Input(packet), clock.appending(|records|));
      if !ok { return false; }
      ok := ScoreModelsNow(o, packet, models, clock);
      if !ok { return false; }
      ok := RepairReference(clock);
    }

    /** The checkpoint of the call: the previous one when it says the same, else a new one. */
    method CheckpointNow(o: Oracles, m: nat, clock: Clock) returns (id: nat, ok: bool)
      requires LastWhere(records, ScoreOf(m)).Some?
      modifies this
      ensures Step(records, id, ok) == RecordCheckpoint(old(records), o, m, clock)
    {
      var e, previous := CheckpointFor(records, o, m), LastWhere(records, CheckpointOf(m));
      if previous.Some? && SaysTheSame(records[previous.value].event, e) { return previous.value, true; }
      id, ok := Append(e, clock.appending(|records|));
    }

    method PromoteNow(m: nat, checkpoint: nat, clock: Clock) returns (ok: bool)
      requires checkpoint < |records| && records[checkpoint].event.Checkpoint?
      modifies this
      ensures records == Promote(old(records), m, checkpoint, clock).journal && ok == Promote(old(records), m, checkpoint, clock).ok
    {
      if records[checkpoint].event.status != Qualified || ActiveModel(records) == Some(m) { return true; }
      var id;
      id, ok := Append(Reference(Some(m), FrozenEconomic, Some(checkpoint), Active(records)), clock.appending(|records|));
    }

    method CheckpointModel(o: Oracles, m: nat, clock: Clock) returns (ok: bool)
      modifies this
      ensures records == TakeCheckpoint(old(records), o, m, clock).journal
      ensures ok == TakeCheckpoint(old(records), o, m, clock).ok
    {
      if LastWhere(records, ScoreOf(m)).None? { return false; }
      if RecordCheckpoint(records, o, m, clock).ok { RecordedCheckpoint(records, o, m, clock); }
      var id;
      id, ok := CheckpointNow(o, m, clock);
      if !ok { return false; }
      ok := PromoteNow(m, id, clock);
      if !ok { return false; }
      ok := RepairReference(clock);
    }

    method DecideModelsNow(o: Oracles, packet: Packet, models: seq<nat>, active: nat, clock: Clock) returns (ok: bool)
      requires packet.rows != []
      modifies this
      ensures records == DecideModels(old(records), o, packet, models, active, clock).journal
      ensures ok == DecideModels(old(records), o, packet, models, active, clock).ok
    {
      ghost var before := records;
      var i := 0;
      while i < |models|
        invariant i <= |models|
        invariant DecideModels(before, o, packet, models, active, clock) == DecideModels(records, o, packet, models[i..], active, clock)
      {
        var m := models[i];
        assert models[i..][0] == m && models[i..][1..] == models[i + 1..];
        var choice := Choose(records, packet, m, clock.start);
        if choice == Refuse { return false; }
        if choice == Decide {
          var id;
          id, ok := Append(DecisionFor(records, o, packet, m, active, clock.start), clock.appending(|records|));
          if !ok || records[id].createdAt < clock.start { return false; }
        }
        i := i + 1;
      }
      assert models[|models|..] == [];
      return true;
    }

    method DecideNow(o: Oracles, packet: Packet, protocol: nat, clock: Clock) returns (ok: bool)
      modifies this
      ensures records == RecordDecisions(old(records), o, packet, protocol, clock).journal
      ensures ok == RecordDecisions(old(records), o, packet, protocol, clock).ok
    {
      var result := LastWhere(records, ResultOf(protocol));
      if !Eligible(packet, clock.start) || !IsProtocol(records, protocol) || result.None? { return false; }
      var selected := records[result.value].event.selected;
      var id;
      id, ok := Append(Input(packet), clock.appending(|records|));
      if !ok { return false; }
      if Active(records).None? {
        id, ok := Append(Reference(None, CashPending, None, None), clock.appending(|records|));
        if !ok { return false; }
      }
      ok := RepairReference(clock);
      if !ok || selected.None? || Active(records).None? { return ok; }
      ok := DecideModelsNow(o, packet, Deciders(o, selected.value, ActiveModel(records)), Active(records).value, clock);
    }
  }

  lemma {:induction false} FirstStays(j: Journal, i: nat, p: Event -> bool)
    requires i <= |j| && FirstWhere(j[..i], p).Some?
    ensures FirstWhere(j, p) == FirstWhere(j[..i], p)
    decreases |j| - i
  {
    if i < |j| {
      SearchedOn(j, i, p);
      FirstStays(j, i + 1, p);
    } else {
      assert j[..i] == j;
    }
  }
}
