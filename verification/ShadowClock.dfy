/** What a clock that steps back within one call does to a shadow journal. */
module ShadowClock {
  import opened Outcomes
  import opened Shadow
  import opened ShadowReplay
  import opened ShadowLaws

  const HOUR := 3_600_000_000

  /** The instant after so many days of 24 hours. */
  function Midnight(days: nat): int { days * 86_400_000_000 }

  /** Observation i: a session of six hours on day i + 1, reported two hours after its end. */
  function Observation(i: nat): PacketRow {
    PacketRow(i + 1, Midnight(i) + 14 * HOUR, Midnight(i) + 20 * HOUR, Midnight(i) + 22 * HOUR, 0)
  }

  function Observations(n: nat): (rows: seq<PacketRow>)
    ensures |rows| == n && forall i :: 0 <= i < n ==> rows[i] == Observation(i)
  {
    if n == 0 then [] else Observations(n - 1) + [Observation(n - 1)]
  }

  /** The packet of the first n days. */
  function History(n: nat): Packet { Packet(Observations(n), 0) }

  /** A history that is long enough for research, and leaves room for six more days. */
  predicate Known(n: nat) { 420 <= n <= MAX_ROWS - 6 }

  lemma {:induction false} HistoryIsEligible(n: nat, at: int)
    requires 1 <= n <= MAX_ROWS && at >= Midnight(n - 1) + 22 * HOUR
    ensures Eligible(History(n), at)
  {
    var rows := History(n).rows;
    forall r | 0 <= r < n ensures WellTimed(rows[r]) && rows[r].availableAt <= at { InOrder(r, n - 1); }
    forall a, b | 0 <= a < b < n ensures rows[a].date < rows[b].date && rows[a].end <= rows[b].start { InOrder(a, b); }
  }

  lemma {:induction false} InOrder(a: nat, b: nat)
    requires a <= b
    ensures WellTimed(Observation(a)) && Observation(a).availableAt <= Observation(b).availableAt
    ensures a < b ==> Observation(a).date < Observation(b).date && Observation(a).end <= Observation(b).start
  {
  }

  /** Research on n days, whose selected model has one new observation to decide on, with the packet already recorded. */
  function Before(n: nat): (j: Journal)
    ensures |j| == 5
  {
    [Record(Protocol(5, 0), Midnight(n)), Record(Model(0, n, 0), Midnight(n)), Record(ResearchResult(0, Some(1), 0), Midnight(n)),
     Record(Input(History(n + 1)), Midnight(n + 1)), Record(Reference(None, CashPending, None, None), Midnight(n + 1))]
  }

  /** The call starts two hours after midnight and writes one hour after, which is not before the last record. */
  function SteppedBack(n: nat): Clock {
    Clock(Midnight(n + 1) + 2 * HOUR, (k: nat) => Midnight(n + 1) + 2 * HOUR, (k: nat) => Midnight(n + 1) + HOUR)
  }

  ghost predicate AnyResearch(o: Oracles) { forall j, e :: o.research(j, e) }

  lemma {:induction false} Searches(n: nat, p: Event -> bool)
    ensures var j := Before(n);
      LastWhere(j, p) == if p(j[4].event) then Some(4) else if p(j[3].event) then Some(3) else if p(j[2].event) then Some(2)
      else if p(j[1].event) then Some(1) else if p(j[0].event) then Some(0) else None
    ensures var j := Before(n);
      FirstWhere(j, p) == if p(j[0].event) then Some(0) else if p(j[1].event) then Some(1) else if p(j[2].event) then Some(2)
      else if p(j[3].event) then Some(3) else if p(j[4].event) then Some(4) else None
  {
    var j := Before(n);
    Taken(j, 0, p);
    Taken(j, 1, p);
    Taken(j, 2, p);
    Taken(j, 3, p);
    Taken(j, 4, p);
    assert j[..5] == j;
  }

  lemma {:induction false} Taken(j: Journal, i: nat, p: Event -> bool)
    requires i < |j|
    ensures LastWhere(j[..i + 1], p) == if p(j[i].event) then Some(i) else LastWhere(j[..i], p)
    ensures FirstWhere(j[..i], p).Some? ==> FirstWhere(j[..i + 1], p) == FirstWhere(j[..i], p)
    ensures FirstWhere(j[..i], p).None? ==> FirstWhere(j[..i + 1], p) == if p(j[i].event) then Some(i) else None
  {
    assert j[..i + 1] == j[..i] + [j[i]];
    LastWhereSnoc(j[..i], j[i], p);
    FirstWhereSnoc(j[..i], j[i], p);
  }

  lemma {:induction false} BeforeIsWellFormed(o: Oracles, n: nat)
    requires AnyResearch(o)
    ensures WellFormed(o, Before(n))
  {
    var j := Before(n);
    Taken(j, 0, AnyReference());
    Taken(j, 1, AnyReference());
    Taken(j, 2, AnyReference());
    Taken(j, 3, AnyReference());
    forall i | 0 <= i < 5 ensures Accepts(o, j[..i], j[i]) {
      assert j[..0] == [];
    }
  }

  lemma {:induction false} ModelIsChosen(n: nat, at: int)
    requires Midnight(n + 1) <= at <= Midnight(n + 3)
    ensures Choose(Before(n), History(n + 1), 1, at) == Decide
  {
    Searches(n, DecisionAt(1, n + 1));
    Searches(n, DecisionOf(1));
  }

  lemma {:induction false} SteppingBackWrites(o: Oracles, n: nat) returns (e: Event)
    requires Known(n)
    ensures e == DecisionFor(Before(n), o, History(n + 1), 1, 4, SteppedBack(n).start)
    ensures DecideModels(Before(n), o, History(n + 1), [1], 4, SteppedBack(n))
         == Step(Before(n) + [Record(e, Midnight(n + 1) + HOUR)], 5, false)
  {
    var j := Before(n);
    ModelIsChosen(n, SteppedBack(n).start);
    e := DecisionFor(j, o, History(n + 1), 1, 4, SteppedBack(n).start);
    Searches(n, Is(e));
    assert Append(j, e, Midnight(n + 1) + HOUR) == Step(j + [Record(e, Midnight(n + 1) + HOUR)], 5, true);
  }

  /**
    The call fails, but not before it wrote a decision that claims to be older than its own record. The journal was
    replayable before, and is not any more.
  */
  lemma {:induction false} SteppingBackBreaksReplay(o: Oracles, n: nat)
    requires AnyResearch(o) && Known(n)
    ensures WellFormed(o, Before(n)) && Eligible(History(n + 1), SteppedBack(n).start)
    ensures var s := RecordDecisions(Before(n), o, History(n + 1), 0, SteppedBack(n)); !s.ok && !Replayable(o, s.journal)
  {
    var j := Before(n);
    BeforeIsWellFormed(o, n);
    HistoryIsEligible(n + 1, SteppedBack(n).start);
    var e := SteppingBackWrites(o, n);
    Searches(n, ResultOf(0));
    Searches(n, Is(Input(History(n + 1))));
    Searches(n, AnyReference());
    var after := j + [Record(e, Midnight(n + 1) + HOUR)];
    assert RecordDecisions(j, o, History(n + 1), 0, SteppedBack(n)) == Step(after, 5, false);
    assert after[..5] == j && !Accepts(o, after[..5], after[5]);
  }
}
