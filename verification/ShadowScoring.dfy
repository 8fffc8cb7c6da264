/**
  The scoring of a model's decisions, for a model that has no earlier score: which decisions count, which are missing
  or corrected, and what the score rests on. The simulation of those that count is one number.
*/
module ShadowScoring {
  import opened Outcomes
  import opened Shadow
  import opened ShadowReplay

  const HORIZON := 5

  /** What a decision is good for: its origin and target rows when it counts. */
  datatype Standing = Missing | Corrected | Unbound | Awaited(origin: nat, last: nat) | Chosen(origin: nat, last: nat)

  predicate WithdrawnWithin(j: Journal, after: int, last: int) { exists date :: after < date <= last && Withdrawn(j, date) }

  /** The outcome begins after the decision was written. */
  predicate Prospective(rows: seq<PacketRow>, origin: nat, last: nat, decidedAt: int)
    requires origin < last < |rows|
  {
    rows[origin + 1].start > decidedAt && forall r :: origin < r <= last ==> rows[r].availableAt > decidedAt
  }

  /** One turn of the scoring loop. */
  function StandingOf(j: Journal, packet: Packet, d: nat, visible: set<int>): Standing
    requires d < |j| && j[d].event.Decision?
  {
    var e, rows := j[d].event, packet.rows;
    var found := RowOf(rows, e.originDate);
    if found.None? || found.value >= |rows| || !Has(j, Input(e.packet)) || Withdrawn(j, e.originDate) then Missing
    else
      var origin := found.value;
      var last := if origin + HORIZON < |rows| then origin + HORIZON else |rows| - 1;
      if rows[..origin + 1] != e.packet.rows then Corrected
      else if WithdrawnWithin(j, e.originDate, rows[last].date) then Missing
      else if last == origin then Unbound
      else if last < origin + HORIZON then Awaited(origin, last)
      else if !Prospective(rows, origin, last, j[d].createdAt) then Corrected
      else if last !in visible then Awaited(origin, last)
      else Chosen(origin, last)
  }

  predicate Spoils(s: Standing) { s.Missing? || s.Corrected? }

  /** The first and the last row that the chosen decisions below n span: from the first origin to the last target. */
  function Span(j: Journal, packet: Packet, m: nat, visible: set<int>, n: nat): Option<(nat, nat)>
    requires n <= |j|
  {
    if n == 0 then None
    else
      var before := Span(j, packet, m, visible, n - 1);
      if !DecisionOf(m)(j[n - 1].event) || !StandingOf(j, packet, n - 1, visible).Chosen? then before
      else
        var s := StandingOf(j, packet, n - 1, visible);
        if before.None? then Some((s.origin, s.last))
        else Some((if s.origin < before.value.0 then s.origin else before.value.0,
                   if s.last > before.value.1 then s.last else before.value.1))
  }

  /** The dates of the rows that the outcomes of these decisions are bound to. */
  function Bound(j: Journal, packet: Packet, visible: set<int>, decisions: set<nat>): set<int> {
    set d, r | d in decisions && d < |j| && j[d].event.Decision? && 0 <= r < |packet.rows|
               && Binds(StandingOf(j, packet, d, visible), r) :: packet.rows[r].date
  }

  predicate Binds(s: Standing, r: int) { (s.Awaited? || s.Chosen?) && s.origin < r <= s.last }

  function DecisionsOf(j: Journal, m: nat): set<nat> { set d: nat | d < |j| && DecisionOf(m)(j[d].event) }

  predicate AnySpoils(j: Journal, packet: Packet, m: nat, visible: set<int>) {
    exists d :: 0 <= d < |j| && DecisionOf(m)(j[d].event) && Spoils(StandingOf(j, packet, d, visible))
  }

  /** The decisions that count, up to a last target row. */
  function Selected(j: Journal, packet: Packet, m: nat, visible: set<int>, end: int): set<nat> {
    set d: nat | d < |j| && DecisionOf(m)(j[d].event) && StandingOf(j, packet, d, visible).Chosen?
                 && StandingOf(j, packet, d, visible).last <= end
  }

  predicate AnyRowWithdrawn(j: Journal, rows: seq<PacketRow>, first: nat, last: nat) {
    exists r :: first <= r <= last && r < |rows| && Withdrawn(j, rows[r].date)
  }

  /** The score; a span of `window` rows fixes the confirmation window (105 in the source), and ends the score there. */
  function FirstScore(j: Journal, packet: Packet, m: nat, visible: set<int>, window: nat): ScoreValue {
    var rows, n, span := packet.rows, |packet.rows|, Span(j, packet, m, visible, |j|);
    var revisions := RevisionsUpTo(j, if n == 0 then None else Some(rows[n - 1].date));
    var selected, bound := Selected(j, packet, m, visible, n), Bound(j, packet, visible, DecisionsOf(j, m));
    if AnySpoils(j, packet, m, visible) then ScoreValue(ScoreUnavailable, selected, bound, revisions, None, None, selected != {}, 0, 0)
    else if span.None? || span.value.1 >= n then ScoreValue(Pending, selected, bound, revisions, None, None, selected != {}, 0, 0)
    else
      var first := span.value.0 + 1;
      var fixed := 0 < window && first + window - 1 <= span.value.1;
      var last := if fixed then first + window - 1 else span.value.1;
      var counted := if fixed then Selected(j, packet, m, visible, last) else selected;
      var within := if fixed then Bound(j, packet, visible, counted) else bound;
      var spoiled := AnyRowWithdrawn(j, rows, first, last);
      ScoreValue(if spoiled then ScoreUnavailable else Scored, counted, within, revisions,
                 if fixed then Some(rows[last].date) else None, if spoiled then None else Some(rows[last].date), selected != {}, 0, 0)
  }

  /** The oracles of this scoring, under a gate that passes every score with a confirmation window. */
  function Scoring(window: nat): Oracles {
    Oracles((j: Journal, p: Packet, m: nat, visible: set<int>) => Some(FirstScore(j, p, m, visible, window)),
            (j: Journal, m: nat, v: ScoreValue, c: Option<nat>) => if v.windowEnd.Some? then Passes else NotEnough,
            (m: nat, p: Packet) => 0, (a: nat, b: nat) => true, (j: Journal, e: Event) => true)
  }

  /** A scored result rests on no decision whose origin, or any date up to its target, is withdrawn. */
  lemma {:induction false} ScoredIsAvailable(j: Journal, packet: Packet, m: nat, visible: set<int>, window: nat, d: nat, date: int)
    requires FirstScore(j, packet, m, visible, window).status == Scored && d in FirstScore(j, packet, m, visible, window).decisions
    ensures d < |j| && DecisionOf(m)(j[d].event) && StandingOf(j, packet, d, visible).Chosen?
    ensures var s := StandingOf(j, packet, d, visible);
      s.last < |packet.rows| && (j[d].event.originDate <= date <= packet.rows[s.last].date ==> !Withdrawn(j, date))
  {
  }

  /** The scoring selects among the model's own decisions only. */
  lemma {:induction false} ScoringAt(j: Journal, packet: Packet, m: nat, at: int, window: nat)
    requires LastWhere(j, DecisionOf(m)).Some? && IsModel(j, m)
    ensures ScoreAt(j, Scoring(window), packet, m, at) == Some(FirstScore(j, packet, m, Visible(packet, at), window))
  {
    var v := FirstScore(j, packet, m, Visible(packet, at), window);
    assert v.decisions == set d | d in v.decisions && d < |j| && DecisionOf(m)(j[d].event);
  }
}
