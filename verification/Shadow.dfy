/**
  The shadow portfolio's append-only journal. An event's identifier is its place: the source's digests chain every
  record to the one before it, so equal identifiers mean the same record. Scoring, the economic gate and
  forecasting are deterministic functions of what they read, and enter as parameters.
*/
module Shadow {
  import opened Outcomes

  datatype PacketRow = PacketRow(date: int, start: int, end: int, availableAt: int, body: int)
  datatype Packet = Packet(rows: seq<PacketRow>, body: int)

  datatype ScoreStatus = Scored | Pending | ScoreUnavailable

  /** `material` stands for the candidate, passive, uncertainty and confirmation-window fields of a score. */
  datatype ScoreValue = ScoreValue(status: ScoreStatus, decisions: set<nat>, outcomeDates: set<int>, revisions: seq<nat>,
                                   windowEnd: Option<int>, lastDate: Option<int>, genuine: bool, material: int, detail: int)

  /** Each status with its reason. */
  datatype CheckpointStatus = MinimumNotMet | SyntheticOnly | LatestUnavailable | RestorationNeedsScore | Qualified | Rejected

  datatype ReferenceStatus = CashPending | CashAfterRetraction | FrozenEconomic

  datatype Event =
    | Input(packet: Packet)
    | Protocol(cadence: nat, body: int)
    | Model(protocol: nat, knownHistoryEnd: int, body: int)
    | ResearchResult(protocol: nat, selected: Option<nat>, body: int)
    | Decision(protocol: nat, model: nat, originDate: int, packet: Packet, decisionAt: int, reference: nat, probability: int)
    | Availability(date: int, available: bool, supersedes: Option<nat>)
    | Score(model: nat, packet: Packet, value: ScoreValue, supersedes: Option<nat>)
    | Checkpoint(model: nat, score: nat, status: CheckpointStatus, comparison: Option<nat>, supersedes: Option<nat>)
    | Reference(promoted: Option<nat>, standing: ReferenceStatus, checkpoint: Option<nat>, supersedes: Option<nat>)
    | OtherEvent(kind: string, body: int)

  datatype Record = Record(event: Event, createdAt: int)
  type Journal = seq<Record>

  datatype Gate = NotEnough | Passes | Fails

  /** The parts of the source that are treated as abstract functions; a score of None is a refusal. */
  datatype Oracles = Oracles(score: (Journal, Packet, nat, set<int>) -> Option<ScoreValue>,
                             gate: (Journal, nat, ScoreValue, Option<nat>) -> Gate,
                             forecast: (nat, Packet) -> int,
                             before: (nat, nat) -> bool,
                             research: (Journal, Event) -> bool)

  // ------------------------------------------------------------ reading the journal

  function LastWhere(j: Journal, p: Event -> bool): (i: Option<nat>)
    ensures i.Some? ==> i.value < |j| && p(j[i.value].event)
  {
    if j == [] then None
    else if p(j[|j| - 1].event) then Some(|j| - 1)
    else LastWhere(j[..|j| - 1], p)
  }

  function FirstWhere(j: Journal, p: Event -> bool): (i: Option<nat>)
    ensures i.Some? ==> i.value < |j| && p(j[i.value].event)
  {
    if j == [] then None
    else
      var before := FirstWhere(j[..|j| - 1], p);
      if before.Some? then before else if p(j[|j| - 1].event) then Some(|j| - 1) else None
  }

  function Is(e: Event): Event -> bool { (x: Event) => x == e }
  function OfDate(date: int): Event -> bool { (e: Event) => e.Availability? && e.date == date }
  function ScoreOf(model: nat): Event -> bool { (e: Event) => e.Score? && e.model == model }
  function CheckpointOf(model: nat): Event -> bool { (e: Event) => e.Checkpoint? && e.model == model }
  function AnyReference(): Event -> bool { (e: Event) => e.Reference? }
  function DecisionOf(model: nat): Event -> bool { (e: Event) => e.Decision? && e.model == model }
  function DecisionAt(model: nat, date: int): Event -> bool { (e: Event) => e.Decision? && e.model == model && e.originDate == date }
  function ResultOf(protocol: nat): Event -> bool { (e: Event) => e.ResearchResult? && e.protocol == protocol }

  predicate IsModel(j: Journal, id: nat) { id < |j| && j[id].event.Model? }
  predicate IsProtocol(j: Journal, id: nat) { id < |j| && j[id].event.Protocol? }

  predicate Has(j: Journal, e: Event) { FirstWhere(j, Is(e)).Some? }

  /** The latest word on a date is that it was withdrawn. */
  predicate Withdrawn(j: Journal, date: int) {
    var last := LastWhere(j, OfDate(date));
    last.Some? && !j[last.value].event.available
  }

  // ----------------------------------------------------------------- appending

  /** One clock reading at the start of an operation, and one at each place where something is scored or appended. */
  datatype Clock = Clock(start: int, scoring: nat -> int, appending: nat -> int)

  /** Where an operation stands: its journal, the identifier that its last append returned, and whether it failed. */
  datatype Step = Step(journal: Journal, id: nat, ok: bool)

  /** An equal event is not written twice; a reading before the last record's is refused. */
  function Append(j: Journal, e: Event, at: int): Step {
    var found := FirstWhere(j, Is(e));
    if found.Some? then Step(j, found.value, true)
    else if j != [] && at < j[|j| - 1].createdAt then Step(j, 0, false)
    else Step(j + [Record(e, at)], |j|, true)
  }

  // --------------------------------------------------------- active reference

  function Active(j: Journal): Option<nat> { LastWhere(j, AnyReference()) }

  function ActiveModel(j: Journal): Option<nat> {
    var active := Active(j);
    if active.None? then None else j[active.value].event.promoted
  }

  predicate SameMaterial(a: ScoreValue, b: ScoreValue) { a.material == b.material && a.genuine == b.genuine }

  predicate MaterialRevision(j: Journal, m: nat) {
    var score, checkpoint := LastWhere(j, ScoreOf(m)), LastWhere(j, CheckpointOf(m));
    && score.Some? && checkpoint.Some?
    && j[checkpoint.value].event.score < |j| && ScoreOf(m)(j[j[checkpoint.value].event.score].event)
    && !SameMaterial(j[score.value].event.value, j[j[checkpoint.value].event.score].event.value)
  }

  predicate RejectedCurrent(j: Journal, m: nat) {
    var score, checkpoint := LastWhere(j, ScoreOf(m)), LastWhere(j, CheckpointOf(m));
    score.Some? && checkpoint.Some? && j[checkpoint.value].event.score == score.value && j[checkpoint.value].event.status != Qualified
  }

  /** The dates a score rests on: those of its decisions' inputs, and those its outcomes are bound to. */
  predicate Relevant(j: Journal, v: ScoreValue, date: int) {
    || date in v.outcomeDates
    || exists d :: 0 <= d < |j| && d in v.decisions && j[d].event.Decision? && Has(j, Input(j[d].event.packet))
                   && exists r :: 0 <= r < |j[d].event.packet.rows| && j[d].event.packet.rows[r].date == date
  }

  ghost predicate Invalid(j: Journal, m: nat) {
    var score := LastWhere(j, ScoreOf(m));
    || score.None?
    || j[score.value].event.value.status != Scored
    || (exists date :: Withdrawn(j, date) && Relevant(j, j[score.value].event.value, date))
    || MaterialRevision(j, m)
    || RejectedCurrent(j, m)
  }

  /** The active reference is cash, or a model that its newest evidence still supports. */
  ghost predicate SoundReference(j: Journal) {
    ActiveModel(j).None? || !Invalid(j, ActiveModel(j).value)
  }

  ghost function Repair(j: Journal, clock: Clock): Step {
    var active := Active(j);
    if active.None? || j[active.value].event.promoted.None? || !Invalid(j, j[active.value].event.promoted.value) then Step(j, 0, true)
    else Append(j, Reference(None, CashAfterRetraction, j[active.value].event.checkpoint, active), clock.appending(|j|))
  }

  // ------------------------------------------------------------- availability

  predicate SortedDates(dates: seq<int>) { forall a, b :: 0 <= a < b < |dates| ==> dates[a] < dates[b] }

  /** One event for a date whose latest word, before the operation, is not already this one. */
  function MarkDate(prior: Journal, j: Journal, date: int, available: bool, clock: Clock): Step {
    var latest := LastWhere(prior, OfDate(date));
    if latest.Some? && prior[latest.value].event.available == available then Step(j, latest.value, true)
    else Append(j, Availability(date, available, latest), clock.appending(|j|))
  }

  function MarkDates(prior: Journal, j: Journal, dates: seq<int>, available: bool, clock: Clock): Step
    decreases |dates|
  {
    if dates == [] then Step(j, 0, true)
    else
      var marked := MarkDate(prior, j, dates[0], available, clock);
      if !marked.ok then marked else MarkDates(prior, marked.journal, dates[1..], available, clock)
  }

  ghost function SetAvailability(j: Journal, dates: seq<int>, available: bool, clock: Clock): Step {
    if !SortedDates(dates) then Step(j, 0, false)
    else
      var marked := MarkDates(j, j, dates, available, clock);
      if !marked.ok then marked else Repair(marked.journal, clock)
  }

  // ------------------------------------------------------------------ scoring

  function Visible(packet: Packet, at: int): set<int> {
    set r | 0 <= r < |packet.rows| && packet.rows[r].availableAt <= at
  }

  /** A score selects among the model's own decisions; without a decision, or a model, there is none. */
  function ScoreAt(j: Journal, o: Oracles, packet: Packet, m: nat, at: int): Option<ScoreValue> {
    if LastWhere(j, DecisionOf(m)).None? || !IsModel(j, m) then None
    else
      var v := o.score(j, packet, m, Visible(packet, at));
      if v.None? then None
      else Some(v.value.(decisions := set d | d in v.value.decisions && d < |j| && DecisionOf(m)(j[d].event)))
  }

  /** One model's turn: its score is recorded unless the last one is the same. */
  function ScoreModel(j: Journal, o: Oracles, packet: Packet, m: nat, clock: Clock): Step {
    var v, latest := ScoreAt(j, o, packet, m, clock.scoring(|j|)), LastWhere(j, ScoreOf(m));
    if v.None? then Step(j, 0, false)
    else if latest.Some? && j[latest.value].event.packet == packet && j[latest.value].event.value == v.value then Step(j, latest.value, true)
    else Append(j, Score(m, packet, v.value, latest), clock.appending(|j|))
  }

  function ScoreModels(j: Journal, o: Oracles, packet: Packet, models: seq<nat>, clock: Clock): Step
    decreases |models|
  {
    if models == [] then Step(j, 0, true)
    else
      var scored := ScoreModel(j, o, packet, models[0], clock);
      if !scored.ok then scored else ScoreModels(scored.journal, o, packet, models[1..], clock)
  }

  const MIN_PERIOD := 240 * 60 * 1_000_000
  const MAX_ROWS := 10000

  /** What packet validation asks of the times of a row. */
  predicate WellTimed(r: PacketRow) { r.start < r.end <= r.availableAt && r.end - r.start >= MIN_PERIOD }

  /** A packet is refused unless its rows are ordered, long enough, and available. */
  predicate Eligible(packet: Packet, at: int) {
    && 1 <= |packet.rows| <= MAX_ROWS
    && (forall r :: 0 <= r < |packet.rows| ==> WellTimed(packet.rows[r]) && packet.rows[r].availableAt <= at)
    && (forall a, b :: 0 <= a < b < |packet.rows| ==>
          packet.rows[a].date < packet.rows[b].date && packet.rows[a].end <= packet.rows[b].start)
  }

  /** `models` lists the models with decisions, in the order of their identifiers. */
  ghost function ScoreLater(j: Journal, o: Oracles, packet: Packet, models: seq<nat>, clock: Clock): Step {
    if !Eligible(packet, clock.start) then Step(j, 0, false)
    else
      var entered := Append(j, Input(packet), clock.appending(|j|));
      if !entered.ok then entered
      else
        var scored := ScoreModels(entered.journal, o, packet, models, clock);
        if !scored.ok then scored else Repair(scored.journal, clock)
  }

  // --------------------------------------------------------------- checkpoint

  function RevisionsUpTo(j: Journal, cutoff: Option<int>): seq<nat> {
    if j == [] then []
    else
      var e := j[|j| - 1].event;
      RevisionsUpTo(j[..|j| - 1], cutoff)
      + if e.Availability? && (cutoff.None? || e.date <= cutoff.value) then [|j| - 1] else []
  }

  function Comparison(j: Journal, m: nat): Option<nat> {
    var first := FirstWhere(j, CheckpointOf(m));
    if first.Some? then j[first.value].event.comparison else Active(j)
  }

  function StatusOf(j: Journal, o: Oracles, m: nat, v: ScoreValue): CheckpointStatus {
    if v.status != Scored then LatestUnavailable
    else if v.revisions != RevisionsUpTo(j, if v.windowEnd.Some? then v.windowEnd else v.lastDate) then RestorationNeedsScore
    else if !v.genuine then SyntheticOnly
    else
      match o.gate(j, m, v, Comparison(j, m))
      case NotEnough => MinimumNotMet
      case Passes => Qualified
      case Fails => Rejected
  }

  /** The checkpoint that the journal calls for: it judges the model's newest score. */
  function CheckpointFor(j: Journal, o: Oracles, m: nat): Event
    requires LastWhere(j, ScoreOf(m)).Some?
  {
    var score := LastWhere(j, ScoreOf(m)).value;
    Checkpoint(m, score, StatusOf(j, o, m, j[score].event.value), Comparison(j, m), LastWhere(j, CheckpointOf(m)))
  }

  predicate SaysTheSame(a: Event, b: Event) {
    a.Checkpoint? && b.Checkpoint? && a.model == b.model && a.score == b.score && a.status == b.status && a.comparison == b.comparison
  }

  /** Recorded unless the previous checkpoint says the same. */
  function RecordCheckpoint(j: Journal, o: Oracles, m: nat, clock: Clock): Step
    requires LastWhere(j, ScoreOf(m)).Some?
  {
    var e, previous := CheckpointFor(j, o, m), LastWhere(j, CheckpointOf(m));
    if previous.Some? && SaysTheSame(j[previous.value].event, e) then Step(j, previous.value, true)
    else Append(j, e, clock.appending(|j|))
  }

  function Promote(j: Journal, m: nat, checkpoint: nat, clock: Clock): Step
    requires checkpoint < |j| && j[checkpoint].event.Checkpoint?
  {
    if j[checkpoint].event.status != Qualified || ActiveModel(j) == Some(m) then Step(j, 0, true)
    else Append(j, Reference(Some(m), FrozenEconomic, Some(checkpoint), Active(j)), clock.appending(|j|))
  }

  lemma {:induction false} RecordedCheckpoint(j: Journal, o: Oracles, m: nat, clock: Clock)
    requires LastWhere(j, ScoreOf(m)).Some? && RecordCheckpoint(j, o, m, clock).ok
    ensures var r := RecordCheckpoint(j, o, m, clock); r.id < |r.journal| && r.journal[r.id].event.Checkpoint?
  {
  }

  ghost function TakeCheckpoint(j: Journal, o: Oracles, m: nat, clock: Clock): Step {
    if LastWhere(j, ScoreOf(m)).None? then Step(j, 0, false)
    else
      var recorded := RecordCheckpoint(j, o, m, clock);
      if !recorded.ok then recorded
      else
        RecordedCheckpoint(j, o, m, clock);
        var promoted := Promote(recorded.journal, m, recorded.id, clock);
        if !promoted.ok then promoted else Repair(promoted.journal, clock)
  }

  // ---------------------------------------------------------------- decisions

  const FOUR_DAYS := 4 * 24 * 60 * 60 * 1_000_000

  function RowOf(rows: seq<PacketRow>, date: int): Option<nat> {
    if rows == [] then None
    else
      var before := RowOf(rows[..|rows| - 1], date);
      if before.Some? then before else if rows[|rows| - 1].date == date then Some(|rows| - 1) else None
  }

  /** The last decision of the model is too recent, or its origin has left the packet. */
  predicate TooSoon(j: Journal, packet: Packet, m: nat, cadence: nat) {
    var previous := LastWhere(j, DecisionOf(m));
    && previous.Some?
    && var row := RowOf(packet.rows, j[previous.value].event.originDate);
       row.None? || |packet.rows| - 1 - row.value < cadence
  }

  datatype Choice = Refuse | Skip | Decide

  /** What the decision loop does about one model. */
  function Choose(j: Journal, packet: Packet, m: nat, at: int): Choice
    requires packet.rows != []
  {
    if !IsModel(j, m) || !IsProtocol(j, j[m].event.protocol) then Refuse
    else
      var latest, own := packet.rows[|packet.rows| - 1], j[m].event;
      if LastWhere(j, DecisionAt(m, latest.date)).Some? || latest.date <= own.knownHistoryEnd
         || TooSoon(j, packet, m, j[own.protocol].event.cadence) then Skip
      else if at < j[m].createdAt || !(0 <= at - latest.end <= FOUR_DAYS) then Refuse
      else Decide
  }

  function DecisionFor(j: Journal, o: Oracles, packet: Packet, m: nat, active: nat, at: int): Event
    requires IsModel(j, m) && packet.rows != []
  {
    Decision(j[m].event.protocol, m, packet.rows[|packet.rows| - 1].date, packet, at, active, o.forecast(m, packet))
  }

  function DecideModels(j: Journal, o: Oracles, packet: Packet, models: seq<nat>, active: nat, clock: Clock): Step
    requires packet.rows != []
    decreases |models|
  {
    if models == [] then Step(j, 0, true)
    else
      match Choose(j, packet, models[0], clock.start)
      case Refuse => Step(j, 0, false)
      case Skip => DecideModels(j, o, packet, models[1..], active, clock)
      case Decide =>
        var appended := Append(j, DecisionFor(j, o, packet, models[0], active, clock.start), clock.appending(|j|));
        if !appended.ok || appended.journal[appended.id].createdAt < clock.start then appended.(ok := false)
        else DecideModels(appended.journal, o, packet, models[1..], active, clock)
  }

  function EnsureReference(j: Journal, clock: Clock): Step {
    if Active(j).Some? then Step(j, 0, true) else Append(j, Reference(None, CashPending, None, None), clock.appending(|j|))
  }

  /** The selected model, and the active one if it is another, in the order of their digests. */
  function Deciders(o: Oracles, selected: nat, active: Option<nat>): seq<nat> {
    if active.None? || active.value == selected then [selected]
    else if o.before(active.value, selected) then [active.value, selected]
    else [selected, active.value]
  }

  ghost function RecordDecisions(j: Journal, o: Oracles, packet: Packet, protocol: nat, clock: Clock): Step {
    var result := LastWhere(j, ResultOf(protocol));
    if !Eligible(packet, clock.start) || !IsProtocol(j, protocol) || result.None? then Step(j, 0, false)
    else
      var entered := Append(j, Input(packet), clock.appending(|j|));
      if !entered.ok then entered
      else
        var referenced := EnsureReference(entered.journal, clock);
        if !referenced.ok then referenced
        else
          var repaired := Repair(referenced.journal, clock);
          if !repaired.ok || j[result.value].event.selected.None? || Active(repaired.journal).None? then repaired
          else
            DecideModels(repaired.journal, o, packet, Deciders(o, j[result.value].event.selected.value, ActiveModel(repaired.journal)),
                         Active(repaired.journal).value, clock)
  }
}
