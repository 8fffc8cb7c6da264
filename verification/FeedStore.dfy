/**
  The versioned store of retrieved market observations. A version is its own name (the source names it by its
  digest), and the row list of a version is a map from its dates, which are distinct and sorted.
*/
module FeedStores {
  import opened Outcomes
  import opened Calendar

  const COMPLETION := 26 * 60 * 60 * 1_000_000

  const MAX_ROWS := 100000

  /** A row of finite numbers; what is absent is null. */
  datatype Row = Row(date: int, timestamp: int, open: Option<real>, high: Option<real>, low: Option<real>, close: Option<real>,
                     volume: Option<real>)
  datatype Request = Request(rows: seq<Row>, interpretation: int, retention: int, at: int)
  datatype Version = Version(rows: map<int, Row>, interpretation: int, retention: int, unresolved: set<int>)
  datatype Retrieval = Retrieval(request: Request, version: Version, added: nat, revised: set<int>, missing: set<int>,
                                 restored: set<int>, kept: nat)

  datatype Error = InvalidObservations | UnfinishedObservation | NoObservations | InterpretationChanged | ClockReversed | IdentityConflict

  predicate Above(x: Option<real>, y: Option<real>) { x.Some? && y.Some? ==> x.value >= y.value }

  predicate Price(x: Option<real>) { x.Some? ==> x.value > 0.0 }

  /** A close is there, prices are positive and within the range of the row. */
  predicate ValidPrices(r: Row) {
    && r.close.Some? && Price(r.open) && Price(r.high) && Price(r.low) && Price(r.close)
    && (r.volume.Some? ==> r.volume.value >= 0.0)
    && Above(r.high, r.low) && Above(r.high, r.open) && Above(r.high, r.close) && Above(r.open, r.low) && Above(r.close, r.low)
  }

  predicate ValidRows(rows: seq<Row>) {
    && |rows| <= MAX_ROWS
    && (forall i :: 0 <= i < |rows| ==> rows[i].date == DayOf(rows[i].timestamp) && ValidPrices(rows[i]))
    && (forall a, b :: 0 <= a < b < |rows| ==> rows[a].date < rows[b].date)
  }

  predicate Completed(rows: seq<Row>, at: int) { forall i :: 0 <= i < |rows| ==> at - rows[i].timestamp >= COMPLETION }

  predicate Covers(rows: seq<Row>, date: int) { rows != [] && rows[0].date <= date <= rows[|rows| - 1].date }

  /** The dictionary of the new rows. */
  function ByDate(rows: seq<Row>): map<int, Row> {
    if rows == [] then map[] else ByDate(rows[..|rows| - 1])[rows[|rows| - 1].date := rows[|rows| - 1]]
  }

  // -------------------------------------------------------------- one merge

  function Changed(stored: map<int, Row>, latest: map<int, Row>): set<int> {
    set d | d in latest && d in stored && latest[d] != stored[d]
  }

  function Same(stored: map<int, Row>, latest: map<int, Row>): set<int> {
    set d | d in latest && d in stored && latest[d] == stored[d]
  }

  function Merge(stored: map<int, Row>, unresolved: set<int>, request: Request): Retrieval {
    var latest := ByDate(request.rows);
    var missing := set d | d in stored && Covers(request.rows, d) && d !in latest;
    Retrieval(request,
              Version(stored + latest, request.interpretation, request.retention, (unresolved + missing) - latest.Keys),
              |latest.Keys - stored.Keys|,
              Changed(stored, latest),
              missing,
              unresolved * latest.Keys,
              |Same(stored, latest)|)
  }

  datatype State = State(retrievals: seq<Retrieval>, versions: set<Version>)

  function OldRows(s: State): map<int, Row> { if s.retrievals == [] then map[] else s.retrievals[|s.retrievals| - 1].version.rows }
  function OldUnresolved(s: State): set<int> { if s.retrievals == [] then {} else s.retrievals[|s.retrievals| - 1].version.unresolved }

  /** What refuses a request, in the order of the source. */
  function Refusal(s: State, r: Request): Option<Error> {
    if !ValidRows(r.rows) then Some(InvalidObservations)
    else if !Completed(r.rows, r.at) then Some(UnfinishedObservation)
    else if r.rows == [] then Some(NoObservations)
    else if s.retrievals == [] then None
    else
      var last := s.retrievals[|s.retrievals| - 1];
      if last.version.interpretation != r.interpretation then Some(InterpretationChanged)
      else if last.request.at > r.at then Some(ClockReversed)
      else if last.request.at == r.at && last.request != r then Some(IdentityConflict)
      else None
  }

  /** The same request at the same instant is answered from the record. */
  predicate Replayed(s: State, r: Request) {
    s.retrievals != [] && s.retrievals[|s.retrievals| - 1].request.at == r.at
  }

  function Persisted(s: State, r: Request): State {
    if Refusal(s, r).Some? || Replayed(s, r) then s
    else
      var merged := Merge(OldRows(s), OldUnresolved(s), r);
      State(s.retrievals + [merged], s.versions + {merged.version})
  }

  class FeedStore {
    var retrievals: seq<Retrieval>
    var versions: set<Version>

    function Value(): State
      reads this
    {
      State(retrievals, versions)
    }

    constructor ()
      ensures Value() == State([], {})
    {
      retrievals := [];
      versions := {};
    }

    /** The first of the two writes; a crash after it leaves an unreferenced version. */
    method PublishVersion(version: Version)
      modifies this
      ensures Value() == State(old(retrievals), old(versions) + {version})
    {
      versions := versions + {version};
    }

    method CheckRequest(r: Request) returns (refusal: Option<Error>)
      ensures refusal == Refusal(Value(), r)
    {
      var rowsOk := ValidateRows(r.rows);
      if !rowsOk { return Some(InvalidObservations); }
      if !Completed(r.rows, r.at) { return Some(UnfinishedObservation); }
      if r.rows == [] { return Some(NoObservations); }
      if retrievals != [] {
        var last := retrievals[|retrievals| - 1];
        if last.version.interpretation != r.interpretation { return Some(InterpretationChanged); }
        if last.request.at > r.at { return Some(ClockReversed); }
        if last.request.at == r.at && last.request != r { return Some(IdentityConflict); }
      }
      return None;
    }

    method PersistVersion(r: Request) returns (answer: Result<Retrieval, Error>)
      modifies this
      ensures Value() == Persisted(old(Value()), r)
      ensures answer.Err? <==> Refusal(old(Value()), r).Some?
      ensures answer.Err? ==> Refusal(old(Value()), r) == Some(answer.error)
      ensures answer.Ok? ==> retrievals != [] && answer.value == retrievals[|retrievals| - 1]
    {
      var refusal := CheckRequest(r);
      if refusal.Some? { return Err(refusal.value); }
      if Replayed(Value(), r) { return Ok(retrievals[|retrievals| - 1]); }
      var merged := Merge(OldRows(Value()), OldUnresolved(Value()), r);
      PublishVersion(merged.version);
      retrievals := retrievals + [merged];
      return Ok(merged);
    }
  }

  /** The checks of one row's numbers, field by field and then against its range. */
  method ValidatePrices(row: Row) returns (ok: bool)
    ensures ok <==> ValidPrices(row)
  {
    var fields := [row.open, row.high, row.low, row.close];
    for f := 0 to |fields|
      invariant forall g :: 0 <= g < f ==> Price(fields[g])
    {
      if fields[f].Some? && fields[f].value <= 0.0 { return false; }
    }
    assert Price(fields[0]) && Price(fields[1]) && Price(fields[2]) && Price(fields[3]);
    if row.close.None? { return false; }
    if row.volume.Some? && row.volume.value < 0.0 { return false; }
    if row.low.Some? && row.high.Some? && row.low.value > row.high.value { return false; }
    var inner := [row.open, row.close];
    for f := 0 to |inner|
      invariant forall g :: 0 <= g < f ==> Above(inner[g], row.low) && Above(row.high, inner[g])
    {
      if inner[f].Some? && ((row.low.Some? && inner[f].value < row.low.value) || (row.high.Some? && inner[f].value > row.high.value)) {
        return false;
      }
    }
    assert Above(inner[0], row.low) && Above(row.high, inner[0]) && Above(inner[1], row.low) && Above(row.high, inner[1]);
    return true;
  }

  method ValidateRows(rows: seq<Row>) returns (ok: bool)
    ensures ok <==> ValidRows(rows)
  {
    if |rows| > MAX_ROWS { return false; }
    var previous := None;
    for i := 0 to |rows|
      invariant previous == if i == 0 then None else Some(rows[i - 1].date)
      invariant forall j :: 0 <= j < i ==> rows[j].date == DayOf(rows[j].timestamp) && ValidPrices(rows[j])
      invariant forall a, b :: 0 <= a < b < i ==> rows[a].date < rows[b].date
    {
      if rows[i].date != DayOf(rows[i].timestamp) || (previous.Some? && rows[i].date <= previous.value) { return false; }
      previous := Some(rows[i].date);
      var ok := ValidatePrices(rows[i]);
      if !ok { return false; }
    }
    return true;
  }

  // ---------------------------------------------------------- the history

  /** The row of a date in the latest of the requests that contains it. */
  function LatestRow(history: seq<Request>, date: int): Option<Row> {
    if history == [] then None
    else
      var rows := ByDate(history[|history| - 1].rows);
      if date in rows then Some(rows[date]) else LatestRow(history[..|history| - 1], date)
  }

  /** The latest request since a date was first seen whose range covers it left it out. */
  predicate LeftOut(history: seq<Request>, date: int) {
    && history != []
    && var rows, before := history[|history| - 1].rows, history[..|history| - 1];
       if Covers(rows, date) then date !in ByDate(rows) && LatestRow(before, date).Some? else LeftOut(before, date)
  }

  /** A version says exactly what the whole history says. */
  ghost predicate TellsHistory(v: Version, history: seq<Request>) {
    && (forall d :: (d in v.rows <==> LatestRow(history, d).Some?) && (d in v.rows ==> LatestRow(history, d) == Some(v.rows[d])))
    && (forall d :: d in v.unresolved <==> LeftOut(history, d))
  }

  lemma {:induction false} ByDateFinds(rows: seq<Row>, date: int)
    ensures date in ByDate(rows) <==> exists i :: 0 <= i < |rows| && rows[i].date == date
    ensures date in ByDate(rows) ==> ByDate(rows)[date].date == date && ByDate(rows)[date] in rows
  {
    if rows != [] {
      var front, last := rows[..|rows| - 1], rows[|rows| - 1];
      ByDateFinds(front, date);
      assert forall i :: 0 <= i < |front| ==> front[i] == rows[i];
    }
  }

  lemma {:induction false} ContainedIsCovered(rows: seq<Row>, date: int)
    requires ValidRows(rows) && date in ByDate(rows)
    ensures Covers(rows, date)
  {
    ByDateFinds(rows, date);
  }

  lemma {:induction false} LeftOutWasSeen(history: seq<Request>, date: int)
    requires LeftOut(history, date)
    ensures LatestRow(history, date).Some?
  {
    var rows, before := history[|history| - 1].rows, history[..|history| - 1];
    if !Covers(rows, date) { LeftOutWasSeen(before, date); }
  }

  lemma {:induction false} MergeTellsHistory(v: Version, history: seq<Request>, r: Request)
    requires TellsHistory(v, history) && ValidRows(r.rows)
    ensures TellsHistory(Merge(v.rows, v.unresolved, r).version, history + [r])
  {
    var n, h := Merge(v.rows, v.unresolved, r).version, history + [r];
    assert h[..|history|] == history;
    forall d ensures d in n.unresolved <==> LeftOut(h, d) {
      if LeftOut(history, d) { LeftOutWasSeen(history, d); }
      if d in ByDate(r.rows) { ContainedIsCovered(r.rows, d); }
    }
  }

  lemma {:induction false} FirstTellsHistory(r: Request)
    requires ValidRows(r.rows)
    ensures TellsHistory(Merge(map[], {}, r).version, [r])
  {
    assert TellsHistory(Version(map[], r.interpretation, r.retention, {}), []);
    MergeTellsHistory(Version(map[], r.interpretation, r.retention, {}), [], r);
    assert [] + [r] == [r];
  }

  function History(retrievals: seq<Retrieval>): seq<Request> {
    if retrievals == [] then [] else History(retrievals[..|retrievals| - 1]) + [retrievals[|retrievals| - 1].request]
  }

  /** A retrieval whose version is stored and tells the history up to it. */
  ghost predicate Sound(s: State, i: nat)
    requires i < |s.retrievals|
  {
    && s.retrievals[i].version in s.versions && ValidRows(s.retrievals[i].request.rows)
    && s.retrievals[i].version.interpretation == s.retrievals[i].request.interpretation
    && TellsHistory(s.retrievals[i].version, History(s.retrievals[..i + 1]))
  }

  /** What holds of the store after any sequence of requests and crashes. */
  ghost predicate Reliable(s: State) {
    && (forall i :: 0 <= i < |s.retrievals| ==> Sound(s, i))
    && (forall a, b :: 0 <= a < b < |s.retrievals| ==> s.retrievals[a].request.at < s.retrievals[b].request.at)
  }

  lemma {:induction false} HistorySnoc(retrievals: seq<Retrieval>, r: Retrieval)
    ensures History(retrievals + [r]) == History(retrievals) + [r.request]
  {
    assert (retrievals + [r])[..|retrievals|] == retrievals;
  }

  /** The last version tells the whole history. */
  lemma {:induction false} LastTells(s: State) returns (v: Version)
    requires Reliable(s) && s.retrievals != []
    ensures v.rows == OldRows(s) && v.unresolved == OldUnresolved(s) && TellsHistory(v, History(s.retrievals))
  {
    var n := |s.retrievals|;
    assert Sound(s, n - 1) && s.retrievals[..n] == s.retrievals;
    v := s.retrievals[n - 1].version;
  }

  lemma {:induction false} PersistTells(s: State, r: Request)
    requires Reliable(s) && ValidRows(r.rows)
    ensures TellsHistory(Merge(OldRows(s), OldUnresolved(s), r).version, History(s.retrievals) + [r])
  {
    if s.retrievals == [] {
      FirstTellsHistory(r);
      assert [] + [r] == [r];
    } else {
      var v := LastTells(s);
      MergeTellsHistory(v, History(s.retrievals), r);
    }
  }

  lemma {:induction false} SoundStays(s: State, m: Retrieval, i: nat)
    requires i < |s.retrievals| && Sound(s, i)
    ensures Sound(State(s.retrievals + [m], s.versions + {m.version}), i)
  {
    assert (s.retrievals + [m])[..i + 1] == s.retrievals[..i + 1];
  }

  lemma {:induction false} NewIsSound(s: State, m: Retrieval)
    requires ValidRows(m.request.rows) && TellsHistory(m.version, History(s.retrievals) + [m.request])
    requires m.version.interpretation == m.request.interpretation
    ensures Sound(State(s.retrievals + [m], s.versions + {m.version}), |s.retrievals|)
  {
    HistorySnoc(s.retrievals, m);
    assert (s.retrievals + [m])[..|s.retrievals| + 1] == s.retrievals + [m];
  }

  lemma {:induction false} SnocIsReliable(s: State, m: Retrieval)
    requires Reliable(s) && ValidRows(m.request.rows) && TellsHistory(m.version, History(s.retrievals) + [m.request])
    requires m.version.interpretation == m.request.interpretation
    requires forall i :: 0 <= i < |s.retrievals| ==> s.retrievals[i].request.at < m.request.at
    ensures Reliable(State(s.retrievals + [m], s.versions + {m.version}))
  {
    var n := State(s.retrievals + [m], s.versions + {m.version});
    forall i | 0 <= i < |n.retrievals| ensures Sound(n, i) {
      if i < |s.retrievals| { SoundStays(s, m, i); } else { NewIsSound(s, m); }
    }
  }

  lemma {:induction false} LaterThanAll(s: State, r: Request)
    requires Reliable(s) && Refusal(s, r).None? && !Replayed(s, r)
    ensures forall i :: 0 <= i < |s.retrievals| ==> s.retrievals[i].request.at < r.at
  {
    if s.retrievals != [] {
      var last := s.retrievals[|s.retrievals| - 1].request.at;
      assert last < r.at;
      assert forall i :: 0 <= i < |s.retrievals| - 1 ==> s.retrievals[i].request.at < last;
    }
  }

  /** One request keeps every earlier retrieval and version, and the newest version tells the whole history. */
  lemma {:induction false} PersistKeepsReliable(s: State, r: Request)
    requires Reliable(s)
    ensures Reliable(Persisted(s, r)) && s.versions <= Persisted(s, r).versions
    ensures |s.retrievals| <= |Persisted(s, r).retrievals| && Persisted(s, r).retrievals[..|s.retrievals|] == s.retrievals
    ensures History(Persisted(s, r).retrievals)
         == if Refusal(s, r).Some? || Replayed(s, r) then History(s.retrievals) else History(s.retrievals) + [r]
  {
    if Refusal(s, r).None? && !Replayed(s, r) {
      var m := Merge(OldRows(s), OldUnresolved(s), r);
      PersistTells(s, r);
      LaterThanAll(s, r);
      SnocIsReliable(s, m);
      HistorySnoc(s.retrievals, m);
    }
  }

  /** A call that may stop between its two writes. */
  datatype Call = Call(request: Request, crashed: bool)

  function AfterCall(s: State, c: Call): State {
    if !c.crashed then Persisted(s, c.request)
    else if Refusal(s, c.request).Some? || Replayed(s, c.request) then s
    else s.(versions := s.versions + {Merge(OldRows(s), OldUnresolved(s), c.request).version})
  }

  function AfterCalls(s: State, calls: seq<Call>): State
    decreases |calls|
  {
    if calls == [] then s else AfterCalls(AfterCall(s, calls[0]), calls[1..])
  }

  lemma {:induction false} OrphanIsHarmless(s: State, v: Version)
    requires Reliable(s)
    ensures Reliable(s.(versions := s.versions + {v}))
  {
    forall i | 0 <= i < |s.retrievals| ensures Sound(s.(versions := s.versions + {v}), i) {
      assert Sound(s, i);
    }
  }

  /** A request that a store takes after its last one: valid, finished, not empty, of the same meaning, and later. */
  predicate Acceptable(last: Option<Request>, r: Request) {
    && ValidRows(r.rows) && Completed(r.rows, r.at) && r.rows != []
    && (last.Some? ==> last.value.interpretation == r.interpretation && last.value.at < r.at)
  }

  /** The requests of a run that are taken, in order; one whose call crashed is not. */
  function Accepted(last: Option<Request>, calls: seq<Call>): seq<Request>
    decreases |calls|
  {
    if calls == [] then []
    else
      var taken := Taken(last, calls[0]);
      taken + Accepted(if taken == [] then last else Some(calls[0].request), calls[1..])
  }

  function Taken(last: Option<Request>, c: Call): seq<Request> {
    if !c.crashed && Acceptable(last, c.request) then [c.request] else []
  }

  function LastRequest(s: State): Option<Request> {
    if s.retrievals == [] then None else Some(s.retrievals[|s.retrievals| - 1].request)
  }

  lemma {:induction false} AcceptableIsNew(s: State, r: Request)
    requires Reliable(s)
    ensures Acceptable(LastRequest(s), r) <==> Refusal(s, r).None? && !Replayed(s, r)
  {
    if s.retrievals != [] { assert Sound(s, |s.retrievals| - 1); }
  }

  lemma {:induction false} PersistedIs(s: State, r: Request)
    requires Refusal(s, r).None? && !Replayed(s, r)
    ensures |Persisted(s, r).retrievals| == |s.retrievals| + 1 && Persisted(s, r).retrievals[|s.retrievals|].request == r
  {
  }

  lemma {:induction false} TakenCall(s: State, r: Request)
    requires Reliable(s) && Acceptable(LastRequest(s), r)
    ensures var n := AfterCall(s, Call(r, false));
      Reliable(n) && LastRequest(n) == Some(r) && History(n.retrievals) == History(s.retrievals) + [r]
  {
    AcceptableIsNew(s, r);
    PersistKeepsReliable(s, r);
    PersistedIs(s, r);
  }

  lemma {:induction false} OtherCall(s: State, c: Call)
    requires Reliable(s) && (c.crashed || !Acceptable(LastRequest(s), c.request))
    ensures Reliable(AfterCall(s, c)) && AfterCall(s, c).retrievals == s.retrievals
  {
    AcceptableIsNew(s, c.request);
    OrphanIsHarmless(s, Merge(OldRows(s), OldUnresolved(s), c.request).version);
  }

  /** One call of a run: the store stays reliable, and its history grows by the request if that is taken. */
  lemma {:induction false} CallTellsHistory(s: State, c: Call)
    requires Reliable(s)
    ensures var n, taken := AfterCall(s, c), Taken(LastRequest(s), c);
      && Reliable(n) && LastRequest(n) == (if taken == [] then LastRequest(s) else Some(c.request))
      && History(n.retrievals) == History(s.retrievals) + taken
  {
    if !c.crashed && Acceptable(LastRequest(s), c.request) {
      TakenCall(s, c.request);
      assert c == Call(c.request, false);
    } else {
      OtherCall(s, c);
    }
  }

  lemma {:induction false} NextTells(s: State, calls: seq<Call>) returns (n: State)
    requires Reliable(s) && calls != []
    ensures Reliable(n) && AfterCalls(s, calls) == AfterCalls(n, calls[1..])
    ensures History(n.retrievals) == History(s.retrievals) + Taken(LastRequest(s), calls[0])
    ensures Accepted(LastRequest(s), calls) == Taken(LastRequest(s), calls[0]) + Accepted(LastRequest(n), calls[1..])
  {
    CallTellsHistory(s, calls[0]);
    n := AfterCall(s, calls[0]);
  }

  lemma {:induction false} Regroup<T>(a: seq<T>, b: seq<T>, c: seq<T>)
    ensures (a + b) + c == a + (b + c)
  {
  }

  /**
    The stored version is a simple function of everything that was ever retrieved, whatever crashed in between: the
    history that it tells is the history of the store and then the taken requests of the run, in order.
  */
  lemma {:induction false} StoreTellsHistory(s: State, calls: seq<Call>)
    requires Reliable(s)
    ensures Reliable(AfterCalls(s, calls))
    ensures History(AfterCalls(s, calls).retrievals) == History(s.retrievals) + Accepted(LastRequest(s), calls)
    decreases |calls|
  {
    if calls != [] {
      var n := NextTells(s, calls);
      StoreTellsHistory(n, calls[1..]);
      Regroup(History(s.retrievals), Taken(LastRequest(s), calls[0]), Accepted(LastRequest(n), calls[1..]));
    }
  }

  // ------------------------------------------------------------- the counts

  lemma {:induction false} KeysOfValidRows(rows: seq<Row>)
    requires ValidRows(rows)
    ensures |ByDate(rows)| == |rows|
  {
    if rows != [] {
      var front, last := rows[..|rows| - 1], rows[|rows| - 1];
      KeysOfValidRows(front);
      ByDateFinds(front, last.date);
      assert last.date !in ByDate(front);
      assert ByDate(rows).Keys == ByDate(front).Keys + {last.date};
      assert |ByDate(rows).Keys| == |ByDate(rows)| && |ByDate(front).Keys| == |ByDate(front)|;
    }
  }

  /** Each new row is counted once: as added, revised or kept. */
  lemma {:induction false} CountsAddUp(stored: map<int, Row>, unresolved: set<int>, r: Request)
    requires ValidRows(r.rows)
    ensures var m := Merge(stored, unresolved, r); m.added + |m.revised| + m.kept == |r.rows|
  {
    KeysOfValidRows(r.rows);
    SplitKeys(stored, ByDate(r.rows));
  }

  lemma {:induction false} KeysInParts(stored: map<int, Row>, latest: map<int, Row>)
    ensures Changed(stored, latest) + Same(stored, latest) == latest.Keys * stored.Keys
    ensures Changed(stored, latest) !! Same(stored, latest)
  {
  }

  lemma {:induction false} TwoParts(whole: set<int>, other: set<int>)
    ensures |whole| == |whole - other| + |whole * other|
  {
    assert whole == (whole - other) + (whole * other);
  }

  lemma {:induction false} SplitKeys(stored: map<int, Row>, latest: map<int, Row>)
    ensures |latest| == |latest.Keys - stored.Keys| + |Changed(stored, latest)| + |Same(stored, latest)|
  {
    var changed, same := Changed(stored, latest), Same(stored, latest);
    KeysInParts(stored, latest);
    TwoParts(latest.Keys, stored.Keys);
    assert |changed + same| == |changed| + |same|;
    assert |latest.Keys| == |latest|;
  }
}
