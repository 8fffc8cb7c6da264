/**
  Any number of offline runners, other users of the lease store and other
  writers of the ledger, interleaved at every lock boundary. A runner can die
  or see an exception at each step, also between its ledger append and the
  write that persists the completion marker.
*/
module ExactlyOnce {
  import opened Outcomes
  import opened Leases
  import opened Ledgers
  import LeaseRuns

  const LEASE_TTL_SECONDS := 300

  datatype Job = Job(holder: string, key: string, record: Record)

  /** Where a run stands; the lease lock is held from Reading to Committing. */
  datatype Phase =
    | Starting | Acquiring | Confirming
    | Building(fence: int) | Entering(fence: int)
    | Reading(fence: int, enteredAt: Instant)
    | Appending(fence: int, enteredAt: Instant)
    | Committing(fence: int, enteredAt: Instant)
    | Releasing(fence: int)
    | Done(completed: bool) | Crashed

  datatype Worker = Worker(job: Job, phase: Phase)

  /** A record a runner put into the ledger, with the key it ran under. */
  datatype Effected = Effected(key: string, record: Record)

  datatype System = System(
    store: State,
    ledger: Content,
    locked: Option<nat>,
    workers: seq<Worker>,
    appends: seq<Effected>,        // history: every line a runner added
    marked: map<string, Record>)   // history: the record whose run persisted a key's marker

  datatype CommitFault = NoFault | BeforeReplace | AfterReplace

  datatype Event =
    | Spawn(job: Job)
    | Initialize(w: nat, now: Instant)
    | AcquireLease(w: nat, now: Instant, writable: bool)
    | Confirm(w: nat)
    | Build(w: nat, succeeds: bool)
    | Enter(w: nat, now: Instant)
    | ReadLedger(w: nat)
    | AppendLedger(w: nat, fault: Option<Torn>)
    | Commit(w: nat, completedAt: Instant, commitFault: CommitFault)
    | ReleaseLease(w: nat, now: Instant, writable: bool)
    | Crash(w: nat)
    | OtherLeaseCall(call: Call)
    | OtherAppend(record: Record, fault: Option<Torn>)

  predicate InCallback(p: Phase) { p.Reading? || p.Appending? || p.Committing? }

  function CredentialOf(sys: System, job: Job, fence: int): Credential {
    Credential(job.holder, job.key, sys.store.epoch, fence)
  }

  function Move(sys: System, w: nat, phase: Phase): System
    requires w < |sys.workers|
  {
    sys.(workers := sys.workers[w := sys.workers[w].(phase := phase)])
  }

  /** The worker leaves the callback and the lock is dropped. */
  function Leave(sys: System, w: nat, phase: Phase): System
    requires w < |sys.workers|
  {
    Move(sys, w, phase).(locked := None)
  }

  predicate AddsLine(before: Content, r: Record, fault: Option<Torn>) {
    Extended(before, r, fault).file != before && before.terminated
    && fault != Some(NothingWritten) && fault != Some(Fragment)
  }

  function StepInitialize(sys: System, w: nat, now: Instant): System
    requires w < |sys.workers|
  {
    Move(sys, w, if now < sys.store.lastMutationAt then Done(false) else Acquiring)
  }

  function StepAcquire(sys: System, w: nat, now: Instant, writable: bool): System
    requires w < |sys.workers|
  {
    var job := sys.workers[w].job;
    var o := Step(sys.store, Call(OpAcquire(job.holder, job.key, LEASE_TTL_SECONDS), now, writable));
    var phase := match o.reply
      case Ok(Acquired(fence, _)) => Building(fence)
      case Ok(AlreadyCompleted(_)) => Confirming
      case _ => Done(false);
    Move(sys, w, phase).(store := o.state)
  }

  function StepEnter(sys: System, w: nat, now: Instant): System
    requires w < |sys.workers| && sys.workers[w].phase.Entering?
  {
    var fence := sys.workers[w].phase.fence;
    match EnterFenced(sys.store, CredentialOf(sys, sys.workers[w].job, fence), now)
    case Ok(Authorized) => Move(sys, w, Reading(fence, now)).(locked := Some(w))
    case Ok(AlreadyCompleted(byCaller)) => Move(sys, w, Done(byCaller))
    case Ok(_) => Move(sys, w, Done(false))
    case Err(_) => Move(sys, w, Releasing(fence))
  }

  function StepRead(sys: System, w: nat): System
    requires w < |sys.workers| && sys.workers[w].phase.Reading?
  {
    var Reading(fence, enteredAt) := sys.workers[w].phase;
    if sys.ledger.present && !Clean(sys.ledger) then Leave(sys, w, Releasing(fence))
    else if sys.ledger.present && Holds(sys.ledger, sys.workers[w].job.record) then
      Move(sys, w, Committing(fence, enteredAt))
    else Move(sys, w, Appending(fence, enteredAt))
  }

  function StepAppend(sys: System, w: nat, fault: Option<Torn>): System
    requires w < |sys.workers| && sys.workers[w].phase.Appending?
  {
    var Appending(fence, enteredAt) := sys.workers[w].phase;
    var job := sys.workers[w].job;
    var effect := Extended(sys.ledger, job.record, fault);
    var next := sys.(ledger := effect.file,
                     appends := sys.appends + if AddsLine(sys.ledger, job.record, fault)
                                              then [Effected(job.key, job.record)] else []);
    if effect.reply.Ok? then Move(next, w, Committing(fence, enteredAt)) else Leave(next, w, Releasing(fence))
  }

  function StepCommit(sys: System, w: nat, completedAt: Instant, fault: CommitFault): System
    requires w < |sys.workers| && sys.workers[w].phase.Committing?
  {
    var Committing(fence, enteredAt) := sys.workers[w].phase;
    var job := sys.workers[w].job;
    var o := CommitFenced(sys.store, CredentialOf(sys, job, fence), enteredAt, completedAt);
    if o.reply.Err? || fault == BeforeReplace then Leave(sys, w, Releasing(fence))
    else
      var next := sys.(store := o.state, marked := sys.marked[job.key := job.record]);
      Leave(next, w, if fault == AfterReplace then Releasing(fence) else Done(true))
  }

  function StepRelease(sys: System, w: nat, now: Instant, writable: bool): System
    requires w < |sys.workers| && sys.workers[w].phase.Releasing?
  {
    var cred := CredentialOf(sys, sys.workers[w].job, sys.workers[w].phase.fence);
    Move(sys, w, Done(false)).(store := Step(sys.store, Call(OpRelease(cred), now, writable)).state)
  }

  /** Who may take this step now: the right phase, and the lease lock where the step needs it. */
  predicate Enabled(sys: System, e: Event) {
    match e
    case Spawn(_) => true
    case OtherAppend(_, _) => true
    case OtherLeaseCall(_) => sys.locked.None?
    case Initialize(w, _) => w < |sys.workers| && sys.workers[w].phase.Starting? && sys.locked.None?
    case AcquireLease(w, _, _) => w < |sys.workers| && sys.workers[w].phase.Acquiring? && sys.locked.None?
    case Confirm(w) => w < |sys.workers| && sys.workers[w].phase.Confirming?
    case Build(w, _) => w < |sys.workers| && sys.workers[w].phase.Building?
    case Enter(w, _) => w < |sys.workers| && sys.workers[w].phase.Entering? && sys.locked.None?
    case ReadLedger(w) => w < |sys.workers| && sys.workers[w].phase.Reading?
    case AppendLedger(w, _) => w < |sys.workers| && sys.workers[w].phase.Appending?
    case Commit(w, _, _) => w < |sys.workers| && sys.workers[w].phase.Committing?
    case ReleaseLease(w, _, _) => w < |sys.workers| && sys.workers[w].phase.Releasing? && sys.locked.None?
    case Crash(w) => w < |sys.workers|
  }

  /** One step of the whole system; an event that is not enabled does not happen. */
  function Next(sys: System, e: Event): System {
    if !Enabled(sys, e) then sys
    else
      match e
      case Spawn(job) => sys.(workers := sys.workers + [Worker(job, Starting)])
      case Initialize(w, now) => StepInitialize(sys, w, now)
      case AcquireLease(w, now, writable) => StepAcquire(sys, w, now, writable)
      case Confirm(w) => Move(sys, w, Done(Existing(sys.ledger, sys.workers[w].job.record).Ok?))
      case Build(w, succeeds) =>
        Move(sys, w, if succeeds then Entering(sys.workers[w].phase.fence) else Releasing(sys.workers[w].phase.fence))
      case Enter(w, now) => StepEnter(sys, w, now)
      case ReadLedger(w) => StepRead(sys, w)
      case AppendLedger(w, fault) => StepAppend(sys, w, fault)
      case Commit(w, completedAt, fault) => StepCommit(sys, w, completedAt, fault)
      case ReleaseLease(w, now, writable) => StepRelease(sys, w, now, writable)
      case Crash(w) => if sys.locked == Some(w) then Leave(sys, w, Crashed) else Move(sys, w, Crashed)
      case OtherLeaseCall(call) => sys.(store := Step(sys.store, call).state)
      case OtherAppend(record, fault) => sys.(ledger := Extended(sys.ledger, record, fault).file)
  }

  function Run(sys: System, events: seq<Event>): System
    decreases |events|
  {
    if events == [] then sys else Run(Next(sys, events[0]), events[1..])
  }

  function Start(epoch: nat, now: Instant): System {
    System(Initial(epoch, now), Content(false, [], true), None, [], [], map[])
  }

  // --------------------------------------------------------------- invariant

  /** The run inside the callback holds the current lease of a key with no marker. */
  predicate Fenced(sys: System, worker: Worker) {
    InCallback(worker.phase) ==>
      && sys.store.lease.Some?
      && sys.store.lease.value.holder == worker.job.holder
      && sys.store.lease.value.key == worker.job.key
      && sys.store.lease.value.fence == worker.phase.fence
      && !sys.store.killSwitch.engaged
      && !IsCompleted(sys.store.completions, worker.job.key)
      && worker.phase.enteredAt < sys.store.lease.value.expiresAt
  }

  predicate SafeStore(sys: System) {
    && Inv(sys.store)
    && (forall w :: 0 <= w < |sys.workers| ==> (InCallback(sys.workers[w].phase) <==> sys.locked == Some(w)))
    && (forall w :: 0 <= w < |sys.workers| ==> Fenced(sys, sys.workers[w]))
    && (sys.locked.Some? ==> sys.locked.value < |sys.workers|)
  }

  /** Identities are unique, and while the ledger is clean it still holds every line a runner added. */
  predicate SafeLedger(sys: System) {
    && Sound(sys.ledger)
    && (Clean(sys.ledger) ==> forall i :: 0 <= i < |sys.appends| ==> Holds(sys.ledger, sys.appends[i].record))
    && (forall i, j :: 0 <= i < j < |sys.appends| ==> !SharesIdentity(sys.appends[i].record, sys.appends[j].record))
  }

  lemma {:induction false} NobodyInsideIsSafe(sys: System)
    requires Inv(sys.store) && sys.locked.None?
    requires forall w :: 0 <= w < |sys.workers| ==> !InCallback(sys.workers[w].phase)
    ensures SafeStore(sys)
  {
  }

  /** A step that leaves the store alone and stays on one side of the lock. */
  lemma {:induction false} MoveKeepsSafe(sys: System, w: nat, phase: Phase)
    requires SafeStore(sys) && w < |sys.workers|
    requires if InCallback(phase) then
        InCallback(sys.workers[w].phase) && phase.fence == sys.workers[w].phase.fence
        && phase.enteredAt == sys.workers[w].phase.enteredAt
      else !InCallback(sys.workers[w].phase)
    ensures SafeStore(Move(sys, w, phase))
  {
    assert Fenced(sys, sys.workers[w]);
  }

  lemma {:induction false} LeaveKeepsSafe(sys: System, w: nat, phase: Phase)
    requires SafeStore(sys) && sys.locked == Some(w) && !InCallback(phase)
    ensures SafeStore(Leave(sys, w, phase))
  {
    NobodyInsideIsSafe(Leave(sys, w, phase));
  }

  lemma {:induction false} AcquireKeepsSafe(sys: System, w: nat, now: Instant, writable: bool)
    requires SafeStore(sys) && sys.locked.None? && w < |sys.workers|
    ensures SafeStore(StepAcquire(sys, w, now, writable))
  {
    var job := sys.workers[w].job;
    LeaseRuns.StepFollows(sys.store, Call(OpAcquire(job.holder, job.key, LEASE_TTL_SECONDS), now, writable));
    NobodyInsideIsSafe(StepAcquire(sys, w, now, writable));
  }

  lemma {:induction false} ReleaseKeepsSafe(sys: System, w: nat, now: Instant, writable: bool)
    requires SafeStore(sys) && sys.locked.None? && w < |sys.workers| && sys.workers[w].phase.Releasing?
    ensures SafeStore(StepRelease(sys, w, now, writable))
  {
    var cred := CredentialOf(sys, sys.workers[w].job, sys.workers[w].phase.fence);
    LeaseRuns.StepFollows(sys.store, Call(OpRelease(cred), now, writable));
    NobodyInsideIsSafe(StepRelease(sys, w, now, writable));
  }

  lemma {:induction false} OtherCallKeepsSafe(sys: System, call: Call)
    requires SafeStore(sys) && sys.locked.None?
    ensures SafeStore(sys.(store := Step(sys.store, call).state))
  {
    LeaseRuns.StepFollows(sys.store, call);
    NobodyInsideIsSafe(sys.(store := Step(sys.store, call).state));
  }

  lemma {:induction false} LockedEntryIsSafe(sys: System, w: nat, now: Instant)
    requires SafeStore(sys) && sys.locked.None? && w < |sys.workers| && sys.workers[w].phase.Entering?
    requires EnterFenced(sys.store, CredentialOf(sys, sys.workers[w].job, sys.workers[w].phase.fence), now)
             == Ok(Authorized)
    ensures SafeStore(Move(sys, w, Reading(sys.workers[w].phase.fence, now)).(locked := Some(w)))
  {
    var fence := sys.workers[w].phase.fence;
    var cred := CredentialOf(sys, sys.workers[w].job, fence);
    assert AuthorizationReason(sys.store, cred, now) == Authorized && !IsCompleted(sys.store.completions, cred.key);
    assert Fenced(sys, Worker(sys.workers[w].job, Reading(fence, now)));
    var after := Move(sys, w, Reading(fence, now)).(locked := Some(w));
    forall v | 0 <= v < |after.workers|
      ensures InCallback(after.workers[v].phase) <==> after.locked == Some(v)
    {
      assert v != w ==> after.workers[v] == sys.workers[v];
    }
  }

  lemma {:induction false} EnterKeepsSafe(sys: System, w: nat, now: Instant)
    requires SafeStore(sys) && sys.locked.None? && w < |sys.workers| && sys.workers[w].phase.Entering?
    ensures SafeStore(StepEnter(sys, w, now))
  {
    var fence := sys.workers[w].phase.fence;
    match EnterFenced(sys.store, CredentialOf(sys, sys.workers[w].job, fence), now)
    case Ok(reply) =>
      if reply == Authorized {
        LockedEntryIsSafe(sys, w, now);
      } else if reply.AlreadyCompleted? {
        MoveKeepsSafe(sys, w, Done(reply.byCaller));
      } else {
        MoveKeepsSafe(sys, w, Done(false));
      }
    case Err(_) => MoveKeepsSafe(sys, w, Releasing(fence));
  }

  lemma {:induction false} AppendKeepsSafe(sys: System, w: nat, fault: Option<Torn>)
    requires SafeStore(sys) && w < |sys.workers| && sys.workers[w].phase.Appending?
    ensures SafeStore(StepAppend(sys, w, fault))
  {
    var Appending(fence, enteredAt) := sys.workers[w].phase;
    MoveKeepsSafe(sys, w, Committing(fence, enteredAt));
    LeaveKeepsSafe(sys, w, Releasing(fence));
  }

  lemma {:induction false} ReadKeepsSafe(sys: System, w: nat)
    requires SafeStore(sys) && w < |sys.workers| && sys.workers[w].phase.Reading?
    ensures SafeStore(StepRead(sys, w))
  {
    var Reading(fence, enteredAt) := sys.workers[w].phase;
    MoveKeepsSafe(sys, w, Committing(fence, enteredAt));
    MoveKeepsSafe(sys, w, Appending(fence, enteredAt));
    LeaveKeepsSafe(sys, w, Releasing(fence));
  }

  lemma {:induction false} StoreStepKeepsSafe(sys: System, e: Event)
    requires SafeStore(sys)
    ensures SafeStore(Next(sys, e))
  {
    if Enabled(sys, e) {
      match e
      case Spawn(job) =>
        assert forall w :: 0 <= w < |sys.workers| ==> Next(sys, e).workers[w] == sys.workers[w];
      case OtherAppend(record, fault) =>
      case Initialize(w, now) => MoveKeepsSafe(sys, w, Next(sys, e).workers[w].phase);
      case AcquireLease(w, now, writable) => AcquireKeepsSafe(sys, w, now, writable);
      case Confirm(w) => MoveKeepsSafe(sys, w, Next(sys, e).workers[w].phase);
      case Build(w, succeeds) => MoveKeepsSafe(sys, w, Next(sys, e).workers[w].phase);
      case Enter(w, now) => EnterKeepsSafe(sys, w, now);
      case ReadLedger(w) => ReadKeepsSafe(sys, w);
      case AppendLedger(w, fault) => AppendKeepsSafe(sys, w, fault);
      case Commit(w, completedAt, fault) => CommitKeepsSafe(sys, w, completedAt, fault);
      case ReleaseLease(w, now, writable) => ReleaseKeepsSafe(sys, w, now, writable);
      case Crash(w) =>
        if sys.locked == Some(w) { LeaveKeepsSafe(sys, w, Crashed); } else { MoveKeepsSafe(sys, w, Crashed); }
      case OtherLeaseCall(call) => OtherCallKeepsSafe(sys, call);
    }
  }

  lemma {:induction false} CommitKeepsSafe(sys: System, w: nat, completedAt: Instant, fault: CommitFault)
    requires SafeStore(sys) && w < |sys.workers| && sys.workers[w].phase.Committing?
    ensures SafeStore(StepCommit(sys, w, completedAt, fault))
  {
    var Committing(fence, enteredAt) := sys.workers[w].phase;
    assert Fenced(sys, sys.workers[w]);
    CommitStaysValid(sys.store, CredentialOf(sys, sys.workers[w].job, fence), enteredAt, completedAt);
    NobodyInsideIsSafe(StepCommit(sys, w, completedAt, fault));
  }

  lemma {:induction false} CommitStaysValid(s: State, cred: Credential, enteredAt: Instant, completedAt: Instant)
    requires Inv(s) && AuthorizationReason(s, cred, enteredAt) == Authorized
    ensures CommitFenced(s, cred, enteredAt, completedAt).reply.Ok? ==> Inv(CommitFenced(s, cred, enteredAt, completedAt).state)
  {
    if CommitFenced(s, cred, enteredAt, completedAt).reply.Ok? {
      CompletionStaysValid(s, cred, enteredAt, completedAt);
    }
  }

  lemma {:induction false} AppendKeepsSafeLedger(sys: System, w: nat, fault: Option<Torn>)
    requires SafeLedger(sys) && w < |sys.workers| && sys.workers[w].phase.Appending?
    ensures SafeLedger(StepAppend(sys, w, fault))
  {
    var r := sys.workers[w].job.record;
    WriteKeepsSafe(sys, r, fault);
    var after := StepAppend(sys, w, fault);
    assert after.ledger == Extended(sys.ledger, r, fault).file;
    if !AddsLine(sys.ledger, r, fault) { assert after.appends == sys.appends; }
  }

  lemma {:induction false} LedgerStepKeepsSafe(sys: System, e: Event)
    requires SafeLedger(sys)
    ensures SafeLedger(Next(sys, e))
  {
    if Enabled(sys, e) {
      match e
      case AppendLedger(w, fault) => AppendKeepsSafeLedger(sys, w, fault);
      case OtherAppend(record, fault) => WriteKeepsSafe(sys, record, fault);
      case _ => assert Next(sys, e).ledger == sys.ledger && Next(sys, e).appends == sys.appends;
    }
  }

  lemma {:induction false} WriteKeepsSafe(sys: System, r: Record, fault: Option<Torn>)
    requires SafeLedger(sys)
    ensures var after := Extended(sys.ledger, r, fault).file;
      && Sound(after)
      && (Clean(after) ==> forall i :: 0 <= i < |sys.appends| ==> Holds(after, sys.appends[i].record))
      && (AddsLine(sys.ledger, r, fault) ==>
            && Holds(after, r)
            && forall i :: 0 <= i < |sys.appends| ==> !SharesIdentity(sys.appends[i].record, r))
  {
    var before, after := sys.ledger, Extended(sys.ledger, r, fault).file;
    AppendKeepsSound(before, r, fault);
    if after != before {
      if before.terminated {
        assert forall k :: 0 <= k < |before.lines| ==> after.lines[k] == before.lines[k];
        forall i | 0 <= i < |sys.appends|
          ensures Holds(after, sys.appends[i].record) && !SharesIdentity(sys.appends[i].record, r)
        {
          assert Clean(before) || !before.present;
          assert Clean(before);
          assert Holds(before, sys.appends[i].record);
          var k :| 0 <= k < |before.lines| && before.lines[k] == Entry(sys.appends[i].record);
          assert after.lines[k] == before.lines[k];
          assert !HasDuplicate(before, r);
        }
        if AddsLine(before, r, fault) { assert after.lines[|before.lines|] == Entry(r); }
      } else if fault != Some(NothingWritten) {
        assert after.lines[|after.lines| - 1] == Rejected;
      }
    }
  }

  // ------------------------------------------------------------------- runs

  lemma {:induction false} RunIsSafe(sys: System, events: seq<Event>)
    requires SafeStore(sys) && SafeLedger(sys)
    ensures SafeStore(Run(sys, events)) && SafeLedger(Run(sys, events))
    decreases |events|
  {
    if events != [] {
      StoreStepKeepsSafe(sys, events[0]);
      LedgerStepKeepsSafe(sys, events[0]);
      RunIsSafe(Next(sys, events[0]), events[1..]);
    }
  }

  /**
    For every interleaving, crash and clock: no identity is in the ledger twice, at most one run is inside
    its callback, and that run's key has no marker and its fence is the current one.
  */
  lemma {:induction false} EffectsAreFencedAndUnique(epoch: nat, now: Instant, events: seq<Event>)
    ensures var sys := Run(Start(epoch, now), events);
      && (forall i, j :: 0 <= i < j < |sys.ledger.lines| && sys.ledger.lines[i].Entry? && sys.ledger.lines[j].Entry?
            ==> !SharesIdentity(sys.ledger.lines[i].record, sys.ledger.lines[j].record))
      && (forall v, w :: 0 <= v < w < |sys.workers|
            ==> !(InCallback(sys.workers[v].phase) && InCallback(sys.workers[w].phase)))
      && (forall w :: 0 <= w < |sys.workers| && InCallback(sys.workers[w].phase)
            ==> && !IsCompleted(sys.store.completions, sys.workers[w].job.key)
                && sys.workers[w].phase.fence == sys.store.fenceGeneration)
  {
    InitialIsValid(epoch, now);
    RunIsSafe(Start(epoch, now), events);
    var sys := Run(Start(epoch, now), events);
    assert forall w :: 0 <= w < |sys.workers| ==> Fenced(sys, sys.workers[w]);
  }

  // ------------------------------------------------------ one effect for each key

  /** Every run of these events is for one of the jobs. */
  predicate SpawnsFrom(events: seq<Event>, jobs: set<Job>) {
    forall i :: 0 <= i < |events| && events[i].Spawn? ==> events[i].job in jobs
  }

  /** The jobs of one key agree on its run, or on its correlation, as retries of one record do. */
  predicate Agreeing(jobs: set<Job>) {
    forall a, b :: a in jobs && b in jobs && a.key == b.key ==> SharesIdentity(a.record, b.record)
  }

  predicate OneEffect(sys: System) {
    forall i, j :: 0 <= i < j < |sys.appends| ==> sys.appends[i].key != sys.appends[j].key
  }

  predicate IsOf(e: Effected, jobs: set<Job>) { exists job :: job in jobs && job.key == e.key && job.record == e.record }

  /** Workers run, and have effected, nothing but these jobs. */
  predicate EffectsOf(sys: System, jobs: set<Job>) {
    && (forall w :: 0 <= w < |sys.workers| ==> sys.workers[w].job in jobs)
    && (forall i :: 0 <= i < |sys.appends| ==> IsOf(sys.appends[i], jobs))
  }

  /** The workers of the one are those of the other, with the same jobs. */
  predicate SameJobs(sys: System, after: System) {
    |after.workers| == |sys.workers| && forall w :: 0 <= w < |sys.workers| ==> after.workers[w].job == sys.workers[w].job
  }

  lemma {:induction false} CallbackKeepsJobs(sys: System, e: Event)
    requires e.ReadLedger? || e.AppendLedger? || e.Commit? || e.ReleaseLease? || e.Crash?
    ensures SameJobs(sys, Next(sys, e))
  {
  }

  lemma {:induction false} OutsideKeepsJobs(sys: System, e: Event)
    requires e.Initialize? || e.AcquireLease? || e.Confirm? || e.Build? || e.Enter? || e.OtherLeaseCall? || e.OtherAppend?
    ensures SameJobs(sys, Next(sys, e))
  {
  }

  /** A step spawns at most one worker, and no worker changes its job. */
  lemma {:induction false} StepKeepsJobs(sys: System, e: Event)
    ensures |sys.workers| <= |Next(sys, e).workers|
    ensures forall w :: 0 <= w < |sys.workers| ==> Next(sys, e).workers[w].job == sys.workers[w].job
    ensures forall w :: |sys.workers| <= w < |Next(sys, e).workers| ==> e.Spawn? && Next(sys, e).workers[w].job == e.job
  {
    if e.ReadLedger? || e.AppendLedger? || e.Commit? || e.ReleaseLease? || e.Crash? {
      CallbackKeepsJobs(sys, e);
    } else if !e.Spawn? {
      OutsideKeepsJobs(sys, e);
    }
  }

  /** A step adds at most one line, for the job of its worker. */
  lemma {:induction false} StepAppends(sys: System, e: Event)
    ensures Next(sys, e).appends == sys.appends
         || (e.AppendLedger? && e.w < |sys.workers|
             && Next(sys, e).appends == sys.appends + [Effected(sys.workers[e.w].job.key, sys.workers[e.w].job.record)])
  {
    if Enabled(sys, e) && !e.AppendLedger? { assert Next(sys, e).appends == sys.appends; }
  }

  lemma {:induction false} StepEffects(sys: System, e: Event, jobs: set<Job>)
    requires EffectsOf(sys, jobs) && (e.Spawn? ==> e.job in jobs)
    ensures EffectsOf(Next(sys, e), jobs)
  {
    StepKeepsJobs(sys, e);
    StepAppends(sys, e);
  }

  lemma {:induction false} RunEffects(sys: System, events: seq<Event>, jobs: set<Job>)
    requires EffectsOf(sys, jobs) && SpawnsFrom(events, jobs)
    ensures EffectsOf(Run(sys, events), jobs)
    decreases |events|
  {
    if events != [] {
      StepEffects(sys, events[0], jobs);
      RunEffects(Next(sys, events[0]), events[1..], jobs);
    }
  }

  /** When the jobs of each key agree, a key has at most one effect, however often its run is interrupted and retried. */
  lemma {:induction false} AgreeingJobsHaveOneEffect(epoch: nat, now: Instant, events: seq<Event>, jobs: set<Job>)
    requires SpawnsFrom(events, jobs) && Agreeing(jobs)
    ensures OneEffect(Run(Start(epoch, now), events))
  {
    InitialIsValid(epoch, now);
    RunIsSafe(Start(epoch, now), events);
    RunEffects(Start(epoch, now), events, jobs);
    var sys := Run(Start(epoch, now), events);
    forall i, j | 0 <= i < j < |sys.appends| ensures sys.appends[i].key != sys.appends[j].key {
      assert IsOf(sys.appends[i], jobs) && IsOf(sys.appends[j], jobs);
      var a :| a in jobs && a.key == sys.appends[i].key && a.record == sys.appends[i].record;
      var b :| b in jobs && b.key == sys.appends[j].key && b.record == sys.appends[j].record;
      assert !SharesIdentity(sys.appends[i].record, sys.appends[j].record);
    }
  }

  // ----------------------------------------------- markers and their records

  /** Every marker is a run's and its record is in the ledger, and so is the record of a run about to persist its marker. */
  predicate Durable(sys: System) {
    && (forall key :: key in sys.marked ==> IsCompleted(sys.store.completions, key))
    && (forall i :: 0 <= i < |sys.store.completions| ==>
          && sys.store.completions[i].key in sys.marked
          && Holds(sys.ledger, sys.marked[sys.store.completions[i].key]))
    && (forall w :: 0 <= w < |sys.workers| && sys.workers[w].phase.Committing?
          ==> Holds(sys.ledger, sys.workers[w].job.record))
  }

  /** The append passes its checks, and its write reaches the file. */
  predicate Writes(c: Content, r: Record, fault: Option<Torn>) {
    Extended(c, r, fault).reply in {Ok(Appended), Err(AppendFailed)} && fault != Some(NothingWritten)
  }

  /** A marker rests on this record, or a run that is about to persist its marker. */
  predicate Needed(sys: System, r: Record) {
    || (exists i :: 0 <= i < |sys.store.completions| && sys.store.completions[i].key in sys.marked
                    && sys.marked[sys.store.completions[i].key] == r)
    || (exists w :: 0 <= w < |sys.workers| && sys.workers[w].phase.Committing? && sys.workers[w].job.record == r)
  }

  /** The file's last line has lost its newline, and it is not a line that a marker needs. */
  predicate SparesLast(sys: System) {
    sys.ledger.terminated || sys.ledger.lines == [] || sys.ledger.lines[|sys.ledger.lines| - 1].Rejected?
    || !Needed(sys, sys.ledger.lines[|sys.ledger.lines| - 1].record)
  }

  /**
    What an append must leave alone. The write of a runner that goes on to its commit needs a newline before it in any
    case, because without one its own record is lost too. A caller that completes a lease without an append writes a
    marker that has no record at all.
  */
  predicate Spares(sys: System, e: Event) {
    match e
    case OtherAppend(r, fault) => Writes(sys.ledger, r, fault) ==> SparesLast(sys)
    case AppendLedger(w, fault) =>
      Enabled(sys, e) && Writes(sys.ledger, sys.workers[w].job.record, fault) ==>
        SparesLast(sys) && (fault.None? ==> sys.ledger.terminated)
    case OtherLeaseCall(call) => Enabled(sys, e) ==> Step(sys.store, call).state.completions == sys.store.completions
    case _ => true
  }

  predicate SparingRun(sys: System, events: seq<Event>)
    decreases |events|
  {
    events == [] || (Spares(sys, events[0]) && SparingRun(Next(sys, events[0]), events[1..]))
  }

  /** A write that starts behind a line without its newline takes that line's record, and no other. */
  lemma {:induction false} WriteKeepsHeld(c: Content, r: Record, fault: Option<Torn>, held: Record)
    requires Sound(c) && Holds(c, held)
    ensures Holds(Extended(c, r, fault).file, held)
            <==> !(Writes(c, r, fault) && !c.terminated && c.lines[|c.lines| - 1] == Entry(held))
  {
    var after := Extended(c, r, fault).file;
    var k :| 0 <= k < |c.lines| && c.lines[k] == Entry(held);
    if Writes(c, r, fault) && !c.terminated {
      if k < |c.lines| - 1 {
        assert after.lines[k] == Entry(held);
        assert c.lines[|c.lines| - 1] != Entry(held);
      } else {
        forall i | 0 <= i < |after.lines| ensures after.lines[i] != Entry(held) {
          if i < k && c.lines[i].Entry? { assert !SharesIdentity(c.lines[i].record, held); }
        }
      }
    } else {
      assert after.lines[k] == Entry(held);
    }
  }

  lemma {:induction false} CallKeepsMarkers(s: State, call: Call)
    requires !call.op.OpComplete? && !call.op.OpCompleteFenced?
    ensures Step(s, call).state.completions == s.completions
  {
    match call.op
    case OpRenew(cred, ttl) => assert Renew(s, cred, ttl, call.now).state.completions == s.completions;
    case _ =>
  }

  /** A call adds no marker, or one for a key that had none. */
  lemma {:induction false} CallAddsMarker(s: State, call: Call)
    ensures var after := Step(s, call).state.completions;
      after == s.completions
      || (|after| == |s.completions| + 1 && after[..|s.completions|] == s.completions
          && !IsCompleted(s.completions, after[|s.completions|].key))
  {
    if !call.op.OpComplete? && !call.op.OpCompleteFenced? { CallKeepsMarkers(s, call); }
  }

  /** A lease call of someone else keeps the markers backed exactly when it adds none. */
  lemma {:induction false} OtherCallKeepsDurable(sys: System, call: Call)
    requires Durable(sys)
    ensures Durable(sys.(store := Step(sys.store, call).state))
            <==> Step(sys.store, call).state.completions == sys.store.completions
  {
    var before, after := sys.store.completions, Step(sys.store, call).state.completions;
    CallAddsMarker(sys.store, call);
    if after != before {
      var key := after[|before|].key;
      assert key !in sys.marked;
    }
  }

  /** A write keeps the markers backed exactly when the line it may spoil is not one that they need. */
  lemma {:induction false} LedgerWriteKeepsDurable(sys: System, r: Record, fault: Option<Torn>)
    requires Sound(sys.ledger) && Durable(sys)
    ensures Durable(sys.(ledger := Extended(sys.ledger, r, fault).file)) <==> (Writes(sys.ledger, r, fault) ==> SparesLast(sys))
  {
    var c, after := sys.ledger, sys.(ledger := Extended(sys.ledger, r, fault).file);
    forall held | Needed(sys, held) ensures Holds(c, held) {}
    forall held | Holds(c, held)
      ensures Holds(after.ledger, held) <==> !(Writes(c, r, fault) && !c.terminated && c.lines[|c.lines| - 1] == Entry(held))
    {
      WriteKeepsHeld(c, r, fault, held);
    }
    if Durable(after) {
      forall held | Needed(sys, held) ensures Holds(after.ledger, held) { StaysNeeded(sys, after, held); }
    }
  }

  lemma {:induction false} StaysNeeded(sys: System, after: System, held: Record)
    requires after == sys.(ledger := after.ledger) && Durable(after) && Needed(sys, held)
    ensures Holds(after.ledger, held)
  {
  }

  lemma {:induction false} AppendKeepsDurable(sys: System, w: nat, fault: Option<Torn>)
    requires Sound(sys.ledger) && Durable(sys) && w < |sys.workers| && sys.workers[w].phase.Appending?
    ensures Durable(StepAppend(sys, w, fault)) <==> Spares(sys, AppendLedger(w, fault))
  {
    var r := sys.workers[w].job.record;
    LedgerWriteKeepsDurable(sys, r, fault);
    var next := sys.(ledger := Extended(sys.ledger, r, fault).file);
    var after := StepAppend(sys, w, fault);
    SameMarkersDurable(next, after, w);
    if Extended(sys.ledger, r, fault).reply.Ok? { AppendedMeansHeld(sys.ledger, r, fault); }
  }

  /** One worker has left its append: the markers are backed as before, and its own record is if it goes on to commit. */
  lemma {:induction false} SameMarkersDurable(next: System, after: System, w: nat)
    requires after.ledger == next.ledger && after.store == next.store && after.marked == next.marked
    requires |after.workers| == |next.workers| && w < |next.workers| && !next.workers[w].phase.Committing?
    requires forall v :: 0 <= v < |next.workers| && v != w ==> after.workers[v] == next.workers[v]
    ensures Durable(after) <==> Durable(next) && (after.workers[w].phase.Committing? ==> Holds(next.ledger, after.workers[w].job.record))
  {
    if Durable(after) {
      forall v | 0 <= v < |next.workers| && next.workers[v].phase.Committing?
        ensures Holds(next.ledger, next.workers[v].job.record)
      {
        assert after.workers[v] == next.workers[v];
      }
    }
  }

  lemma {:induction false} StaysCompleted(before: seq<Completion>, after: seq<Completion>, key: string)
    requires before <= after && IsCompleted(before, key)
    ensures IsCompleted(after, key)
  {
    var i :| 0 <= i < |before| && before[i].key == key;
    assert after[i].key == key;
  }

  /** Once the marker is persisted, it is that of this run. */
  lemma {:induction false} CommitMarks(sys: System, after: System, job: Job, c: Completion)
    requires Durable(sys) && after.ledger == sys.ledger && Holds(sys.ledger, job.record)
    requires after.store.completions == sys.store.completions + [c] && c.key == job.key
    requires !IsCompleted(sys.store.completions, job.key) && after.marked == sys.marked[job.key := job.record]
    ensures forall key :: key in after.marked ==> IsCompleted(after.store.completions, key)
    ensures forall i :: 0 <= i < |after.store.completions| ==>
      && after.store.completions[i].key in after.marked
      && Holds(after.ledger, after.marked[after.store.completions[i].key])
  {
    var before, cs := sys.store.completions, after.store.completions;
    assert cs[|before|] == c;
    forall key | key in after.marked ensures IsCompleted(cs, key) {
      if key != job.key { StaysCompleted(before, cs, key); }
    }
    forall i | 0 <= i < |cs| ensures cs[i].key in after.marked && Holds(after.ledger, after.marked[cs[i].key]) {
      assert i < |before| ==> cs[i] == before[i];
    }
  }

  lemma {:induction false} CommitKeepsDurable(sys: System, w: nat, completedAt: Instant, fault: CommitFault)
    requires Durable(sys) && w < |sys.workers| && sys.workers[w].phase.Committing?
    requires !IsCompleted(sys.store.completions, sys.workers[w].job.key)
    ensures Durable(StepCommit(sys, w, completedAt, fault))
  {
    var after, job := StepCommit(sys, w, completedAt, fault), sys.workers[w].job;
    if after.store.completions != sys.store.completions {
      CommitMarks(sys, after, job, Completion(job.holder, job.key, sys.workers[w].phase.fence, completedAt));
    }
  }

  /** A step that writes neither ledger nor markers, and takes nobody to the commit without the record. */
  lemma {:induction false} QuietStepKeepsDurable(sys: System, after: System, w: nat)
    requires Durable(sys) && after.ledger == sys.ledger && after.marked == sys.marked
    requires after.store.completions == sys.store.completions
    requires |after.workers| == |sys.workers| && w < |sys.workers| && after.workers[w].job == sys.workers[w].job
    requires forall v :: 0 <= v < |sys.workers| && v != w ==> after.workers[v] == sys.workers[v]
    requires after.workers[w].phase.Committing? ==> Holds(sys.ledger, sys.workers[w].job.record)
    ensures Durable(after)
  {
  }

  lemma {:induction false} AcquireKeepsDurable(sys: System, w: nat, now: Instant, writable: bool)
    requires Durable(sys) && w < |sys.workers|
    ensures Durable(StepAcquire(sys, w, now, writable))
  {
    var job := sys.workers[w].job;
    CallKeepsMarkers(sys.store, Call(OpAcquire(job.holder, job.key, LEASE_TTL_SECONDS), now, writable));
    QuietStepKeepsDurable(sys, StepAcquire(sys, w, now, writable), w);
  }

  lemma {:induction false} ReleaseKeepsDurable(sys: System, w: nat, now: Instant, writable: bool)
    requires Durable(sys) && w < |sys.workers| && sys.workers[w].phase.Releasing?
    ensures Durable(StepRelease(sys, w, now, writable))
  {
    var cred := CredentialOf(sys, sys.workers[w].job, sys.workers[w].phase.fence);
    CallKeepsMarkers(sys.store, Call(OpRelease(cred), now, writable));
    QuietStepKeepsDurable(sys, StepRelease(sys, w, now, writable), w);
  }

  lemma {:induction false} EnterKeepsDurable(sys: System, w: nat, now: Instant)
    requires Durable(sys) && w < |sys.workers| && sys.workers[w].phase.Entering?
    ensures Durable(StepEnter(sys, w, now))
  {
    QuietStepKeepsDurable(sys, StepEnter(sys, w, now), w);
  }

  lemma {:induction false} ReadKeepsDurable(sys: System, w: nat)
    requires Durable(sys) && w < |sys.workers| && sys.workers[w].phase.Reading?
    ensures Durable(StepRead(sys, w))
  {
    QuietStepKeepsDurable(sys, StepRead(sys, w), w);
  }

  lemma {:induction false} MoveKeepsDurable(sys: System, w: nat, phase: Phase)
    requires Durable(sys) && w < |sys.workers| && !phase.Committing?
    ensures Durable(Move(sys, w, phase)) && Durable(Leave(sys, w, phase))
  {
    QuietStepKeepsDurable(sys, Move(sys, w, phase), w);
    QuietStepKeepsDurable(sys, Leave(sys, w, phase), w);
  }

  lemma {:induction false} StepKeepsDurable(sys: System, e: Event)
    requires SafeStore(sys) && SafeLedger(sys) && Durable(sys)
    ensures Durable(Next(sys, e)) <==> Spares(sys, e)
  {
    if Enabled(sys, e) {
      match e
      case AppendLedger(w, fault) => AppendKeepsDurable(sys, w, fault);
      case OtherAppend(r, fault) => LedgerWriteKeepsDurable(sys, r, fault);
      case Commit(w, completedAt, fault) =>
        assert Fenced(sys, sys.workers[w]);
        CommitKeepsDurable(sys, w, completedAt, fault);
      case AcquireLease(w, now, writable) => AcquireKeepsDurable(sys, w, now, writable);
      case ReleaseLease(w, now, writable) => ReleaseKeepsDurable(sys, w, now, writable);
      case OtherLeaseCall(call) => OtherCallKeepsDurable(sys, call);
      case Spawn(job) =>
        assert forall w :: 0 <= w < |sys.workers| ==> Next(sys, e).workers[w] == sys.workers[w];
      case Enter(w, now) => EnterKeepsDurable(sys, w, now);
      case ReadLedger(w) => ReadKeepsDurable(sys, w);
      case Initialize(w, now) => MoveKeepsDurable(sys, w, Next(sys, e).workers[w].phase);
      case Confirm(w) => MoveKeepsDurable(sys, w, Next(sys, e).workers[w].phase);
      case Build(w, succeeds) => MoveKeepsDurable(sys, w, Next(sys, e).workers[w].phase);
      case Crash(w) => MoveKeepsDurable(sys, w, Crashed);
    }
  }

  /**
    Along a whole run no marker, and no run about to persist one, is ever without its record in the ledger, if and only
    if no append ever starts behind an unterminated line that they need, or before a commit.
  */
  lemma {:induction false} MarkersAreBacked(sys: System, events: seq<Event>)
    requires SafeStore(sys) && SafeLedger(sys) && Durable(sys)
    ensures (forall k :: 0 <= k <= |events| ==> Durable(Run(sys, events[..k]))) <==> SparingRun(sys, events)
    decreases |events|
  {
    if events != [] {
      var next, rest := Next(sys, events[0]), events[1..];
      StoreStepKeepsSafe(sys, events[0]);
      LedgerStepKeepsSafe(sys, events[0]);
      StepKeepsDurable(sys, events[0]);
      forall k | 0 <= k <= |rest| ensures Run(next, rest[..k]) == Run(sys, events[..k + 1]) {
        assert events[..k + 1][1..] == rest[..k];
      }
      if Spares(sys, events[0]) {
        MarkersAreBacked(next, rest);
        BackedFromHere(sys, next, events);
      } else {
        assert Run(sys, events[..1]) == next by { assert rest[..0] == []; }
      }
    }
  }

  lemma {:induction false} BackedFromHere(sys: System, next: System, events: seq<Event>)
    requires events != [] && Durable(sys)
    requires forall k :: 0 <= k <= |events[1..]| ==> Run(next, events[1..][..k]) == Run(sys, events[..k + 1])
    ensures (forall k :: 0 <= k <= |events| ==> Durable(Run(sys, events[..k])))
            <==> (forall k :: 0 <= k <= |events[1..]| ==> Durable(Run(next, events[1..][..k])))
  {
    if forall k :: 0 <= k <= |events[1..]| ==> Durable(Run(next, events[1..][..k])) {
      forall k | 0 <= k <= |events| ensures Durable(Run(sys, events[..k])) {
        if k == 0 {
          assert events[..0] == [];
        } else {
          assert Run(next, events[1..][..k - 1]) == Run(sys, events[..k - 1 + 1]);
        }
      }
    }
    if forall k :: 0 <= k <= |events| ==> Durable(Run(sys, events[..k])) {
      forall k | 0 <= k <= |events[1..]| ensures Durable(Run(next, events[1..][..k])) {
        assert Durable(Run(sys, events[..k + 1]));
      }
    }
  }

  lemma {:induction false} RunConcat(sys: System, a: seq<Event>, b: seq<Event>)
    ensures Run(sys, a + b) == Run(Run(sys, a), b)
    decreases |a|
  {
    if a == [] {
      assert a + b == b;
    } else {
      assert (a + b)[1..] == a[1..] + b;
      RunConcat(Next(sys, a[0]), a[1..], b);
    }
  }

  lemma {:induction false} RunSnoc(sys: System, events: seq<Event>, e: Event)
    ensures Run(sys, events + [e]) == Next(Run(sys, events), e)
  {
    RunConcat(sys, events, [e]);
    assert [e][1..] == [];
  }

  lemma {:induction false} RunThree(sys: System, a: Event, b: Event, c: Event)
    ensures Run(sys, [a, b, c]) == Next(Next(Next(sys, a), b), c)
  {
    RunSnoc(sys, [], a);
    RunSnoc(sys, [a], b);
    RunSnoc(sys, [a, b], c);
    assert [] + [a] == [a] && [a] + [b] == [a, b] && [a, b] + [c] == [a, b, c];
  }

  lemma {:induction false} RunFour(sys: System, a: Event, b: Event, c: Event, d: Event)
    ensures Run(sys, [a, b, c, d]) == Next(Next(Next(Next(sys, a), b), c), d)
  {
    RunThree(sys, a, b, c);
    RunSnoc(sys, [a, b, c], d);
    assert [a, b, c] + [d] == [a, b, c, d];
  }

  /** The steps of a retry from the spawned worker to its persisted marker. */
  function RetryEvents(w: nat, job: Job, now: Instant): seq<Event> {
    [Spawn(job), Initialize(w, now), AcquireLease(w, now, true)]
    + [Build(w, true), Enter(w, now), ReadLedger(w), Commit(w, now, NoFault)]
  }

  /** Nothing in the store stands in the way of a new lease for this job. */
  predicate Leasable(sys: System, job: Job, now: Instant) {
    && sys.locked.None?
    && ValidOpaque(job.holder) && ValidOpaque(job.key)
    && !sys.store.killSwitch.engaged && !IsCompleted(sys.store.completions, job.key)
    && sys.store.lastMutationAt <= now && ExpiryFits(now, LEASE_TTL_SECONDS)
    && (sys.store.lease.None? || sys.store.lease.value.expiresAt <= now)
    && |sys.store.completions| < MAX_COMPLETION_MARKERS
    && 0 <= sys.store.fenceGeneration <= sys.store.revision && sys.store.revision + 2 <= MAX_COUNTER
  }

  /** The state in which an interrupted run can be retried. */
  predicate Retriable(sys: System, job: Job, now: Instant) {
    && Leasable(sys, job, now)
    && sys.ledger.present && Clean(sys.ledger) && Holds(sys.ledger, job.record)
  }

  /** The state once the retry holds a fresh lease. */
  function Reacquired(s: State, job: Job, now: Instant): State
    requires ExpiryFits(now, LEASE_TTL_SECONDS)
  {
    var fence := s.fenceGeneration + 1;
    s.(fenceGeneration := fence, revision := s.revision + 1, lastMutationAt := now, lastRelease := None,
       lease := Some(Lease(job.holder, job.key, fence, now, now, now + LEASE_TTL_SECONDS * MICROSECONDS)))
  }

  lemma {:induction false} AcquiresFreshLease(sys: System, w: nat, job: Job, now: Instant)
    requires Leasable(sys, job, now) && w < |sys.workers| && sys.workers[w] == Worker(job, Acquiring)
    ensures Next(sys, AcquireLease(w, now, true))
         == Move(sys, w, Building(sys.store.fenceGeneration + 1)).(store := Reacquired(sys.store, job, now))
  {
    var o := Acquire(sys.store, job.holder, job.key, LEASE_TTL_SECONDS, now);
    assert o.state == Reacquired(sys.store, job, now);
    assert o.reply == Ok(Acquired(sys.store.fenceGeneration + 1, now + LEASE_TTL_SECONDS * MICROSECONDS));
  }

  lemma {:induction false} SpawnsAndInitializes(sys: System, job: Job, now: Instant)
    requires sys.locked.None? && sys.store.lastMutationAt <= now
    ensures Run(sys, [Spawn(job), Initialize(|sys.workers|, now)])
         == sys.(workers := sys.workers + [Worker(job, Acquiring)])
  {
    var s1 := sys.(workers := sys.workers + [Worker(job, Starting)]);
    assert StepInitialize(s1, |sys.workers|, now).workers == sys.workers + [Worker(job, Acquiring)];
    RunSnoc(sys, [], Spawn(job));
    RunSnoc(sys, [Spawn(job)], Initialize(|sys.workers|, now));
    assert [] + [Spawn(job)] == [Spawn(job)];
    assert [Spawn(job)] + [Initialize(|sys.workers|, now)] == [Spawn(job), Initialize(|sys.workers|, now)];
  }

  lemma {:induction false} LastWorkerAcquires(sys: System, job: Job, now: Instant)
    requires Leasable(sys, job, now)
    ensures Next(sys.(workers := sys.workers + [Worker(job, Acquiring)]), AcquireLease(|sys.workers|, now, true))
         == sys.(workers := sys.workers + [Worker(job, Building(sys.store.fenceGeneration + 1))],
                 store := Reacquired(sys.store, job, now))
  {
    var s2 := sys.(workers := sys.workers + [Worker(job, Acquiring)]);
    AcquiresFreshLease(s2, |sys.workers|, job, now);
    assert Move(s2, |sys.workers|, Building(sys.store.fenceGeneration + 1)).workers
        == sys.workers + [Worker(job, Building(sys.store.fenceGeneration + 1))];
  }

  lemma {:induction false} RetryAcquires(sys: System, job: Job, now: Instant)
    requires Leasable(sys, job, now)
    ensures Run(sys, RetryEvents(|sys.workers|, job, now)[..3])
         == sys.(workers := sys.workers + [Worker(job, Building(sys.store.fenceGeneration + 1))],
                 store := Reacquired(sys.store, job, now))
  {
    var two, third := [Spawn(job), Initialize(|sys.workers|, now)], AcquireLease(|sys.workers|, now, true);
    assert RetryEvents(|sys.workers|, job, now)[..3] == two + [third];
    SpawnsAndInitializes(sys, job, now);
    LastWorkerAcquires(sys, job, now);
    RunSnoc(sys, two, third);
  }

  /**
    A run that died after its append is finished by a retry of the same job once its lease has expired:
    the marker is persisted and the ledger is not written again.
  */
  lemma {:induction false} RetryFinishesInterruptedRun(sys: System, job: Job, now: Instant)
    requires Retriable(sys, job, now)
    ensures var w := |sys.workers|;
      var end := Run(sys, RetryEvents(w, job, now));
      && end.ledger == sys.ledger && IsCompleted(end.store.completions, job.key) && end.marked == sys.marked[job.key := job.record]
      && w < |end.workers| && end.workers[w].phase == Done(true)
  {
    var w := |sys.workers|;
    var events := RetryEvents(w, job, now);
    RetryAcquires(sys, job, now);
    assert events == events[..3] + events[3..];
    RunConcat(sys, events[..3], events[3..]);
    RetryCommits(Run(sys, events[..3]), w, job, now, sys.store.fenceGeneration + 1);
    assert events[3..] == [Build(w, true), Enter(w, now), ReadLedger(w), Commit(w, now, NoFault)];
  }

  lemma {:induction false} RetryCommits(s3: System, w: nat, job: Job, now: Instant, fence: int)
    requires w < |s3.workers| && s3.workers[w] == Worker(job, Building(fence)) && s3.locked.None?
    requires s3.ledger.present && Clean(s3.ledger) && Holds(s3.ledger, job.record)
    requires ValidOpaque(job.holder) && ValidOpaque(job.key) && ValidFence(fence)
    requires s3.store.lease.Some? && s3.store.lastMutationAt == now < s3.store.lease.value.expiresAt
    requires s3.store.lease.value.holder == job.holder && s3.store.lease.value.key == job.key
    requires s3.store.lease.value.fence == fence && !s3.store.killSwitch.engaged
    requires !IsCompleted(s3.store.completions, job.key) && |s3.store.completions| < MAX_COMPLETION_MARKERS
    requires !Exhausted(s3.store)
    ensures var end := Run(s3, [Build(w, true), Enter(w, now), ReadLedger(w), Commit(w, now, NoFault)]);
      && end.ledger == s3.ledger && IsCompleted(end.store.completions, job.key) && end.marked == s3.marked[job.key := job.record]
      && w < |end.workers| && end.workers[w].phase == Done(true)
  {
    RunFour(s3, Build(w, true), Enter(w, now), ReadLedger(w), Commit(w, now, NoFault));
    var s4 := Next(s3, Build(w, true));
    assert s4 == Move(s3, w, Entering(fence));
    EntersFreshLease(s4, w, now);
    var s5 := Next(s4, Enter(w, now));
    assert s5 == Move(s3, w, Reading(fence, now)).(locked := Some(w));
    var s6 := Next(s5, ReadLedger(w));
    assert s6 == Move(s3, w, Committing(fence, now)).(locked := Some(w));
    var s7 := Next(s6, Commit(w, now, NoFault));
    assert s7.store.completions[|s3.store.completions|].key == job.key;
  }

  // ------------------------------------------- what the protocol does not give

  /** A run up to the return, or the failure, of its ledger append. */
  function AppendEvents(w: nat, job: Job, now: Instant, fault: Option<Torn>): seq<Event> {
    RetryEvents(w, job, now)[..3] + [Build(w, true), Enter(w, now), ReadLedger(w), AppendLedger(w, fault)]
  }

  predicate Appendable(sys: System, job: Job, now: Instant) {
    && Leasable(sys, job, now)
    && ValidRecord(job.record) && Clean(sys.ledger) && !HasDuplicate(sys.ledger, job.record)
    && sys.ledger.terminated
  }

  lemma {:induction false} RunAppends(sys: System, job: Job, now: Instant, fault: Option<Torn>)
    requires Appendable(sys, job, now) && fault in {None, Some(MissingNewline)}
    ensures Run(sys, AppendEvents(|sys.workers|, job, now, fault)) == HasAppended(sys, job, now, fault)
  {
    var w, fence := |sys.workers|, sys.store.fenceGeneration + 1;
    RetryAcquires(sys, job, now);
    var rest := [Build(w, true), Enter(w, now), ReadLedger(w), AppendLedger(w, fault)];
    RunConcat(sys, RetryEvents(w, job, now)[..3], rest);
    var s3 := Run(sys, RetryEvents(w, job, now)[..3]);
    var s4 := Next(s3, rest[0]);
    assert s4 == s3.(workers := sys.workers + [Worker(job, Entering(fence))]);
    var s5 := Next(s4, rest[1]);
    EntersFreshLease(s4, w, now);
    assert s5.workers == sys.workers + [Worker(job, Reading(fence, now))];
    var s6 := Next(s5, rest[2]);
    var s7 := Next(s6, rest[3]);
    AppendsFreshRecord(s5, w, fault);
    assert s7.workers == HasAppended(sys, job, now, fault).workers;
    RunFour(s3, rest[0], rest[1], rest[2], rest[3]);
  }

  lemma {:induction false} EntersFreshLease(sys: System, w: nat, now: Instant)
    requires sys.locked.None? && w < |sys.workers| && sys.workers[w].phase.Entering?
    requires EnterFenced(sys.store, CredentialOf(sys, sys.workers[w].job, sys.workers[w].phase.fence), now)
             == Ok(Authorized)
    ensures Next(sys, Enter(w, now)) == Move(sys, w, Reading(sys.workers[w].phase.fence, now)).(locked := Some(w))
  {
  }

  lemma {:induction false} AppendsFreshRecord(sys: System, w: nat, fault: Option<Torn>)
    requires w < |sys.workers| && sys.workers[w].phase.Reading? && fault in {None, Some(MissingNewline)}
    requires var r := sys.workers[w].job.record;
      ValidRecord(r) && Clean(sys.ledger) && !HasDuplicate(sys.ledger, r) && sys.ledger.terminated
    ensures var Reading(fence, enteredAt) := sys.workers[w].phase;
      var job := sys.workers[w].job;
      Next(Next(sys, ReadLedger(w)), AppendLedger(w, fault))
      == Move(sys, w, if fault.None? then Committing(fence, enteredAt) else Releasing(fence))
         .(ledger := Content(true, sys.ledger.lines + [Entry(job.record)], fault.None?),
           locked := if fault.None? then sys.locked else None,
           appends := sys.appends + [Effected(job.key, job.record)])
  {
    var Reading(fence, enteredAt) := sys.workers[w].phase;
    var job := sys.workers[w].job;
    assert !Holds(sys.ledger, job.record);
    var s6 := Next(sys, ReadLedger(w));
    assert s6 == Move(sys, w, Appending(fence, enteredAt));
    var file := Content(true, sys.ledger.lines + [Entry(job.record)], fault.None?);
    assert Extended(sys.ledger, job.record, fault).file == file;
    assert file != sys.ledger by { assert |file.lines| != |sys.ledger.lines|; }
    assert AddsLine(sys.ledger, job.record, fault);
    var phase := if fault.None? then Committing(fence, enteredAt) else Releasing(fence);
    assert Next(s6, AppendLedger(w, fault)).workers == Move(sys, w, phase).workers;
  }

  /** The system after those events: a record in the ledger and no marker for it yet. */
  function HasAppended(sys: System, job: Job, now: Instant, fault: Option<Torn>): System
    requires ExpiryFits(now, LEASE_TTL_SECONDS)
  {
    var fence := sys.store.fenceGeneration + 1;
    sys.(workers := sys.workers + [Worker(job, if fault.None? then Committing(fence, now) else Releasing(fence))],
         store := Reacquired(sys.store, job, now),
         ledger := Content(true, sys.ledger.lines + [Entry(job.record)], fault.None?),
         locked := if fault.None? then Some(|sys.workers|) else None,
         appends := sys.appends + [Effected(job.key, job.record)])
  }

  /**
    A key retried with another record, as happens when its run is restarted with a new start time, is
    effected twice: the first append survives the crash that the second run knows nothing of.
  */
  lemma {:induction false} TwoRecordsForOneKey(sys: System, first: Job, second: Job, now: Instant, later: Instant)
    requires Appendable(sys, first, now) && Appendable(sys, second, later)
    requires first.key == second.key && !SharesIdentity(first.record, second.record)
    requires now + LEASE_TTL_SECONDS * MICROSECONDS <= later && sys.store.revision + 4 <= MAX_COUNTER
    ensures var w := |sys.workers|;
      var end := Run(Run(sys, AppendEvents(w, first, now, None) + [Crash(w)]),
                     AppendEvents(w + 1, second, later, None));
      && Holds(end.ledger, first.record) && Holds(end.ledger, second.record)
      && end.appends == sys.appends + [Effected(first.key, first.record), Effected(first.key, second.record)]
  {
    var w := |sys.workers|;
    RunAppends(sys, first, now, None);
    var mid := Run(sys, AppendEvents(w, first, now, None));
    RunConcat(sys, AppendEvents(w, first, now, None), [Crash(w)]);
    var crashed := Next(mid, Crash(w));
    assert Run(mid, [Crash(w)]) == crashed;
    assert crashed.ledger.lines[..|sys.ledger.lines|] == sys.ledger.lines;
    RunAppends(crashed, second, later, None);
    var end := Run(crashed, AppendEvents(w + 1, second, later, None));
    assert end.ledger.lines[|sys.ledger.lines|] == Entry(first.record);
    assert end.ledger.lines[|sys.ledger.lines| + 1] == Entry(second.record);
  }

  /** The events of two runs of one key, the first of which dies before its marker. */
  function TwoRuns(first: Job, second: Job, later: Instant): seq<Event> {
    AppendEvents(0, first, 0, None) + [Crash(0)] + AppendEvents(1, second, later, None)
  }

  lemma {:induction false} TwoRunsHaveTwoEffects(first: Job, second: Job) returns (later: Instant)
    requires Runnable(first) && Runnable(second) && first.key == second.key && !SharesIdentity(first.record, second.record)
    ensures !OneEffect(Run(Start(0, 0), TwoRuns(first, second, later)))
  {
    later := LEASE_TTL_SECONDS * MICROSECONDS;
    var start := Start(0, 0);
    TwoRecordsForOneKey(start, first, second, 0, later);
    RunConcat(start, AppendEvents(0, first, 0, None) + [Crash(0)], AppendEvents(1, second, later, None));
    var end := Run(start, TwoRuns(first, second, later));
    assert end.appends == [Effected(first.key, first.record), Effected(first.key, second.record)];
    assert end.appends[0].key == end.appends[1].key;
  }

  lemma {:induction false} TwoRunsSpawn(first: Job, second: Job, later: Instant, jobs: set<Job>)
    requires first in jobs && second in jobs
    ensures SpawnsFrom(TwoRuns(first, second, later), jobs)
  {
    OneRunSpawns(0, first, 0, jobs);
    OneRunSpawns(1, second, later, jobs);
    var a, b := AppendEvents(0, first, 0, None), AppendEvents(1, second, later, None);
    forall i | 0 <= i < |TwoRuns(first, second, later)| && TwoRuns(first, second, later)[i].Spawn?
      ensures TwoRuns(first, second, later)[i].job in jobs
    {
      assert i < |a| || i == |a| || b[i - |a| - 1] == TwoRuns(first, second, later)[i];
    }
  }

  lemma {:induction false} OneRunSpawns(w: nat, job: Job, now: Instant, jobs: set<Job>)
    requires job in jobs
    ensures SpawnsFrom(AppendEvents(w, job, now, None), jobs)
  {
    assert AppendEvents(w, job, now, None)
        == [Spawn(job), Initialize(w, now), AcquireLease(w, now, true), Build(w, true), Enter(w, now), ReadLedger(w), AppendLedger(w, None)];
  }

  /** A job that names itself and its key, with a record that the ledger accepts. */
  predicate Runnable(job: Job) { ValidOpaque(job.holder) && ValidOpaque(job.key) && ValidRecord(job.record) }

  /**
    A key has at most one effect in every run of these jobs, with any interleaving, crash and clock, if and only if
    the jobs of each key agree.
  */
  lemma {:induction false} OneEffectPerKey(jobs: set<Job>)
    requires forall job :: job in jobs ==> Runnable(job)
    ensures (forall epoch, now, events :: SpawnsFrom(events, jobs) ==> OneEffect(Run(Start(epoch, now), events))) <==> Agreeing(jobs)
  {
    if Agreeing(jobs) {
      forall epoch, now, events | SpawnsFrom(events, jobs) ensures OneEffect(Run(Start(epoch, now), events)) {
        AgreeingJobsHaveOneEffect(epoch, now, events, jobs);
      }
    } else {
      var a, b :| a in jobs && b in jobs && a.key == b.key && !SharesIdentity(a.record, b.record);
      var later := TwoRunsHaveTwoEffects(a, b);
      TwoRunsSpawn(a, b, later, jobs);
    }
  }

  /**
    An append that fails after everything but its newline is confirmed by the retry, and the next
    append of anyone takes the record away again: the marker is left without it.
  */
  lemma {:induction false} LostNewlineUnbacksMarker(sys: System, job: Job, now: Instant, later: Instant, other: Record)
    requires Appendable(sys, job, now) && sys.store.revision + 4 <= MAX_COUNTER && SafeStore(sys) && Sound(sys.ledger)
    requires now + LEASE_TTL_SECONDS * MICROSECONDS <= later && ExpiryFits(later, LEASE_TTL_SECONDS)
    requires ValidRecord(other) && !HasDuplicate(sys.ledger, other) && !SharesIdentity(job.record, other)
    ensures var w := |sys.workers|;
      var torn := Run(sys, AppendEvents(w, job, now, Some(MissingNewline)) + [Crash(w)]);
      var marked := Run(torn, RetryEvents(w + 1, job, later));
      var end := Next(marked, OtherAppend(other, None));
      && IsCompleted(marked.store.completions, job.key) && Holds(marked.ledger, job.record)
      && IsCompleted(end.store.completions, job.key) && !Holds(end.ledger, job.record)
      && !Spares(marked, OtherAppend(other, None))
  {
    var w := |sys.workers|;
    RunAppends(sys, job, now, Some(MissingNewline));
    var mid := Run(sys, AppendEvents(w, job, now, Some(MissingNewline)));
    RunConcat(sys, AppendEvents(w, job, now, Some(MissingNewline)), [Crash(w)]);
    var torn := Next(mid, Crash(w));
    assert Run(mid, [Crash(w)]) == torn;
    assert torn.ledger.lines[|sys.ledger.lines|] == Entry(job.record);
    RetryFinishesInterruptedRun(torn, job, later);
    var marked := Run(torn, RetryEvents(w + 1, job, later));
    NextAppendSpoils(marked, sys.ledger.lines, job, other);
  }

  /** The append behind an unterminated line takes the record of that line. */
  lemma {:induction false} NextAppendSpoils(marked: System, lines: seq<Line>, job: Job, other: Record)
    requires marked.ledger == Content(true, lines + [Entry(job.record)], false) && Clean(marked.ledger)
    requires IsCompleted(marked.store.completions, job.key) && job.key in marked.marked && marked.marked[job.key] == job.record
    requires Entry(job.record) !in lines
    requires ValidRecord(other) && !HasDuplicate(Content(true, lines, true), other) && !SharesIdentity(job.record, other)
    ensures var end := Next(marked, OtherAppend(other, None));
      end.store == marked.store && !Holds(end.ledger, job.record) && !Spares(marked, OtherAppend(other, None))
  {
    forall i | 0 <= i < |marked.ledger.lines| && marked.ledger.lines[i].Entry?
      ensures !SharesIdentity(marked.ledger.lines[i].record, other)
    {
      assert i < |lines| ==> Content(true, lines, true).lines[i] == marked.ledger.lines[i];
    }
    var end := Next(marked, OtherAppend(other, None));
    assert end.ledger.lines == lines + [Rejected];
    assert Needed(marked, job.record);
  }

  /** Both are reached from an initialized store and an absent ledger. */
  lemma {:induction false} TheseRunsExist() returns (first: Job, second: Job, later: Instant)
    ensures var start := Start(0, 0);
      && first.key == second.key && !SharesIdentity(first.record, second.record)
      && Appendable(start, first, 0) && Appendable(start, second, later)
      && SafeStore(start) && SafeLedger(start) && Durable(start)
      && LEASE_TTL_SECONDS * MICROSECONDS <= later && start.store.revision + 4 <= MAX_COUNTER
  {
    first := Job("w", "k", Record("a", "a", "trade-log-" + "a", ""));
    second := Job("v", "k", Record("b", "b", "trade-log-" + "b", ""));
    later := LEASE_TTL_SECONDS * MICROSECONDS;
    InitialIsValid(0, 0);
    assert ("trade-log-" + "a")[10] != ("trade-log-" + "b")[10];
    assert first.record.runId[0] != second.record.runId[0];
  }
}
