/**
  The persistent record of one simulation worker lease and what each store
  operation does to it, as functions from the state read under the store lock
  to the state written before the lock is dropped.

  Instants are microseconds since 0001-01-01T00:00:00Z. The hash of a holder
  or of an idempotency key is injective here, so records hold the opaque
  string itself, one char for each UTF-8 byte.
*/
module Leases {
  import opened Outcomes

  const MAX_COUNTER: int := 0x7FFF_FFFF_FFFF_FFFF
  const MAX_COMPLETION_MARKERS: int := 4096
  const MAX_TTL_SECONDS: int := 86400
  const MAX_OPAQUE_VALUE_BYTES: int := 512
  const MICROSECONDS: int := 1_000_000
  // 3652059 days: the last instant is 9999-12-31T23:59:59.999999Z.
  const INSTANT_LIMIT: int := 315_537_897_600_000_000

  type Instant = t: int | 0 <= t < INSTANT_LIMIT

  datatype KillReason = OperatorStop | RiskStop | Maintenance | OperatorReenable
  datatype KillSwitch = KillSwitch(engaged: bool, reason: Option<KillReason>, changedAt: Option<Instant>)
  datatype Lease = Lease(holder: string, key: string, fence: int,
                         acquiredAt: Instant, updatedAt: Instant, expiresAt: Instant)
  datatype Release = Release(holder: string, key: string, fence: int, releasedAt: Instant)
  datatype Completion = Completion(holder: string, key: string, fence: int, completedAt: Instant)

  datatype State = State(
    epoch: nat,
    revision: int,
    fenceGeneration: int,
    lastMutationAt: Instant,
    killSwitch: KillSwitch,
    lease: Option<Lease>,
    lastRelease: Option<Release>,
    completions: seq<Completion>)

  datatype Credential = Credential(holder: string, key: string, epoch: nat, fence: int)

  datatype Error =
    | InvalidOpaque | InvalidTtl | InvalidFence | InvalidReason
    | StoreMissing | StateDeleted | EpochMismatch | TimeReversed
    | CounterExhausted | ExpiryOutOfRange | StateInvalid | WriteFailed | CallbackFailed

  datatype Reply =
    | Acquired(fence: int, expiresAt: Instant) | Held(fence: int, expiresAt: Instant)
    | Busy | AlreadyCompleted(byCaller: bool) | CapacityExhausted
    | Authorized | KillSwitchBlocked | NotHeld | Expired | StaleOrUnauthorized
    | Renewed(expiresAt: Instant)
    | Released | AlreadyReleased | Completed
    | Engaged | ReEnabled | AlreadyEngaged | AlreadyEnabled

  datatype Outcome = Outcome(state: State, reply: Result<Reply, Error>, callbackRan: bool)

  // ---------------------------------------------------------------- validity

  predicate ValidOpaque(s: string) { 1 <= |s| <= MAX_OPAQUE_VALUE_BYTES }

  predicate ValidFence(fence: int) { 1 <= fence <= MAX_COUNTER }

  predicate ValidKillSwitch(k: KillSwitch, lastMutationAt: Instant) {
    && (k.changedAt.Some? ==> k.changedAt.value <= lastMutationAt)
    && (if k.engaged then
          k.changedAt.Some? && k.reason in {Some(OperatorStop), Some(RiskStop), Some(Maintenance)}
        else if k.changedAt.None? then k.reason.None?
        else k.reason == Some(OperatorReenable))
  }

  predicate ValidLease(s: State) {
    s.lease.Some? ==>
      var lease := s.lease.value;
      && ValidOpaque(lease.holder) && ValidOpaque(lease.key) && ValidFence(lease.fence)
      && lease.acquiredAt <= lease.updatedAt == s.lastMutationAt
      && lease.updatedAt < lease.expiresAt
      && lease.expiresAt - lease.updatedAt <= MAX_TTL_SECONDS * MICROSECONDS
      && lease.fence == s.fenceGeneration
      && !s.killSwitch.engaged
      && |s.completions| < MAX_COMPLETION_MARKERS
      && !IsCompleted(s.completions, lease.key)
  }

  predicate ValidRelease(s: State) {
    s.lastRelease.Some? ==>
      var release := s.lastRelease.value;
      && ValidOpaque(release.holder) && ValidOpaque(release.key) && ValidFence(release.fence)
      && release.releasedAt <= s.lastMutationAt
      && release.fence < s.fenceGeneration
      && s.lease.None?
  }

  predicate ValidCompletion(c: Completion, fenceGeneration: int, lastMutationAt: Instant) {
    && ValidOpaque(c.holder) && ValidOpaque(c.key) && ValidFence(c.fence)
    && c.completedAt <= lastMutationAt && c.fence < fenceGeneration
  }

  /** Markers in the order they were persisted, one for each key. */
  predicate Ordered(a: Completion, b: Completion) {
    a.key != b.key && a.fence < b.fence && a.completedAt <= b.completedAt
  }

  predicate ValidCompletions(cs: seq<Completion>, fenceGeneration: int, lastMutationAt: Instant) {
    && |cs| <= MAX_COMPLETION_MARKERS
    && (forall i :: 0 <= i < |cs| ==> ValidCompletion(cs[i], fenceGeneration, lastMutationAt))
    && (forall i, j :: 0 <= i < j < |cs| ==> Ordered(cs[i], cs[j]))
  }

  predicate ValidState(s: State) {
    && 0 <= s.fenceGeneration <= s.revision <= MAX_COUNTER
    && ValidKillSwitch(s.killSwitch, s.lastMutationAt)
    && ValidLease(s)
    && ValidRelease(s)
    && ValidCompletions(s.completions, s.fenceGeneration, s.lastMutationAt)
  }

  predicate IsCompleted(cs: seq<Completion>, key: string) {
    exists i :: 0 <= i < |cs| && cs[i].key == key
  }

  // -------------------------------------------------------------- operations

  function Initial(epoch: nat, now: Instant): State {
    State(epoch, 0, 0, now, KillSwitch(false, None, None), None, None, [])
  }

  function Refused(s: State, error: Error): Outcome { Outcome(s, Err(error), false) }

  function Unchanged(s: State, reply: Reply): Outcome { Outcome(s, Ok(reply), false) }

  predicate SameIdentity(holder: string, key: string, cred: Credential) {
    holder == cred.holder && key == cred.key
  }

  function AuthorizationReason(s: State, cred: Credential, now: Instant): Reply {
    if s.killSwitch.engaged then KillSwitchBlocked
    else if s.lease.None? then NotHeld
    else if now >= s.lease.value.expiresAt then Expired
    else if !SameIdentity(s.lease.value.holder, s.lease.value.key, cred) || s.lease.value.fence != cred.fence then
      StaleOrUnauthorized
    else Authorized
  }

  /** The checks on a credential that need no state. */
  function Malformed(cred: Credential): Option<Error> {
    if !ValidOpaque(cred.holder) || !ValidOpaque(cred.key) then Some(InvalidOpaque)
    else if !ValidFence(cred.fence) then Some(InvalidFence)
    else None
  }

  /** The checks every credentialled call makes before it looks at the lease. */
  function CredentialError(s: State, cred: Credential): Option<Error> {
    if Malformed(cred).Some? then Malformed(cred)
    else if s.epoch != cred.epoch then Some(EpochMismatch)
    else None
  }

  predicate Exhausted(s: State) { s.fenceGeneration >= MAX_COUNTER || s.revision >= MAX_COUNTER }

  predicate ExpiryFits(now: Instant, ttl: int) { now + ttl * MICROSECONDS < INSTANT_LIMIT }

  function Acquire(s: State, holder: string, key: string, ttl: int, now: Instant): Outcome {
    if !ValidOpaque(holder) || !ValidOpaque(key) then Refused(s, InvalidOpaque)
    else if !(1 <= ttl <= MAX_TTL_SECONDS) then Refused(s, InvalidTtl)
    else if now < s.lastMutationAt then Refused(s, TimeReversed)
    else if s.killSwitch.engaged then Unchanged(s, KillSwitchBlocked)
    else if IsCompleted(s.completions, key) then Unchanged(s, AlreadyCompleted(false))
    else if s.lease.Some? && now < s.lease.value.expiresAt then
      if s.lease.value.holder == holder && s.lease.value.key == key
      then Unchanged(s, Held(s.lease.value.fence, s.lease.value.expiresAt))
      else Unchanged(s, Busy)
    else if |s.completions| >= MAX_COMPLETION_MARKERS then Unchanged(s, CapacityExhausted)
    else if s.fenceGeneration >= MAX_COUNTER then Refused(s, CounterExhausted)
    else if !ExpiryFits(now, ttl) then Refused(s, ExpiryOutOfRange)
    else if s.revision >= MAX_COUNTER then Refused(s, CounterExhausted)
    else
      var fence := s.fenceGeneration + 1;
      var expiresAt := now + ttl * MICROSECONDS;
      Outcome(s.(fenceGeneration := fence, revision := s.revision + 1, lastMutationAt := now, lastRelease := None,
                 lease := Some(Lease(holder, key, fence, now, now, expiresAt))),
              Ok(Acquired(fence, expiresAt)), false)
  }

  function Authorize(s: State, cred: Credential, now: Instant): Outcome {
    var error := CredentialError(s, cred);
    if error.Some? then Refused(s, error.value)
    else if now < s.lastMutationAt then Refused(s, TimeReversed)
    else Unchanged(s, AuthorizationReason(s, cred, now))
  }

  function Renew(s: State, cred: Credential, ttl: int, now: Instant): Outcome {
    if Malformed(cred).Some? then Refused(s, Malformed(cred).value)
    else if !(1 <= ttl <= MAX_TTL_SECONDS) then Refused(s, InvalidTtl)
    else if s.epoch != cred.epoch then Refused(s, EpochMismatch)
    else if now < s.lastMutationAt then Refused(s, TimeReversed)
    else
      var reason := AuthorizationReason(s, cred, now);
      if reason != Authorized then Unchanged(s, reason)
      else if !ExpiryFits(now, ttl) then Refused(s, ExpiryOutOfRange)
      else
        var expiresAt := now + ttl * MICROSECONDS;
        var lease := s.lease.value;
        if lease.updatedAt == now && lease.expiresAt == expiresAt then Unchanged(s, Renewed(expiresAt))
        else if s.revision >= MAX_COUNTER then Refused(s, CounterExhausted)
        else
          Outcome(s.(revision := s.revision + 1, lastMutationAt := now,
                     lease := Some(lease.(updatedAt := now, expiresAt := expiresAt))),
                  Ok(Renewed(expiresAt)), false)
  }

  /** The state after the active lease of `cred` is released at `now`. */
  function AfterRelease(s: State, cred: Credential, now: Instant): State {
    s.(fenceGeneration := s.fenceGeneration + 1, revision := s.revision + 1, lastMutationAt := now, lease := None,
       lastRelease := Some(Release(cred.holder, cred.key, cred.fence, now)))
  }

  /** The state after the active lease of `cred` is completed at `now`. */
  function AfterComplete(s: State, cred: Credential, now: Instant): State {
    s.(fenceGeneration := s.fenceGeneration + 1, revision := s.revision + 1, lastMutationAt := now, lease := None,
       lastRelease := None,
       completions := s.completions + [Completion(cred.holder, cred.key, cred.fence, now)])
  }

  function ReleaseLease(s: State, cred: Credential, now: Instant): Outcome {
    var error := CredentialError(s, cred);
    if error.Some? then Refused(s, error.value)
    else if s.lastRelease.Some? && SameIdentity(s.lastRelease.value.holder, s.lastRelease.value.key, cred)
            && s.lastRelease.value.fence == cred.fence then Unchanged(s, AlreadyReleased)
    else if now < s.lastMutationAt then Refused(s, TimeReversed)
    else
      var reason := AuthorizationReason(s, cred, now);
      if reason != Authorized then Unchanged(s, reason)
      else if Exhausted(s) then Refused(s, CounterExhausted)
      else Outcome(AfterRelease(s, cred, now), Ok(Released), false)
  }

  predicate CompletedBy(cs: seq<Completion>, cred: Credential) {
    exists i :: 0 <= i < |cs| && cs[i].key == cred.key && cs[i].holder == cred.holder && cs[i].fence == cred.fence
  }

  function Complete(s: State, cred: Credential, now: Instant): Outcome {
    var error := CredentialError(s, cred);
    if error.Some? then Refused(s, error.value)
    else if CompletedBy(s.completions, cred) then Unchanged(s, AlreadyCompleted(true))
    else if now < s.lastMutationAt then Refused(s, TimeReversed)
    else if IsCompleted(s.completions, cred.key) then Unchanged(s, AlreadyCompleted(false))
    else
      var reason := AuthorizationReason(s, cred, now);
      if reason != Authorized then Unchanged(s, reason)
      else if |s.completions| >= MAX_COMPLETION_MARKERS then Unchanged(s, CapacityExhausted)
      else if Exhausted(s) then Refused(s, CounterExhausted)
      else Outcome(AfterComplete(s, cred, now), Ok(Completed), false)
  }

  /** What complete_fenced finds before it runs the callback: Authorized, or why it will not run. */
  function EnterFenced(s: State, cred: Credential, now: Instant): Result<Reply, Error> {
    var error := CredentialError(s, cred);
    if error.Some? then Err(error.value)
    else if IsCompleted(s.completions, cred.key) then Ok(AlreadyCompleted(CompletedBy(s.completions, cred)))
    else if now < s.lastMutationAt then Err(TimeReversed)
    else
      var reason := AuthorizationReason(s, cred, now);
      if reason != Authorized then Ok(reason)
      else if |s.completions| >= MAX_COMPLETION_MARKERS then Ok(CapacityExhausted)
      else Ok(Authorized)
  }

  /** What complete_fenced does with a second clock reading once the callback has returned. */
  function CommitFenced(s: State, cred: Credential, now: Instant, completedAt: Instant): Outcome {
    if completedAt < now || completedAt < s.lastMutationAt then Outcome(s, Err(TimeReversed), true)
    else if Exhausted(s) then Outcome(s, Err(CounterExhausted), true)
    else Outcome(AfterComplete(s, cred, completedAt), Ok(Completed), true)
  }

  function CompleteFenced(s: State, cred: Credential, now: Instant, completedAt: Instant, callbackReturns: bool): Outcome {
    var entry := EnterFenced(s, cred, now);
    if entry != Ok(Authorized) then Outcome(s, entry, false)
    else if !callbackReturns then Outcome(s, Err(CallbackFailed), true)
    else CommitFenced(s, cred, now, completedAt)
  }

  function SetKillSwitch(s: State, engage: bool, reason: KillReason, now: Instant): Outcome {
    if now < s.lastMutationAt then Refused(s, TimeReversed)
    else if s.killSwitch.engaged == engage then Unchanged(s, if engage then AlreadyEngaged else AlreadyEnabled)
    else if Exhausted(s) then Refused(s, CounterExhausted)
    else
      Outcome(s.(fenceGeneration := s.fenceGeneration + 1, revision := s.revision + 1, lastMutationAt := now,
                 killSwitch := KillSwitch(engage, Some(reason), Some(now)), lease := None),
              Ok(if engage then Engaged else ReEnabled), false)
  }

  function EngageKillSwitch(s: State, reason: KillReason, now: Instant): Outcome {
    if reason == OperatorReenable then Refused(s, InvalidReason) else SetKillSwitch(s, true, reason, now)
  }

  function Reenable(s: State, now: Instant): Outcome { SetKillSwitch(s, false, OperatorReenable, now) }

  // ------------------------------------------------------------------- steps

  datatype Op =
    | OpAcquire(holder: string, key: string, ttl: int)
    | OpAuthorize(cred: Credential)
    | OpRenew(cred: Credential, ttl: int)
    | OpRelease(cred: Credential)
    | OpComplete(cred: Credential)
    | OpCompleteFenced(cred: Credential, completedAt: Instant, callbackReturns: bool)
    | OpEngage(reason: KillReason)
    | OpReenable

  /** One call: what is asked, the clock reading, and whether the state file can be replaced. */
  datatype Call = Call(op: Op, now: Instant, writable: bool)

  function Perform(s: State, op: Op, now: Instant): Outcome {
    match op
    case OpAcquire(holder, key, ttl) => Acquire(s, holder, key, ttl, now)
    case OpAuthorize(cred) => Authorize(s, cred, now)
    case OpRenew(cred, ttl) => Renew(s, cred, ttl, now)
    case OpRelease(cred) => ReleaseLease(s, cred, now)
    case OpComplete(cred) => Complete(s, cred, now)
    case OpCompleteFenced(cred, completedAt, ok) => CompleteFenced(s, cred, now, completedAt, ok)
    case OpEngage(reason) => EngageKillSwitch(s, reason, now)
    case OpReenable => Reenable(s, now)
  }

  /** A call whose write fails raises and leaves the file as it was. */
  function Step(s: State, call: Call): Outcome {
    var outcome := Perform(s, call.op, call.now);
    if outcome.state != s && !call.writable then Outcome(s, Err(WriteFailed), outcome.callbackRan) else outcome
  }

  predicate Uses(op: Op, cred: Credential) {
    (op.OpAuthorize? || op.OpRenew? || op.OpRelease? || op.OpComplete? || op.OpCompleteFenced?) && op.cred == cred
  }

  // --------------------------------------------------------- state invariant

  /** Each completion consumes two generations, the one it held and the one it left behind. */
  predicate Spread(s: State) {
    var cs := s.completions;
    && (forall i :: 0 <= i < |cs| ==> 2 * i + 1 <= cs[i].fence)
    && (forall i :: 0 < i < |cs| ==> cs[i - 1].fence + 2 <= cs[i].fence)
    && (s.lease.Some? && cs != [] ==> cs[|cs| - 1].fence + 2 <= s.fenceGeneration)
  }

  predicate Inv(s: State) { ValidState(s) && Spread(s) }

  lemma {:induction false} InitialIsValid(epoch: nat, now: Instant)
    ensures Inv(Initial(epoch, now))
  {
  }

  lemma {:induction false} CompletionStaysValid(s: State, cred: Credential, now: Instant, completedAt: Instant)
    requires ValidState(s) && AuthorizationReason(s, cred, now) == Authorized
    requires s.lastMutationAt <= completedAt && !Exhausted(s)
    ensures ValidState(AfterComplete(s, cred, completedAt))
    ensures Spread(s) ==> Spread(AfterComplete(s, cred, completedAt))
  {
    var cs := s.completions;
    var t := AfterComplete(s, cred, completedAt);
    assert t.completions[..|cs|] == cs;
    assert cred.fence == s.fenceGeneration;
    forall i | 0 <= i < |cs| ensures Ordered(cs[i], t.completions[|cs|]) {
      assert ValidCompletion(cs[i], s.fenceGeneration, s.lastMutationAt);
      assert !IsCompleted(cs, cred.key);
    }
  }
}
