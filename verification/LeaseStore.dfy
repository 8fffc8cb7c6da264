/**
  The lease store as an object over its two files. A method body runs while the
  store lock is held, so each call is one atomic step; the caller supplies the
  clock reading and whether the file system lets the state file be replaced.
*/
module LeaseStores {
  import opened Outcomes
  import opened Leases
  import opened LeaseRuns
  import opened Ledgers

  /** The full validation of a state read from disk or about to be written. */
  method ValidateState(s: State) returns (ok: bool)
    ensures ok <==> ValidState(s)
  {
    if !(0 <= s.fenceGeneration <= s.revision <= MAX_COUNTER) { return false; }
    if !ValidKillSwitch(s.killSwitch, s.lastMutationAt) { return false; }
    if !ValidRelease(s) { return false; }
    if |s.completions| > MAX_COMPLETION_MARKERS { return false; }
    var seen: set<string> := {};
    var previousFence := 0;
    var previousCompletedAt: Option<Instant> := None;
    var i := 0;
    while i < |s.completions|
      invariant 0 <= i <= |s.completions|
      invariant seen == set j | 0 <= j < i :: s.completions[j].key
      invariant ValidCompletions(s.completions[..i], s.fenceGeneration, s.lastMutationAt)
      invariant previousFence == if i == 0 then 0 else s.completions[i - 1].fence
      invariant previousCompletedAt == if i == 0 then None else Some(s.completions[i - 1].completedAt)
    {
      var marker := s.completions[i];
      var before, upTo := s.completions[..i], s.completions[..i + 1];
      assert upTo[i] == marker && upTo[..i] == before;
      if !ValidCompletion(marker, s.fenceGeneration, s.lastMutationAt) { return false; }
      if marker.key in seen {
        ghost var j :| 0 <= j < i && s.completions[j].key == marker.key;
        assert !Ordered(s.completions[j], s.completions[i]);
        return false;
      }
      if marker.fence <= previousFence
         || (previousCompletedAt.Some? && marker.completedAt < previousCompletedAt.value) {
        assert i > 0 ==> !Ordered(s.completions[i - 1], s.completions[i]);
        return false;
      }
      forall j | 0 <= j < i ensures Ordered(upTo[j], upTo[i]) {
        assert upTo[j] == before[j];
        assert s.completions[j].key in seen;
        if j < i - 1 { assert Ordered(before[j], before[i - 1]); }
      }
      forall j | 0 <= j <= i ensures ValidCompletion(upTo[j], s.fenceGeneration, s.lastMutationAt) {
        assert j < i ==> upTo[j] == before[j];
      }
      forall j, k | 0 <= j < k <= i ensures Ordered(upTo[j], upTo[k]) {
        if k < i { assert upTo[j] == before[j] && upTo[k] == before[k]; }
      }
      seen := seen + {marker.key};
      previousFence, previousCompletedAt := marker.fence, Some(marker.completedAt);
      i := i + 1;
    }
    assert s.completions[..i] == s.completions;
    if s.lease.None? { return true; }
    assert IsCompleted(s.completions, s.lease.value.key) <==> s.lease.value.key in seen;
    return ValidLease(s);
  }

  class LeaseStore {
    // The epoch written into the lock file when it was created.
    var anchor: Option<nat>
    var file: Option<State>

    constructor ()
      ensures anchor.None? && file.None?
    {
      anchor, file := None, None;
    }

    /** A lock and a state that belong together; what every operation but initialize needs. */
    ghost predicate Ready()
      reads this
    {
      anchor.Some? && file.Some? && ValidState(file.value) && file.value.epoch == anchor.value
    }

    method ReadState() returns (r: Result<State, Error>)
      ensures r.Ok? <==> Ready()
      ensures r.Ok? ==> file == Some(r.value)
    {
      if anchor.None? || file.None? { return Err(StoreMissing); }
      var ok := ValidateState(file.value);
      if !ok { return Err(StateInvalid); }
      if file.value.epoch != anchor.value { return Err(EpochMismatch); }
      return Ok(file.value);
    }

    method WriteState(next: State, writable: bool) returns (error: Option<Error>)
      modifies this`file
      ensures anchor.Some? && ValidState(next) && next.epoch == anchor.value && writable
              ==> error.None? && file == Some(next)
      ensures error.Some? ==> unchanged(this)
      ensures anchor.Some? && ValidState(next) && next.epoch == anchor.value && !writable ==> error == Some(WriteFailed)
    {
      var ok := ValidateState(next);
      if !ok { return Some(StateInvalid); }
      if anchor.None? || next.epoch != anchor.value { return Some(EpochMismatch); }
      if !writable { return Some(WriteFailed); }
      file := Some(next);
      return None;
    }

    /** Initialization creates the pair of files once; a second call only checks the clock. */
    method Initialize(freshEpoch: nat, now: Instant, writable: bool) returns (r: Result<nat, Error>)
      modifies this
      ensures old(anchor.None? && file.None?) && writable ==>
                Ready() && file == Some(Initial(freshEpoch, now)) && r == Ok(freshEpoch)
      ensures old(anchor.None? && file.Some?) ==> unchanged(this) && r == Err(StoreMissing)
      ensures old(anchor.Some?) ==> unchanged(this)
      ensures old(anchor.Some? && file.None?) ==> r == Err(StateDeleted)
      ensures old(Ready()) ==>
                r == if now < old(file).value.lastMutationAt then Err(TimeReversed) else Ok(old(anchor).value)
    {
      if anchor.None? {
        if file.Some? { return Err(StoreMissing); }
        anchor := Some(freshEpoch);
        InitialIsValid(freshEpoch, now);
        var error := WriteState(Initial(freshEpoch, now), writable);
        if error.Some? { return Err(error.value); }
        return Ok(freshEpoch);
      }
      if file.None? { return Err(StateDeleted); }
      var read := ReadState();
      if read.Err? { return Err(read.error); }
      if now < read.value.lastMutationAt { return Err(TimeReversed); }
      return Ok(anchor.value);
    }

    method Acquire(holder: string, key: string, ttl: int, now: Instant, writable: bool) returns (r: Result<Reply, Error>)
      modifies this`file
      ensures old(Ready()) ==>
        var step := Step(old(file).value, Call(OpAcquire(holder, key, ttl), now, writable));
        Ready() && file == Some(step.state) && r == step.reply
      ensures !old(Ready()) ==> unchanged(this) && r.Err?
    {
      if !ValidOpaque(holder) || !ValidOpaque(key) { return Err(InvalidOpaque); }
      if !(1 <= ttl <= MAX_TTL_SECONDS) { return Err(InvalidTtl); }
      var read := ReadState();
      if read.Err? { return Err(read.error); }
      var state := read.value;
      AcquireFollows(state, holder, key, ttl, now);
      if now < state.lastMutationAt { return Err(TimeReversed); }
      if state.killSwitch.engaged { return Ok(KillSwitchBlocked); }
      var completed := HasMarker(state.completions, key);
      if completed { return Ok(AlreadyCompleted(false)); }
      if state.lease.Some? && now < state.lease.value.expiresAt {
        var lease := state.lease.value;
        if lease.holder == holder && lease.key == key { return Ok(Held(lease.fence, lease.expiresAt)); }
        return Ok(Busy);
      }
      if |state.completions| >= MAX_COMPLETION_MARKERS { return Ok(CapacityExhausted); }
      if state.fenceGeneration >= MAX_COUNTER { return Err(CounterExhausted); }
      var generation := state.fenceGeneration + 1;
      if !ExpiryFits(now, ttl) { return Err(ExpiryOutOfRange); }
      var expiresAt := now + ttl * MICROSECONDS;
      if state.revision >= MAX_COUNTER { return Err(CounterExhausted); }
      state := state.(fenceGeneration := generation);
      state := state.(revision := state.revision + 1);
      state := state.(lastMutationAt := now);
      state := state.(lastRelease := None);
      state := state.(lease := Some(Lease(holder, key, generation, now, now, expiresAt)));
      var error := WriteState(state, writable);
      if error.Some? { return Err(error.value); }
      return Ok(Acquired(generation, expiresAt));
    }

    method HasMarker(completions: seq<Completion>, key: string) returns (found: bool)
      ensures found <==> IsCompleted(completions, key)
    {
      for i := 0 to |completions|
        invariant forall j :: 0 <= j < i ==> completions[j].key != key
      {
        if completions[i].key == key { return true; }
      }
      return false;
    }

    method Authorize(cred: Credential, now: Instant) returns (r: Result<Reply, Error>)
      ensures Ready() ==> r == Step(file.value, Call(OpAuthorize(cred), now, true)).reply
      ensures !Ready() ==> r.Err?
    {
      if Malformed(cred).Some? { return Err(Malformed(cred).value); }
      var read := ReadState();
      if read.Err? { return Err(read.error); }
      if read.value.epoch != cred.epoch { return Err(EpochMismatch); }
      if now < read.value.lastMutationAt { return Err(TimeReversed); }
      return Ok(AuthorizationReason(read.value, cred, now));
    }

    method Renew(cred: Credential, ttl: int, now: Instant, writable: bool) returns (r: Result<Reply, Error>)
      modifies this`file
      ensures old(Ready()) ==>
        var step := Step(old(file).value, Call(OpRenew(cred, ttl), now, writable));
        Ready() && file == Some(step.state) && r == step.reply
      ensures !old(Ready()) ==> unchanged(this) && r.Err?
    {
      if Malformed(cred).Some? { return Err(Malformed(cred).value); }
      if !(1 <= ttl <= MAX_TTL_SECONDS) { return Err(InvalidTtl); }
      var read := ReadState();
      if read.Err? { return Err(read.error); }
      var state := read.value;
      RenewFollows(state, cred, ttl, now);
      if state.epoch != cred.epoch { return Err(EpochMismatch); }
      if now < state.lastMutationAt { return Err(TimeReversed); }
      var reason := AuthorizationReason(state, cred, now);
      if reason != Authorized { return Ok(reason); }
      var lease := state.lease.value;
      if !ExpiryFits(now, ttl) { return Err(ExpiryOutOfRange); }
      var expiresAt := now + ttl * MICROSECONDS;
      if lease.updatedAt == now && lease.expiresAt == expiresAt { return Ok(Renewed(expiresAt)); }
      if state.revision >= MAX_COUNTER { return Err(CounterExhausted); }
      state := state.(revision := state.revision + 1);
      state := state.(lastMutationAt := now);
      lease := lease.(updatedAt := now);
      lease := lease.(expiresAt := expiresAt);
      state := state.(lease := Some(lease));
      var error := WriteState(state, writable);
      if error.Some? { return Err(error.value); }
      return Ok(Renewed(expiresAt));
    }

    /** The shared body of release and complete. */
    method FinishActive(completing: bool, cred: Credential, now: Instant, writable: bool) returns (r: Result<Reply, Error>)
      modifies this`file
      ensures old(Ready()) && completing ==>
        var step := Step(old(file).value, Call(OpComplete(cred), now, writable));
        Ready() && file == Some(step.state) && r == step.reply
      ensures old(Ready()) && !completing ==>
        var step := Step(old(file).value, Call(OpRelease(cred), now, writable));
        Ready() && file == Some(step.state) && r == step.reply
      ensures !old(Ready()) ==> unchanged(this) && r.Err?
    {
      if Malformed(cred).Some? { return Err(Malformed(cred).value); }
      var read := ReadState();
      if read.Err? { return Err(read.error); }
      var state := read.value;
      if state.epoch != cred.epoch { return Err(EpochMismatch); }
      var marker := None;
      if !completing {
        var last := state.lastRelease;
        if last.Some? && SameIdentity(last.value.holder, last.value.key, cred) && last.value.fence == cred.fence {
          return Ok(AlreadyReleased);
        }
      } else {
        marker := FindMarker(state, cred);
        if marker == Some(true) { return Ok(AlreadyCompleted(true)); }
      }
      if now < state.lastMutationAt { return Err(TimeReversed); }
      if completing && marker.Some? { return Ok(AlreadyCompleted(false)); }
      var reason := AuthorizationReason(state, cred, now);
      if reason != Authorized { return Ok(reason); }
      if completing && |state.completions| >= MAX_COMPLETION_MARKERS { return Ok(CapacityExhausted); }
      if Exhausted(state) { return Err(CounterExhausted); }
      if completing {
        CompletionStaysValid(state, cred, now, now);
      } else {
        ReleaseFollows(state, cred, now);
      }
      state := state.(fenceGeneration := state.fenceGeneration + 1);
      state := state.(revision := state.revision + 1);
      state := state.(lastMutationAt := now);
      state := state.(lease := None);
      if completing {
        state := state.(completions := state.completions + [Completion(cred.holder, cred.key, cred.fence, now)]);
        state := state.(lastRelease := None);
      } else {
        state := state.(lastRelease := Some(Release(cred.holder, cred.key, cred.fence, now)));
      }
      var error := WriteState(state, writable);
      if error.Some? { return Err(error.value); }
      return Ok(if completing then Completed else Released);
    }

    /** The first marker of the key: absent, or present and whether this credential made it. */
    method FindMarker(state: State, cred: Credential) returns (marker: Option<bool>)
      requires ValidState(state)
      ensures marker.Some? <==> IsCompleted(state.completions, cred.key)
      ensures marker.Some? ==> (marker.value <==> CompletedBy(state.completions, cred))
    {
      var cs := state.completions;
      for i := 0 to |cs|
        invariant forall j :: 0 <= j < i ==> cs[j].key != cred.key
      {
        if cs[i].key == cred.key {
          assert forall j :: i < j < |cs| ==> Ordered(cs[i], cs[j]);
          return Some(cs[i].holder == cred.holder && cs[i].fence == cred.fence);
        }
      }
      return None;
    }

    method SetKillSwitch(engage: bool, reason: KillReason, now: Instant, writable: bool) returns (r: Result<Reply, Error>)
      requires reason == OperatorReenable <==> !engage
      modifies this`file
      ensures old(Ready()) && engage ==>
        var step := Step(old(file).value, Call(OpEngage(reason), now, writable));
        Ready() && file == Some(step.state) && r == step.reply
      ensures old(Ready()) && !engage ==>
        var step := Step(old(file).value, Call(OpReenable, now, writable));
        Ready() && file == Some(step.state) && r == step.reply
      ensures !old(Ready()) ==> unchanged(this) && r.Err?
    {
      var read := ReadState();
      if read.Err? { return Err(read.error); }
      var state := read.value;
      SetKillSwitchFollows(state, engage, reason, now);
      if now < state.lastMutationAt { return Err(TimeReversed); }
      if state.killSwitch.engaged == engage { return Ok(if engage then AlreadyEngaged else AlreadyEnabled); }
      if Exhausted(state) { return Err(CounterExhausted); }
      state := state.(fenceGeneration := state.fenceGeneration + 1);
      state := state.(revision := state.revision + 1);
      state := state.(lastMutationAt := now);
      state := state.(killSwitch := KillSwitch(engage, Some(reason), Some(now)));
      state := state.(lease := None);
      var error := WriteState(state, writable);
      if error.Some? { return Err(error.value); }
      return Ok(if engage then Engaged else ReEnabled);
    }

    /**
      The ledger append runs between the authorization check and the state write, all under the store lock.
      A callback that raises leaves the lease active; a write that fails after it leaves the record behind.
    */
    method CompleteFenced(cred: Credential, ledger: LedgerFile, record: Record, appendFault: Option<Torn>,
                          now: Instant, completedAt: Instant, writable: bool) returns (r: Result<Reply, Error>)
      requires ledger as object != this as object
      modifies this`file, ledger
      ensures old(Ready()) && EnterFenced(old(file).value, cred, now) != Ok(Authorized) ==>
        unchanged(this) && unchanged(ledger) && r == EnterFenced(old(file).value, cred, now)
      ensures old(Ready()) && EnterFenced(old(file).value, cred, now) == Ok(Authorized) ==>
        var effect := Confirmed(old(ledger.content), record, appendFault);
        var commit := CommitFenced(old(file).value, cred, now, completedAt);
        && Ready() && ledger.content == effect.file
        && (effect.reply.Err? ==> unchanged(this) && r == Err(CallbackFailed))
        && (effect.reply.Ok? && commit.reply.Ok? && !writable ==> unchanged(this) && r == Err(WriteFailed))
        && (effect.reply.Ok? && (commit.reply.Err? || writable) ==> file == Some(commit.state) && r == commit.reply)
      ensures !old(Ready()) ==> unchanged(this) && unchanged(ledger) && r.Err?
    {
      if Malformed(cred).Some? { return Err(Malformed(cred).value); }
      var read := ReadState();
      if read.Err? { return Err(read.error); }
      var state := read.value;
      if state.epoch != cred.epoch { return Err(EpochMismatch); }
      var marker := FindMarker(state, cred);
      if marker.Some? { return Ok(AlreadyCompleted(marker.value)); }
      if now < state.lastMutationAt { return Err(TimeReversed); }
      var reason := AuthorizationReason(state, cred, now);
      if reason != Authorized { return Ok(reason); }
      if |state.completions| >= MAX_COMPLETION_MARKERS { return Ok(CapacityExhausted); }
      var appended := ledger.AppendOrConfirm(record, appendFault);
      if appended.Err? { return Err(CallbackFailed); }
      if completedAt < now { return Err(TimeReversed); }
      if completedAt < state.lastMutationAt { return Err(TimeReversed); }
      if Exhausted(state) { return Err(CounterExhausted); }
      CompletionStaysValid(state, cred, now, completedAt);
      state := state.(fenceGeneration := state.fenceGeneration + 1);
      state := state.(revision := state.revision + 1);
      state := state.(lastMutationAt := completedAt);
      state := state.(lease := None);
      state := state.(lastRelease := None);
      state := state.(completions := state.completions + [Completion(cred.holder, cred.key, cred.fence, completedAt)]);
      var error := WriteState(state, writable);
      if error.Some? { return Err(error.value); }
      return Ok(Completed);
    }
  }
}
