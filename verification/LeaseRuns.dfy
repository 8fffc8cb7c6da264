/** Safety of the lease store over whole runs, for any schedule and any clock readings. */
module LeaseRuns {
  import opened Outcomes
  import opened Leases

  /** What one step keeps: a valid state, the epoch, every marker, and generations that never fall. */
  predicate Follows(s: State, o: Outcome) {
    && ValidState(o.state)
    && (Spread(s) ==> Spread(o.state))
    && o.reply != Err(StateInvalid)
    && o.state.epoch == s.epoch
    && s.fenceGeneration <= o.state.fenceGeneration
    && s.completions <= o.state.completions
  }

  lemma {:induction false} MarkersStayValid(s: State, t: State)
    requires ValidState(s) && t.completions == s.completions
    requires s.fenceGeneration <= t.fenceGeneration && s.lastMutationAt <= t.lastMutationAt
    ensures ValidCompletions(t.completions, t.fenceGeneration, t.lastMutationAt)
  {
    forall i | 0 <= i < |t.completions|
      ensures ValidCompletion(t.completions[i], t.fenceGeneration, t.lastMutationAt)
    {
      assert ValidCompletion(s.completions[i], s.fenceGeneration, s.lastMutationAt);
    }
  }

  lemma {:induction false} AcquireFollows(s: State, holder: string, key: string, ttl: int, now: Instant)
    requires ValidState(s)
    ensures Follows(s, Acquire(s, holder, key, ttl, now))
  {
    var t := Acquire(s, holder, key, ttl, now).state;
    MarkersStayValid(s, t);
    if t != s && s.completions != [] {
      assert ValidCompletion(s.completions[|s.completions| - 1], s.fenceGeneration, s.lastMutationAt);
    }
  }

  lemma {:induction false} RenewFollows(s: State, cred: Credential, ttl: int, now: Instant)
    requires ValidState(s)
    ensures Follows(s, Renew(s, cred, ttl, now))
  {
    MarkersStayValid(s, Renew(s, cred, ttl, now).state);
  }

  lemma {:induction false} ReleaseFollows(s: State, cred: Credential, now: Instant)
    requires ValidState(s)
    ensures Follows(s, ReleaseLease(s, cred, now))
  {
    MarkersStayValid(s, ReleaseLease(s, cred, now).state);
  }

  lemma {:induction false} CompleteFollows(s: State, cred: Credential, now: Instant)
    requires ValidState(s)
    ensures Follows(s, Complete(s, cred, now))
  {
    if Complete(s, cred, now).reply == Ok(Completed) {
      CompletionStaysValid(s, cred, now, now);
    }
  }

  lemma {:induction false} CompleteFencedFollows(s: State, cred: Credential, now: Instant, completedAt: Instant, callbackReturns: bool)
    requires ValidState(s)
    ensures Follows(s, CompleteFenced(s, cred, now, completedAt, callbackReturns))
  {
    if CompleteFenced(s, cred, now, completedAt, callbackReturns).reply == Ok(Completed) {
      CompletionStaysValid(s, cred, now, completedAt);
    }
  }

  lemma {:induction false} SetKillSwitchFollows(s: State, engage: bool, reason: KillReason, now: Instant)
    requires ValidState(s) && (reason == OperatorReenable <==> !engage)
    ensures Follows(s, SetKillSwitch(s, engage, reason, now))
  {
    MarkersStayValid(s, SetKillSwitch(s, engage, reason, now).state);
  }

  lemma {:induction false} PerformFollows(s: State, op: Op, now: Instant)
    requires ValidState(s)
    ensures Follows(s, Perform(s, op, now))
  {
    match op
    case OpAcquire(holder, key, ttl) => AcquireFollows(s, holder, key, ttl, now);
    case OpAuthorize(cred) => assert Perform(s, op, now).state == s;
    case OpRenew(cred, ttl) => RenewFollows(s, cred, ttl, now);
    case OpRelease(cred) => ReleaseFollows(s, cred, now);
    case OpComplete(cred) => CompleteFollows(s, cred, now);
    case OpCompleteFenced(cred, at, ok) => CompleteFencedFollows(s, cred, now, at, ok);
    case OpEngage(reason) =>
      if reason == OperatorReenable {
        assert Perform(s, op, now).state == s;
      } else {
        SetKillSwitchFollows(s, true, reason, now);
      }
    case OpReenable => SetKillSwitchFollows(s, false, OperatorReenable, now);
  }

  /** No write a call makes is ever rejected by the validation it is put through. */
  lemma {:induction false} StepFollows(s: State, call: Call)
    requires ValidState(s)
    ensures Follows(s, Step(s, call))
  {
    PerformFollows(s, call.op, call.now);
  }

  // -------------------------------------------------------------------- runs

  function After(s: State, calls: seq<Call>): State
    decreases |calls|
  {
    if calls == [] then s else After(Step(s, calls[0]).state, calls[1..])
  }

  /** The outcome of call i of a run. */
  function At(s: State, calls: seq<Call>, i: nat): Outcome
    requires i < |calls|
  {
    Step(After(s, calls[..i]), calls[i])
  }

  lemma {:induction false} AfterConcat(s: State, a: seq<Call>, b: seq<Call>)
    ensures After(s, a + b) == After(After(s, a), b)
    decreases |a|
  {
    if a == [] {
      assert a + b == b;
    } else {
      assert (a + b)[1..] == a[1..] + b;
      AfterConcat(Step(s, a[0]).state, a[1..], b);
    }
  }

  /** Every state a run reaches passes the full state validation, and generations only grow. */
  lemma {:induction false} RunKeepsInv(s: State, calls: seq<Call>)
    requires Inv(s)
    ensures Inv(After(s, calls))
    ensures After(s, calls).epoch == s.epoch
    ensures s.fenceGeneration <= After(s, calls).fenceGeneration
    ensures s.completions <= After(s, calls).completions
    decreases |calls|
  {
    if calls != [] {
      StepFollows(s, calls[0]);
      RunKeepsInv(Step(s, calls[0]).state, calls[1..]);
    }
  }

  /** From an initialized store the number of markers is at most half the generations handed out. */
  lemma {:induction false} MarkersCostTwoGenerations(epoch: nat, start: Instant, calls: seq<Call>)
    ensures var s := After(Initial(epoch, start), calls);
      ValidState(s) && 2 * |s.completions| <= s.fenceGeneration
  {
    RunKeepsInv(Initial(epoch, start), calls);
    var s := After(Initial(epoch, start), calls);
    if s.completions != [] {
      assert ValidCompletion(s.completions[|s.completions| - 1], s.fenceGeneration, s.lastMutationAt);
    }
  }

  /** The renewals of a run that rewrote the state. */
  function EffectiveRenewals(s: State, calls: seq<Call>): nat
    decreases |calls|
  {
    if calls == [] then 0
    else
      (if calls[0].op.OpRenew? && Step(s, calls[0]).state != s then 1 else 0)
      + EffectiveRenewals(Step(s, calls[0]).state, calls[1..])
  }

  /** The revision counts exactly the generations and the effective renewals. */
  lemma {:induction false} RevisionCounts(s: State, calls: seq<Call>)
    ensures After(s, calls).revision - s.revision
         == After(s, calls).fenceGeneration - s.fenceGeneration + EffectiveRenewals(s, calls)
    decreases |calls|
  {
    if calls != [] {
      var t := Step(s, calls[0]).state;
      RenewalRaisesOnlyRevision(s, calls[0]);
      RevisionCounts(t, calls[1..]);
    }
  }

  lemma {:induction false} RenewalRaisesOnlyRevision(s: State, call: Call)
    ensures var t := Step(s, call).state;
      t.revision - s.revision == t.fenceGeneration - s.fenceGeneration + (if call.op.OpRenew? && t != s then 1 else 0)
  {
    match call.op
    case OpRenew(cred, ttl) =>
      var t := Renew(s, cred, ttl, call.now).state;
      if t != s {
        assert t.revision == s.revision + 1;
      }
    case _ =>
  }

  /** Fences handed out by acquire strictly increase over a run. */
  lemma {:induction false} FencesIncrease(s: State, calls: seq<Call>, i: nat, j: nat)
    requires Inv(s) && i < j < |calls|
    requires At(s, calls, i).reply.Ok? && At(s, calls, i).reply.value.Acquired?
    requires At(s, calls, j).reply.Ok? && At(s, calls, j).reply.value.Acquired?
    ensures At(s, calls, i).reply.value.fence < At(s, calls, j).reply.value.fence
  {
    AcquiredIsNextFence(After(s, calls[..i]), calls[i]);
    AcquiredIsNextFence(After(s, calls[..j]), calls[j]);
    GenerationAdvances(s, calls, i, j);
  }

  lemma {:induction false} OneCallMore(s: State, calls: seq<Call>, i: nat)
    requires i < |calls|
    ensures After(s, calls[..i + 1]) == Step(After(s, calls[..i]), calls[i]).state
  {
    assert calls[..i + 1] == calls[..i] + [calls[i]];
    AfterConcat(s, calls[..i], [calls[i]]);
  }

  lemma {:induction false} GenerationAdvances(s: State, calls: seq<Call>, i: nat, j: nat)
    requires Inv(s) && i < j <= |calls|
    ensures Step(After(s, calls[..i]), calls[i]).state.fenceGeneration <= After(s, calls[..j]).fenceGeneration
  {
    OneCallMore(s, calls, i);
    RunKeepsInv(s, calls[..i + 1]);
    var rest := calls[i + 1..j];
    assert calls[..j] == calls[..i + 1] + rest;
    AfterConcat(s, calls[..i + 1], rest);
    RunKeepsInv(After(s, calls[..i + 1]), rest);
  }

  lemma {:induction false} AcquiredIsNextFence(s: State, call: Call)
    requires Step(s, call).reply.Ok? && Step(s, call).reply.value.Acquired?
    ensures Step(s, call).reply.value.fence == s.fenceGeneration + 1 == Step(s, call).state.fenceGeneration
  {
    assert call.op.OpAcquire?;
  }

  /** A credential whose fence the generation has passed can do nothing more. */
  predicate Dead(s: State, cred: Credential) { s.fenceGeneration > cred.fence }

  lemma {:induction false} DeadCredentialIsInert(s: State, call: Call, cred: Credential)
    requires Inv(s) && Dead(s, cred) && Uses(call.op, cred)
    ensures Step(s, call).state == s && !Step(s, call).callbackRan
    ensures Step(s, call).reply != Ok(Authorized)
  {
    assert AuthorizationReason(s, cred, call.now) != Authorized;
  }

  /** Fencing: once passed, a credential stays inert for the rest of any run on any clock. */
  lemma {:induction false} FencedForever(s: State, calls: seq<Call>, cred: Credential, j: nat)
    requires Inv(s) && Dead(s, cred) && j < |calls| && Uses(calls[j].op, cred)
    ensures At(s, calls, j).state == After(s, calls[..j])
    ensures !At(s, calls, j).callbackRan && At(s, calls, j).reply != Ok(Authorized)
  {
    RunKeepsInv(s, calls[..j]);
    DeadCredentialIsInert(After(s, calls[..j]), calls[j], cred);
  }

  /** The four ways a live credential is passed over. */
  lemma {:induction false} WhatKillsACredential(s: State, call: Call, cred: Credential)
    requires Inv(s) && s.lease.Some? && s.lease.value.fence == cred.fence
    ensures Step(s, call).state.lease.None? || Step(s, call).state.lease.value.fence != cred.fence
            ==> Dead(Step(s, call).state, cred)
    ensures Dead(Step(s, call).state, cred) ==>
      && Step(s, call).reply.Ok?
      && (Step(s, call).reply.value in {Released, Completed, Engaged, ReEnabled} || Step(s, call).reply.value.Acquired?)
  {
    match call.op
    case OpRenew(c, ttl) =>
    case _ =>
  }

  /** One credential at a time: two callers authorized on one state hold the same lease. */
  lemma {:induction false} OneAuthorizedCredential(s: State, a: Credential, b: Credential, t: Instant, u: Instant)
    requires Authorize(s, a, t).reply == Ok(Authorized) && Authorize(s, b, u).reply == Ok(Authorized)
    ensures a == b
  {
  }

  /** A fresh lease is good for exactly its term, and keeps every other caller out for as long. */
  lemma {:induction false} AcquireGrantsItsTerm(s: State, holder: string, key: string, ttl: int, now: Instant, u: Instant,
                                                other: Credential, otherTtl: int)
    requires ValidState(s) && Acquire(s, holder, key, ttl, now).reply.Ok? && Acquire(s, holder, key, ttl, now).reply.value.Acquired?
    requires now <= u && Malformed(other).None? && 1 <= otherTtl <= MAX_TTL_SECONDS
    requires !SameIdentity(holder, key, other) && !IsCompleted(s.completions, other.key)
    ensures var o := Acquire(s, holder, key, ttl, now); var cred := Credential(holder, key, s.epoch, o.reply.value.fence);
      && Authorize(o.state, cred, u).reply == Ok(if u < now + ttl * MICROSECONDS then Authorized else Expired)
      && (u < now + ttl * MICROSECONDS ==> Acquire(o.state, other.holder, other.key, otherTtl, u).reply == Ok(Busy))
  {
  }

  /** A renewal that succeeds gives the lease a full term from the time of the renewal. */
  lemma {:induction false} RenewalGrantsItsTerm(s: State, cred: Credential, ttl: int, now: Instant, u: Instant)
    requires ValidState(s) && Renew(s, cred, ttl, now).reply.Ok? && Renew(s, cred, ttl, now).reply.value.Renewed? && now <= u
    ensures Authorize(Renew(s, cred, ttl, now).state, cred, u).reply == Ok(if u < now + ttl * MICROSECONDS then Authorized else Expired)
  {
  }

  /** A release can be repeated at any clock reading, until someone else acquires the lease. */
  lemma {:induction false} ReleaseIsIdempotent(s: State, cred: Credential, now: Instant, again: Instant)
    requires ReleaseLease(s, cred, now).reply == Ok(Released)
    ensures var t := ReleaseLease(s, cred, now).state;
      ReleaseLease(t, cred, again) == Unchanged(t, AlreadyReleased) && Authorize(t, cred, again).reply != Ok(Authorized)
  {
  }

  /** A completion is remembered: the same credential is told so, and nobody can lease the key again. */
  lemma {:induction false} CompletionIsRemembered(s: State, cred: Credential, now: Instant, completedAt: Instant, ok: bool,
                                                  holder: string, ttl: int, u: Instant)
    requires CompleteFenced(s, cred, now, completedAt, ok).reply == Ok(Completed)
    requires ValidOpaque(holder) && 1 <= ttl <= MAX_TTL_SECONDS && completedAt <= u && !s.killSwitch.engaged
    ensures ok && CompleteFenced(s, cred, now, completedAt, ok).callbackRan
    ensures var t := CompleteFenced(s, cred, now, completedAt, ok).state;
      && Complete(t, cred, u) == Unchanged(t, AlreadyCompleted(true))
      && CompleteFenced(t, cred, u, u, ok) == Unchanged(t, AlreadyCompleted(true))
      && Acquire(t, holder, cred.key, ttl, u) == Unchanged(t, AlreadyCompleted(false))
  {
    var t := CompleteFenced(s, cred, now, completedAt, ok).state;
    assert t.completions[|s.completions|] == Completion(cred.holder, cred.key, cred.fence, completedAt);
  }

  /** A key with a marker is never leased and never entered again, whatever is called. */
  lemma {:induction false} CompletedKeyIsClosed(s: State, calls: seq<Call>, key: string, j: nat)
    requires Inv(s) && IsCompleted(s.completions, key) && j < |calls|
    ensures var before := After(s, calls[..j]);
      && IsCompleted(before.completions, key)
      && (before.lease.Some? ==> before.lease.value.key != key)
      && (calls[j].op.OpCompleteFenced? && calls[j].op.cred.key == key ==> !At(s, calls, j).callbackRan)
  {
    RunKeepsInv(s, calls[..j]);
    var before := After(s, calls[..j]);
    var i :| 0 <= i < |s.completions| && s.completions[i].key == key;
    assert before.completions[i].key == key;
  }

  /**
    Expiry alone does not kill a credential: only readings before the last mutation are refused. One that was told it
    is expired is live again at some reading exactly when the lease is still its own.
  */
  lemma {:induction false} ExpiredIsLiveAgainWhen(s: State, cred: Credential, late: Instant)
    requires ValidState(s) && Authorize(s, cred, late).reply == Ok(Expired)
    ensures s.lease.Some?
    ensures (exists early: Instant :: Authorize(s, cred, early).reply == Ok(Authorized))
            <==> SameIdentity(s.lease.value.holder, s.lease.value.key, cred) && s.lease.value.fence == cred.fence
  {
    if SameIdentity(s.lease.value.holder, s.lease.value.key, cred) && s.lease.value.fence == cred.fence {
      assert Authorize(s, cred, s.lastMutationAt).reply == Ok(Authorized);
    }
  }

  /** At time t the credential has no term left: its fence was handed out before, and is not that of a longer lease. */
  predicate Lapsed(s: State, cred: Credential, t: Instant) {
    && cred.fence <= s.fenceGeneration
    && (s.lease.Some? && s.lease.value.fence == cred.fence ==> s.lease.value.expiresAt <= t)
  }

  lemma {:induction false} LapsedStays(s: State, call: Call, cred: Credential, t: Instant)
    requires Inv(s) && Lapsed(s, cred, t) && t <= call.now
    ensures Lapsed(Step(s, call).state, cred, t)
  {
    match call.op
    case OpRenew(c, ttl) =>
      if Step(s, call).state != s { assert AuthorizationReason(s, c, call.now) == Authorized; }
    case _ =>
  }

  lemma {:induction false} LapsedIsInert(s: State, call: Call, cred: Credential, t: Instant)
    requires Lapsed(s, cred, t) && t <= call.now && Uses(call.op, cred)
    ensures Step(s, call).state == s && !Step(s, call).callbackRan && Step(s, call).reply != Ok(Authorized)
  {
    assert AuthorizationReason(s, cred, call.now) != Authorized;
  }

  lemma {:induction false} LapsedThrough(s: State, calls: seq<Call>, cred: Credential, t: Instant)
    requires Inv(s) && Lapsed(s, cred, t) && forall c :: c in calls ==> t <= c.now
    ensures Lapsed(After(s, calls), cred, t)
    decreases |calls|
  {
    if calls != [] {
      assert calls[0] in calls && forall c :: c in calls[1..] ==> c in calls;
      StepFollows(s, calls[0]);
      LapsedStays(s, calls[0], cred, t);
      LapsedThrough(Step(s, calls[0]).state, calls[1..], cred, t);
    }
  }

  /**
    When no reading falls behind the one that saw it expire, expiry is final: a credential with a fence that was
    handed out changes nothing, runs no callback and is not authorized in any later call of any run.
  */
  lemma {:induction false} ExpiryIsFinal(s: State, calls: seq<Call>, cred: Credential, t: Instant, j: nat)
    requires Inv(s) && Authorize(s, cred, t).reply == Ok(Expired) && cred.fence <= s.fenceGeneration
    requires forall c :: c in calls ==> t <= c.now
    requires j < |calls| && Uses(calls[j].op, cred)
    ensures At(s, calls, j).state == After(s, calls[..j])
    ensures !At(s, calls, j).callbackRan && At(s, calls, j).reply != Ok(Authorized)
  {
    assert calls[j] in calls && forall c :: c in calls[..j] ==> c in calls;
    LapsedThrough(s, calls[..j], cred, t);
    LapsedIsInert(After(s, calls[..j]), calls[j], cred, t);
  }

  /** A lease seen as expired is live again to a caller whose clock runs behind. */
  lemma {:induction false} ExpiredCanLookLiveAgain() returns (s: State, cred: Credential, late: Instant, early: Instant)
    ensures Inv(s) && early < late
    ensures Authorize(s, cred, late).reply == Ok(Expired)
    ensures Authorize(Authorize(s, cred, late).state, cred, early).reply == Ok(Authorized)
  {
    cred := Credential("w", "k", 0, 1);
    var o := Acquire(Initial(0, 0), "w", "k", 1, 0);
    AcquireFollows(Initial(0, 0), "w", "k", 1, 0);
    s, late, early := o.state, MICROSECONDS, 0;
  }
}
