/**
 Exponential backoff per key (pkg/utils) and how one Create call accounts for the failures of its attempts
 (pkg/providers/lke). Times and delays are natural numbers of one clock; an entry is hidden once it has expired.
 */
module Backoff {
  import opened Options

  /** Lifetime of a cache entry: one hour, in seconds. */
  const HOUR: nat := 3600

  datatype Entry = Entry(failures: nat, delay: nat, retryAt: nat, expiresAt: nat)

  type Entries = map<string, Entry>

  function Visible(entries: Entries, key: string, now: nat): Option<Entry> {
    if key in entries && now <= entries[key].expiresAt then Some(entries[key]) else None
  }

  /** The failures a caller sees at a time. */
  function Count(entries: Entries, key: string, now: nat): nat {
    match Visible(entries, key, now)
    case None => 0
    case Some(entry) => entry.failures
  }

  predicate Rejects(entries: Entries, key: string, now: nat) {
    match Visible(entries, key, now)
    case None => false
    case Some(entry) => now < entry.retryAt
  }

  function Min(a: nat, b: nat): nat {
    if a <= b then a else b
  }

  function NextEntry(previous: Option<Entry>, now: nat, base: nat, maxDelay: nat): Entry {
    var delay := match previous case None => base case Some(entry) => Min(entry.delay * 2, maxDelay);
    var failures := match previous case None => 1 case Some(entry) => entry.failures + 1;
    Entry(failures, delay, now + delay, now + HOUR)
  }

  function AfterFailure(entries: Entries, key: string, now: nat, base: nat, maxDelay: nat): Entries {
    entries[key := NextEntry(Visible(entries, key, now), now, base, maxDelay)]
  }

  class BackoffTracker {
    var entries: Entries
    const base: nat
    const maxDelay: nat

    constructor (base: nat, maxDelay: nat)
      ensures entries == map[] && this.base == base && this.maxDelay == maxDelay
    {
      entries := map[];
      this.base, this.maxDelay := base, maxDelay;
    }

    method Check(key: string, now: nat) returns (rejected: bool)
      ensures rejected <==> Rejects(entries, key, now)
    {
      var entry := Visible(entries, key, now);
      if entry.None? { return false; }
      rejected := now < entry.value.retryAt;
    }

    method RecordFailure(key: string, now: nat)
      modifies this
      ensures entries == AfterFailure(old(entries), key, now, base, maxDelay)
    {
      var failures, delay := 1, base;
      var previous := Visible(entries, key, now);
      if previous.Some? {
        failures := previous.value.failures + 1;
        delay := Min(previous.value.delay * 2, maxDelay);
      }
      entries := entries[key := Entry(failures, delay, now + delay, now + HOUR)];
    }

    method Clear(key: string)
      modifies this
      ensures entries == old(entries) - {key}
    {
      entries := entries - {key};
    }
  }

  // ---------------------------------------------------------------- the closed form

  function Pow2(n: nat): nat {
    if n == 0 then 1 else 2 * Pow2(n - 1)
  }

  /** The first delay is the base as it is; from the second failure on the maximum caps it. */
  function Delay(n: nat, base: nat, maxDelay: nat): nat
    requires n >= 1
  {
    if n == 1 then base else Min(base * Pow2(n - 1), maxDelay)
  }

  /** How many of the last failures follow one another with no entry expiring in between. */
  function Streak(times: seq<nat>): nat {
    if |times| <= 1 then |times|
    else if times[|times| - 1] <= times[|times| - 2] + HOUR then Streak(times[..|times| - 1]) + 1
    else 1
  }

  function AfterFailures(entries: Entries, key: string, times: seq<nat>, base: nat, maxDelay: nat): Entries {
    if times == [] then entries
    else AfterFailure(AfterFailures(entries, key, times[..|times| - 1], base, maxDelay), key, times[|times| - 1],
                      base, maxDelay)
  }

  lemma DelayDoubles(n: nat, base: nat, maxDelay: nat)
    requires n >= 1
    ensures Delay(n + 1, base, maxDelay) == Min(Delay(n, base, maxDelay) * 2, maxDelay)
  {
    assert Pow2(n) == 2 * Pow2(n - 1);
    assert base * Pow2(n) == (base * Pow2(n - 1)) * 2;
    assert Pow2(0) == 1;
  }

  lemma {:induction false} StreakPositive(times: seq<nat>)
    requires times != []
    ensures 1 <= Streak(times) <= |times|
  {
    if |times| > 1 { StreakPositive(times[..|times| - 1]); }
  }

  /**
   After any failures recorded from a fresh start, with or without entries expiring in between, the entry counts
   the unbroken streak and its delay has the closed form.
   */
  lemma {:induction false} ClosedForm(entries: Entries, key: string, times: seq<nat>, base: nat, maxDelay: nat)
    requires times != [] && Visible(entries, key, times[0]).None?
    ensures var n := Streak(times);
      && n >= 1
      && key in AfterFailures(entries, key, times, base, maxDelay)
      && AfterFailures(entries, key, times, base, maxDelay)[key]
         == Entry(n, Delay(n, base, maxDelay), times[|times| - 1] + Delay(n, base, maxDelay), times[|times| - 1] + HOUR)
  {
    var front := times[..|times| - 1];
    StreakPositive(times);
    if front == [] {
      assert AfterFailures(entries, key, front, base, maxDelay) == entries;
    } else {
      ClosedForm(entries, key, front, base, maxDelay);
      DelayDoubles(Streak(front), base, maxDelay);
    }
  }

  /** The delay is the capped power of two after every number of failures exactly when the base does not exceed the cap. */
  lemma CappedExactly(base: nat, maxDelay: nat)
    ensures (forall n: nat :: n >= 1 ==> Delay(n, base, maxDelay) == Min(base * Pow2(n - 1), maxDelay)) <==> base <= maxDelay
  {
    assert Pow2(0) == 1;
    assert Delay(1, base, maxDelay) == base;
    assert base * Pow2(1 - 1) == base;
    if base <= maxDelay {
      forall n: nat | n >= 1 ensures Delay(n, base, maxDelay) == Min(base * Pow2(n - 1), maxDelay) {}
    }
  }

  /** Check rejects exactly from the last failure until its delay is over, or until the entry expires. */
  lemma RejectsExactly(entries: Entries, key: string, times: seq<nat>, base: nat, maxDelay: nat, now: nat)
    requires times != [] && Visible(entries, key, times[0]).None?
    ensures Streak(times) >= 1
    ensures var last := times[|times| - 1];
      Rejects(AfterFailures(entries, key, times, base, maxDelay), key, now)
      <==> now < last + Delay(Streak(times), base, maxDelay) && now <= last + 3600
  {
    ClosedForm(entries, key, times, base, maxDelay);
  }

  /** With base and maximum below an hour no delay is cut short, and doubling stays within twice the maximum. */
  lemma RejectsForTheDelay(entries: Entries, key: string, times: seq<nat>, base: nat, maxDelay: nat, now: nat)
    requires times != [] && Visible(entries, key, times[0]).None? && base <= maxDelay <= HOUR
    ensures Streak(times) >= 1
    ensures Rejects(AfterFailures(entries, key, times, base, maxDelay), key, now)
      <==> now < times[|times| - 1] + Min(base * Pow2(Streak(times) - 1), maxDelay)
    ensures AfterFailures(entries, key, times, base, maxDelay)[key].delay * 2 <= 2 * maxDelay
  {
    ClosedForm(entries, key, times, base, maxDelay);
    CappedExactly(base, maxDelay);
  }

  // ---------------------------------------------------------------- the attempts of one Create call

  /** How an attempt ends, as far as backoff and the retry loop can tell. */
  datatype AttemptResult =
    | Succeeded
    | NoClaimableInstance
    | PoolFailed(retryable: bool)     // listing, creating or updating the pool failed
    | OtherFailed(retryable: bool)

  /** One turn of the retry loop: when it begins, whether the context is cancelled by then, and how it ends. */
  datatype Attempt = Attempt(begins: nat, cancelled: bool, result: AttemptResult)

  predicate Clears(result: AttemptResult) {
    result.Succeeded? || result.NoClaimableInstance?
  }

  predicate Retries(result: AttemptResult) {
    match result
    case Succeeded => false
    case NoClaimableInstance => true
    case PoolFailed(retryable) => retryable
    case OtherFailed(retryable) => retryable
  }

  /** The attempts the loop gets to: up to the deadline, a cancelled context, or a result that is not retried. */
  function Made(script: seq<Attempt>, deadline: nat): (made: seq<Attempt>)
    ensures made <= script
  {
    if script == [] || script[0].begins >= deadline || script[0].cancelled then []
    else if !Retries(script[0].result) then [script[0]]
    else [script[0]] + Made(script[1..], deadline)
  }

  /**
   Each attempt made began in time and uncancelled, each but the last was worth retrying, and there is no next one
   only when the deadline or a cancellation comes first, the last one is final, or the script is over.
   */
  lemma {:induction false} MadeExactly(script: seq<Attempt>, deadline: nat)
    ensures var made := Made(script, deadline);
      && (forall k :: 0 <= k < |made| ==> made[k].begins < deadline && !made[k].cancelled)
      && (forall k :: 0 <= k < |made| - 1 ==> made[k].result in {NoClaimableInstance, PoolFailed(true), OtherFailed(true)})
      && (|made| < |script| ==>
            || script[|made|].begins >= deadline || script[|made|].cancelled
            || (made != [] && made[|made| - 1].result in {Succeeded, PoolFailed(false), OtherFailed(false)}))
  {
    if script != [] && script[0].begins < deadline && !script[0].cancelled && Retries(script[0].result) {
      MadeExactly(script[1..], deadline);
    }
  }

  predicate SomeCleared(made: seq<Attempt>) {
    exists k :: 0 <= k < |made| && Clears(made[k].result)
  }

  /** The last attempt made ended in a pool failure that is worth retrying. */
  predicate EndsInPoolFailure(made: seq<Attempt>) {
    made != [] && made[|made| - 1].result == PoolFailed(true)
  }

  /** The pool failure an attempt ended in, if any, and whether it is worth retrying. */
  function PoolFailure(result: AttemptResult): Option<bool> {
    match result
    case PoolFailed(retryable) => Some(retryable)
    case _ => None
  }

  /** observePoolAttempt: an attempt that reached the pool clears the key. */
  method ObservePoolAttempt(backoff: BackoffTracker, key: string, result: AttemptResult) returns (poolFailed: Option<bool>)
    modifies backoff
    ensures poolFailed == PoolFailure(result)
    ensures backoff.entries == if Clears(result) then old(backoff.entries) - {key} else old(backoff.entries)
  {
    poolFailed := None;
    match result {
      case PoolFailed(retryable) => poolFailed := Some(retryable);
      case Succeeded => backoff.Clear(key);
      case NoClaimableInstance => backoff.Clear(key);
      case OtherFailed(_) =>
    }
  }

  /** What the attempts made leave in the tracker when the call returns. */
  function AfterAttempts(entries: Entries, key: string, made: seq<Attempt>, end: nat, base: nat, maxDelay: nat): Entries {
    var seen := if SomeCleared(made) then entries - {key} else entries;
    if EndsInPoolFailure(made) then AfterFailure(seen, key, end, base, maxDelay) else seen
  }

  /** The retry loop of Create; the failure of its last attempt is recorded once, when it returns. */
  method RunAttempts(backoff: BackoffTracker, key: string, script: seq<Attempt>, deadline: nat, end: nat)
    modifies backoff
    ensures backoff.entries
         == AfterAttempts(old(backoff.entries), key, Made(script, deadline), end, backoff.base, backoff.maxDelay)
  {
    hide Progress, Made, AfterAttempts, Clears, Retries, PoolFailure;
    ghost var before := backoff.entries;
    var poolFailed := None;
    var i := 0;
    var done := false;
    ProgressBegins(script, deadline, before, key);
    while !done && i < |script| && script[i].begins < deadline && !script[i].cancelled
      invariant 0 <= i <= |script| && Progress(script, deadline, before, key, i, done, poolFailed, backoff.entries)
    {
      ProgressStep(script, deadline, before, key, i, poolFailed, backoff.entries);
      poolFailed := ObservePoolAttempt(backoff, key, script[i].result);
      done := !Retries(script[i].result);
      i := i + 1;
    }
    ProgressEnds(script, deadline, before, key, i, done, poolFailed, backoff.entries, end, backoff.base, backoff.maxDelay);
    if poolFailed == Some(true) {
      backoff.RecordFailure(key, end);
    }
  }

  /** After i attempts: those are the first to be made, their last failure is known, and the key cleared if one cleared it. */
  ghost predicate Progress(script: seq<Attempt>, deadline: nat, before: Entries, key: string,
                           i: nat, done: bool, poolFailed: Option<bool>, entries: Entries)
    requires i <= |script|
  {
    && Made(script, deadline) == script[..i] + Rest(script, i, deadline, done)
    && poolFailed == LastPoolFailure(script[..i])
    && entries == if SomeCleared(script[..i]) then before - {key} else before
  }

  lemma ProgressBegins(script: seq<Attempt>, deadline: nat, before: Entries, key: string)
    ensures Progress(script, deadline, before, key, 0, false, None, before)
  {
    assert script[..0] == [] && script[0..] == script;
  }

  lemma ProgressStep(script: seq<Attempt>, deadline: nat, before: Entries, key: string,
                     i: nat, poolFailed: Option<bool>, entries: Entries)
    requires i < |script| && script[i].begins < deadline && !script[i].cancelled
    requires Progress(script, deadline, before, key, i, false, poolFailed, entries)
    ensures var result := script[i].result;
      Progress(script, deadline, before, key, i + 1, !Retries(result), PoolFailure(result),
               if Clears(result) then entries - {key} else entries)
  {
    MadeStep(script, i, deadline);
    LastSoFar(script, i);
    ClearedSoFar(script, i);
    hide SomeCleared, Made, LastPoolFailure, Clears, Retries, PoolFailure, Rest;
  }

  lemma ProgressEnds(script: seq<Attempt>, deadline: nat, before: Entries, key: string, i: nat, done: bool,
                     poolFailed: Option<bool>, entries: Entries, end: nat, base: nat, maxDelay: nat)
    requires i <= |script| && Progress(script, deadline, before, key, i, done, poolFailed, entries)
    requires done || i == |script| || script[i].begins >= deadline || script[i].cancelled
    ensures AfterAttempts(before, key, Made(script, deadline), end, base, maxDelay)
         == if poolFailed == Some(true) then AfterFailure(entries, key, end, base, maxDelay) else entries
  {
    NoMore(script, i, deadline, done);
    LastFailureIs(script[..i]);
    hide SomeCleared, LastPoolFailure, EndsInPoolFailure, AfterFailure, Rest;
  }

  /**
   Over one call the failures seen end as one more than before, one, as before or none, by whether some attempt
   succeeded or found no free instance and whether the last attempt made ended in a pool failure worth retrying; other
   keys are not touched.
   */
  lemma OneFailureACall(entries: Entries, key: string, script: seq<Attempt>, deadline: nat, end: nat, base: nat, maxDelay: nat)
    ensures var made := Made(script, deadline);
      var after := AfterAttempts(entries, key, made, end, base, maxDelay);
      && Count(after, key, end) ==
         (if exists k :: 0 <= k < |made| && made[k].result in {Succeeded, NoClaimableInstance} then 0
          else Count(entries, key, end))
         + (if made != [] && made[|made| - 1].result == PoolFailed(true) then 1 else 0)
      && after - {key} == entries - {key}
  {}

  /** The attempts still to be made at a turn of the loop. */
  ghost function Rest(script: seq<Attempt>, i: nat, deadline: nat, done: bool): seq<Attempt>
    requires i <= |script|
  {
    if done then [] else Made(script[i..], deadline)
  }

  lemma NoMore(script: seq<Attempt>, i: nat, deadline: nat, done: bool)
    requires i <= |script|
    requires done || i == |script| || script[i].begins >= deadline || script[i].cancelled
    ensures script[..i] + Rest(script, i, deadline, done) == script[..i]
  {}

  lemma LastSoFar(script: seq<Attempt>, i: nat)
    requires i < |script|
    ensures LastPoolFailure(script[..i + 1])
         == PoolFailure(script[i].result)
  {
    assert script[..i + 1][i] == script[i];
  }

  lemma LastFailureIs(made: seq<Attempt>)
    ensures LastPoolFailure(made) == Some(true) <==> EndsInPoolFailure(made)
  {}

  lemma MadeStep(script: seq<Attempt>, i: nat, deadline: nat)
    requires i < |script| && script[i].begins < deadline && !script[i].cancelled
    ensures script[..i] + Made(script[i..], deadline)
         == script[..i + 1] + Rest(script, i + 1, deadline, !Retries(script[i].result))
  {
    assert script[..i + 1] == script[..i] + [script[i]];
    assert script[i..][1..] == script[i + 1..];
  }

  function LastPoolFailure(made: seq<Attempt>): Option<bool> {
    if made == [] then None else PoolFailure(made[|made| - 1].result)
  }

  lemma ClearedSoFar(made: seq<Attempt>, i: nat)
    requires i < |made|
    ensures SomeCleared(made[..i + 1]) <==> SomeCleared(made[..i]) || Clears(made[i].result)
  {
    if SomeCleared(made[..i]) {
      var k :| 0 <= k < i && Clears(made[..i][k].result);
      assert made[..i + 1][k] == made[..i][k];
    }
    if Clears(made[i].result) { assert made[..i + 1][i] == made[i]; }
    if SomeCleared(made[..i + 1]) {
      var k :| 0 <= k < i + 1 && Clears(made[..i + 1][k].result);
      if k < i { assert made[..i][k] == made[..i + 1][k]; }
    }
  }

  // ---------------------------------------------------------------- several calls on one key

  /** What calls do to the tracker of their key: clear it, or record a failure at a time. */
  datatype Op = Cleared(call: nat) | Failed(call: nat, at: nat)

  /** What one call does: a clear for each attempt that reached the pool, and its one failure at the end. */
  function OpsOf(call: nat, made: seq<Attempt>, end: nat): seq<Op> {
    ClearsOf(call, made) + if EndsInPoolFailure(made) then [Failed(call, end)] else []
  }

  function ClearsOf(call: nat, made: seq<Attempt>): (ops: seq<Op>)
    ensures forall op :: op in ops ==> op == Cleared(call)
  {
    if made == [] then []
    else ClearsOf(call, made[..|made| - 1]) + if Clears(made[|made| - 1].result) then [Cleared(call)] else []
  }

  /** The tracker after the operations, in the order in which they come. */
  function AfterOps(entries: Entries, key: string, ops: seq<Op>, base: nat, maxDelay: nat): Entries {
    if ops == [] then entries
    else
      var before := AfterOps(entries, key, ops[..|ops| - 1], base, maxDelay);
      match ops[|ops| - 1]
      case Cleared(_) => before - {key}
      case Failed(_, at) => AfterFailure(before, key, at, base, maxDelay)
  }

  lemma {:induction false} AfterClears(entries: Entries, key: string, call: nat, made: seq<Attempt>, base: nat, maxDelay: nat)
    ensures AfterOps(entries, key, ClearsOf(call, made), base, maxDelay) == if SomeCleared(made) then entries - {key} else entries
  {
    if made != [] {
      var front, last := made[..|made| - 1], made[|made| - 1];
      AfterClears(entries, key, call, front, base, maxDelay);
      ClearedSoFar(made, |made| - 1);
      assert made[..|made|] == made;
      if Clears(last.result) {
        assert ClearsOf(call, made)[..|ClearsOf(call, made)| - 1] == ClearsOf(call, front);
      } else {
        assert ClearsOf(call, made) == ClearsOf(call, front);
      }
      assert entries - {key} - {key} == entries - {key};
    }
  }

  /** A call that nothing interleaves with leaves what RunAttempts leaves, and records one failure at most. */
  lemma OpsAreTheCall(entries: Entries, key: string, call: nat, made: seq<Attempt>, end: nat, base: nat, maxDelay: nat)
    ensures AfterOps(entries, key, OpsOf(call, made, end), base, maxDelay) == AfterAttempts(entries, key, made, end, base, maxDelay)
    ensures forall i :: 0 <= i < |OpsOf(call, made, end)| && OpsOf(call, made, end)[i].Failed? ==> i == |OpsOf(call, made, end)| - 1
  {
    AfterClears(entries, key, call, made, base, maxDelay);
    var ops, clears := OpsOf(call, made, end), ClearsOf(call, made);
    if EndsInPoolFailure(made) {
      assert ops[..|ops| - 1] == clears;
    } else {
      assert ops == clears;
    }
    assert forall i :: 0 <= i < |clears| ==> ops[i] == clears[i] && clears[i] in clears;
  }

  /** The calls that recorded a failure since the key was last cleared. */
  function FailedSince(ops: seq<Op>): set<nat> {
    if ops == [] then {}
    else match ops[|ops| - 1]
      case Cleared(_) => {}
      case Failed(call, _) => FailedSince(ops[..|ops| - 1]) + {call}
  }

  /** Each call records one failure at most. */
  ghost predicate FailOnce(ops: seq<Op>) {
    forall i, j :: 0 <= i < j < |ops| && ops[i].Failed? && ops[j].Failed? ==> ops[i].call != ops[j].call
  }

  /** No failure comes after the entry of the one before it has expired. */
  ghost predicate NoneExpires(ops: seq<Op>) {
    forall i :: 0 < i < |ops| && ops[i - 1].Failed? && ops[i].Failed? ==> ops[i].at <= ops[i - 1].at + HOUR
  }

  lemma {:induction false} SinceFailed(ops: seq<Op>, call: nat)
    requires call in FailedSince(ops)
    ensures exists i :: 0 <= i < |ops| && ops[i].Failed? && ops[i].call == call
  {
    var front, last := ops[..|ops| - 1], ops[|ops| - 1];
    if last.Failed? && last.call == call {
      assert ops[|ops| - 1] == last;
    } else {
      SinceFailed(front, call);
      var i :| 0 <= i < |front| && front[i].Failed? && front[i].call == call;
      assert ops[i] == front[i];
    }
  }

  lemma FailsAnew(ops: seq<Op>)
    requires FailOnce(ops) && NoneExpires(ops) && ops != [] && ops[|ops| - 1].Failed?
    ensures ops[|ops| - 1].call !in FailedSince(ops[..|ops| - 1])
    ensures |ops| > 1 && ops[|ops| - 2].Failed? ==> ops[|ops| - 1].at <= ops[|ops| - 2].at + HOUR
  {
    var front, last := ops[..|ops| - 1], ops[|ops| - 1];
    forall call | call in FailedSince(front) ensures call != last.call {
      SinceFailed(front, call);
      var i :| 0 <= i < |front| && front[i].Failed? && front[i].call == call;
      assert ops[i] == front[i];
    }
  }

  /**
   Whatever the interleaving of the calls on one key, if no entry expires the failures counted are the calls that
   recorded one since the key was last cleared.
   */
  lemma {:induction false} CountIsCallsSinceClear(key: string, ops: seq<Op>, base: nat, maxDelay: nat)
    requires FailOnce(ops) && NoneExpires(ops)
    ensures var entries := AfterOps(map[], key, ops, base, maxDelay);
      if FailedSince(ops) == {} then key !in entries
      else ops[|ops| - 1].Failed? && key in entries && entries[key].failures == |FailedSince(ops)|
           && entries[key].expiresAt == ops[|ops| - 1].at + HOUR
  {
    if ops != [] {
      var front, last := ops[..|ops| - 1], ops[|ops| - 1];
      CountIsCallsSinceClear(key, front, base, maxDelay);
      assert forall i :: 0 <= i < |front| ==> front[i] == ops[i];
      if last.Failed? { FailsAnew(ops); }
      hide FailOnce, NoneExpires;
    }
  }
}
