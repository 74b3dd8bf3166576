/** The life of one task document: who may change it and how.

    Each function is what one fenced or guarded write of the Mongo store does
    to the document it hits; module MongoDocs derives them from the filter and
    update documents the store really sends.
 */
module Lifecycle {
  import opened Tasks

  predicate Runnable(t: Task, now: int) {
    || (t.status.Pending? && t.runAt <= now)
    || (t.status.Running? && t.leasedUntil < now && t.attempts < t.maxAttempts)
  }

  predicate Reapable(t: Task, now: int) {
    t.status.Running? && t.leasedUntil < now && t.attempts >= t.maxAttempts
  }

  predicate Matches(opts: ClaimOptions, t: Task) {
    && (opts.kinds != [] ==> t.kind in opts.kinds)
    && (opts.queues != [] ==> t.queue in opts.queues)
  }

  /** The fence: only the current token may touch a running task. */
  predicate Held(t: Task, token: string) {
    t.status.Running? && t.leaseToken == token
  }

  predicate Active(t: Task) { t.status.Pending? || t.status.Running? }

  /** What a requeue of all dead tasks is about; "" means every kind. */
  predicate IsDead(t: Task, kind: string) {
    t.status.Dead? && (kind == "" || t.kind == kind)
  }

  function DeadIds(m: map<string, Task>, kind: string): set<string> {
    set id <- m | IsDead(m[id], kind)
  }

  function ReapableIds(m: map<string, Task>, now: int): set<string> {
    set id <- m | Reapable(m[id], now)
  }

  function Claimed(t: Task, now: int, worker: string, token: string, lease: int): Task {
    t.(status := Running, attempts := t.attempts + 1, leasedBy := worker,
       leaseToken := token, leasedUntil := now + lease, updatedAt := now)
  }

  function Completed(t: Task, result: string, now: int): Task {
    t.(status := Done, result := if result == "" then t.result else result,
       leasedBy := "", leaseToken := "", uniqueKey := "", updatedAt := now)
  }

  function Failed(t: Task, error: TaskError, retryAt: int, terminal: bool, now: int): Task {
    var u := t.(errors := t.errors + [error], leasedBy := "", leaseToken := "", updatedAt := now);
    if terminal then u.(status := Dead, uniqueKey := "")
    else u.(status := Pending, runAt := retryAt)
  }

  function Finalized(t: Task, o: Outcome, now: int): Task {
    match o
    case Success(_, result) => Completed(t, result, now)
    case Failure(_, error, retryAt, terminal) => Failed(t, error, retryAt, terminal, now)
  }

  function Extended(t: Task, now: int, lease: int): Task {
    t.(leasedUntil := now + lease, updatedAt := now)
  }

  function Requeued(t: Task, now: int): Task {
    t.(status := Pending, attempts := 0, runAt := now, updatedAt := now,
       result := "", leasedBy := "", leasedUntil := ZERO_TIME, leaseToken := "")
  }

  function Reaped(t: Task, now: int): Task {
    t.(status := Dead, updatedAt := now,
       errors := t.errors + [TaskError(now, t.attempts, t.leasedBy, REAP_MESSAGE)],
       leasedBy := "", leaseToken := "", uniqueKey := "")
  }

  /** The outcome a worker builds from its snapshot alone. */
  function SuccessOf(snap: Task, result: string): Outcome { Success(snap, result) }

  function FailureOf(snap: Task, at: int, worker: string, message: string, retryAt: int): Outcome {
    Failure(snap, TaskError(at, snap.attempts, worker, message), retryAt, snap.attempts >= snap.maxAttempts)
  }

  // ----- What every reachable document satisfies -----

  /** A task as the manager enqueues it. */
  predicate Fresh(t: Task) {
    && t.status.Pending? && t.attempts == 0 && t.maxAttempts >= 1
    && t.leasedBy == "" && t.leaseToken == "" && t.leasedUntil == ZERO_TIME && t.errors == [] && t.result == ""
  }

  ghost predicate Sound(t: Task) {
    && 0 <= t.attempts <= t.maxAttempts && 1 <= t.maxAttempts
    && (t.status.Pending? ==> t.attempts < t.maxAttempts)
    && (t.status.Running? || t.status.Done? ==> 1 <= t.attempts)
    && (t.status.Dead? ==> t.attempts == t.maxAttempts)
    && (!t.status.Running? ==> t.leaseToken == "" && t.leasedBy == "")
    && (!t.status.Done? ==> t.result == "")
    && (!Active(t) ==> t.uniqueKey == "")
  }

  /** `errors[base..]`, the entries since the last requeue, are in attempt
      order, none is from the future, and a dead task's last one closes the budget. */
  ghost predicate ErrorLog(t: Task, base: nat) {
    && base <= |t.errors|
    && (forall i, j :: base <= i < j < |t.errors| ==> t.errors[i].attempt < t.errors[j].attempt)
    && (forall i :: base <= i < |t.errors| ==>
          1 <= t.errors[i].attempt <= if t.status.Running? || t.status.Done? then t.attempts - 1 else t.attempts)
    && (t.status.Dead? ==> base < |t.errors| && t.errors[|t.errors| - 1].attempt == t.maxAttempts)
  }

  /** An outcome whose verdict agrees with the task it is about. */
  predicate Faithful(o: Outcome, t: Task) {
    o.Failure? ==> o.error.attempt == t.attempts && (o.terminal <==> t.attempts >= t.maxAttempts)
  }

  /** Bounds how many more transitions the task can make before a requeue. */
  function Measure(t: Task): int {
    match t.status
    case Pending => 2 * (t.maxAttempts - t.attempts)
    case Running => 2 * (t.maxAttempts - t.attempts) + 1
    case Done => 0
    case Dead => 0
  }

  // Claims, reclaims, finalizations and reaps keep a document sound, keep its
  // error log in order, and all use up measure; a requeue starts afresh.

  ghost predicate Progress(t: Task, u: Task, base: nat) {
    Sound(u) && ErrorLog(u, base) && 0 <= Measure(u) < Measure(t)
  }

  lemma ClaimIsSound(t: Task, base: nat, now: int, worker: string, token: string, lease: int)
    requires Sound(t) && ErrorLog(t, base) && Runnable(t, now)
    ensures Progress(t, Claimed(t, now, worker, token, lease), base)
  {
  }

  lemma FinalizeIsSound(t: Task, base: nat, o: Outcome, now: int)
    requires Sound(t) && ErrorLog(t, base) && t.status.Running? && Faithful(o, t)
    ensures Progress(t, Finalized(t, o, now), base)
  {
  }

  lemma ReapIsSound(t: Task, base: nat, now: int)
    requires Sound(t) && ErrorLog(t, base) && Reapable(t, now)
    ensures Progress(t, Reaped(t, now), base)
  {
  }

  lemma RequeueIsSound(t: Task, base: nat, now: int)
    requires Sound(t) && ErrorLog(t, base) && t.status.Dead?
    ensures var u := Requeued(t, now);
            Sound(u) && ErrorLog(u, |u.errors|) && Measure(u) == 2 * u.maxAttempts && u.expiresAt == t.expiresAt
  {
  }

  // ----- What each transition promises, field by field -----

  predicate IsUnder(m: map<string, Task>, id: string, token: string) {
    id in m && m[id].status == Running && m[id].leaseToken == token
  }

  /** Due, or left behind with attempts to spare. */
  predicate IsDue(t: Task, now: int) {
    || (t.status == Pending && t.runAt <= now)
    || (t.status == Running && t.leasedUntil < now && t.attempts < t.maxAttempts)
  }

  ghost predicate OnlyAt(m: map<string, Task>, r: map<string, Task>, id: string) {
    r.Keys == m.Keys && forall i <- m | i != id :: r[i] == m[i]
  }

  /** What no transition touches. */
  predicate SameJob(t: Task, u: Task) {
    && u.id == t.id && u.queue == t.queue && u.kind == t.kind && u.payload == t.payload
    && u.maxAttempts == t.maxAttempts && u.expiresAt == t.expiresAt && u.createdAt == t.createdAt
  }

  predicate Released(u: Task) { u.leasedBy == "" && u.leaseToken == "" }

  /** One attempt more, held by the claimer under its token; nobody may take it
      or bury it before its lease is over. */
  ghost predicate IsClaim(t: Task, u: Task, now: int, worker: string, token: string, lease: int) {
    && SameJob(t, u) && u.uniqueKey == t.uniqueKey && u.runAt == t.runAt && u.errors == t.errors && u.result == t.result
    && u.status == Running && u.attempts == t.attempts + 1 && u.leasedBy == worker && u.leaseToken == token
    && u.leasedUntil == now + lease && u.updatedAt == now
    && forall n :: Runnable(u, n) || Reapable(u, n) <==> n > now + lease
  }

  /** A success is done with, and its key is free; the result is the handler's,
      if it gave one. */
  ghost predicate IsSuccess(t: Task, u: Task, result: string, now: int) {
    && SameJob(t, u) && Released(u) && u.attempts == t.attempts && u.errors == t.errors && u.runAt == t.runAt
    && u.status == Done && u.uniqueKey == "" && u.updatedAt == now
    && u.result == (if result != "" then result else t.result)
    && forall n :: !Runnable(u, n) && !Reapable(u, n)
  }

  /** A failure is on the log; the task comes back at the retry time and not
      before, or if the failure was terminal never, and then its key is free. */
  ghost predicate IsFailure(t: Task, u: Task, e: TaskError, retryAt: int, terminal: bool, now: int) {
    && SameJob(t, u) && Released(u) && u.attempts == t.attempts && u.errors == t.errors + [e] && u.result == t.result
    && u.updatedAt == now
    && (if terminal then u.status == Dead && u.runAt == t.runAt && u.uniqueKey == ""
        else u.status == Pending && u.runAt == retryAt && u.uniqueKey == t.uniqueKey)
    && forall n :: !Reapable(u, n) && (Runnable(u, n) <==> !terminal && n >= retryAt)
  }

  /** What the write of a report does to the task it is about. */
  ghost predicate IsReport(t: Task, u: Task, o: Outcome, now: int) {
    match o
    case Success(_, result) => IsSuccess(t, u, result, now)
    case Failure(_, e, retryAt, terminal) => IsFailure(t, u, e, retryAt, terminal, now)
  }

  /** Only the deadline moves; the holder keeps the task till then. */
  ghost predicate IsExtension(t: Task, u: Task, until: int) {
    && SameJob(t, u) && u.uniqueKey == t.uniqueKey && u.runAt == t.runAt && u.errors == t.errors && u.result == t.result
    && u.status == t.status && u.attempts == t.attempts && u.leasedBy == t.leasedBy && u.leaseToken == t.leaseToken
    && u.leasedUntil == until
  }

  /** A task with all its attempts again and due at once; its past errors stay,
      its result goes. */
  ghost predicate IsRestart(t: Task, u: Task, now: int) {
    && SameJob(t, u) && Released(u) && u.uniqueKey == t.uniqueKey && u.errors == t.errors && u.updatedAt == now
    && u.status == Pending && u.attempts == 0 && u.runAt == now && u.result == ""
    && forall n :: Runnable(u, n) <==> n >= now
  }

  /** The closing entry names the last attempt and who had it. */
  ghost predicate IsBurial(t: Task, u: Task, now: int) {
    && SameJob(t, u) && Released(u) && u.attempts == t.attempts && u.runAt == t.runAt && u.result == t.result
    && u.status == Dead && u.uniqueKey == ""
    && |u.errors| == |t.errors| + 1 && t.errors <= u.errors
    && var e := u.errors[|t.errors|];
       && e.at == now && e.attempt == t.attempts && e.worker == t.leasedBy
       && e.message == "lease expired before completion; attempts exhausted"
  }

  lemma TransitionsKeepTheirWord(t: Task, o: Outcome, now: int, worker: string, token: string, lease: int)
    ensures IsClaim(t, Claimed(t, now, worker, token, lease), now, worker, token, lease)
    ensures IsReport(t, Finalized(t, o, now), o, now)
    ensures IsExtension(t, Extended(t, now, lease), now + lease) && Extended(t, now, lease).updatedAt == now
    ensures IsRestart(t, Requeued(t, now), now)
    ensures IsBurial(t, Reaped(t, now), now) && Reaped(t, now).updatedAt == now
  {
  }

  /** From which instant on an unfinished task left alone can be taken or reaped. */
  function DueAt(t: Task): int
    requires Active(t)
  {
    if t.status.Pending? then t.runAt else t.leasedUntil + 1
  }

  /** No zombies: an unfinished task, left alone, is from `DueAt` on either
      claimable or reapable, never both, and before that neither. */
  lemma UnfinishedIsClaimableOrReapable(t: Task, now: int)
    requires Active(t)
    ensures Runnable(t, now) || Reapable(t, now) <==> now >= DueAt(t)
    ensures !(Runnable(t, now) && Reapable(t, now))
  {
  }
}
