/** The in-memory store: task objects updated in place, and the proof that each
    operation does to them what its function in MemSpec says.
 */
module MemStore {
  import opened Tasks
  import opened Lifecycle
  import opened Strings
  import opened MemSpec

  method CloneSlice<T>(a: array<T>) returns (c: array<T>)
    ensures fresh(c) && c[..] == a[..]
  {
    c := new T[a.Length](i requires 0 <= i < a.Length reads a => a[i]);
  }

  /** gotasks.Task: a record of fields, three of them slices. */
  class TaskRecord {
    var id: string
    var queue: string
    var kind: string
    var uniqueKey: string
    var payload: array<char>
    var status: Status
    var attempts: int
    var maxAttempts: int
    var runAt: int
    var expiresAt: Option<int>
    var leasedBy: string
    var leasedUntil: int
    var leaseToken: string
    var errors: array<TaskError>
    var result: array<char>
    var createdAt: int
    var updatedAt: int

    ghost function Value(): Task
      reads this, payload, errors, result
    {
      Task(id, queue, kind, uniqueKey, payload[..], status, attempts, maxAttempts, runAt, expiresAt, leasedBy,
           leasedUntil, leaseToken, errors[..], result[..], createdAt, updatedAt)
    }

    ghost function ClaimKey(): Key
      reads this, payload, errors, result
      ensures ClaimKey() == KeyOf(Value())
    {
      Key(id, leaseToken)
    }

    lemma Fields()
      ensures Value().id == id && Value().uniqueKey == uniqueKey && Value().leaseToken == leaseToken
    {
    }

    predicate IsActive()
      reads this, payload, errors, result
      ensures IsActive() <==> Active(Value())
    {
      status.Pending? || status.Running?
    }

    predicate Claimable(opts: ClaimOptions, now: int)
      reads this, payload, errors, result
      ensures Claimable(opts, now) <==> WantedAndRunnable(opts, now, Value())
    {
      && !(|opts.kinds| > 0 && kind !in opts.kinds)
      && !(|opts.queues| > 0 && queue !in opts.queues)
      && ((status.Pending? && !(runAt > now))
          || (status.Running? && leasedUntil < now && attempts < maxAttempts))
    }

    predicate IsDead(wanted: string)
      reads this, payload, errors, result
      ensures IsDead(wanted) <==> Lifecycle.IsDead(Value(), wanted)
    {
      status.Dead? && (wanted == "" || kind == wanted)
    }

    predicate IsReapable(now: int)
      reads this, payload, errors, result
      ensures IsReapable(now) <==> Reapable(Value(), now)
    {
      status.Running? && leasedUntil < now && attempts >= maxAttempts
    }

    predicate Before(t: TaskRecord)
      reads this, payload, errors, result, t, t.payload, t.errors, t.result
      ensures Before(t) <==> Earlier(Value(), t.Value())
    {
      runAt < t.runAt || (runAt == t.runAt && LexLess(id, t.id))
    }

    /** A copy of the struct, slices shared with the original. */
    constructor Shallow(t: TaskRecord)
      ensures Value() == t.Value() && payload == t.payload && errors == t.errors && result == t.result
    {
      id, queue, kind, uniqueKey, payload := t.id, t.queue, t.kind, t.uniqueKey, t.payload;
      status, attempts, maxAttempts, runAt, expiresAt := t.status, t.attempts, t.maxAttempts, t.runAt, t.expiresAt;
      leasedBy, leasedUntil, leaseToken := t.leasedBy, t.leasedUntil, t.leaseToken;
      errors, result, createdAt, updatedAt := t.errors, t.result, t.createdAt, t.updatedAt;
    }

    /** clone: nothing the caller does to the copy reaches the original. */
    method Clone() returns (c: TaskRecord)
      ensures fresh(c) && fresh(c.payload) && fresh(c.errors) && fresh(c.result) && c.Value() == Value()
    {
      c := new TaskRecord.Shallow(this);
      c.payload := CloneSlice(payload);
      c.result := CloneSlice(result);
      c.errors := CloneSlice(errors);
    }

    // The parts of claimOneLocked, Complete, Fail, requeueLocked and
    // ReapExpired that update one task in place: first the fields they touch,
    // then what that makes of the whole task.

    method SetLease(worker: string, token: string, now: int, lease: int)
      modifies `status, `attempts, `leasedBy, `leaseToken, `leasedUntil, `updatedAt
      ensures status == Running && attempts == old(attempts) + 1 && leasedBy == worker && leaseToken == token
      ensures leasedUntil == now + lease && updatedAt == now
    {
      status := Running;
      attempts := attempts + 1;
      leasedBy := worker;
      leaseToken := token;
      leasedUntil := now + lease;
      updatedAt := now;
    }

    method SetDone(outcome: array<char>, now: int)
      modifies `status, `result, `leasedBy, `leaseToken, `uniqueKey, `updatedAt
      ensures status == Done && fresh(result) && result[..] == old(outcome[..])
      ensures leasedBy == leaseToken == uniqueKey == "" && updatedAt == now
    {
      status := Done;
      result := CloneSlice(outcome);
      leasedBy, leaseToken, uniqueKey := "", "", "";
      updatedAt := now;
    }

    method AppendError(e: TaskError)
      modifies `errors
      ensures fresh(errors) && errors[..] == old(errors[..]) + [e]
    {
      var n := errors.Length;
      var more := new TaskError[n + 1](i requires 0 <= i <= n reads this, errors =>
        if i < n && n == errors.Length then errors[i] else e);
      assert more[..] == errors[..] + [e];
      errors := more;
    }

    method SetFailed(e: TaskError, retryAt: int, terminal: bool, now: int)
      modifies `errors, `status, `uniqueKey, `runAt, `leasedBy, `leaseToken, `updatedAt
      ensures fresh(errors) && errors[..] == old(errors[..]) + [e]
      ensures status == (if terminal then Dead else Pending) && uniqueKey == (if terminal then "" else old(uniqueKey))
      ensures runAt == (if terminal then old(runAt) else retryAt) && leasedBy == leaseToken == "" && updatedAt == now
    {
      AppendError(e);
      if terminal {
        status := Dead;
        uniqueKey := "";
      } else {
        status := Pending;
        runAt := retryAt;
      }
      leasedBy, leaseToken := "", "";
      updatedAt := now;
    }

    method SetPending(now: int)
      modifies `status, `attempts, `runAt, `result, `leasedBy, `leaseToken, `updatedAt
      ensures status == Pending && attempts == 0 && runAt == now && fresh(result) && result[..] == ""
      ensures leasedBy == leaseToken == "" && updatedAt == now
    {
      status := Pending;
      attempts := 0;
      runAt := now;
      result := new char[0];
      leasedBy, leaseToken := "", "";
      updatedAt := now;
    }

    method SetDead(now: int)
      modifies `status, `errors, `leasedBy, `leaseToken, `uniqueKey
      ensures status == Dead && fresh(errors) && leasedBy == leaseToken == uniqueKey == ""
      ensures errors[..] == old(errors[..]) + [TaskError(now, old(attempts), old(leasedBy), REAP_MESSAGE)]
    {
      status := Dead;
      AppendError(TaskError(now, attempts, leasedBy, REAP_MESSAGE));
      leasedBy, leaseToken, uniqueKey := "", "", "";
    }

    method Lease(worker: string, token: string, now: int, lease: int)
      modifies this
      ensures Value() == Claimed(old(Value()), now, worker, token, lease)
      ensures payload == old(payload) && errors == old(errors) && result == old(result)
    {
      SetLease(worker, token, now, lease);
    }

    method Finish(outcome: array<char>, now: int)
      modifies this
      ensures Value() == MemCompleted(old(Value()), old(outcome[..]), now)
      ensures payload == old(payload) && errors == old(errors) && fresh(result)
    {
      SetDone(outcome, now);
    }

    method Fault(e: TaskError, retryAt: int, terminal: bool, now: int)
      modifies this
      ensures Value() == Failed(old(Value()), e, retryAt, terminal, now)
      ensures payload == old(payload) && result == old(result) && fresh(errors)
    {
      SetFailed(e, retryAt, terminal, now);
    }

    method Restart(now: int)
      modifies this
      ensures Value() == MemRequeued(old(Value()), now)
      ensures payload == old(payload) && errors == old(errors) && fresh(result)
    {
      SetPending(now);
    }

    method Bury(now: int)
      modifies this
      ensures Value() == MemReaped(old(Value()), now)
      ensures payload == old(payload) && result == old(result) && fresh(errors)
    {
      SetDead(now);
    }
  }

  /** gotasks.Outcome: a failure when `failure` is set, else a success. */
  datatype Report = Report(
    task: TaskRecord,
    result: array<char>,
    failure: Option<TaskError>,
    retryAt: int,
    terminal: bool)

  ghost function Meaning(r: Report): Outcome
    reads r.task, r.task.payload, r.task.errors, r.task.result, r.result
  {
    match r.failure
    case None => Success(r.task.Value(), r.result[..])
    case Some(e) => Failure(r.task.Value(), e, r.retryAt, r.terminal)
  }

  class Store {
    var seqNo: nat
    var tasks: map<string, TaskRecord>

    /** What the map stands for, and every object it reaches. */
    ghost var view: map<string, Task>
    ghost var repr: set<object>

    ghost function State(): MemState
      reads this
    {
      MemState(seqNo, view)
    }

    ghost predicate Backed()
      reads this, repr
    {
      && this in repr && tasks.Keys == view.Keys
      && forall id <- tasks ::
           var t := tasks[id];
           t in repr && t.payload in repr && t.errors in repr && t.result in repr && t.Value() == view[id]
    }

    ghost predicate Valid()
      reads this, repr
    {
      Backed() && Minted(State())
    }

    constructor ()
      ensures Valid() && fresh(repr) && State() == MemState(0, map[])
    {
      seqNo, tasks := 0, map[];
      view, repr := map[], {this};
    }

    method Task(id: string) returns (c: TaskRecord?)
      requires Valid()
      ensures c == null <==> id !in view
      ensures c != null ==> fresh(c) && fresh(c.payload) && fresh(c.errors) && fresh(c.result) && c.Value() == view[id]
    {
      if id in tasks {
        c := tasks[id].Clone();
      } else {
        c := null;
      }
    }

    method ActiveKeyHolder(key: string) returns (holder: TaskRecord?)
      requires Valid()
      ensures holder == null <==> !exists id <- view :: Active(view[id]) && view[id].uniqueKey == key
      ensures holder != null ==>
                holder.id in tasks && tasks[holder.id] == holder && Active(view[holder.id])
                     && view[holder.id].uniqueKey == key
    {
      var rest := tasks.Keys;
      while rest != {}
        invariant rest <= tasks.Keys
        invariant forall id <- tasks.Keys - rest :: !(Active(view[id]) && view[id].uniqueKey == key)
        decreases rest
      {
        var id :| id in rest;
        var t := tasks[id];
        assert t.Value() == view[id];
        if t.uniqueKey == key && t.IsActive() {
          return t;
        }
        rest := rest - {id};
      }
      holder := null;
    }

    /** The scan of claimOneLocked: one pass over the map in whatever order it comes. */
    method Best(opts: ClaimOptions, now: int) returns (best: TaskRecord?, ghost at: string)
      requires Valid()
      ensures best == null ==> First(view, opts, now).None?
      ensures best != null ==> at in tasks && tasks[at] == best && First(view, opts, now) == Some(at)
    {
      hide TaskRecord.Value, TaskRecord.Claimable, TaskRecord.Before, WantedAndRunnable, Earlier;
      best, at := null, "";
      var rest := tasks.Keys;
      while rest != {}
        invariant rest <= tasks.Keys
        invariant best != null ==>
          at in tasks.Keys - rest && tasks[at] == best && WantedAndRunnable(opts, now, view[at])
        invariant forall id <- tasks.Keys - rest | WantedAndRunnable(opts, now, view[id]) ::
                    best != null && (id == at || Earlier(view[at], view[id]))
        decreases rest
      {
        var id :| id in rest;
        rest := rest - {id};
        var t := tasks[id];
        assert t.Value() == view[id];
        if !t.Claimable(opts, now) {
          continue;
        }
        if best == null || t.Before(best) {
          forall j <- tasks.Keys - rest | j != id && WantedAndRunnable(opts, now, view[j])
            ensures Earlier(view[id], view[j])
          {
            EarlierIsStrictOrder(view[id], view[at], view[j]);
          }
          best, at := t, id;
        } else {
          EarlierIsStrictOrder(view[at], view[id], view[id]);
        }
      }
      FirstIsFirst(view, opts, now);
      if best != null {
        assert IsFirst(view, opts, now, at);
      }
    }

    lemma SameKeys()
      requires Valid()
      ensures tasks.Keys == view.Keys
    {
    }

    lemma Backs(id: string)
      requires Valid() && id in tasks
      ensures id in view && tasks[id].Value() == view[id] && view[id].id == id && this in repr && tasks[id] in repr
      ensures tasks[id].payload in repr && tasks[id].errors in repr && tasks[id].result in repr
    {
    }

    /** One record was updated in place and the view with it; nothing else moved. */
    twostate lemma StillBacked(id: string)
      requires old(Valid()) && id in old(tasks) && tasks == old(tasks)
      requires view == old(view)[id := tasks[id].Value()]
      requires old(repr) <= repr && tasks[id].payload in repr && tasks[id].errors in repr && tasks[id].result in repr
      requires unchanged(old(repr) - {this, tasks[id]})
      ensures Backed()
    {
      hide TaskRecord.Value;
      assert forall i <- old(tasks) :: old(tasks[i].Value()) == old(view)[i];
      assert forall i <- old(tasks) | i != id :: tasks[i] != tasks[id];
    }

    /** The update of claimOneLocked. */
    method Grant(best: TaskRecord, ghost id: string, opts: ClaimOptions, now: int)
      requires Valid() && id in tasks && tasks[id] == best
      modifies this, best
      ensures Valid() && tasks == old(tasks) && repr == old(repr)
      ensures id in old(view) && State() == ClaimIt(old(State()), id, opts, now) && best.Value() == view[id]
    {
      hide Minted, Claimed, Backed, TaskRecord.Value;
      Backs(id);
      ClaimKeepsMinted(State(), id, opts, now);
      seqNo := seqNo + 1;
      best.Lease(opts.workerId, LeaseToken(seqNo), now, opts.lease);
      view := view[id := best.Value()];
      StillBacked(id);
    }

    method ClaimOneLocked(opts: ClaimOptions, now: int) returns (c: TaskRecord?)
      requires Valid()
      modifies this, tasks.Values
      ensures Valid() && tasks == old(tasks) && repr == old(repr)
      ensures (State(), if c == null then None else Some(c.Value())) == ClaimOne(old(State()), opts, now)
      ensures c != null ==> fresh(c) && fresh(c.payload) && fresh(c.errors) && fresh(c.result)
    {
      hide First, Minted, ClaimIt, TaskRecord.Value;
      var best, id := Best(opts, now);
      if best == null {
        return null;
      }
      hide Backed;
      Grant(best, id, opts, now);
      c := best.Clone();
    }

    method Claim(opts: ClaimOptions, now: int) returns (c: TaskRecord?)
      requires Valid()
      modifies this, tasks.Values
      ensures Valid() && tasks == old(tasks) && repr == old(repr)
      ensures (State(), if c == null then None else Some(c.Value())) == ClaimOne(old(State()), opts, now)
      ensures IsClaimOfFirst(old(State()), opts, now, State(), if c == null then None else Some(c.Value()))
      ensures c != null ==> fresh(c) && fresh(c.payload) && fresh(c.errors) && fresh(c.result)
    {
      hide ClaimOne, IsClaimOfFirst, TaskRecord.Value;
      ClaimOneSays(State(), opts, now);
      c := ClaimOneLocked(opts, now);
    }

    /** ErrNoTask when nothing comes back. */
    method ClaimBatch(opts: ClaimOptions, k: int, now: int) returns (out: seq<TaskRecord>, ghost values: seq<Task>)
      requires Valid()
      modifies this, tasks.Values
      ensures Valid() && tasks == old(tasks) && repr == old(repr)
      ensures (State(), values) == ClaimRounds(old(State()), opts, now, if k < 0 then 0 else k)
      ensures |out| == |values| && forall i :: 0 <= i < |out| ==>
                out[i].Value() == values[i] && fresh(out[i]) && fresh(out[i].payload) && fresh(out[i].errors)
                && fresh(out[i].result)
    {
      hide First, ClaimOne, ClaimRounds, RoundsSoFar, Minted, Backed, TaskRecord.Value;
      out, values := [], [];
      ghost var rounds: nat := if k < 0 then 0 else k;
      RoundsBegin(State(), opts, now, rounds);
      while |out| < k
        invariant Valid() && tasks == old(tasks) && repr == old(repr)
        invariant |out| == |values| <= rounds
        invariant RoundsSoFar(old(State()), opts, now, rounds, State(), values, rounds - |out|)
        invariant forall i :: 0 <= i < |out| ==>
          out[i].Value() == values[i] && fresh(out[i]) && fresh(out[i].payload) && fresh(out[i].errors)
          && fresh(out[i].result)
      {
        RoundsGoOn(old(State()), opts, now, rounds, State(), values, rounds - |out|);
        var t := ClaimOneLocked(opts, now);
        if t == null {
          return;
        }
        out, values := out + [t], values + [t.Value()];
      }
      RoundsGoOn(old(State()), opts, now, rounds, State(), values, 0);
    }

    method HeldTask(id: string, token: string) returns (t: TaskRecord?)
      requires Valid()
      ensures t == null <==> !HeldBy(view, Key(id, token))
      ensures t != null ==> id in tasks && tasks[id] == t
    {
      if id !in tasks {
        return null;
      }
      t := tasks[id];
      assert t.Value() == view[id];
      if !t.status.Running? || t.leaseToken != token {
        return null;
      }
    }

    // The in-place updates, on the record and on the view at once.

    method FinishOne(t: TaskRecord, ghost id: string, result: array<char>, now: int)
      requires Valid() && id in tasks && tasks[id] == t
      modifies this, t
      ensures Valid() && tasks == old(tasks) && seqNo == old(seqNo) && repr == old(repr) + {t.result} && fresh(t.result)
      ensures id in old(view) && view == old(view)[id := MemCompleted(old(view[id]), old(result[..]), now)]
    {
      hide Minted, TaskRecord.Value, Backed;
      Backs(id);
      UpdateKeepsMinted(State(), id, MemCompleted(view[id], result[..], now));
      hide MemCompleted;
      t.Finish(result, now);
      view, repr := view[id := t.Value()], repr + {t.result};
      StillBacked(id);
    }

    method FaultOne(t: TaskRecord, ghost id: string, e: TaskError, retryAt: int, terminal: bool, now: int)
      requires Valid() && id in tasks && tasks[id] == t
      modifies this, t
      ensures Valid() && tasks == old(tasks) && seqNo == old(seqNo) && repr == old(repr) + {t.errors} && fresh(t.errors)
      ensures id in old(view) && view == old(view)[id := Failed(old(view[id]), e, retryAt, terminal, now)]
    {
      hide Minted, TaskRecord.Value, Backed;
      Backs(id);
      UpdateKeepsMinted(State(), id, Failed(view[id], e, retryAt, terminal, now));
      hide Failed;
      t.Fault(e, retryAt, terminal, now);
      view, repr := view[id := t.Value()], repr + {t.errors};
      StillBacked(id);
    }

    method RequeueLocked(t: TaskRecord, ghost id: string, now: int)
      requires Valid() && id in tasks && tasks[id] == t
      modifies this, t
      ensures Valid() && tasks == old(tasks) && seqNo == old(seqNo) && repr == old(repr) + {t.result} && fresh(t.result)
      ensures id in old(view) && view == old(view)[id := MemRequeued(old(view[id]), now)]
    {
      hide Minted, TaskRecord.Value, Backed;
      Backs(id);
      UpdateKeepsMinted(State(), id, MemRequeued(view[id], now));
      hide MemRequeued;
      t.Restart(now);
      view, repr := view[id := t.Value()], repr + {t.result};
      StillBacked(id);
    }

    method BuryOne(t: TaskRecord, ghost id: string, now: int)
      requires Valid() && id in tasks && tasks[id] == t
      modifies this, t
      ensures Valid() && tasks == old(tasks) && seqNo == old(seqNo) && repr == old(repr) + {t.errors} && fresh(t.errors)
      ensures id in old(view) && view == old(view)[id := MemReaped(old(view[id]), now)]
    {
      hide Minted, TaskRecord.Value, Backed;
      Backs(id);
      UpdateKeepsMinted(State(), id, MemReaped(view[id], now));
      hide MemReaped;
      t.Bury(now);
      view, repr := view[id := t.Value()], repr + {t.errors};
      StillBacked(id);
    }

    method ExtendOne(t: TaskRecord, ghost id: string, lease: int, now: int)
      requires Valid() && id in tasks && tasks[id] == t
      modifies this, t
      ensures Valid() && tasks == old(tasks) && seqNo == old(seqNo) && repr == old(repr) && t.leasedUntil == now + lease
      ensures id in old(view) && view == old(view)[id := MemExtended(old(view[id]), now, lease)]
    {
      hide Minted, Backed;
      Backs(id);
      UpdateKeepsMinted(State(), id, MemExtended(view[id], now, lease));
      t.leasedUntil := now + lease;
      assert t.Value() == MemExtended(old(view[id]), now, lease);
      hide MemExtended, TaskRecord.Value;
      view := view[id := t.Value()];
      StillBacked(id);
    }

    /** False is ErrLeaseLost, here and below. */
    method Complete(task: TaskRecord, result: array<char>, now: int) returns (ok: bool)
      requires Valid()
      modifies this, tasks.Values
      ensures Valid() && tasks == old(tasks) && fresh(repr - old(repr))
      ensures ok <==> HeldBy(old(view), old(task.ClaimKey()))
      ensures State()
           == MemState(old(seqNo), MemFinalizeOne(old(view), Success(old(task.Value()), old(result[..])), now))
      ensures ok <==> IsUnder(old(view), old(task.id), old(task.leaseToken))
      ensures if ok
              then OnlyAt(old(view), view, old(task.id))
                   && IsSuccess(old(view)[old(task.id)].(result := ""), view[old(task.id)], old(result[..]), now)
              else view == old(view)
    {
      hide Minted, Backed, MemCompleted, TaskRecord.Value, HeldBy, IsSuccess, IsFailure, MemFinalizeOne;
      task.Fields();
      SuccessSays(view, task.Value(), result[..], now);
      var t := HeldTask(task.id, task.leaseToken);
      ghost var key := task.ClaimKey();
      if t == null {
        return false;
      }
      FinishOne(t, task.id, result, now);
      ok := true;
    }

    method Fail(task: TaskRecord, e: TaskError, retryAt: int, terminal: bool, now: int) returns (ok: bool)
      requires Valid()
      modifies this, tasks.Values
      ensures Valid() && tasks == old(tasks) && fresh(repr - old(repr))
      ensures ok <==> HeldBy(old(view), old(task.ClaimKey()))
      ensures State()
           == MemState(old(seqNo), MemFinalizeOne(old(view), Failure(old(task.Value()), e, retryAt, terminal), now))
      ensures ok <==> IsUnder(old(view), old(task.id), old(task.leaseToken))
      ensures if ok
              then OnlyAt(old(view), view, old(task.id))
                   && IsFailure(old(view)[old(task.id)], view[old(task.id)], e, retryAt, terminal, now)
              else view == old(view)
    {
      hide Minted, Backed, Failed, TaskRecord.Value, HeldBy, IsSuccess, IsFailure, MemFinalizeOne;
      task.Fields();
      FailureSays(view, task.Value(), e, retryAt, terminal, now);
      var t := HeldTask(task.id, task.leaseToken);
      ghost var key := task.ClaimKey();
      if t == null {
        return false;
      }
      FaultOne(t, task.id, e, retryAt, terminal, now);
      ok := true;
    }

    /** The caller's outcomes are about copies, never about the stored tasks. */
    method FinalizeBatch(outcomes: seq<Report>, nows: seq<int>, ghost meaning: seq<Outcome>) returns (lost: nat)
      requires Valid() && |outcomes| == |nows| == |meaning|
      requires forall i :: 0 <= i < |outcomes| ==>
                Meaning(outcomes[i]) == meaning[i]
                && outcomes[i].task !in tasks.Values
      modifies this, tasks.Values
      ensures Valid() && tasks == old(tasks) && fresh(repr - old(repr))
      ensures State() == MemState(old(seqNo), MemFinalizeAll(old(view), meaning, nows))
      ensures lost == MemLost(old(view), meaning, nows)
    {
      hide Minted, Backed, MemFinalizeOne, MemFinalizeAll, MemLost, TaskRecord.Value, TaskRecord.ClaimKey, HeldBy;
      lost := 0;
      NothingFinalized(view);
      for i := 0 to |outcomes|
        invariant Valid() && tasks == old(tasks) && fresh(repr - old(repr))
        invariant forall j :: 0 <= j < |outcomes| ==> Meaning(outcomes[j]) == meaning[j]
        invariant State() == MemState(old(seqNo), MemFinalizeAll(old(view), meaning[..i], nows[..i]))
        invariant lost == MemLost(old(view), meaning[..i], nows[..i])
      {
        var o := outcomes[i];
        assert o.task.ClaimKey() == KeyOf(meaning[i].task);
        FinalizeGoesOn(old(view), meaning, nows, i);
        var ok;
        if o.failure.Some? {
          ok := Fail(o.task, o.failure.value, o.retryAt, o.terminal, nows[i]);
        } else {
          ok := Complete(o.task, o.result, nows[i]);
        }
        if !ok {
          lost := lost + 1;
        }
      }
      assert meaning[..|outcomes|] == meaning && nows[..|outcomes|] == nows;
    }

    /** `forced` is the test switch that makes every extension fail. */
    method ExtendLease(task: TaskRecord, lease: int, now: int, forced: bool) returns (until: Option<int>)
      requires Valid()
      modifies this, tasks.Values
      ensures Valid() && tasks == old(tasks) && repr == old(repr)
      ensures until == if !forced && HeldBy(old(view), old(task.ClaimKey())) then Some(now + lease) else None
      ensures State()
           == MemState(old(seqNo), if until.None? then old(view) else MemExtendOne(old(view), old(task.ClaimKey()),
               now, lease))
      ensures until.Some? <==> !forced && IsUnder(old(view), old(task.id), old(task.leaseToken))
      ensures if until.Some?
              then OnlyAt(old(view), view, old(task.id))
                   && IsExtension(old(view)[old(task.id)], view[old(task.id)], now + lease)
              else view == old(view)
    {
      hide Minted, Backed, MemExtended, MemExtendOne, TaskRecord.Value, HeldBy, IsExtension;
      ExtendSays(view, task.ClaimKey(), now, lease);
      if forced {
        return None;
      }
      var t := HeldTask(task.id, task.leaseToken);
      if t == null {
        return None;
      }
      ghost var key := task.ClaimKey();
      ExtendOne(t, task.id, lease, now);
      until := Some(t.leasedUntil);
    }

    /** False is ErrNotFound. */
    method Requeue(id: string, now: int) returns (ok: bool)
      requires Valid()
      modifies this, tasks.Values
      ensures Valid() && tasks == old(tasks) && fresh(repr - old(repr))
      ensures ok <==> id in old(view) && old(view)[id].status.Dead?
      ensures State()
           == MemState(old(seqNo), if ok then old(view)[id := MemRequeued(old(view)[id], now)] else old(view))
      ensures ok ==> OnlyAt(old(view), view, id) && IsRestart(old(view)[id], view[id], now)
    {
      hide Minted, MemRequeued, TaskRecord.Value, IsRestart;
      if id !in tasks || !tasks[id].IsDead("") {
        return false;
      }
      RequeueSays(view, id, now);
      RequeueLocked(tasks[id], id, now);
      ok := true;
    }

    method RequeueDead(kind: string, now: int) returns (n: nat)
      requires Valid()
      modifies this, tasks.Values
      ensures Valid() && tasks == old(tasks) && fresh(repr - old(repr))
      ensures State() == MemState(old(seqNo), MemRequeueAmong(old(view), DeadIds(old(view), kind), now))
           && n == |DeadIds(old(view), kind)|
    {
      hide Minted, Backed, MemRequeued, TaskRecord.Value, MemRequeueAmong, RequeueSoFar, TaskRecord.IsDead,
          Lifecycle.IsDead;
      SameKeys();
      n := 0;
      var rest := tasks.Keys;
      SweepBegins(view, kind, now);
      while rest != {}
        invariant Valid() && tasks == old(tasks) && seqNo == old(seqNo) && fresh(repr - old(repr))
        invariant rest <= tasks.Keys == old(view).Keys && RequeueSoFar(old(view), kind, now, rest, view, n)
        decreases rest
      {
        var id :| id in rest;
        var t := tasks[id];
        RequeueGoesOn(old(view), kind, now, rest, view, n, id);
        Backs(id);
        if t.IsDead(kind) {
          RequeueLocked(t, id, now);
          n := n + 1;
        }
        rest := rest - {id};
      }
      SweepEnds(old(view), kind, now, view, n);
    }

    method ReapExpired(now: int) returns (n: nat)
      requires Valid()
      modifies this, tasks.Values
      ensures Valid() && tasks == old(tasks) && fresh(repr - old(repr))
      ensures State() == MemState(old(seqNo), MemReapAmong(old(view), ReapableIds(old(view), now), now))
           && n == |ReapableIds(old(view), now)|
    {
      hide Minted, Backed, MemReaped, TaskRecord.Value, MemReapAmong, ReapSoFar, TaskRecord.IsReapable, Reapable;
      SameKeys();
      n := 0;
      var rest := tasks.Keys;
      SweepBegins(view, "", now);
      while rest != {}
        invariant Valid() && tasks == old(tasks) && seqNo == old(seqNo) && fresh(repr - old(repr))
        invariant rest <= tasks.Keys == old(view).Keys && ReapSoFar(old(view), now, rest, view, n)
        decreases rest
      {
        var id :| id in rest;
        var t := tasks[id];
        ReapGoesOn(old(view), now, rest, view, n, id);
        Backs(id);
        if t.IsReapable(now) {
          BuryOne(t, id, now);
          n := n + 1;
        }
        rest := rest - {id};
      }
      SweepEnds(old(view), "", now, view, n);
    }

    twostate lemma BackedWith(id: string, new c: TaskRecord)
      requires old(Valid()) && id !in old(tasks) && tasks == old(tasks)[id := c] && view == old(view)[id := c.Value()]
      requires old(repr) <= repr && c in repr && c.payload in repr && c.errors in repr && c.result in repr
      requires unchanged(old(repr) - {this})
      ensures Backed()
    {
      hide Minted, TaskRecord.Value;
    }

    /** The body of the Enqueue loop: a copy goes in under a fresh id. */
    method InsertCopy(t: TaskRecord, ghost value: Task)
      requires Valid() && t.Value() == value
      modifies this
      ensures Valid() && fresh(repr - old(repr)) && seqNo == old(seqNo) + 1
      ensures State() == Insert(old(State()), value)
    {
      hide Minted, Backed;
      SameKeys();
      InsertKeepsMinted(State(), value);
      seqNo := seqNo + 1;
      var c := t.Clone();
      c.id := TaskId(seqNo);
      assert c.Value() == value.(id := c.id);
      hide TaskRecord.Value;
      tasks, view := tasks[c.id := c], view[c.id := c.Value()];
      repr := repr + {c} + {c.payload, c.result} + {c.errors};
      BackedWith(c.id, c);
    }

    /** On a unique-key conflict the holder's id comes back, no ids do, and what
        was inserted before it stays. */
    method Enqueue(ts: seq<TaskRecord>, ghost values: seq<Task>) returns (ids: seq<string>, holder: Option<string>)
      requires Valid() && |ts| == |values|
      requires forall i :: 0 <= i < |ts| ==> ts[i].Value() == values[i]
      modifies this
      ensures Valid() && fresh(repr - old(repr))
      ensures State() == EnqueueAll(old(State()), values)
      ensures holder.None? ==> |ids| == |ts| && forall i :: 0 <= i < |ids| ==> ids[i] == TaskId(old(seqNo) + 1 + i)
      ensures holder.Some? ==>
                && ids == [] && old(seqNo) <= seqNo < old(seqNo) + |ts| && holder.value in view
                && Active(view[holder.value])
                     && view[holder.value].uniqueKey == values[seqNo - old(seqNo)].uniqueKey != ""
    {
      hide Minted, Backed, TaskRecord.Value, Insert, EnqueueAll;
      ids, holder := [], None;
      for i := 0 to |ts|
        invariant Valid() && fresh(repr - old(repr)) && seqNo == old(seqNo) + i
        invariant forall j :: 0 <= j < |ts| ==> ts[j].Value() == values[j]
        invariant EnqueueAll(old(State()), values) == EnqueueAll(State(), values[i..])
        invariant |ids| == i && forall j :: 0 <= j < i ==> ids[j] == TaskId(old(seqNo) + 1 + j)
      {
        ts[i].Fields();
        EnqueueGoesOn(State(), values, i);
        if ts[i].uniqueKey != "" {
          var h := ActiveKeyHolder(ts[i].uniqueKey);
          if h != null {
            SameKeys();
            return [], Some(h.id);
          }
        }
        InsertCopy(ts[i], values[i]);
        ids := ids + [TaskId(seqNo)];
      }
      EnqueueGoesOn(State(), values, |ts|);
    }
  }
}
