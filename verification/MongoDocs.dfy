/** The filter and update documents the Mongo store sends, with the part of
    Mongo's semantics they rely on, and the proof that on stored tasks they mean
    exactly the predicates and transitions of module Lifecycle.
 */
module MongoDocs {
  import opened Tasks
  import opened Lifecycle

  // ----- Documents -----

  /** A stored task.  Fields the driver leaves out when empty, and `$unset`
      removes, may be missing. */
  datatype Doc = Doc(
    id: string,
    queue: string,
    kind: string,
    uniqueKey: Option<string>,
    payload: Option<string>,
    status: Status,
    attempts: int,
    maxAttempts: int,
    runAt: int,
    leasedBy: Option<string>,
    leasedUntil: Option<int>,
    leaseToken: Option<string>,
    errors: Option<seq<TaskError>>,
    result: Option<string>,
    expiresAt: Option<int>,
    createdAt: int,
    updatedAt: int)

  function OrElse<T>(o: Option<T>, zero: T): T { if o.Some? then o.value else zero }

  function UnlessEmpty(s: string): Option<string> { if s == "" then None else Some(s) }

  /** A missing field reads as the zero value. */
  function Decode(d: Doc): Task {
    Task(d.id, d.queue, d.kind, OrElse(d.uniqueKey, ""), OrElse(d.payload, ""), d.status, d.attempts, d.maxAttempts,
         d.runAt, d.expiresAt, OrElse(d.leasedBy, ""), OrElse(d.leasedUntil, ZERO_TIME), OrElse(d.leaseToken, ""),
         OrElse(d.errors, []), OrElse(d.result, ""), d.createdAt, d.updatedAt)
  }

  /** The document an enqueue inserts. */
  function Encode(t: Task): Doc {
    Doc(t.id, t.queue, t.kind, UnlessEmpty(t.uniqueKey), UnlessEmpty(t.payload), t.status, t.attempts, t.maxAttempts,
        t.runAt, None, None, None, None, None, t.expiresAt, t.createdAt, t.updatedAt)
  }

  /** A key is never stored empty; a running task has a deadline and a token. */
  predicate WellFormed(d: Doc) {
    && (d.uniqueKey.Some? ==> d.uniqueKey.value != "")
    && (d.status.Running? ==> d.leasedUntil.Some? && d.leaseToken.Some?)
  }

  lemma EncodeRoundTrip(t: Task)
    requires Fresh(t)
    ensures WellFormed(Encode(t)) && Decode(Encode(t)) == t
    ensures Encode(t).uniqueKey.Some? <==> t.uniqueKey != ""
  {
  }

  // ----- Filters -----

  datatype Filter =
    | IdIs(id: string)
    | IdIn(ids: set<string>)
    | StatusIs(status: Status)
    | TypeIs(kind: string)
    | TokenIs(token: string)
    | KeyIs(key: string)
    | TypeIn(names: seq<string>)
    | QueueIn(names: seq<string>)
    | RunAtLte(now: int)
    | LeasedUntilLt(now: int)
    | AttemptsLtMax
    | AttemptsGteMax
    | And(l: Filter, r: Filter)
    | Or(l: Filter, r: Filter)

  /** Comparisons match only documents that have the field. */
  predicate Eval(flt: Filter, d: Doc) {
    match flt
    case IdIs(id) => d.id == id
    case IdIn(ids) => d.id in ids
    case StatusIs(s) => d.status == s
    case TypeIs(kind) => d.kind == kind
    case TokenIs(token) => d.leaseToken == Some(token)
    case KeyIs(key) => d.uniqueKey == Some(key)
    case TypeIn(names) => d.kind in names
    case QueueIn(names) => d.queue in names
    case RunAtLte(now) => d.runAt <= now
    case LeasedUntilLt(now) => d.leasedUntil.Some? && d.leasedUntil.value < now
    case AttemptsLtMax => d.attempts < d.maxAttempts
    case AttemptsGteMax => d.attempts >= d.maxAttempts
    case And(l, r) => Eval(l, d) && Eval(r, d)
    case Or(l, r) => Eval(l, d) || Eval(r, d)
  }

  function Due(now: int): Filter { And(StatusIs(Pending), RunAtLte(now)) }

  function Expired(now: int): Filter { And(StatusIs(Running), LeasedUntilLt(now)) }

  function RunnableFilter(now: int, kinds: seq<string>, queues: seq<string>): Filter {
    var flt := Or(Due(now), And(Expired(now), AttemptsLtMax));
    var typed := if kinds != [] then And(flt, TypeIn(kinds)) else flt;
    if queues != [] then And(typed, QueueIn(queues)) else typed
  }

  function LeaseFilter(id: string, token: string): Filter {
    And(And(IdIs(id), TokenIs(token)), StatusIs(Running))
  }

  function DeadFilter(id: string): Filter { And(IdIs(id), StatusIs(Dead)) }

  function AllDeadFilter(kind: string): Filter {
    if kind != "" then And(StatusIs(Dead), TypeIs(kind)) else StatusIs(Dead)
  }

  function ReapFilter(now: int): Filter { And(Expired(now), AttemptsGteMax) }

  lemma RunnableFilterMeans(d: Doc, now: int, opts: ClaimOptions)
    requires WellFormed(d)
    ensures Eval(RunnableFilter(now, opts.kinds, opts.queues), d) <==>
              Runnable(Decode(d), now)
              && Matches(opts, Decode(d))
    ensures Eval(RunnableFilter(now, [], []), d) <==> Runnable(Decode(d), now)
  {
    assert Eval(Due(now), d) <==> d.status.Pending? && d.runAt <= now;
    assert Eval(Expired(now), d) <==> d.status.Running? && d.leasedUntil.Some? && d.leasedUntil.value < now;
    assert Eval(And(Expired(now), AttemptsLtMax), d) <==> Eval(Expired(now), d) && d.attempts < d.maxAttempts;
    assert Eval(RunnableFilter(now, [], []), d) <==> Runnable(Decode(d), now);
    assert Eval(RunnableFilter(now, opts.kinds, []), d)
      <==> Eval(RunnableFilter(now, [], []), d) && (opts.kinds != [] ==> d.kind in opts.kinds);
  }

  lemma FencesMean(d: Doc, id: string, token: string, kind: string, now: int)
    requires WellFormed(d)
    ensures Eval(LeaseFilter(id, token), d) <==> Decode(d).id == id && Held(Decode(d), token)
    ensures Eval(DeadFilter(id), d) <==> Decode(d).id == id && IsDead(Decode(d), "")
    ensures Eval(AllDeadFilter(kind), d) <==> IsDead(Decode(d), kind)
    ensures Eval(ReapFilter(now), d) <==> Reapable(Decode(d), now)
  {
    assert Eval(Expired(now), d) <==> d.status.Running? && d.leasedUntil.Some? && d.leasedUntil.value < now;
    assert Eval(And(IdIs(id), TokenIs(token)), d) <==> d.id == id && d.leaseToken == Some(token);
  }

  // ----- Updates -----

  datatype Change<T> = Keep | Set(value: T) | Unset

  datatype Update = Update(
    status: Option<Status>,
    incAttempts: int,
    setAttempts: Option<int>,
    runAt: Option<int>,
    leasedBy: Change<string>,
    leasedUntil: Change<int>,
    leaseToken: Change<string>,
    uniqueKey: Change<string>,
    pushErrors: Option<TaskError>,
    result: Change<string>,
    updatedAt: int)

  function Touch(now: int): Update {
    Update(None, 0, None, None, Keep, Keep, Keep, Keep, None, Keep, now)
  }

  function Changed<T>(o: Option<T>, c: Change<T>): Option<T> {
    match c
    case Keep => o
    case Set(v) => Some(v)
    case Unset => None
  }

  function Apply(d: Doc, u: Update): Doc {
    d.(status := OrElse(u.status, d.status),
       attempts := OrElse(u.setAttempts, d.attempts) + u.incAttempts,
       runAt := OrElse(u.runAt, d.runAt),
       leasedBy := Changed(d.leasedBy, u.leasedBy),
       leasedUntil := Changed(d.leasedUntil, u.leasedUntil),
       leaseToken := Changed(d.leaseToken, u.leaseToken),
       uniqueKey := Changed(d.uniqueKey, u.uniqueKey),
       errors := if u.pushErrors.Some? then Some(OrElse(d.errors, []) + [u.pushErrors.value]) else d.errors,
       result := Changed(d.result, u.result),
       updatedAt := u.updatedAt)
  }

  function ClaimUpdate(now: int, worker: string, token: string, lease: int): Update {
    Touch(now).(status := Some(Running), leasedBy := Set(worker), leaseToken := Set(token),
                leasedUntil := Set(now + lease), incAttempts := 1)
  }

  function CompleteUpdate(result: string, now: int): Update {
    Touch(now).(status := Some(Done), result := if result == "" then Keep else Set(result),
                leasedBy := Unset, leaseToken := Unset, uniqueKey := Unset)
  }

  function FailUpdate(error: TaskError, retryAt: int, terminal: bool, now: int): Update {
    var u := Touch(now).(leasedBy := Unset, leaseToken := Unset, pushErrors := Some(error));
    if terminal then u.(status := Some(Dead), uniqueKey := Unset)
    else u.(status := Some(Pending), runAt := Some(retryAt))
  }

  function FinalizeUpdate(o: Outcome, now: int): Update {
    match o
    case Success(_, result) => CompleteUpdate(result, now)
    case Failure(_, error, retryAt, terminal) => FailUpdate(error, retryAt, terminal, now)
  }

  function ExtendUpdate(now: int, lease: int): Update {
    Touch(now).(leasedUntil := Set(now + lease))
  }

  function RequeueUpdate(now: int): Update {
    Touch(now).(status := Some(Pending), setAttempts := Some(0), runAt := Some(now), result := Unset,
                leasedBy := Unset, leasedUntil := Unset, leaseToken := Unset)
  }

  /** The reaper's two-stage pipeline: `$set` reads the document as it was,
      then `$unset` clears. */
  function ReapPipeline(d: Doc, now: int): Doc {
    var entry := TaskError(now, d.attempts, OrElse(d.leasedBy, ""), REAP_MESSAGE);
    var staged := d.(status := Dead, updatedAt := now, errors := Some(OrElse(d.errors, []) + [entry]));
    staged.(leasedBy := None, leaseToken := None, uniqueKey := None)
  }

  lemma UpdatesMean(d: Doc, o: Outcome, now: int, worker: string, token: string, lease: int)
    requires WellFormed(d)
    ensures var e := Apply(d, ClaimUpdate(now, worker, token, lease));
            e.id == d.id && WellFormed(e) && Decode(e) == Claimed(Decode(d), now, worker, token, lease)
    ensures var e := Apply(d, FinalizeUpdate(o, now));
            e.id == d.id && WellFormed(e) && Decode(e) == Finalized(Decode(d), o, now)
    ensures var e := Apply(d, ExtendUpdate(now, lease));
            e.id == d.id && (d.status.Running? ==> WellFormed(e)) && Decode(e) == Extended(Decode(d), now, lease)
    ensures var e := Apply(d, RequeueUpdate(now));
            e.id == d.id && WellFormed(e) && Decode(e) == Requeued(Decode(d), now)
    ensures var e := ReapPipeline(d, now);
            e.id == d.id && WellFormed(e) && Decode(e) == Reaped(Decode(d), now)
  {
  }

  // ----- The collection -----

  type Collection = map<string, Doc>

  ghost predicate Stored(c: Collection) {
    forall id <- c :: c[id].id == id && WellFormed(c[id])
  }

  function TasksOf(c: Collection): map<string, Task> {
    map id <- c :: Decode(c[id])
  }

  /** UpdateOne, UpdateMany: every matching document changes, the rest stay. */
  function UpdateWhere(c: Collection, flt: Filter, u: Update): Collection {
    map id <- c :: if Eval(flt, c[id]) then Apply(c[id], u) else c[id]
  }

  function Matched(c: Collection, flt: Filter): set<string> {
    set id <- c | Eval(flt, c[id])
  }

  function MatchedCount(c: Collection, flt: Filter): nat { |Matched(c, flt)| }

  /** FindOneAndUpdate, or a find with a limit and an update guarded by the ids
      it found: of the matching documents the server has picked `chosen`. */
  function UpdateChosen(c: Collection, chosen: set<string>, flt: Filter, u: Update): Collection {
    UpdateWhere(c, And(IdIn(chosen), flt), u)
  }

  /** A fenced finalize on tasks: it hits the one task that is running under the
      outcome's own token, or nothing. */
  function FinalizeOne(m: map<string, Task>, o: Outcome, now: int): map<string, Task> {
    if Hits(m, o) then m[o.task.id := Finalized(m[o.task.id], o, now)] else m
  }

  predicate Hits(m: map<string, Task>, o: Outcome) {
    o.task.id in m && Held(m[o.task.id], o.task.leaseToken)
  }

  lemma FinalizeWriteOnOne(d: Doc, o: Outcome, now: int)
    requires WellFormed(d)
    ensures var flt := LeaseFilter(o.task.id, o.task.leaseToken);
            var e := if Eval(flt, d) then Apply(d, FinalizeUpdate(o, now)) else d;
            && e.id == d.id && WellFormed(e)
            && (Eval(flt, d) <==> d.id == o.task.id && Held(Decode(d), o.task.leaseToken))
            && Decode(e) == if Eval(flt, d) then Finalized(Decode(d), o, now) else Decode(d)
  {
    FencesMean(d, o.task.id, o.task.leaseToken, "", now);
    UpdatesMean(d, o, now, "", "", 0);
  }

  /** Complete and Fail: filter and update together are the fenced write, ... */
  lemma FinalizeWriteMeans(c: Collection, o: Outcome, now: int)
    requires Stored(c)
    ensures var e := UpdateWhere(c, LeaseFilter(o.task.id, o.task.leaseToken), FinalizeUpdate(o, now));
            Stored(e) && TasksOf(e) == FinalizeOne(TasksOf(c), o, now)
  {
    hide Eval, LeaseFilter, FinalizeUpdate, Finalized, Apply, WellFormed, Held, Decode;
    var e := UpdateWhere(c, LeaseFilter(o.task.id, o.task.leaseToken), FinalizeUpdate(o, now));
    forall i <- c
      ensures e[i].id == i && WellFormed(e[i]) && TasksOf(e)[i] == FinalizeOne(TasksOf(c), o, now)[i]
    {
      FinalizeWriteOnOne(c[i], o, now);
    }
  }

  /** ... and the matched count is how the store tells a lost lease. */
  lemma MatchedCountMeans(c: Collection, o: Outcome, now: int)
    requires Stored(c)
    ensures MatchedCount(c, LeaseFilter(o.task.id, o.task.leaseToken)) == if Hits(TasksOf(c), o) then 1 else 0
  {
    var flt := LeaseFilter(o.task.id, o.task.leaseToken);
    forall i <- c ensures Eval(flt, c[i]) <==> i == o.task.id && Hits(TasksOf(c), o) {
      FinalizeWriteOnOne(c[i], o, now);
    }
    assert Matched(c, flt) == if Hits(TasksOf(c), o) then {o.task.id} else {};
  }

  // ----- The other writes, on the collection -----

  function ClaimAmong(docs: map<string, Task>, chosen: set<string>, opts: ClaimOptions, now: int,
        token: string): map<string, Task> {
    map id <- docs ::
      if id in chosen
           && Runnable(docs[id], now) then Claimed(docs[id], now, opts.workerId, token, opts.lease) else docs[id]
  }

  function RequeueAmong(docs: map<string, Task>, ids: set<string>, now: int): map<string, Task> {
    map id <- docs :: if id in ids then Requeued(docs[id], now) else docs[id]
  }

  function ReapAmong(docs: map<string, Task>, ids: set<string>, now: int): map<string, Task> {
    map id <- docs :: if id in ids then Reaped(docs[id], now) else docs[id]
  }

  // Filter and update together change exactly the tasks the operation is
  // about, in the way it should; the matched count is how many that are.

  lemma ClaimOnOne(d: Doc, chosen: set<string>, opts: ClaimOptions, now: int, token: string)
    requires WellFormed(d)
    ensures var flt := RunnableFilter(now, opts.kinds, opts.queues);
            && (Eval(flt, d) <==> Runnable(Decode(d), now) && Matches(opts, Decode(d)))
            && (Eval(And(IdIn(chosen), flt), d) <==> d.id in chosen && Eval(flt, d))
    ensures Eval(And(IdIn(chosen), RunnableFilter(now, [], [])), d) <==> d.id in chosen && Runnable(Decode(d), now)
    ensures var e := Apply(d, ClaimUpdate(now, opts.workerId, token, opts.lease));
            && e.id == d.id && WellFormed(e)
            && Decode(e) == Claimed(Decode(d), now, opts.workerId, token, opts.lease)
  {
    hide RunnableFilter, Runnable, Matches, Claimed;
    RunnableFilterMeans(d, now, opts);
    UpdatesMean(d, Success(Decode(d), ""), now, opts.workerId, token, opts.lease);
  }

  /** A batch claim: the guard drops the type and queue filter. */
  lemma ClaimWriteMeans(c: Collection, ids: set<string>, opts: ClaimOptions, now: int, token: string)
    requires Stored(c)
    ensures var u := ClaimUpdate(now, opts.workerId, token, opts.lease);
            var e := UpdateChosen(c, ids, RunnableFilter(now, [], []), u);
            Stored(e) && TasksOf(e) == ClaimAmong(TasksOf(c), ids, opts, now, token)
  {
    hide WellFormed, Eval, Decode, Apply, Runnable, Matches, Claimed, RunnableFilter, ClaimUpdate;
    forall i <- c
      ensures Eval(And(IdIn(ids), RunnableFilter(now, [], [])), c[i]) <==> i in ids && Runnable(Decode(c[i]), now)
      ensures var e := Apply(c[i], ClaimUpdate(now, opts.workerId, token, opts.lease));
              && e.id == i && WellFormed(e)
              && Decode(e) == Claimed(Decode(c[i]), now, opts.workerId, token, opts.lease)
    {
      ClaimOnOne(c[i], ids, opts, now, token);
    }
  }

  /** A single claim: one round trip under the whole filter. */
  lemma ClaimOneWriteMeans(c: Collection, ids: set<string>, opts: ClaimOptions, now: int, token: string)
    requires Stored(c)
    ensures Matched(c, RunnableFilter(now, opts.kinds, opts.queues))
         == set id <- c | Runnable(Decode(c[id]), now) && Matches(opts, Decode(c[id]))
    ensures var flt := RunnableFilter(now, opts.kinds, opts.queues);
            ids <= Matched(c, flt) ==>
              var e := UpdateChosen(c, ids, flt, ClaimUpdate(now, opts.workerId, token, opts.lease));
              Stored(e) && TasksOf(e) == ClaimAmong(TasksOf(c), ids, opts, now, token)
  {
    hide WellFormed, Eval, Decode, Apply, Runnable, Matches, Claimed, RunnableFilter, ClaimUpdate;
    var flt := RunnableFilter(now, opts.kinds, opts.queues);
    forall i <- c
      ensures Eval(flt, c[i]) <==> Runnable(Decode(c[i]), now) && Matches(opts, Decode(c[i]))
      ensures Eval(And(IdIn(ids), flt), c[i]) <==> i in ids && Eval(flt, c[i])
      ensures var e := Apply(c[i], ClaimUpdate(now, opts.workerId, token, opts.lease));
              && e.id == i && WellFormed(e)
              && Decode(e) == Claimed(Decode(c[i]), now, opts.workerId, token, opts.lease)
    {
      ClaimOnOne(c[i], ids, opts, now, token);
    }
  }

  lemma HeldIsRunning(d: Doc, token: string)
    requires Held(Decode(d), token)
    ensures d.status.Running?
  {
  }

  lemma KeepsId(d: Doc)
    ensures Decode(d).id == d.id
  {
  }

  function ExtendHeld(m: map<string, Task>, k: Key, now: int, lease: int): map<string, Task> {
    map id <- m :: if id == k.id && Held(m[id], k.token) then Extended(m[id], now, lease) else m[id]
  }

  lemma ExtendWriteMeans(c: Collection, k: Key, now: int, lease: int)
    requires Stored(c)
    ensures var e := UpdateWhere(c, LeaseFilter(k.id, k.token), ExtendUpdate(now, lease));
            Stored(e) && TasksOf(e) == ExtendHeld(TasksOf(c), k, now, lease)
    ensures Matched(c, LeaseFilter(k.id, k.token))
         == if k.id in c && Held(Decode(c[k.id]), k.token) then {k.id} else {}
  {
    hide WellFormed, Eval, Decode, Apply, Held, Extended, LeaseFilter, ExtendUpdate;
    forall i <- c
      ensures Eval(LeaseFilter(k.id, k.token), c[i]) <==> i == k.id && Held(Decode(c[i]), k.token)
      ensures var e := Apply(c[i], ExtendUpdate(now, lease));
              && e.id == c[i].id && (Held(Decode(c[i]), k.token) ==> WellFormed(e))
              && Decode(e) == Extended(Decode(c[i]), now, lease)
    {
      KeepsId(c[i]);
      if Held(Decode(c[i]), k.token) {
        HeldIsRunning(c[i], k.token);
      }
      FencesMean(c[i], k.id, k.token, "", now);
      UpdatesMean(c[i], Success(Decode(c[i]), ""), now, "", "", lease);
    }
  }

  lemma RequeueOnOne(d: Doc, id: string, kind: string, now: int)
    requires WellFormed(d)
    ensures Eval(DeadFilter(id), d) <==> d.id == id && IsDead(Decode(d), "")
    ensures Eval(AllDeadFilter(kind), d) <==> IsDead(Decode(d), kind)
    ensures var e := Apply(d, RequeueUpdate(now));
            e.id == d.id && WellFormed(e) && Decode(e) == Requeued(Decode(d), now)
  {
    hide Eval, Apply, IsDead, Requeued, DeadFilter, AllDeadFilter, RequeueUpdate;
    FencesMean(d, id, "", kind, now);
    UpdatesMean(d, Success(Decode(d), ""), now, "", "", 0);
  }

  /** Requeue of one dead task is the sweep restricted to its id. */
  lemma RequeueWritesMean(c: Collection, id: string, kind: string, now: int)
    requires Stored(c)
    ensures var e := UpdateWhere(c, DeadFilter(id), RequeueUpdate(now));
            Stored(e) && TasksOf(e) == RequeueAmong(TasksOf(c), DeadIds(TasksOf(c), "") * {id}, now)
    ensures var e := UpdateWhere(c, AllDeadFilter(kind), RequeueUpdate(now));
            Stored(e) && TasksOf(e) == RequeueAmong(TasksOf(c), DeadIds(TasksOf(c), kind), now)
    ensures Matched(c, DeadFilter(id)) == DeadIds(TasksOf(c), "") * {id}
    ensures Matched(c, AllDeadFilter(kind)) == DeadIds(TasksOf(c), kind)
  {
    hide WellFormed, Eval, Decode, Apply, IsDead, Requeued, DeadFilter, AllDeadFilter, RequeueUpdate;
    forall i <- c
      ensures Eval(DeadFilter(id), c[i]) <==> i == id && IsDead(Decode(c[i]), "")
      ensures Eval(AllDeadFilter(kind), c[i]) <==> IsDead(Decode(c[i]), kind)
      ensures var e := Apply(c[i], RequeueUpdate(now));
              e.id == i && WellFormed(e) && Decode(e) == Requeued(Decode(c[i]), now)
    {
      RequeueOnOne(c[i], id, kind, now);
    }
  }

  function ReapWhere(c: Collection, now: int): Collection {
    map id <- c :: if Eval(ReapFilter(now), c[id]) then ReapPipeline(c[id], now) else c[id]
  }

  lemma ReapWriteMeans(c: Collection, now: int)
    requires Stored(c)
    ensures Stored(ReapWhere(c, now))
    ensures TasksOf(ReapWhere(c, now)) == ReapAmong(TasksOf(c), ReapableIds(TasksOf(c), now), now)
    ensures Matched(c, ReapFilter(now)) == ReapableIds(TasksOf(c), now)
  {
    hide WellFormed, Eval, Decode, Reapable, Reaped, ReapFilter, ReapPipeline;
    forall i <- c
      ensures Eval(ReapFilter(now), c[i]) <==> Reapable(Decode(c[i]), now)
      ensures var e := ReapPipeline(c[i], now);
              e.id == c[i].id && WellFormed(e) && Decode(e) == Reaped(Decode(c[i]), now)
    {
      KeepsId(c[i]);
      FencesMean(c[i], "", "", "", now);
      UpdatesMean(c[i], Success(Decode(c[i]), ""), now, "", "", 0);
    }
  }

  // ----- The writes, document by document -----

  // Which documents a write hits is said in their own fields, and what becomes
  // of them as tasks; every other document stays as it is.

  predicate DocIsUnder(d: Doc, id: string, token: string) {
    d.id == id && d.status == Running && d.leaseToken == Some(token)
  }

  /** Past its deadline and out of attempts. */
  predicate DocIsHopeless(d: Doc, now: int) {
    d.status == Running && d.leasedUntil.Some? && d.leasedUntil.value < now && d.attempts >= d.maxAttempts
  }

  lemma FiltersSay(d: Doc, id: string, token: string, now: int)
    ensures Eval(LeaseFilter(id, token), d) <==> DocIsUnder(d, id, token)
    ensures Eval(ReapFilter(now), d) <==> DocIsHopeless(d, now)
  {
    assert Eval(Expired(now), d) <==> d.status.Running? && d.leasedUntil.Some? && d.leasedUntil.value < now;
    assert Eval(And(IdIs(id), TokenIs(token)), d) <==> d.id == id && d.leaseToken == Some(token);
  }

  lemma FinalizeWriteSays(c: Collection, o: Outcome, now: int)
    requires Stored(c)
    ensures var e := UpdateWhere(c, LeaseFilter(o.task.id, o.task.leaseToken), FinalizeUpdate(o, now));
            && e.Keys == c.Keys
            && forall id <- c ::
                 if DocIsUnder(c[id], o.task.id, o.task.leaseToken) then IsReport(Decode(c[id]), Decode(e[id]), o, now)
                 else e[id] == c[id]
  {
    hide IsReport, Decode, Apply, FinalizeUpdate, WellFormed, Eval, LeaseFilter;
    forall id <- c
      ensures IsReport(Decode(c[id]), Decode(Apply(c[id], FinalizeUpdate(o, now))), o, now)
      ensures Eval(LeaseFilter(o.task.id, o.task.leaseToken), c[id])
         <==> DocIsUnder(c[id], o.task.id, o.task.leaseToken)
    {
      FiltersSay(c[id], o.task.id, o.task.leaseToken, now);
      UpdatesMean(c[id], o, now, "", "", 0);
      TransitionsKeepTheirWord(Decode(c[id]), o, now, "", "", 0);
    }
  }

  lemma ExtendWriteSays(c: Collection, k: Key, now: int, lease: int)
    requires Stored(c)
    ensures var e := UpdateWhere(c, LeaseFilter(k.id, k.token), ExtendUpdate(now, lease));
            && e.Keys == c.Keys
            && forall id <- c ::
                 if DocIsUnder(c[id], k.id, k.token)
                 then IsExtension(Decode(c[id]), Decode(e[id]), now + lease) && e[id].updatedAt == now
                 else e[id] == c[id]
  {
    hide IsExtension, Decode, Apply, WellFormed, Eval, LeaseFilter;
    forall id <- c
      ensures var e := Apply(c[id], ExtendUpdate(now, lease));
              IsExtension(Decode(c[id]), Decode(e), now + lease) && e.updatedAt == now
      ensures Eval(LeaseFilter(k.id, k.token), c[id]) <==> DocIsUnder(c[id], k.id, k.token)
    {
      FiltersSay(c[id], k.id, k.token, now);
      var o := Success(Decode(c[id]), "");
      UpdatesMean(c[id], o, now, "", "", lease);
      TransitionsKeepTheirWord(Decode(c[id]), o, now, "", "", lease);
      KeepsTime(Apply(c[id], ExtendUpdate(now, lease)));
    }
  }

  lemma KeepsTime(d: Doc)
    ensures Decode(d).updatedAt == d.updatedAt
  {
  }

  /** Due, or left behind with attempts to spare. */
  predicate DocIsDue(d: Doc, now: int) {
    || (d.status == Pending && d.runAt <= now)
    || (d.status == Running && d.leasedUntil.Some? && d.leasedUntil.value < now && d.attempts < d.maxAttempts)
  }

  lemma ClaimWriteSays(c: Collection, ids: set<string>, opts: ClaimOptions, now: int, token: string)
    requires Stored(c)
    ensures Matched(c, RunnableFilter(now, opts.kinds, opts.queues))
         == set id <- c |
              && DocIsDue(c[id], now)
              && (opts.kinds == [] || c[id].kind in opts.kinds) && (opts.queues == [] || c[id].queue in opts.queues)
    ensures var u := ClaimUpdate(now, opts.workerId, token, opts.lease);
            var e := UpdateChosen(c, ids, RunnableFilter(now, [], []), u);
            && e.Keys == c.Keys
            && forall id <- c ::
                 if id in ids && DocIsDue(c[id], now)
                 then IsClaim(Decode(c[id]), Decode(e[id]), now, opts.workerId, token, opts.lease)
                 else e[id] == c[id]
  {
    hide IsClaim, Eval, RunnableFilter, Claimed, Apply, ClaimUpdate;
    forall id <- c
      ensures Eval(RunnableFilter(now, opts.kinds, opts.queues), c[id])
         <==> DocIsDue(c[id], now) && (opts.kinds == [] || c[id].kind in opts.kinds)
              && (opts.queues == [] || c[id].queue in opts.queues)
      ensures Eval(And(IdIn(ids), RunnableFilter(now, [], [])), c[id]) <==> id in ids && DocIsDue(c[id], now)
      ensures var e := Apply(c[id], ClaimUpdate(now, opts.workerId, token, opts.lease));
              IsClaim(Decode(c[id]), Decode(e), now, opts.workerId, token, opts.lease)
    {
      ClaimOnOne(c[id], ids, opts, now, token);
      TransitionsKeepTheirWord(Decode(c[id]), Success(Decode(c[id]), ""), now, opts.workerId, token, opts.lease);
    }
  }

  lemma RequeueWritesSay(c: Collection, id: string, kind: string, now: int)
    requires Stored(c)
    ensures var e := UpdateWhere(c, DeadFilter(id), RequeueUpdate(now));
            && e.Keys == c.Keys
            && forall i <- c ::
                 if i == id && c[i].status == Dead then IsRestart(Decode(c[i]), Decode(e[i]), now) else e[i] == c[i]
    ensures var e := UpdateWhere(c, AllDeadFilter(kind), RequeueUpdate(now));
            && e.Keys == c.Keys
            && forall i <- c ::
                 if c[i].status == Dead && (kind == "" || c[i].kind == kind)
                 then IsRestart(Decode(c[i]), Decode(e[i]), now)
                 else e[i] == c[i]
  {
    hide IsRestart, Eval, DeadFilter, AllDeadFilter, Apply, RequeueUpdate, Requeued;
    forall i <- c
      ensures Eval(DeadFilter(id), c[i]) <==> i == id && c[i].status == Dead
      ensures Eval(AllDeadFilter(kind), c[i]) <==> c[i].status == Dead && (kind == "" || c[i].kind == kind)
      ensures IsRestart(Decode(c[i]), Decode(Apply(c[i], RequeueUpdate(now))), now)
    {
      RequeueOnOne(c[i], id, kind, now);
      TransitionsKeepTheirWord(Decode(c[i]), Success(Decode(c[i]), ""), now, "", "", 0);
    }
  }

  lemma ReapWriteSays(c: Collection, now: int)
    requires Stored(c)
    ensures var e := ReapWhere(c, now);
            && e.Keys == c.Keys
            && forall id <- c ::
                 if DocIsHopeless(c[id], now) then IsBurial(Decode(c[id]), Decode(e[id]), now) && e[id].updatedAt == now
                 else e[id] == c[id]
  {
    hide IsBurial, Decode, WellFormed, Eval, ReapFilter;
    forall id <- c
      ensures IsBurial(Decode(c[id]), Decode(ReapPipeline(c[id], now)), now)
      ensures Eval(ReapFilter(now), c[id]) <==> DocIsHopeless(c[id], now)
    {
      FiltersSay(c[id], "", "", now);
      var o := Success(Decode(c[id]), "");
      UpdatesMean(c[id], o, now, "", "", 0);
      TransitionsKeepTheirWord(Decode(c[id]), o, now, "", "", 0);
    }
  }
}
