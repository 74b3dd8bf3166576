/** Any number of processes sharing one Mongo collection, as a state machine
    whose steps interleave arbitrarily.

    One step is one atomic write or read of a single document, or one local
    move of a process.  A batch claim is therefore many steps (find, mint a
    token, one guarded update per candidate, one read per candidate) with
    foreign steps between any two.  Any call may fail, with or without its
    write landing; a process may crash and lose everything it holds.

    `hist`, `claims`, `delivered` and `ledger` are history: what was ever
    enqueued, every claim that landed, every claim that reached its claimer,
    and every handler execution that started.
 */
module Cluster {
  import opened Tasks
  import opened Lifecycle

  datatype History = History(
    queue: string,
    kind: string,
    maxAttempts: int,
    epoch: nat,       // requeues so far
    attempts: int,    // claims since the last requeue
    errBase: nat,     // |errors| at the last requeue
    moves: nat,       // transitions since the last requeue
    lastToken: string)

  datatype ClaimEvent = ClaimEvent(
    epoch: nat,
    opts: ClaimOptions,
    sample: int,      // the claimer's `now`
    before: Task,
    after: Task)

  datatype Phase =
    | Finding(found: set<string>)
    | Updating(token: string, ids: set<string>, todo: set<string>)
    | Fetching(token: string, todo: set<string>)

  datatype Call = Call(proc: nat, opts: ClaimOptions, sample: int, limit: nat, phase: Phase)

  datatype Mode = Single | Pipelined

  datatype Stage =
    | Queued
    | Starting(tries: nat)
    | Answered(tries: nat, grant: Option<int>)  // an extension has landed, its verdict is on the way
    | Cleared
    | Executing(grants: set<int>)               // deadlines the handler's own extensions were given
    | Finished(outcome: Outcome)

  /** A claimed task in some process's memory. */
  datatype Handle = Handle(proc: nat, mode: Mode, snap: Task, stage: Stage)

  datatype World = World(
    now: int,
    docs: map<string, Task>,
    hist: map<string, History>,
    used: set<string>,
    claims: map<Key, ClaimEvent>,
    calls: map<nat, Call>,
    handles: map<nat, Handle>,
    delivered: set<Key>,
    ledger: seq<Key>)

  const Start := World(0, map[], map[], {""}, map[], map[], map[], {}, [])

  datatype Step =
    | Tick(d: nat)
    | Insert(task: Task)
    | ClaimOne(id: string, proc: nat, opts: ClaimOptions, sample: int, token: string, slot: nat, delivered: bool)
    | BatchBegin(call: nat, proc: nat, opts: ClaimOptions, sample: int, limit: nat)
    | BatchFind(call: nat, id: string)
    | BatchMint(call: nat, token: string)
    | BatchUpdate(call: nat, id: string)
    | BatchFetch(call: nat)
    | BatchRead(call: nat, id: string, slot: nat)
    | BatchEnd(call: nat)
    | BeginWork(slot: nat, clock: int)
    | Renew(slot: nat, sample: int, lease: int)
    | Answer(slot: nat)
    | NoAnswer(slot: nat)
    | Invoke(slot: nat)
    | ExtendOwn(slot: nat, sample: int, lease: int)
    | Adopt(slot: nat, until: int)
    | Finish(slot: nat, outcome: Outcome)
    | Write(slot: nat, sample: int)
    | Extend(key: Key, sample: int, lease: int)
    | Forget(slot: nat)
    | Crash(proc: nat)
    | Delete(id: string)
    | Requeue(id: string, sample: int)
    | Reap(id: string, sample: int)

  /** The task is running under this very claim. */
  predicate Holds(w: World, k: Key) {
    k.id in w.docs && Held(w.docs[k.id], k.token)
  }

  /** The partial unique index: no two documents carry the same key. */
  predicate KeyFree(docs: map<string, Task>, key: string) {
    key == "" || forall id <- docs.Keys :: docs[id].uniqueKey != key
  }

  /** What a worker can report about its snapshot. */
  ghost predicate Reportable(snap: Task, o: Outcome) {
    || (exists result :: o == SuccessOf(snap, result))
    || (exists at, worker, message, retryAt :: o == FailureOf(snap, at, worker, message, retryAt))
  }

  predicate InHandshake(st: Stage) { st.Starting? || st.Answered? }

  ghost predicate Enabled(w: World, s: Step) {
    match s
    case Tick(_) => true
    case Insert(t) => t.id !in w.hist && Fresh(t) && KeyFree(w.docs, t.uniqueKey)
    case ClaimOne(id, _, opts, sample, token, slot, _) =>
      && id in w.docs && sample <= w.now && token !in w.used && slot !in w.handles
      && Runnable(w.docs[id], sample) && Matches(opts, w.docs[id])
    case BatchBegin(call, _, _, sample, limit) => call !in w.calls && sample <= w.now && 1 <= limit
    case BatchFind(call, id) =>
      && call in w.calls && w.calls[call].phase.Finding?
      && |w.calls[call].phase.found| < w.calls[call].limit
      && id in w.docs && Runnable(w.docs[id], w.calls[call].sample) && Matches(w.calls[call].opts, w.docs[id])
    case BatchMint(call, token) =>
      call in w.calls && w.calls[call].phase.Finding? && token !in w.used
    case BatchUpdate(call, id) =>
      call in w.calls && w.calls[call].phase.Updating? && id in w.calls[call].phase.todo
    case BatchFetch(call) =>
      call in w.calls && w.calls[call].phase.Updating? && w.calls[call].phase.todo == {}
    case BatchRead(call, id, slot) =>
      && call in w.calls && w.calls[call].phase.Fetching? && id in w.calls[call].phase.todo
      && slot !in w.handles
    case BatchEnd(call) => call in w.calls
    case BeginWork(slot, clock) =>
      slot in w.handles && w.handles[slot].stage.Queued? && clock <= w.now
    case Renew(slot, sample, _) => slot in w.handles && w.handles[slot].stage.Starting? && sample <= w.now
    case Answer(slot) => slot in w.handles && w.handles[slot].stage.Answered?
    case NoAnswer(slot) => slot in w.handles && InHandshake(w.handles[slot].stage)
    case Invoke(slot) => slot in w.handles && w.handles[slot].stage.Cleared?
    case ExtendOwn(slot, sample, _) => slot in w.handles && w.handles[slot].stage.Executing? && sample <= w.now
    case Adopt(slot, until) =>
      slot in w.handles && w.handles[slot].stage.Executing? && until in w.handles[slot].stage.grants
    case Finish(slot, o) =>
      slot in w.handles && w.handles[slot].stage.Executing? && Reportable(w.handles[slot].snap, o)
    case Write(slot, sample) => slot in w.handles && w.handles[slot].stage.Finished? && sample <= w.now
    case Extend(key, sample, _) => key in w.delivered && sample <= w.now
    case Forget(slot) => slot in w.handles
    case Crash(_) => true
    case Delete(id) => id in w.docs
    case Requeue(id, sample) => id in w.docs && w.docs[id].status.Dead? && sample <= w.now
    case Reap(id, sample) => id in w.docs && Reapable(w.docs[id], sample) && sample <= w.now
  }

  // ----- What each step does -----

  function DoInsert(w: World, t: Task): World {
    w.(docs := w.docs[t.id := t],
       hist := w.hist[t.id := History(t.queue, t.kind, t.maxAttempts, 0, 0, 0, 0, "")])
  }

  /** The claim update lands on `id`. */
  function Land(w: World, id: string, opts: ClaimOptions, sample: int, token: string): World
    requires id in w.docs && id in w.hist
  {
    var t, h := w.docs[id], w.hist[id];
    var u := Claimed(t, sample, opts.workerId, token, opts.lease);
    w.(docs := w.docs[id := u],
       hist := w.hist[id := h.(attempts := h.attempts + 1, moves := h.moves + 1, lastToken := token)],
       claims := w.claims[Key(id, token) := ClaimEvent(h.epoch, opts, sample, t, u)])
  }

  /** A write that settles a running task. */
  function Settle(w: World, id: string, u: Task): World
    requires id in w.hist
  {
    w.(docs := w.docs[id := u], hist := w.hist[id := w.hist[id].(moves := w.hist[id].moves + 1)])
  }

  function Deliver(w: World, slot: nat, h: Handle): World {
    w.(handles := w.handles[slot := h], delivered := w.delivered + {KeyOf(h.snap)})
  }

  function DoClaimOne(w: World, id: string, proc: nat, opts: ClaimOptions, sample: int, token: string, slot: nat,
        delivered: bool): World
    requires id in w.docs && id in w.hist
  {
    var v := Land(w.(used := w.used + {token}), id, opts, sample, token);
    if delivered then Deliver(v, slot, Handle(proc, Single, v.docs[id], Queued)) else v
  }

  function WithPhase(w: World, call: nat, p: Phase): World
    requires call in w.calls
  {
    w.(calls := w.calls[call := w.calls[call].(phase := p)])
  }

  function DoBatchMint(w: World, call: nat, token: string): World
    requires call in w.calls && w.calls[call].phase.Finding?
  {
    var ids := w.calls[call].phase.found;
    WithPhase(w, call, Updating(token, ids, ids)).(used := w.used + {token})
  }

  /** The guard re-applies the runnable filter but not the type and queue filter. */
  function DoBatchUpdate(w: World, call: nat, id: string): (v: World)
    requires call in w.calls && w.calls[call].phase.Updating?
    requires id in w.docs ==> id in w.hist
    ensures v == w.(docs := v.docs, hist := v.hist, claims := v.claims, calls := v.calls)
  {
    var c := w.calls[call];
    var v := WithPhase(w, call, Updating(c.phase.token, c.phase.ids, c.phase.todo - {id}));
    if id in w.docs && Runnable(w.docs[id], c.sample)
    then Land(v, id, c.opts, c.sample, c.phase.token) else v
  }

  function DoBatchFetch(w: World, call: nat): World
    requires call in w.calls && w.calls[call].phase.Updating?
  {
    WithPhase(w, call, Fetching(w.calls[call].phase.token, w.calls[call].phase.ids))
  }

  function DoBatchRead(w: World, call: nat, id: string, slot: nat): World
    requires call in w.calls && w.calls[call].phase.Fetching?
  {
    var c := w.calls[call];
    var v := WithPhase(w, call, Fetching(c.phase.token, c.phase.todo - {id}));
    if id in w.docs && w.docs[id].leaseToken == c.phase.token
    then Deliver(v, slot, Handle(c.proc, Pipelined, w.docs[id], Queued))
    else v
  }

  function Run(w: World, slot: nat, h: Handle): World {
    w.(handles := w.handles[slot := h.(stage := Executing({}))], ledger := w.ledger + [KeyOf(h.snap)])
  }

  function Drop(w: World, slot: nat): World {
    w.(handles := w.handles - {slot})
  }

  /** Single mode runs the task at once; pipeline mode first drops it when its
      queue lease has visibly lapsed, else starts the handshake. */
  function DoBeginWork(w: World, slot: nat, clock: int): (v: World)
    requires slot in w.handles
    ensures v == w.(handles := v.handles, ledger := v.ledger) && v.handles.Keys <= w.handles.Keys
  {
    var h := w.handles[slot];
    if h.mode.Single? then Run(w, slot, h)
    else if clock >= h.snap.leasedUntil then Drop(w, slot)
    else w.(handles := w.handles[slot := h.(stage := Starting(0))])
  }

  function DoExtend(w: World, k: Key, sample: int, lease: int): (v: World)
    ensures v == w.(docs := v.docs) && v.docs.Keys == w.docs.Keys
    ensures forall id <- w.docs ::
              v.docs[id] == w.docs[id].(leasedUntil := v.docs[id].leasedUntil, updatedAt := v.docs[id].updatedAt)
  {
    if Holds(w, k) then w.(docs := w.docs[k.id := Extended(w.docs[k.id], sample, lease)]) else w
  }

  function WithDeadline(h: Handle, until: int): Handle { h.(snap := h.snap.(leasedUntil := until)) }

  /** The store's verdict on an extension: the new deadline, if the claim is held. */
  function Verdict(w: World, k: Key, sample: int, lease: int): Option<int> {
    if Holds(w, k) then Some(sample + lease) else None
  }

  // The handshake: an ExtendLease lands, its answer reaches the worker, the
  // worker invokes the handler.  Anything may happen in between, and the call
  // may fail before or after it has landed.

  function DoRenew(w: World, slot: nat, sample: int, lease: int): (v: World)
    requires slot in w.handles && w.handles[slot].stage.Starting?
    ensures v == DoExtend(w, KeyOf(w.handles[slot].snap), sample, lease).(handles := v.handles)
    ensures v.handles.Keys == w.handles.Keys
  {
    var h := w.handles[slot];
    var verdict := Verdict(w, KeyOf(h.snap), sample, lease);
    DoExtend(w, KeyOf(h.snap), sample, lease)
      .(handles := w.handles[slot := h.(stage := Answered(h.stage.tries, verdict))])
  }

  function DoAnswer(w: World, slot: nat): (v: World)
    requires slot in w.handles && w.handles[slot].stage.Answered?
    ensures v == w.(handles := v.handles) && v.handles.Keys <= w.handles.Keys
  {
    var h := w.handles[slot];
    match h.stage.grant
    case Some(until) => w.(handles := w.handles[slot := WithDeadline(h, until).(stage := Cleared)])
    case None => Drop(w, slot)
  }

  /** The handshake is tried twice; after that the task is left to its lease. */
  function DoNoAnswer(w: World, slot: nat): (v: World)
    requires slot in w.handles && InHandshake(w.handles[slot].stage)
    ensures v == w.(handles := v.handles) && v.handles.Keys <= w.handles.Keys
  {
    var h := w.handles[slot];
    if h.stage.tries + 1 >= 2 then Drop(w, slot)
    else w.(handles := w.handles[slot := h.(stage := Starting(h.stage.tries + 1))])
  }

  /** The handler asks for more time; it takes the answer over with Adopt. */
  function DoExtendOwn(w: World, slot: nat, sample: int, lease: int): (v: World)
    requires slot in w.handles && w.handles[slot].stage.Executing?
    ensures v == DoExtend(w, KeyOf(w.handles[slot].snap), sample, lease).(handles := v.handles)
    ensures v.handles.Keys == w.handles.Keys
  {
    var h := w.handles[slot];
    var grants := h.stage.grants + if Holds(w, KeyOf(h.snap)) then {sample + lease} else {};
    DoExtend(w, KeyOf(h.snap), sample, lease).(handles := w.handles[slot := h.(stage := Executing(grants))])
  }

  /** The fenced finalize write; a worker or its driver may send it again. */
  function DoWrite(w: World, slot: nat, sample: int): (v: World)
    requires slot in w.handles && w.handles[slot].stage.Finished?
    requires w.handles[slot].snap.id in w.docs ==> w.handles[slot].snap.id in w.hist
    ensures v == w.(docs := v.docs, hist := v.hist)
  {
    var h := w.handles[slot];
    if Holds(w, KeyOf(h.snap))
    then Settle(w, h.snap.id, Finalized(w.docs[h.snap.id], h.stage.outcome, sample))
    else w
  }

  function DoCrash(w: World, proc: nat): World {
    w.(calls := map c <- w.calls | w.calls[c].proc != proc :: w.calls[c],
       handles := map s <- w.handles | w.handles[s].proc != proc :: w.handles[s])
  }

  function DoRequeue(w: World, id: string, sample: int): World
    requires id in w.docs && id in w.hist
  {
    var h, u := w.hist[id], Requeued(w.docs[id], sample);
    w.(docs := w.docs[id := u],
       hist := w.hist[id := h.(epoch := h.epoch + 1, attempts := 0, errBase := |u.errors|, moves := 0,
           lastToken := "")])
  }

  function Do(w: World, s: Step): World
    requires Enabled(w, s)
    requires w.docs.Keys <= w.hist.Keys
  {
    match s
    case Tick(d) => w.(now := w.now + d)
    case Insert(t) => DoInsert(w, t)
    case ClaimOne(id, proc, opts, sample, token, slot, delivered) =>
      DoClaimOne(w, id, proc, opts, sample, token, slot, delivered)
    case BatchBegin(call, proc, opts, sample, limit) =>
      w.(calls := w.calls[call := Call(proc, opts, sample, limit, Finding({}))])
    case BatchFind(call, id) => WithPhase(w, call, Finding(w.calls[call].phase.found + {id}))
    case BatchMint(call, token) => DoBatchMint(w, call, token)
    case BatchUpdate(call, id) => DoBatchUpdate(w, call, id)
    case BatchFetch(call) => DoBatchFetch(w, call)
    case BatchRead(call, id, slot) => DoBatchRead(w, call, id, slot)
    case BatchEnd(call) => w.(calls := w.calls - {call})
    case BeginWork(slot, clock) => DoBeginWork(w, slot, clock)
    case Renew(slot, sample, lease) => DoRenew(w, slot, sample, lease)
    case Answer(slot) => DoAnswer(w, slot)
    case NoAnswer(slot) => DoNoAnswer(w, slot)
    case Invoke(slot) => Run(w, slot, w.handles[slot])
    case ExtendOwn(slot, sample, lease) => DoExtendOwn(w, slot, sample, lease)
    case Adopt(slot, until) => w.(handles := w.handles[slot := WithDeadline(w.handles[slot], until)])
    case Finish(slot, o) => w.(handles := w.handles[slot := w.handles[slot].(stage := Finished(o))])
    case Write(slot, sample) => DoWrite(w, slot, sample)
    case Extend(key, sample, lease) => DoExtend(w, key, sample, lease)
    case Forget(slot) => Drop(w, slot)
    case Crash(proc) => DoCrash(w, proc)
    case Delete(id) => w.(docs := w.docs - {id})
    case Requeue(id, sample) => DoRequeue(w, id, sample)
    case Reap(id, sample) => Settle(w, id, Reaped(w.docs[id], sample))
  }

  // ----- The inductive invariant, component by component -----

  ghost predicate DocOK(id: string, t: Task, h: History, claims: map<Key, ClaimEvent>, ledger: seq<Key>) {
    var k := Key(id, h.lastToken);
    && t.id == id && t.queue == h.queue && t.kind == h.kind
    && t.maxAttempts == h.maxAttempts && t.attempts == h.attempts
    && Sound(t) && ErrorLog(t, h.errBase)
    && h.moves + Measure(t) <= 2 * t.maxAttempts
    && (1 <= t.attempts ==>
          k in claims && claims[k].epoch == h.epoch && claims[k].after.attempts == t.attempts)
    && (t.status.Running? ==>
          && t.leaseToken == h.lastToken
          && t == claims[k].after.(leasedUntil := t.leasedUntil, updatedAt := t.updatedAt))
    && (t.status.Done? ==> k in ledger)
  }

  ghost predicate DocsOK(docs: map<string, Task>, hist: map<string, History>, claims: map<Key, ClaimEvent>,
        ledger: seq<Key>) {
    && (forall id <- docs :: id in hist && DocOK(id, docs[id], hist[id], claims, ledger))
    && (forall id <- hist :: 0 <= hist[id].attempts <= hist[id].maxAttempts && 1 <= hist[id].maxAttempts)
  }

  ghost predicate KeysOK(docs: map<string, Task>) {
    forall i, j :: i in docs && j in docs && i != j && docs[i].uniqueKey != "" ==>
         docs[i].uniqueKey != docs[j].uniqueKey
  }

  ghost predicate ClaimOK(k: Key, e: ClaimEvent, h: History) {
    && Runnable(e.before, e.sample) && Matches(e.opts, e.before)
    && e.after == Claimed(e.before, e.sample, e.opts.workerId, k.token, e.opts.lease)
    && e.after.id == k.id && e.after.maxAttempts == h.maxAttempts
    && 1 <= e.after.attempts <= h.maxAttempts
    && (e.epoch < h.epoch || (e.epoch == h.epoch && e.after.attempts <= h.attempts))
  }

  ghost predicate ClaimsOK(claims: map<Key, ClaimEvent>, hist: map<string, History>, used: set<string>) {
    && "" in used
    && forall k <- claims :: k.token in used && k.token != "" && k.id in hist && ClaimOK(k, claims[k], hist[k.id])
  }

  /** No two claims of a task are the same attempt of the same epoch. */
  ghost predicate ClaimsDistinct(claims: map<Key, ClaimEvent>) {
    forall k, l :: k in claims && l in claims && k != l && k.id == l.id && claims[k].epoch == claims[l].epoch ==>
                     claims[k].after.attempts != claims[l].after.attempts
  }

  ghost predicate Candidate(hist: map<string, History>, opts: ClaimOptions, id: string) {
    && id in hist
    && (opts.kinds != [] ==> hist[id].kind in opts.kinds)
    && (opts.queues != [] ==> hist[id].queue in opts.queues)
  }

  /** Nobody has been handed this claim, so a read of the task still returns
      exactly what the claim's update wrote, if it is under this token at all. */
  ghost predicate Untouched(k: Key, docs: map<string, Task>, claims: map<Key, ClaimEvent>, delivered: set<Key>) {
    && k !in delivered
    && (k.id in docs && docs[k.id].leaseToken == k.token ==> k in claims && docs[k.id] == claims[k].after)
  }

  ghost predicate PhaseOK(
    c: Call, docs: map<string, Task>, hist: map<string, History>, claims: map<Key, ClaimEvent>, delivered: set<Key>)
  {
    match c.phase
    case Finding(found) =>
      |found| <= c.limit && forall id <- found :: Candidate(hist, c.opts, id)
    case Updating(token, ids, todo) =>
      && todo <= ids && |ids| <= c.limit
      && (forall id <- ids :: Candidate(hist, c.opts, id) && Untouched(Key(id, token), docs, claims, delivered))
      && (forall id <- todo :: Key(id, token) !in claims)
    case Fetching(token, todo) =>
      forall id <- todo :: Untouched(Key(id, token), docs, claims, delivered)
  }

  ghost predicate CallsOK(
    calls: map<nat, Call>, docs: map<string, Task>, hist: map<string, History>, claims: map<Key, ClaimEvent>,
        delivered: set<Key>)
  {
    forall c <- calls :: PhaseOK(calls[c], docs, hist, claims, delivered)
  }

  ghost predicate SamplesOK(calls: map<nat, Call>, now: int) {
    forall c <- calls :: calls[c].sample <= now
  }

  function TokenOf(c: Call): string { if c.phase.Finding? then "" else c.phase.token }

  ghost predicate TokensOK(calls: map<nat, Call>, used: set<string>) {
    && (forall c <- calls :: TokenOf(calls[c]) in used && (TokenOf(calls[c]) == "" ==> calls[c].phase.Finding?))
    && (forall c, d :: c in calls && d in calls && c != d && TokenOf(calls[c]) != "" ==>
         TokenOf(calls[c]) != TokenOf(calls[d]))
  }

  ghost predicate HandleOK(h: Handle, claims: map<Key, ClaimEvent>, ledger: seq<Key>, delivered: set<Key>) {
    var k := KeyOf(h.snap);
    && k in claims && k in delivered
    && h.snap == claims[k].after.(leasedUntil := h.snap.leasedUntil)
    && (h.stage.Queued? || InHandshake(h.stage) ==> h.snap == claims[k].after)
    && (k in ledger <==> h.stage.Executing? || h.stage.Finished?)
    && (h.stage.Finished? ==> Reportable(h.snap, h.stage.outcome))
  }

  ghost predicate HandlesOK(handles: map<nat, Handle>, claims: map<Key, ClaimEvent>, ledger: seq<Key>,
        delivered: set<Key>) {
    forall s <- handles :: HandleOK(handles[s], claims, ledger, delivered)
  }

  ghost predicate HandlesDistinct(handles: map<nat, Handle>) {
    forall s, r :: s in handles && r in handles && s != r ==> KeyOf(handles[s].snap) != KeyOf(handles[r].snap)
  }

  ghost predicate LedgerOK(ledger: seq<Key>, delivered: set<Key>, claims: map<Key, ClaimEvent>) {
    && (forall k <- ledger :: k in delivered)
    && (forall i, j :: 0 <= i < j < |ledger| ==> ledger[i] != ledger[j])
    && delivered <= claims.Keys
  }

  ghost predicate Components(w: World) {
    && DocsOK(w.docs, w.hist, w.claims, w.ledger)
    && KeysOK(w.docs)
    && ClaimsOK(w.claims, w.hist, w.used)
    && ClaimsDistinct(w.claims)
    && CallsOK(w.calls, w.docs, w.hist, w.claims, w.delivered)
    && TokensOK(w.calls, w.used)
    && SamplesOK(w.calls, w.now)
    && HandlesOK(w.handles, w.claims, w.ledger, w.delivered)
    && HandlesDistinct(w.handles)
    && LedgerOK(w.ledger, w.delivered, w.claims)
  }

  /** Comparing with `true` keeps the verifier from taking the conjunction
      apart wherever the invariant is to be proved. */
  ghost predicate Inv(w: World) {
    Components(w) == true
  }

  // ----- Runs -----

  ghost predicate CanRun(w: World, steps: seq<Step>)
    decreases |steps|
  {
    steps == [] || (w.docs.Keys <= w.hist.Keys && Enabled(w, steps[0]) && CanRun(Do(w, steps[0]), steps[1..]))
  }

  ghost function Exec(w: World, steps: seq<Step>): World
    requires CanRun(w, steps)
    decreases |steps|
  {
    if steps == [] then w else Exec(Do(w, steps[0]), steps[1..])
  }
}
