/** Every step of the cluster keeps the invariant, so every run does. */
module ClusterInvariant {
  import opened Tasks
  import opened Lifecycle
  import opened Cluster

  // ----- Frames: what survives when one component grows or one entry changes -----

  ghost predicate Extends(claims: map<Key, ClaimEvent>, more: map<Key, ClaimEvent>) {
    forall k <- claims :: k in more && more[k] == claims[k]
  }

  /** History only moves forward, and never changes what a task is. */
  ghost predicate Later(h: History, g: History) {
    && g.queue == h.queue && g.kind == h.kind && g.maxAttempts == h.maxAttempts
    && (h.epoch < g.epoch || (h.epoch == g.epoch && h.attempts <= g.attempts))
  }

  lemma DocsSet(
      docs: map<string, Task>, hist: map<string, History>, claims: map<Key, ClaimEvent>, ledger: seq<Key>,
      id: string, t: Task, h: History, more: map<Key, ClaimEvent>, longer: seq<Key>)
    requires DocsOK(docs, hist, claims, ledger)
    requires Extends(claims, more) && forall k <- ledger :: k in longer
    requires DocOK(id, t, h, more, longer)
    ensures DocsOK(docs[id := t], hist[id := h], more, longer)
  {
    forall i <- docs | i != id ensures DocOK(i, docs[i], hist[i], more, longer) {
      assert DocOK(i, docs[i], hist[i], claims, ledger);
    }
  }

  lemma KeysSet(docs: map<string, Task>, id: string, t: Task)
    requires KeysOK(docs)
    requires KeyFree(docs, t.uniqueKey) || (id in docs && t.uniqueKey == docs[id].uniqueKey)
    ensures KeysOK(docs[id := t])
  {
  }

  lemma ClaimsAdvance(claims: map<Key, ClaimEvent>, hist: map<string, History>, used: set<string>, id: string,
        h: History)
    requires ClaimsOK(claims, hist, used) && (id in hist ==> Later(hist[id], h))
    ensures ClaimsOK(claims, hist[id := h], used)
  {
    forall k <- claims ensures k.id in hist && ClaimOK(k, claims[k], hist[id := h][k.id]) {
      assert ClaimOK(k, claims[k], hist[k.id]);
    }
  }

  lemma ClaimsLand(claims: map<Key, ClaimEvent>, hist: map<string, History>, used: set<string>, k: Key, e: ClaimEvent,
        h: History)
    requires ClaimsOK(claims, hist, used) && ClaimsDistinct(claims)
    requires k.id in hist && Later(hist[k.id], h) && k.token in used && k.token != "" && ClaimOK(k, e, h)
    requires e.epoch == h.epoch == hist[k.id].epoch && e.after.attempts == hist[k.id].attempts + 1
    ensures ClaimsOK(claims[k := e], hist[k.id := h], used) && ClaimsDistinct(claims[k := e])
  {
    ClaimsAdvance(claims, hist, used, k.id, h);
    forall l <- claims | l.id == k.id && claims[l].epoch == e.epoch
      ensures claims[l].after.attempts != e.after.attempts
    {
      assert ClaimOK(l, claims[l], hist[l.id]);
    }
  }

  lemma HandlesFrame(
      handles: map<nat, Handle>, claims: map<Key, ClaimEvent>, ledger: seq<Key>, delivered: set<Key>,
      more: map<Key, ClaimEvent>, wider: set<Key>)
    requires HandlesOK(handles, claims, ledger, delivered)
    requires Extends(claims, more) && delivered <= wider
    ensures HandlesOK(handles, more, ledger, wider)
  {
    forall s <- handles ensures HandleOK(handles[s], more, ledger, wider) {
      assert HandleOK(handles[s], claims, ledger, delivered);
    }
  }

  /** A call does not mind a change to one document, unless it is about to read that very claim. */
  lemma CallsFrame(
      calls: map<nat, Call>, docs: map<string, Task>, hist: map<string, History>, claims: map<Key, ClaimEvent>,
      delivered: set<Key>, used: set<string>, id: string, t: Task, h: History, more: map<Key, ClaimEvent>)
    requires CallsOK(calls, docs, hist, claims, delivered) && TokensOK(calls, used)
    requires Extends(claims, more) && (id in hist ==> Later(hist[id], h))
    requires forall k <- more.Keys - claims.Keys, c <- calls ::
               k.token != TokenOf(calls[c]) || (calls[c].phase.Updating? && k.id !in calls[c].phase.todo)
    requires t.leaseToken == "" || Key(id, t.leaseToken) in delivered
             || (Key(id, t.leaseToken) in more && t == more[Key(id, t.leaseToken)].after)
    ensures CallsOK(calls, docs[id := t], hist[id := h], more, delivered)
  {
    forall c <- calls ensures PhaseOK(calls[c], docs[id := t], hist[id := h], more, delivered) {
      assert PhaseOK(calls[c], docs, hist, claims, delivered);
    }
  }

  lemma TickKeepsInv(w: World, now: int)
    requires Inv(w) && w.now <= now
    ensures Inv(w.(now := now))
  {
  }

  lemma MintKeepsInv(w: World, token: string)
    requires Inv(w)
    ensures Inv(w.(used := w.used + {token}))
  {
  }

  // ----- One document -----

  lemma ClaimedDocOK(
      id: string, t: Task, h: History, claims: map<Key, ClaimEvent>, ledger: seq<Key>,
      opts: ClaimOptions, sample: int, token: string, more: map<Key, ClaimEvent>)
    requires DocOK(id, t, h, claims, ledger) && Runnable(t, sample)
    requires var u := Claimed(t, sample, opts.workerId, token, opts.lease);
             more == claims[Key(id, token) := ClaimEvent(h.epoch, opts, sample, t, u)]
    ensures var u := Claimed(t, sample, opts.workerId, token, opts.lease);
            DocOK(id, u, h.(attempts := h.attempts + 1, moves := h.moves + 1, lastToken := token), more, ledger)
  {
    ClaimIsSound(t, h.errBase, sample, opts.workerId, token, opts.lease);
  }

  lemma FinalizedDocOK(id: string, t: Task, h: History, claims: map<Key, ClaimEvent>, ledger: seq<Key>, o: Outcome,
        now: int)
    requires DocOK(id, t, h, claims, ledger) && t.status.Running? && KeyOf(t) in ledger && Faithful(o, t)
    ensures DocOK(id, Finalized(t, o, now), h.(moves := h.moves + 1), claims, ledger)
  {
    FinalizeIsSound(t, h.errBase, o, now);
  }

  lemma ReapedDocOK(id: string, t: Task, h: History, claims: map<Key, ClaimEvent>, ledger: seq<Key>, now: int)
    requires DocOK(id, t, h, claims, ledger) && Reapable(t, now)
    ensures DocOK(id, Reaped(t, now), h.(moves := h.moves + 1), claims, ledger)
  {
    ReapIsSound(t, h.errBase, now);
  }

  // ----- Reading facts off the invariant -----

  lemma DocFacts(w: World, id: string)
    requires Inv(w) && id in w.docs
    ensures id in w.hist && DocOK(id, w.docs[id], w.hist[id], w.claims, w.ledger)
  {
  }

  lemma ClaimFacts(w: World, k: Key)
    requires Inv(w) && k in w.claims
    ensures k.token in w.used && k.token != "" && k.id in w.hist && ClaimOK(k, w.claims[k], w.hist[k.id])
  {
  }

  lemma HistoryFacts(w: World, id: string)
    requires Inv(w) && id in w.hist
    ensures 0 <= w.hist[id].attempts <= w.hist[id].maxAttempts && 1 <= w.hist[id].maxAttempts
  {
  }

  lemma LedgerFacts(w: World)
    requires Inv(w)
    ensures ClaimsDistinct(w.claims) && LedgerOK(w.ledger, w.delivered, w.claims)
  {
  }

  lemma CallFacts(w: World, call: nat)
    requires Inv(w) && call in w.calls
    ensures PhaseOK(w.calls[call], w.docs, w.hist, w.claims, w.delivered)
    ensures w.calls[call].sample <= w.now
  {
  }

  lemma HandleFacts(w: World, slot: nat)
    requires Inv(w) && slot in w.handles
    ensures HandleOK(w.handles[slot], w.claims, w.ledger, w.delivered)
  {
  }

  lemma EveryTaskIsOnRecord(w: World)
    requires Inv(w)
    ensures w.docs.Keys <= w.hist.Keys
    ensures forall k <- w.ledger :: k in w.delivered
  {
  }

  // ----- Writes to the collection -----

  lemma InsertKeepsInv(w: World, s: Step)
    requires Inv(w) && s.Insert? && Enabled(w, s)
    ensures Inv(Do(w, s))
  {
    var t := s.task;
    var h := History(t.queue, t.kind, t.maxAttempts, 0, 0, 0, 0, "");
    DocsSet(w.docs, w.hist, w.claims, w.ledger, t.id, t, h, w.claims, w.ledger);
    KeysSet(w.docs, t.id, t);
    ClaimsAdvance(w.claims, w.hist, w.used, t.id, h);
    CallsFrame(w.calls, w.docs, w.hist, w.claims, w.delivered, w.used, t.id, t, h, w.claims);
  }

  /** A claim's update lands: on behalf of a single claim whose token no call
      has, or of the batch call whose candidate this still is. */
  lemma LandKeepsInv(w: World, id: string, opts: ClaimOptions, sample: int, token: string)
    requires Inv(w) && id in w.docs && id in w.hist && Runnable(w.docs[id], sample) && Matches(opts, w.docs[id])
    requires token in w.used && token != "" && Key(id, token) !in w.claims
    requires forall c <- w.calls :: TokenOf(w.calls[c]) == token ==>
               w.calls[c].phase.Updating? && id !in w.calls[c].phase.todo
    ensures Inv(Land(w, id, opts, sample, token))
  {
    hide DocsOK, KeysOK, CallsOK, TokensOK, HandlesOK, HandlesDistinct, ClaimsDistinct, ClaimsOK;
    var k, t, h := Key(id, token), w.docs[id], w.hist[id];
    var v := Land(w, id, opts, sample, token);
    DocFacts(w, id);
    ClaimedDocOK(id, t, h, w.claims, w.ledger, opts, sample, token, v.claims);
    DocsSet(w.docs, w.hist, w.claims, w.ledger, id, v.docs[id], v.hist[id], v.claims, w.ledger);
    KeysSet(w.docs, id, v.docs[id]);
    ClaimsLand(w.claims, w.hist, w.used, k, v.claims[k], v.hist[id]);
    CallsFrame(w.calls, w.docs, w.hist, w.claims, w.delivered, w.used, id, v.docs[id], v.hist[id], v.claims);
    HandlesFrame(w.handles, w.claims, w.ledger, w.delivered, v.claims, w.delivered);
  }

  /** Replacing a document by a later state of the same task. */
  lemma WriteKeepsInv(w: World, v: World, id: string, t: Task, h: History)
    requires Inv(w) && id in w.docs && id in w.hist && Later(w.hist[id], h)
    requires DocOK(id, t, h, w.claims, w.ledger)
    requires t.uniqueKey == "" || t.uniqueKey == w.docs[id].uniqueKey
    requires t.leaseToken == "" || Key(id, t.leaseToken) in w.delivered
    requires v == w.(docs := w.docs[id := t], hist := w.hist[id := h])
    ensures Inv(v)
  {
    DocsSet(w.docs, w.hist, w.claims, w.ledger, id, t, h, w.claims, w.ledger);
    KeysSet(w.docs, id, t);
    ClaimsAdvance(w.claims, w.hist, w.used, id, h);
    CallsFrame(w.calls, w.docs, w.hist, w.claims, w.delivered, w.used, id, t, h, w.claims);
  }

  lemma SettleKeepsInv(w: World, id: string, t: Task)
    requires Inv(w) && id in w.docs && id in w.hist
    requires DocOK(id, t, w.hist[id].(moves := w.hist[id].moves + 1), w.claims, w.ledger)
    requires t.leaseToken == "" && (t.uniqueKey == "" || t.uniqueKey == w.docs[id].uniqueKey)
    ensures Inv(Settle(w, id, t))
  {
    hide DocOK, ClaimOK, PhaseOK, HandleOK;
    WriteKeepsInv(w, Settle(w, id, t), id, t, w.hist[id].(moves := w.hist[id].moves + 1));
  }

  lemma ReportsAreFaithful(snap: Task, o: Outcome, t: Task)
    requires Reportable(snap, o) && t.attempts == snap.attempts && t.maxAttempts == snap.maxAttempts
    ensures Faithful(o, t)
  {
  }

  lemma FinalizeKeepsInv(w: World, slot: nat, sample: int)
    requires Inv(w) && slot in w.handles && w.handles[slot].stage.Finished?
    requires w.docs.Keys <= w.hist.Keys
    ensures Inv(DoWrite(w, slot, sample))
  {
    hide Components;
    var h := w.handles[slot];
    var id, o := h.snap.id, h.stage.outcome;
    HandleFacts(w, slot);
    if Holds(w, KeyOf(h.snap)) {
      var t, g := w.docs[id], w.hist[id];
      DocFacts(w, id);
      ReportsAreFaithful(h.snap, o, t);
      FinalizedDocOK(id, t, g, w.claims, w.ledger, o, sample);
      SettleKeepsInv(w, id, Finalized(t, o, sample));
    }
  }

  lemma ExtendKeepsInv(w: World, k: Key, sample: int, lease: int)
    requires Inv(w) && k in w.delivered
    ensures Inv(DoExtend(w, k, sample, lease))
  {
    hide Components;
    if Holds(w, k) {
      var t := w.docs[k.id];
      DocFacts(w, k.id);
      assert w.hist == w.hist[k.id := w.hist[k.id]];
      WriteKeepsInv(w, DoExtend(w, k, sample, lease), k.id, Extended(t, sample, lease), w.hist[k.id]);
    }
  }

  lemma RequeueKeepsInv(w: World, s: Step)
    requires Inv(w) && s.Requeue? && Enabled(w, s)
    ensures Inv(Do(w, s))
  {
    hide Components;
    EveryTaskIsOnRecord(w);
    var t, v := w.docs[s.id], Do(w, s);
    DocFacts(w, s.id);
    RequeueIsSound(t, w.hist[s.id].errBase, s.sample);
    WriteKeepsInv(w, v, s.id, v.docs[s.id], v.hist[s.id]);
  }

  lemma ReapKeepsInv(w: World, s: Step)
    requires Inv(w) && s.Reap? && Enabled(w, s)
    ensures Inv(Do(w, s))
  {
    hide Components;
    EveryTaskIsOnRecord(w);
    var t, v := w.docs[s.id], Do(w, s);
    DocFacts(w, s.id);
    ReapedDocOK(s.id, t, w.hist[s.id], w.claims, w.ledger, s.sample);
    WriteKeepsInv(w, v, s.id, v.docs[s.id], v.hist[s.id]);
  }

  lemma DeleteKeepsInv(w: World, s: Step)
    requires Inv(w) && s.Delete? && Enabled(w, s)
    ensures Inv(Do(w, s))
  {
    hide DocOK, ClaimOK, HandleOK, Candidate;
    forall c <- w.calls ensures PhaseOK(w.calls[c], w.docs - {s.id}, w.hist, w.claims, w.delivered) {
      assert PhaseOK(w.calls[c], w.docs, w.hist, w.claims, w.delivered);
    }
  }

  // ----- Local moves -----

  lemma CallsDeliver(
      calls: map<nat, Call>, docs: map<string, Task>, hist: map<string, History>, claims: map<Key, ClaimEvent>,
          delivered: set<Key>, k: Key)
    requires CallsOK(calls, docs, hist, claims, delivered)
    requires forall c <- calls :: TokenOf(calls[c]) == k.token ==>
               calls[c].phase.Finding? || (calls[c].phase.Fetching? && k.id !in calls[c].phase.todo)
    ensures CallsOK(calls, docs, hist, claims, delivered + {k})
  {
    forall c <- calls ensures PhaseOK(calls[c], docs, hist, claims, delivered + {k}) {
      assert PhaseOK(calls[c], docs, hist, claims, delivered);
    }
  }

  lemma DeliverKeepsInv(w: World, slot: nat, h: Handle)
    requires Inv(w) && slot !in w.handles && h.stage.Queued?
    requires var k := KeyOf(h.snap); k in w.claims && h.snap == w.claims[k].after && k !in w.delivered
    requires forall c <- w.calls :: TokenOf(w.calls[c]) == h.snap.leaseToken ==>
               w.calls[c].phase.Fetching? && h.snap.id !in w.calls[c].phase.todo
    ensures Inv(Deliver(w, slot, h))
  {
    hide DocsOK, KeysOK, CallsOK, ClaimsDistinct, ClaimsOK;
    var k := KeyOf(h.snap);
    HandlesFrame(w.handles, w.claims, w.ledger, w.delivered, w.claims, w.delivered + {k});
    CallsDeliver(w.calls, w.docs, w.hist, w.claims, w.delivered, k);
    forall s <- w.handles ensures KeyOf(w.handles[s].snap) != k {
      HandleFacts(w, s);
    }
  }

  lemma ClaimOneKeepsInv(w: World, s: Step)
    requires Inv(w) && s.ClaimOne? && Enabled(w, s)
    ensures Inv(Do(w, s))
  {
    MintKeepsInv(w, s.token);
    var u := w.(used := w.used + {s.token});
    LandKeepsInv(u, s.id, s.opts, s.sample, s.token);
    var v := Land(u, s.id, s.opts, s.sample, s.token);
    assert DocOK(s.id, w.docs[s.id], w.hist[s.id], w.claims, w.ledger);
    if s.delivered {
      DeliverKeepsInv(v, s.slot, Handle(s.proc, Single, v.docs[s.id], Queued));
    }
  }

  lemma PhaseKeepsInv(w: World, call: nat, p: Phase)
    requires Inv(w) && call in w.calls
    requires PhaseOK(w.calls[call].(phase := p), w.docs, w.hist, w.claims, w.delivered)
    requires !p.Finding? ==> p.token != "" && p.token in w.used
    requires !p.Finding? ==> forall c <- w.calls | c != call :: TokenOf(w.calls[c]) != p.token
    ensures Inv(WithPhase(w, call, p))
  {
  }

  lemma BatchFindKeepsInv(w: World, s: Step)
    requires Inv(w) && s.BatchFind? && Enabled(w, s)
    ensures Inv(Do(w, s))
  {
    DocFacts(w, s.id);
    CallFacts(w, s.call);
    PhaseKeepsInv(w, s.call, Finding(w.calls[s.call].phase.found + {s.id}));
  }

  lemma BatchMintKeepsInv(w: World, s: Step)
    requires Inv(w) && s.BatchMint? && Enabled(w, s)
    ensures Inv(Do(w, s))
  {
    var ids := w.calls[s.call].phase.found;
    MintKeepsInv(w, s.token);
    assert PhaseOK(w.calls[s.call], w.docs, w.hist, w.claims, w.delivered);
    forall id <- ids ensures Untouched(Key(id, s.token), w.docs, w.claims, w.delivered)
         && Key(id, s.token) !in w.claims {
      if id in w.docs {
        assert DocOK(id, w.docs[id], w.hist[id], w.claims, w.ledger);
      }
    }
    PhaseKeepsInv(w.(used := w.used + {s.token}), s.call, Updating(s.token, ids, ids));
  }

  lemma BatchUpdateKeepsInv(w: World, s: Step)
    requires Inv(w) && s.BatchUpdate? && Enabled(w, s)
    ensures Inv(Do(w, s))
  {
    var c := w.calls[s.call];
    var token, rest := c.phase.token, Updating(c.phase.token, c.phase.ids, c.phase.todo - {s.id});
    assert PhaseOK(c, w.docs, w.hist, w.claims, w.delivered);
    PhaseKeepsInv(w, s.call, rest);
    if s.id in w.docs && Runnable(w.docs[s.id], c.sample) {
      assert DocOK(s.id, w.docs[s.id], w.hist[s.id], w.claims, w.ledger);
      assert Candidate(w.hist, c.opts, s.id);
      LandKeepsInv(WithPhase(w, s.call, rest), s.id, c.opts, c.sample, token);
    }
  }

  lemma BatchFetchKeepsInv(w: World, s: Step)
    requires Inv(w) && s.BatchFetch? && Enabled(w, s)
    ensures Inv(Do(w, s))
  {
    var c := w.calls[s.call];
    CallFacts(w, s.call);
    PhaseKeepsInv(w, s.call, Fetching(c.phase.token, c.phase.ids));
  }

  lemma BatchReadKeepsInv(w: World, s: Step)
    requires Inv(w) && s.BatchRead? && Enabled(w, s)
    ensures Inv(Do(w, s))
  {
    var c := w.calls[s.call];
    var rest := Fetching(c.phase.token, c.phase.todo - {s.id});
    assert PhaseOK(c, w.docs, w.hist, w.claims, w.delivered);
    assert Untouched(Key(s.id, c.phase.token), w.docs, w.claims, w.delivered);
    PhaseKeepsInv(w, s.call, rest);
    if s.id in w.docs && w.docs[s.id].leaseToken == c.phase.token {
      assert DocOK(s.id, w.docs[s.id], w.hist[s.id], w.claims, w.ledger);
      DeliverKeepsInv(WithPhase(w, s.call, rest), s.slot, Handle(c.proc, Pipelined, w.docs[s.id], Queued));
    }
  }

  lemma DropKeepsInv(w: World, handles: map<nat, Handle>, calls: map<nat, Call>)
    requires Inv(w)
    requires forall s <- handles :: s in w.handles && handles[s] == w.handles[s]
    requires forall c <- calls :: c in w.calls && calls[c] == w.calls[c]
    ensures Inv(w.(handles := handles, calls := calls))
  {
  }

  lemma LeavingKeepsInv(w: World, s: Step)
    requires Inv(w) && (s.BatchEnd? || s.Forget? || s.Crash?) && Enabled(w, s)
    ensures Inv(Do(w, s))
  {
    hide Components;
    EveryTaskIsOnRecord(w);
    var v := Do(w, s);
    DropKeepsInv(w, v.handles, v.calls);
  }

  /** A handle moves on without starting its execution. */
  lemma StageKeepsInv(w: World, slot: nat, h: Handle)
    requires Inv(w) && slot in w.handles && KeyOf(h.snap) == KeyOf(w.handles[slot].snap)
    requires HandleOK(h, w.claims, w.ledger, w.delivered)
    ensures Inv(w.(handles := w.handles[slot := h]))
  {
  }

  lemma FinishKeepsInv(w: World, s: Step)
    requires Inv(w) && s.Finish? && Enabled(w, s)
    ensures Inv(Do(w, s))
  {
    hide Components;
    var h := w.handles[s.slot];
    HandleFacts(w, s.slot);
    StageKeepsInv(w, s.slot, h.(stage := Finished(s.outcome)));
  }

  lemma DocsRun(docs: map<string, Task>, hist: map<string, History>, claims: map<Key, ClaimEvent>, ledger: seq<Key>,
        k: Key)
    requires DocsOK(docs, hist, claims, ledger)
    ensures DocsOK(docs, hist, claims, ledger + [k])
  {
    forall id <- docs ensures DocOK(id, docs[id], hist[id], claims, ledger + [k]) {
      assert DocOK(id, docs[id], hist[id], claims, ledger);
    }
  }

  /** The one place where a handler is invoked: each claim gets there at most once. */
  lemma RunKeepsInv(w: World, slot: nat, h: Handle)
    requires Inv(w) && slot in w.handles && !w.handles[slot].stage.Executing? && !w.handles[slot].stage.Finished?
    requires h.snap == w.handles[slot].snap.(leasedUntil := h.snap.leasedUntil)
    ensures Inv(Run(w, slot, h))
  {
    hide DocsOK, KeysOK, CallsOK, ClaimsDistinct, ClaimsOK, TokensOK;
    var k, v := KeyOf(h.snap), Run(w, slot, h);
    HandleFacts(w, slot);
    DocsRun(w.docs, w.hist, w.claims, w.ledger, k);
    forall s <- v.handles ensures HandleOK(v.handles[s], w.claims, v.ledger, w.delivered) {
      HandleFacts(w, s);
      assert s != slot ==> KeyOf(w.handles[s].snap) != k;
    }
  }

  lemma BeginWorkKeepsInv(w: World, slot: nat, clock: int)
    requires Inv(w) && slot in w.handles && w.handles[slot].stage.Queued?
    ensures Inv(DoBeginWork(w, slot, clock))
  {
    hide Components;
    var h := w.handles[slot];
    HandleFacts(w, slot);
    if h.mode.Single? {
      RunKeepsInv(w, slot, h);
    } else if clock >= h.snap.leasedUntil {
      DropKeepsInv(w, w.handles - {slot}, w.calls);
    } else {
      StageKeepsInv(w, slot, h.(stage := Starting(0)));
    }
  }

  lemma RenewKeepsInv(w: World, slot: nat, sample: int, lease: int)
    requires Inv(w) && slot in w.handles && w.handles[slot].stage.Starting?
    ensures Inv(DoRenew(w, slot, sample, lease))
  {
    hide Components, Verdict;
    var h := w.handles[slot];
    var k := KeyOf(h.snap);
    HandleFacts(w, slot);
    ExtendKeepsInv(w, k, sample, lease);
    var v := DoExtend(w, k, sample, lease);
    HandleFacts(v, slot);
    hide DoExtend;
    StageKeepsInv(v, slot, h.(stage := Answered(h.stage.tries, Verdict(w, k, sample, lease))));
  }

  lemma ExtendOwnKeepsInv(w: World, slot: nat, sample: int, lease: int)
    requires Inv(w) && slot in w.handles && w.handles[slot].stage.Executing?
    ensures Inv(DoExtendOwn(w, slot, sample, lease))
  {
    hide Components;
    var h := w.handles[slot];
    var k := KeyOf(h.snap);
    HandleFacts(w, slot);
    ExtendKeepsInv(w, k, sample, lease);
    var v := DoExtend(w, k, sample, lease);
    HandleFacts(v, slot);
    StageKeepsInv(v, slot, DoExtendOwn(w, slot, sample, lease).handles[slot]);
  }

  lemma AnswerKeepsInv(w: World, slot: nat)
    requires Inv(w) && slot in w.handles
    ensures w.handles[slot].stage.Answered? ==> Inv(DoAnswer(w, slot))
    ensures InHandshake(w.handles[slot].stage) ==> Inv(DoNoAnswer(w, slot))
  {
    hide Components;
    var h := w.handles[slot];
    HandleFacts(w, slot);
    DropKeepsInv(w, w.handles - {slot}, w.calls);
    if InHandshake(h.stage) {
      StageKeepsInv(w, slot, h.(stage := Starting(h.stage.tries + 1)));
      if h.stage.Answered? && h.stage.grant.Some? {
        StageKeepsInv(w, slot, WithDeadline(h, h.stage.grant.value).(stage := Cleared));
      }
    }
  }

  lemma AdoptKeepsInv(w: World, slot: nat, until: int)
    requires Inv(w) && slot in w.handles && w.handles[slot].stage.Executing?
    ensures Inv(w.(handles := w.handles[slot := WithDeadline(w.handles[slot], until)]))
  {
    hide Components;
    HandleFacts(w, slot);
    StageKeepsInv(w, slot, WithDeadline(w.handles[slot], until));
  }

  lemma BatchBeginKeepsInv(w: World, s: Step)
    requires Inv(w) && s.BatchBegin? && Enabled(w, s)
    ensures Inv(Do(w, s))
  {
    hide DocOK, ClaimOK, HandleOK, Candidate, Untouched;
  }

  // ----- All steps, all runs -----

  predicate IsBatchStep(s: Step) {
    s.BatchBegin? || s.BatchFind? || s.BatchMint? || s.BatchUpdate? || s.BatchFetch? || s.BatchRead?
  }

  predicate IsWorkerStep(s: Step) {
    || s.BeginWork? || s.Renew? || s.Answer? || s.NoAnswer? || s.Invoke? || s.ExtendOwn? || s.Adopt? || s.Finish?
    || s.Write? || s.Extend?
  }

  lemma BatchStepKeepsInv(w: World, s: Step)
    requires Inv(w) && IsBatchStep(s) && Enabled(w, s)
    ensures Inv(Do(w, s))
  {
    hide Components;
    match s
    case BatchBegin(_, _, _, _, _) => BatchBeginKeepsInv(w, s);
    case BatchFind(_, _) => BatchFindKeepsInv(w, s);
    case BatchMint(_, _) => BatchMintKeepsInv(w, s);
    case BatchUpdate(_, _) => BatchUpdateKeepsInv(w, s);
    case BatchFetch(_) => BatchFetchKeepsInv(w, s);
    case BatchRead(_, _, _) => BatchReadKeepsInv(w, s);
  }

  lemma WorkerStepKeepsInv(w: World, s: Step)
    requires Inv(w) && IsWorkerStep(s) && Enabled(w, s)
    ensures Inv(Do(w, s))
  {
    hide Components;
    EveryTaskIsOnRecord(w);
    match s
    case BeginWork(slot, clock) => BeginWorkKeepsInv(w, slot, clock);
    case Renew(slot, sample, lease) => RenewKeepsInv(w, slot, sample, lease);
    case Answer(slot) => AnswerKeepsInv(w, slot);
    case NoAnswer(slot) => AnswerKeepsInv(w, slot);
    case Invoke(slot) => RunKeepsInv(w, slot, w.handles[slot]);
    case ExtendOwn(slot, sample, lease) => ExtendOwnKeepsInv(w, slot, sample, lease);
    case Adopt(slot, until) => AdoptKeepsInv(w, slot, until);
    case Finish(_, _) => FinishKeepsInv(w, s);
    case Write(slot, sample) => FinalizeKeepsInv(w, slot, sample);
    case Extend(key, sample, lease) => ExtendKeepsInv(w, key, sample, lease);
  }

  lemma StoreStepKeepsInv(w: World, s: Step)
    requires Inv(w) && !IsBatchStep(s) && !IsWorkerStep(s) && Enabled(w, s)
    ensures Inv(Do(w, s))
  {
    hide Components;
    match s
    case Tick(d) => TickKeepsInv(w, w.now + d);
    case Insert(_) => InsertKeepsInv(w, s);
    case ClaimOne(_, _, _, _, _, _, _) => ClaimOneKeepsInv(w, s);
    case Delete(_) => DeleteKeepsInv(w, s);
    case Requeue(_, _) => RequeueKeepsInv(w, s);
    case Reap(_, _) => ReapKeepsInv(w, s);
    case _ => LeavingKeepsInv(w, s);
  }

  lemma StepKeepsInv(w: World, s: Step)
    requires Inv(w) && Enabled(w, s)
    ensures w.docs.Keys <= w.hist.Keys && Inv(Do(w, s))
  {
    hide Components;
    EveryTaskIsOnRecord(w);
    if IsBatchStep(s) {
      BatchStepKeepsInv(w, s);
    } else if IsWorkerStep(s) {
      WorkerStepKeepsInv(w, s);
    } else {
      StoreStepKeepsInv(w, s);
    }
  }

  lemma {:induction false} RunKeepsInvariant(w: World, steps: seq<Step>)
    requires Inv(w) && CanRun(w, steps)
    ensures Inv(Exec(w, steps))
    decreases |steps|
  {
    hide Components;
    if steps != [] {
      StepKeepsInv(w, steps[0]);
      RunKeepsInvariant(Do(w, steps[0]), steps[1..]);
    }
  }
}
