/** A batch claim that nobody disturbs gets every task it has found. */
module ClusterBatch {
  import opened Tasks
  import opened Lifecycle
  import opened Cluster
  import opened ClusterInvariant
  import opened ClusterGuarantees
  import opened ClusterSteps

  function IdsOf(ids: seq<string>): set<string> { set id <- ids }

  ghost predicate Distinct(ids: seq<string>) {
    forall i, j :: 0 <= i < j < |ids| ==> ids[i] != ids[j]
  }

  lemma HeadAndRest(ids: seq<string>)
    requires ids != [] && Distinct(ids)
    ensures Distinct(ids[1..]) && ids[0] !in IdsOf(ids[1..]) && IdsOf(ids) == {ids[0]} + IdsOf(ids[1..])
    ensures |IdsOf(ids)| == 1 + |IdsOf(ids[1..])|
  {
    assert ids == [ids[0]] + ids[1..];
    forall id <- IdsOf(ids[1..]) ensures id != ids[0] {
      var i :| 0 <= i < |ids[1..]| && ids[1..][i] == id;
    }
    forall i, j | 0 <= i < j < |ids[1..]| ensures ids[1..][i] != ids[1..][j] {
      assert ids[i + 1] != ids[j + 1];
    }
  }

  /** The due tasks a call wants. */
  predicate Wants(c: Call, t: Task) {
    && IsDue(t, c.sample)
    && (c.opts.kinds == [] || t.kind in c.opts.kinds) && (c.opts.queues == [] || t.queue in c.opts.queues)
  }

  function Finds(call: nat, ids: seq<string>): seq<Step> {
    if ids == [] then [] else [BatchFind(call, ids[0])] + Finds(call, ids[1..])
  }

  function Updates(call: nat, ids: seq<string>): seq<Step> {
    if ids == [] then [] else [BatchUpdate(call, ids[0])] + Updates(call, ids[1..])
  }

  function Reads(call: nat, ids: seq<string>, slot: nat): seq<Step> {
    if ids == [] then [] else [BatchRead(call, ids[0], slot)] + Reads(call, ids[1..], slot + 1)
  }

  /** Going on with one step more in front. */
  lemma StepThen(w: World, s: Step, rest: seq<Step>)
    requires w.docs.Keys <= w.hist.Keys && Enabled(w, s) && CanRun(Do(w, s), rest)
    ensures CanRun(w, [s] + rest) && Exec(w, [s] + rest) == Exec(Do(w, s), rest)
  {
    hide CanRun, Exec, Do, Enabled;
    OneStep(w, s);
    RunsCompose(w, [s], rest);
  }

  function WithPhaseOf(w: World, call: nat, p: Phase): World
    requires call in w.calls
  {
    w.(calls := w.calls[call := w.calls[call].(phase := p)])
  }

  // ----- Finding -----

  /** The call has found these as well, and that is all. */
  ghost predicate Found(w: World, v: World, call: nat, ids: set<string>) {
    && call in w.calls && w.calls[call].phase.Finding?
    && v == WithPhaseOf(w, call, Finding(w.calls[call].phase.found + ids))
  }

  lemma FoundThen(w: World, u: World, v: World, call: nat, a: set<string>, b: set<string>)
    requires Found(w, u, call, a) && Found(u, v, call, b)
    ensures Found(w, v, call, a + b)
  {
    assert w.calls[call].phase.found + a + b == w.calls[call].phase.found + (a + b);
  }

  lemma FindOne(w: World, call: nat, id: string)
    requires w.docs.Keys <= w.hist.Keys && call in w.calls && w.calls[call].phase.Finding?
    requires |w.calls[call].phase.found| < w.calls[call].limit && id in w.docs && Wants(w.calls[call], w.docs[id])
    ensures Enabled(w, BatchFind(call, id)) && Found(w, Do(w, BatchFind(call, id)), call, {id})
  {
  }

  lemma FoundSome(w: World, v: World, call: nat, ids: set<string>)
    requires Found(w, v, call, ids)
    ensures v.docs == w.docs && v.hist == w.hist && call in v.calls && v.calls[call].phase.Finding?
    ensures v.calls[call].phase.found == w.calls[call].phase.found + ids && v.calls[call].limit == w.calls[call].limit
    ensures forall t :: Wants(v.calls[call], t) <==> Wants(w.calls[call], t)
  {
  }

  lemma FoundNone(w: World, call: nat)
    requires call in w.calls && w.calls[call].phase.Finding?
    ensures Found(w, w, call, {})
  {
    var c := w.calls[call];
    assert c.phase.found + {} == c.phase.found && w.calls[call := c] == w.calls;
  }

  lemma NoneOf(ids: seq<string>)
    requires ids == []
    ensures IdsOf(ids) == {}
  {
  }

  lemma {:induction false} FindAll(w: World, call: nat, ids: seq<string>)
    requires w.docs.Keys <= w.hist.Keys && Distinct(ids)
    requires call in w.calls && w.calls[call].phase.Finding?
    requires |w.calls[call].phase.found| + |ids| <= w.calls[call].limit
    requires forall id <- ids :: id in w.docs && Wants(w.calls[call], w.docs[id])
    ensures CanRun(w, Finds(call, ids)) && Found(w, Exec(w, Finds(call, ids)), call, IdsOf(ids))
    decreases |ids|
  {
    if ids == [] {
      FoundNone(w, call);
      NoneOf(ids);
    } else {
      hide CanRun, Exec, Do, Enabled, Found, Wants, IdsOf, Distinct;
      var s := BatchFind(call, ids[0]);
      HeadAndRest(ids);
      FindOne(w, call, ids[0]);
      var v := Do(w, s);
      FoundSome(w, v, call, {ids[0]});
      FindAll(v, call, ids[1..]);
      StepThen(w, s, Finds(call, ids[1..]));
      FoundThen(w, v, Exec(v, Finds(call, ids[1..])), call, {ids[0]}, IdsOf(ids[1..]));
    }
  }

  // ----- Updating -----

  /** These tasks have been claimed by the call, the others not touched. */
  ghost predicate Taken(c: Call, token: string, ids: set<string>, docs: map<string, Task>, docs': map<string, Task>) {
    && docs'.Keys == docs.Keys
    && forall id <- docs ::
         if id in ids then IsClaim(docs[id], docs'[id], c.sample, c.opts.workerId, token, c.opts.lease)
         else docs'[id] == docs[id]
  }

  ghost predicate Updated(w: World, v: World, call: nat, ids: set<string>) {
    && call in w.calls && w.calls[call].phase.Updating? && v.docs.Keys <= v.hist.Keys
    && v.handles == w.handles && v.ledger == w.ledger && v.now == w.now
    && var c := w.calls[call];
       && Taken(c, c.phase.token, ids, w.docs, v.docs)
       && v.calls == WithPhaseOf(w, call, Updating(c.phase.token, c.phase.ids, c.phase.todo - ids)).calls
  }

  lemma UpdatedThen(w: World, u: World, v: World, call: nat, a: set<string>, b: set<string>)
    requires Updated(w, u, call, a) && Updated(u, v, call, b) && a !! b
    ensures Updated(w, v, call, a + b)
  {
    hide IsClaim;
    assert w.calls[call].phase.todo - a - b == w.calls[call].phase.todo - (a + b);
  }

  lemma UpdateOne(w: World, call: nat, id: string)
    requires w.docs.Keys <= w.hist.Keys && call in w.calls && w.calls[call].phase.Updating?
    requires id in w.calls[call].phase.todo && id in w.docs && IsDue(w.docs[id], w.calls[call].sample)
    ensures Enabled(w, BatchUpdate(call, id)) && Updated(w, Do(w, BatchUpdate(call, id)), call, {id})
  {
    var s := BatchUpdate(call, id);
    assert Enabled(w, s);
    hide Do, Enabled, IsClaim, IsDue;
    ClaimingSays(w, s);
    UpdatingSays(w, s);
    RecordsStay(w, s);
  }

  lemma UpdatedSome(w: World, v: World, call: nat, ids: set<string>)
    requires Updated(w, v, call, ids)
    ensures v.docs.Keys == w.docs.Keys && v.docs.Keys <= v.hist.Keys && call in v.calls
    ensures v.calls[call].phase.Updating? && v.calls[call].phase.todo == w.calls[call].phase.todo - ids
    ensures v.calls[call].sample == w.calls[call].sample
    ensures forall id <- w.docs | id !in ids :: v.docs[id] == w.docs[id]
  {
  }

  lemma UpdatedNone(w: World, call: nat)
    requires call in w.calls && w.calls[call].phase.Updating? && w.docs.Keys <= w.hist.Keys
    ensures Updated(w, w, call, {})
  {
    var c := w.calls[call];
    assert c.phase.todo - {} == c.phase.todo && w.calls[call := c] == w.calls;
  }

  lemma RecordsStay(w: World, s: Step)
    requires Enabled(w, s) && w.docs.Keys <= w.hist.Keys && s.BatchUpdate?
    ensures Do(w, s).docs.Keys <= Do(w, s).hist.Keys
  {
    hide Claimed, Runnable;
  }

  lemma {:induction false} UpdateAll(w: World, call: nat, ids: seq<string>)
    requires w.docs.Keys <= w.hist.Keys && Distinct(ids)
    requires call in w.calls && w.calls[call].phase.Updating? && IdsOf(ids) <= w.calls[call].phase.todo
    requires forall id <- IdsOf(ids) :: id in w.docs && IsDue(w.docs[id], w.calls[call].sample)
    ensures CanRun(w, Updates(call, ids)) && Updated(w, Exec(w, Updates(call, ids)), call, IdsOf(ids))
    decreases |ids|
  {
    if ids == [] {
      UpdatedNone(w, call);
      NoneOf(ids);
    } else {
      hide CanRun, Exec, Do, Enabled, Updated, IsDue, IdsOf, Distinct;
      var s := BatchUpdate(call, ids[0]);
      HeadAndRest(ids);
      UpdateOne(w, call, ids[0]);
      var v := Do(w, s);
      UpdatedSome(w, v, call, {ids[0]});
      UpdateAll(v, call, ids[1..]);
      StepThen(w, s, Updates(call, ids[1..]));
      UpdatedThen(w, v, Exec(v, Updates(call, ids[1..])), call, {ids[0]}, IdsOf(ids[1..]));
    }
  }

  // ----- Reading -----

  /** The claimer has these tasks, as they are stored, in slots of their own. */
  function InHand(proc: nat, ids: seq<string>, docs: map<string, Task>, slot: nat): map<nat, Handle>
    requires forall id <- ids :: id in docs
  {
    if ids == [] then map[]
    else map[slot := Handle(proc, Pipelined, docs[ids[0]], Queued)] + InHand(proc, ids[1..], docs, slot + 1)
  }

  /** In slots of their own, one after the other. */
  lemma {:induction false} EachInHand(proc: nat, ids: seq<string>, docs: map<string, Task>, slot: nat, i: nat)
    requires forall id <- ids :: id in docs
    ensures slot + i in InHand(proc, ids, docs, slot) <==> i < |ids|
    ensures i < |ids| ==> InHand(proc, ids, docs, slot)[slot + i] == Handle(proc, Pipelined, docs[ids[i]], Queued)
    ensures forall s <- InHand(proc, ids, docs, slot) :: slot <= s
  {
    if ids != [] {
      EachInHand(proc, ids[1..], docs, slot + 1, if i > 0 then i - 1 else 0);
    }
  }

  ghost predicate HasRead(w: World, v: World, call: nat, ids: set<string>, hs: map<nat, Handle>) {
    && call in w.calls && w.calls[call].phase.Fetching?
    && v.docs == w.docs && v.hist == w.hist && v.ledger == w.ledger && v.now == w.now
    && v.calls == WithPhaseOf(w, call, Fetching(w.calls[call].phase.token, w.calls[call].phase.todo - ids)).calls
    && v.handles == w.handles + hs
  }

  lemma ReadThen(w: World, u: World, v: World, call: nat, a: set<string>, b: set<string>, hs: map<nat, Handle>,
        gs: map<nat, Handle>)
    requires HasRead(w, u, call, a, hs) && HasRead(u, v, call, b, gs)
    ensures HasRead(w, v, call, a + b, hs + gs)
  {
    assert w.calls[call].phase.todo - a - b == w.calls[call].phase.todo - (a + b);
    assert w.handles + hs + gs == w.handles + (hs + gs);
  }

  lemma ReadOne(w: World, call: nat, id: string, slot: nat)
    requires w.docs.Keys <= w.hist.Keys && call in w.calls && w.calls[call].phase.Fetching?
    requires id in w.calls[call].phase.todo && slot !in w.handles
    requires id in w.docs && w.docs[id].leaseToken == w.calls[call].phase.token
    ensures var s, h := BatchRead(call, id, slot), Handle(w.calls[call].proc, Pipelined, w.docs[id], Queued);
            Enabled(w, s) && HasRead(w, Do(w, s), call, {id}, map[slot := h])
  {
    var s := BatchRead(call, id, slot);
    assert Do(w, s).hist == w.hist;
    hide Do;
    ReadingSays(w, s);
    assert w.handles[slot := Handle(w.calls[call].proc, Pipelined, w.docs[id], Queued)]
        == w.handles + map[slot := Handle(w.calls[call].proc, Pipelined, w.docs[id], Queued)];
  }

  lemma ReadSome(w: World, v: World, call: nat, ids: set<string>, slot: nat, h: Handle)
    requires HasRead(w, v, call, ids, map[slot := h]) && forall s <- w.handles :: s < slot
    ensures v.docs == w.docs && v.hist == w.hist && call in v.calls && v.calls[call].phase.Fetching?
    ensures v.calls[call].phase.todo == w.calls[call].phase.todo - ids
    ensures v.calls[call].phase.token == w.calls[call].phase.token && v.calls[call].proc == w.calls[call].proc
    ensures forall s <- v.handles :: s < slot + 1
  {
  }

  lemma ReadNone(w: World, call: nat)
    requires call in w.calls && w.calls[call].phase.Fetching?
    ensures HasRead(w, w, call, {}, map[])
  {
    var c := w.calls[call];
    assert c.phase.todo - {} == c.phase.todo && w.calls[call := c] == w.calls && w.handles + map[] == w.handles;
  }

  lemma {:induction false} ReadAll(w: World, call: nat, ids: seq<string>, slot: nat)
    requires w.docs.Keys <= w.hist.Keys && Distinct(ids) && forall s <- w.handles :: s < slot
    requires call in w.calls && w.calls[call].phase.Fetching? && IdsOf(ids) <= w.calls[call].phase.todo
    requires forall id <- ids :: id in w.docs && w.docs[id].leaseToken == w.calls[call].phase.token
    ensures CanRun(w, Reads(call, ids, slot))
    ensures HasRead(w, Exec(w, Reads(call, ids, slot)), call, IdsOf(ids),
                    InHand(w.calls[call].proc, ids, w.docs, slot))
    decreases |ids|
  {
    if ids == [] {
      ReadNone(w, call);
      NoneOf(ids);
    } else {
      hide CanRun, Exec, Do, Enabled, HasRead, IdsOf, Distinct;
      var s := BatchRead(call, ids[0], slot);
      var h := Handle(w.calls[call].proc, Pipelined, w.docs[ids[0]], Queued);
      HeadAndRest(ids);
      ReadOne(w, call, ids[0], slot);
      var v := Do(w, s);
      ReadSome(w, v, call, {ids[0]}, slot, h);
      ReadAll(v, call, ids[1..], slot + 1);
      StepThen(w, s, Reads(call, ids[1..], slot + 1));
      ReadThen(w, v, Exec(v, Reads(call, ids[1..], slot + 1)), call, {ids[0]}, IdsOf(ids[1..]), map[slot := h],
               InHand(w.calls[call].proc, ids[1..], w.docs, slot + 1));
    }
  }

  // ----- The whole call -----

  function BatchRun(begin: Step, token: string, ids: seq<string>, slot: nat): seq<Step>
    requires begin.BatchBegin?
  {
    var call := begin.call;
    [begin] + (Finds(call, ids) + [BatchMint(call, token)])
    + (Updates(call, ids) + ([BatchFetch(call)] + (Reads(call, ids, slot) + [BatchEnd(call)])))
  }

  ghost predicate Fits(w: World, s: Step, ids: seq<string>, slot: nat)
    requires s.BatchBegin?
  {
    && w.docs.Keys <= w.hist.Keys && s.call !in w.calls && s.sample <= w.now && 1 <= s.limit
    && Distinct(ids) && |ids| <= s.limit && (forall s <- w.handles :: s < slot)
    && var c := Call(s.proc, s.opts, s.sample, s.limit, Finding({}));
       forall id <- ids :: id in w.docs && Wants(c, w.docs[id])
  }

  lemma CallsGoOn(w: World, s: Step)
    ensures s.BatchBegin? && s.call !in w.calls && s.sample <= w.now && 1 <= s.limit ==> Enabled(w, s)
    ensures s.BatchMint? && s.call in w.calls && w.calls[s.call].phase.Finding? && s.token !in w.used ==> Enabled(w, s)
    ensures s.BatchEnd? && s.call in w.calls ==> Enabled(w, s)
    ensures s.BatchFetch? && s.call in w.calls && w.calls[s.call].phase.Updating? && w.calls[s.call].phase.todo == {}
            ==> Enabled(w, s)
  {
  }

  /** Up to the update, ... */
  lemma FindsAndMints(w: World, begin: Step, token: string, ids: seq<string>, slot: nat)
    requires begin.BatchBegin? && Fits(w, begin, ids, slot) && token !in w.used
    ensures var steps := [begin] + (Finds(begin.call, ids) + [BatchMint(begin.call, token)]);
            var c := Call(begin.proc, begin.opts, begin.sample, begin.limit, Updating(token, IdsOf(ids), IdsOf(ids)));
            && CanRun(w, steps)
            && Exec(w, steps) == w.(calls := w.calls[begin.call := c], used := w.used + {token})
  {
    hide CanRun, Exec, Do, Enabled, Finds;
    var call, mint := begin.call, BatchMint(begin.call, token);
    CallsGoOn(w, begin);
    FindingSays(w, begin);
    var w1 := Do(w, begin);
    assert |w1.calls[call].phase.found| == 0;
    FitsBegun(w, begin, ids, slot, w1.calls[call]);
    FindAll(w1, call, ids);
    var w2 := Exec(w1, Finds(call, ids));
    assert {} + IdsOf(ids) == IdsOf(ids);
    CallsGoOn(w2, mint);
    FindingSays(w2, mint);
    OneStep(w2, mint);
    RunsCompose(w1, Finds(call, ids), [mint]);
    StepThen(w, begin, Finds(call, ids) + [mint]);
  }

  lemma FitsBegun(w: World, begin: Step, ids: seq<string>, slot: nat, c: Call)
    requires begin.BatchBegin? && Fits(w, begin, ids, slot)
    requires c == Call(begin.proc, begin.opts, begin.sample, begin.limit, Finding({}))
    ensures Distinct(ids) && |ids| <= c.limit && forall id <- ids :: id in w.docs && Wants(c, w.docs[id])
  {
  }

  /** ... and from there on. */
  lemma UpdatesAndReads(w: World, call: nat, token: string, ids: seq<string>, slot: nat)
    requires w.docs.Keys <= w.hist.Keys && Distinct(ids) && forall s <- w.handles :: s < slot
    requires call in w.calls && w.calls[call].phase == Updating(token, IdsOf(ids), IdsOf(ids))
    requires forall id <- IdsOf(ids) :: id in w.docs && IsDue(w.docs[id], w.calls[call].sample)
    ensures var c, steps := w.calls[call], Updates(call, ids) + ([BatchFetch(call)]
                + (Reads(call, ids, slot) + [BatchEnd(call)]));
            && CanRun(w, steps)
            && var v := Exec(w, steps);
               && Taken(c, token, IdsOf(ids), w.docs, v.docs) && (forall id <- ids :: id in v.docs)
               && v.handles == w.handles + InHand(c.proc, ids, v.docs, slot)
               && v.calls == w.calls - {call} && v.ledger == w.ledger
  {
    hide CanRun, Exec, Do, Enabled, Updates, Reads, IsClaim, IsDue, Distinct, InHand;
    var c, fetch, end := w.calls[call], BatchFetch(call), BatchEnd(call);
    UpdateAll(w, call, ids);
    var w4 := Exec(w, Updates(call, ids));
    assert IdsOf(ids) - IdsOf(ids) == {};
    CallsGoOn(w4, fetch);
    UpdatingSays(w4, fetch);
    var w5 := Do(w4, fetch);
    TakenHaveTheToken(c, token, ids, w.docs, w4.docs);
    ReadAll(w5, call, ids, slot);
    var w6 := Exec(w5, Reads(call, ids, slot));
    CallsGoOn(w6, end);
    ReadingSays(w6, end);
    OneStep(w6, end);
    RunsCompose(w5, Reads(call, ids, slot), [end]);
    StepThen(w4, fetch, Reads(call, ids, slot) + [end]);
    RunsCompose(w, Updates(call, ids), [fetch] + (Reads(call, ids, slot) + [end]));
  }

  lemma TakenHaveTheToken(c: Call, token: string, ids: seq<string>, docs: map<string, Task>, docs': map<string, Task>)
    requires Taken(c, token, IdsOf(ids), docs, docs') && forall id <- IdsOf(ids) :: id in docs
    ensures forall id <- ids :: id in docs' && docs'[id].leaseToken == token
  {
    forall id <- ids ensures id in docs' && docs'[id].leaseToken == token {
      assert id in IdsOf(ids);
    }
  }

  /** From any world: of tasks that are due and wanted, any choice no larger than
      the limit can be found, and if nobody comes between, each of them is claimed
      once, every other task stays as it is, and the claimer gets them all, as
      they are stored. */
  lemma BatchGetsWhatItFinds(w: World, begin: Step, token: string, ids: seq<string>, slot: nat)
    requires begin.BatchBegin? && token !in w.used && w.docs.Keys <= w.hist.Keys
    requires begin.call !in w.calls && begin.sample <= w.now && 1 <= begin.limit
    requires |ids| <= begin.limit && forall i, j :: 0 <= i < j < |ids| ==> ids[i] != ids[j]
    requires forall s <- w.handles :: s < slot
    requires forall id <- ids ::
               && id in w.docs && IsDue(w.docs[id], begin.sample)
               && (begin.opts.kinds == [] || w.docs[id].kind in begin.opts.kinds)
               && (begin.opts.queues == [] || w.docs[id].queue in begin.opts.queues)
    ensures var c := Call(begin.proc, begin.opts, begin.sample, begin.limit, Finding({}));
            var steps := BatchRun(begin, token, ids, slot);
            && CanRun(w, steps)
            && var v := Exec(w, steps);
               && Taken(c, token, IdsOf(ids), w.docs, v.docs) && (forall id <- ids :: id in v.docs)
               && v.handles == w.handles + InHand(c.proc, ids, v.docs, slot)
               && v.calls == w.calls && v.ledger == w.ledger
  {
    hide CanRun, Exec, Finds, Updates, Reads, InHand, IsClaim;
    var call := begin.call;
    FindsAndMints(w, begin, token, ids, slot);
    var a := [begin] + (Finds(call, ids) + [BatchMint(call, token)]);
    var u := Exec(w, a);
    FitsBegun(w, begin, ids, slot, Call(begin.proc, begin.opts, begin.sample, begin.limit, Finding({})));
    UpdatesAndReads(u, call, token, ids, slot);
    RunsCompose(w, a, Updates(call, ids) + ([BatchFetch(call)] + (Reads(call, ids, slot) + [BatchEnd(call)])));
    assert u.calls - {call} == w.calls;
  }
}
