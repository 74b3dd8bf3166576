/** The worker's copy of the lease deadline, which its finalize gate and its
    start of work go by, against the deadline in the store.
 */
module ClusterCopies {
  import opened Tasks
  import opened Lifecycle
  import opened Cluster
  import opened ClusterInvariant
  import opened ClusterGuarantees
  import opened ClusterHeartbeat

  // ----- The copy against the store -----

  /** The deadlines a worker has, or is about to be told: the copy's own, and
      those of extensions that landed for it. */
  function Deadlines(h: Handle): set<int> {
    {h.snap.leasedUntil}
    + (if h.stage.Answered? && h.stage.grant.Some? then {h.stage.grant.value} else {})
    + if h.stage.Executing? then h.stage.grants else {}
  }

  /** While `k` is held, no worker believes in a later deadline than the store. */
  ghost predicate CopiesBehind(w: World, k: Key) {
    Holds(w, k) ==>
      forall slot <- w.handles | KeyOf(w.handles[slot].snap) == k ::
        forall d <- Deadlines(w.handles[slot]) :: d <= w.docs[k.id].leasedUntil
  }

  /** This step's extension, if it is one that lands for `k`, sets no earlier
      deadline than any worker has, or is about to be told. */
  ghost predicate Covers(w: World, s: Step, k: Key) {
    RenewsLease(w, s, k) ==>
      forall slot <- w.handles | KeyOf(w.handles[slot].snap) == k ::
        forall d <- Deadlines(w.handles[slot]) :: d <= s.sample + s.lease
  }

  ghost predicate AlwaysBehind(w: World, steps: seq<Step>, k: Key)
    requires CanRun(w, steps)
    decreases |steps|
  {
    CopiesBehind(w, k) && (steps == [] || AlwaysBehind(Do(w, steps[0]), steps[1..], k))
  }

  ghost predicate AlwaysCovers(w: World, steps: seq<Step>, k: Key)
    requires CanRun(w, steps)
    decreases |steps|
  {
    steps == [] || (Covers(w, steps[0], k) && AlwaysCovers(Do(w, steps[0]), steps[1..], k))
  }

  /** Extensions of `k` land in the order of the deadlines they set. */
  ghost predicate InOrder(w: World, steps: seq<Step>, k: Key)
    requires CanRun(w, steps)
    decreases |steps|
  {
    steps == [] ||
    ((RenewsLease(w, steps[0], k) ==> w.docs[k.id].leasedUntil <= steps[0].sample + steps[0].lease)
     && InOrder(Do(w, steps[0]), steps[1..], k))
  }

  lemma NewCopy(w: World, s: Step, slot: nat)
    requires Enabled(w, s) && w.docs.Keys <= w.hist.Keys && slot in Do(w, s).handles && slot !in w.handles
    ensures var v := Do(w, s);
            && (s.ClaimOne? || s.BatchRead?) && s.id in v.docs
            && v.docs[s.id] == v.handles[slot].snap && v.handles[slot].stage.Queued?
  {
    hide Reportable, Runnable, Matches, Fresh, DoExtend, DoRenew, DoExtendOwn, DoAnswer, DoNoAnswer, DoBeginWork,
      DoBatchUpdate, DoWrite;
  }

  lemma OldCopy(w: World, s: Step, slot: nat)
    requires Enabled(w, s) && w.docs.Keys <= w.hist.Keys && slot in Do(w, s).handles && slot in w.handles
    ensures var h, g := w.handles[slot], Do(w, s).handles[slot];
            && KeyOf(g.snap) == KeyOf(h.snap)
            && Deadlines(g) <= Deadlines(h) + if RenewsLease(w, s, KeyOf(h.snap)) then {s.sample + s.lease} else {}
  {
    hide Do, Enabled, Deadlines, RenewsLease;
    if s.Renew? || s.ExtendOwn? {
      ExtendingCopy(w, s, slot);
    } else if IsWorkerStep(s) {
      WorkerCopy(w, s, slot);
    } else {
      OthersKeepCopies(w, s, slot);
    }
  }

  lemma OthersKeepCopies(w: World, s: Step, slot: nat)
    requires Enabled(w, s) && w.docs.Keys <= w.hist.Keys && slot in Do(w, s).handles && slot in w.handles
    requires !IsWorkerStep(s)
    ensures Do(w, s).handles[slot] == w.handles[slot]
  {
    hide Reportable, Runnable, Matches, Fresh, DoBatchUpdate;
  }

  lemma WorkerCopy(w: World, s: Step, slot: nat)
    requires Enabled(w, s) && w.docs.Keys <= w.hist.Keys && slot in Do(w, s).handles && slot in w.handles
    requires IsWorkerStep(s) && !s.Renew? && !s.ExtendOwn?
    ensures var h, g := w.handles[slot], Do(w, s).handles[slot];
            && KeyOf(g.snap) == KeyOf(h.snap)
            && Deadlines(g) <= Deadlines(h)
  {
    hide Do, Enabled, Deadlines;
    if s.BeginWork? || s.Invoke? || s.Finish? || s.Write? {
      WorkingCopy(w, s, slot);
    } else {
      AnsweredCopy(w, s, slot);
    }
  }

  lemma WorkingCopy(w: World, s: Step, slot: nat)
    requires Enabled(w, s) && w.docs.Keys <= w.hist.Keys && slot in Do(w, s).handles && slot in w.handles
    requires s.BeginWork? || s.Invoke? || s.Finish? || s.Write?
    ensures var h, g := w.handles[slot], Do(w, s).handles[slot];
            && KeyOf(g.snap) == KeyOf(h.snap)
            && Deadlines(g) <= Deadlines(h)
  {
    hide Reportable, DoExtend, DoWrite, DoAnswer, DoNoAnswer, DoRenew, DoExtendOwn;
  }

  lemma AnsweredCopy(w: World, s: Step, slot: nat)
    requires Enabled(w, s) && w.docs.Keys <= w.hist.Keys && slot in Do(w, s).handles && slot in w.handles
    requires IsWorkerStep(s) && !s.Renew? && !s.ExtendOwn?
    requires !s.BeginWork? && !s.Invoke? && !s.Finish? && !s.Write?
    ensures var h, g := w.handles[slot], Do(w, s).handles[slot];
            && KeyOf(g.snap) == KeyOf(h.snap)
            && Deadlines(g) <= Deadlines(h)
  {
    hide Reportable, DoExtend, DoWrite, DoRenew, DoExtendOwn, DoBeginWork;
  }

  lemma ExtendingCopy(w: World, s: Step, slot: nat)
    requires Enabled(w, s) && w.docs.Keys <= w.hist.Keys && slot in Do(w, s).handles && slot in w.handles
    requires s.Renew? || s.ExtendOwn?
    ensures var h, g := w.handles[slot], Do(w, s).handles[slot];
            && KeyOf(g.snap) == KeyOf(h.snap)
            && Deadlines(g) <= Deadlines(h) + if RenewsLease(w, s, KeyOf(h.snap)) then {s.sample + s.lease} else {}
  {
    hide Deadlines, Holds, DoRenew, DoExtendOwn;
    if s.Renew? {
      RenewingCopy(w, s, slot);
    } else {
      ExtendingOwnCopy(w, s, slot);
    }
  }

  /** What the worker may be told of this extension. */
  function Told(w: World, s: Step, k: Key): set<int>
    requires s.Renew? || s.ExtendOwn?
  {
    if Holds(w, k) then {s.sample + s.lease} else {}
  }

  lemma RenewingCopy(w: World, s: Step, slot: nat)
    requires s.Renew? && Enabled(w, s) && slot in w.handles
    ensures var v, h := DoRenew(w, s.slot, s.sample, s.lease), w.handles[slot];
            && slot in v.handles && KeyOf(v.handles[slot].snap) == KeyOf(h.snap)
            && Deadlines(h) <= Deadlines(v.handles[slot])
               <= Deadlines(h) + if s.slot == slot then Told(w, s, KeyOf(h.snap)) else {}
  {
    hide DoExtend, Holds;
  }

  lemma ExtendingOwnCopy(w: World, s: Step, slot: nat)
    requires s.ExtendOwn? && Enabled(w, s) && slot in w.handles
    ensures var v, h := DoExtendOwn(w, s.slot, s.sample, s.lease), w.handles[slot];
            && slot in v.handles && KeyOf(v.handles[slot].snap) == KeyOf(h.snap)
            && Deadlines(h) <= Deadlines(v.handles[slot])
               <= Deadlines(h) + if s.slot == slot then Told(w, s, KeyOf(h.snap)) else {}
  {
    hide DoExtend, Holds;
  }

  lemma CopyStep(w: World, s: Step, k: Key)
    requires Inv(w) && Enabled(w, s) && CopiesBehind(w, k) && Covers(w, s, k)
    ensures w.docs.Keys <= w.hist.Keys && CopiesBehind(Do(w, s), k)
  {
    hide Inv, Do, Enabled, Deadlines, RenewsLease;
    EveryTaskIsOnRecord(w);
    StepKeepsInv(w, s);
    var v := Do(w, s);
    if Holds(v, k) {
      forall slot <- v.handles | KeyOf(v.handles[slot].snap) == k
        ensures forall d <- Deadlines(v.handles[slot]) :: d <= v.docs[k.id].leasedUntil
      {
        if slot in w.handles {
          OldCopy(w, s, slot);
          HandleIsClaimed(w, slot);
          if !Holds(w, k) {
            NeverHeldAgainStep(w, s, k);
          }
          HeldDeadline(w, s, k);
        } else {
          NewCopy(w, s, slot);
          DocId(v, s.id);
          QueuedDeadlines(v.handles[slot]);
        }
      }
    }
  }

  /** An extension takes no deadline away from any worker. */
  lemma ExtendingKeeps(w: World, s: Step, k: Key, slot: nat)
    requires Enabled(w, s) && w.docs.Keys <= w.hist.Keys && RenewsLease(w, s, k) && slot in w.handles
    ensures slot in Do(w, s).handles && KeyOf(Do(w, s).handles[slot].snap) == KeyOf(w.handles[slot].snap)
    ensures Deadlines(w.handles[slot]) <= Deadlines(Do(w, s).handles[slot])
  {
    hide DoRenew, DoExtendOwn, Deadlines, Holds, Extended;
    if s.Renew? {
      RenewingCopy(w, s, slot);
    } else if s.ExtendOwn? {
      ExtendingOwnCopy(w, s, slot);
    }
  }

  lemma HeldAfterExtending(w: World, s: Step, k: Key)
    requires Inv(w) && Enabled(w, s) && RenewsLease(w, s, k)
    ensures w.docs.Keys <= w.hist.Keys
    ensures Holds(Do(w, s), k) && Do(w, s).docs[k.id].leasedUntil == s.sample + s.lease
  {
    hide Inv, Do, Enabled;
    LosesClaimOnlyTo(w, s, k);
    RenewalIsExact(w, s, k);
  }

  lemma UncoveredGetsAhead(w: World, s: Step, k: Key)
    requires Inv(w) && Enabled(w, s) && !Covers(w, s, k)
    ensures w.docs.Keys <= w.hist.Keys && !CopiesBehind(Do(w, s), k)
  {
    hide Inv, Do, Enabled, Deadlines, Holds;
    var slot :| slot in w.handles && KeyOf(w.handles[slot].snap) == k
                && !forall d <- Deadlines(w.handles[slot]) :: d <= s.sample + s.lease;
    HeldAfterExtending(w, s, k);
    ExtendingKeeps(w, s, k, slot);
  }

  lemma QueuedDeadlines(h: Handle)
    requires h.stage.Queued?
    ensures Deadlines(h) == {h.snap.leasedUntil}
  {
  }

  lemma HandleIsClaimed(w: World, slot: nat)
    requires Inv(w) && slot in w.handles
    ensures KeyOf(w.handles[slot].snap) in w.claims
  {
    hide Components;
    HandleFacts(w, slot);
  }

  /** Nobody's copy of the deadline is ever ahead of the store while the claim is
      held, if and only if no extension lands that sets an earlier deadline
      than some worker has or is about to be told. */
  lemma {:induction false} BehindIffCovered(w: World, steps: seq<Step>, k: Key)
    requires Inv(w) && CanRun(w, steps) && CopiesBehind(w, k)
    ensures AlwaysBehind(w, steps, k) <==> AlwaysCovers(w, steps, k)
    decreases |steps|
  {
    hide Inv, Do, Enabled, CopiesBehind, Covers;
    if steps != [] {
      var s := steps[0];
      StepKeepsInv(w, s);
      if Covers(w, s, k) {
        CopyStep(w, s, k);
        BehindIffCovered(Do(w, s), steps[1..], k);
      } else {
        UncoveredGetsAhead(w, s, k);
        assert !AlwaysBehind(Do(w, s), steps[1..], k);
      }
    }
  }

  lemma {:induction false} EndsBehind(w: World, steps: seq<Step>, k: Key)
    requires CanRun(w, steps) && AlwaysBehind(w, steps, k)
    ensures CopiesBehind(w, k) && CopiesBehind(Exec(w, steps), k)
    decreases |steps|
  {
    hide Do, Enabled, CopiesBehind;
    if steps != [] {
      EndsBehind(Do(w, steps[0]), steps[1..], k);
    }
  }

  lemma {:induction false} InOrderCovers(w: World, steps: seq<Step>, k: Key)
    requires Inv(w) && CanRun(w, steps) && CopiesBehind(w, k) && InOrder(w, steps, k)
    ensures AlwaysCovers(w, steps, k)
    decreases |steps|
  {
    hide Inv, Do, Enabled;
    if steps != [] {
      hide Deadlines;
      LaterCovers(w, steps[0], k);
      CopyStep(w, steps[0], k);
      StepKeepsInv(w, steps[0]);
      InOrderCovers(Do(w, steps[0]), steps[1..], k);
    }
  }

  lemma LaterCovers(w: World, s: Step, k: Key)
    requires CopiesBehind(w, k)
    requires RenewsLease(w, s, k) ==> w.docs[k.id].leasedUntil <= s.sample + s.lease
    ensures Covers(w, s, k)
  {
    hide Deadlines;
  }

  /** So as long as extensions land in the order of their deadlines, the finalize
      gate, which trusts the copy, errs on the early side. */
  lemma CopyNeverAhead(steps: seq<Step>, k: Key)
    requires CanRun(Start, steps) && InOrder(Start, steps, k)
    ensures CopiesBehind(Exec(Start, steps), k)
  {
    hide CanRun, Exec, InOrder, AlwaysBehind, AlwaysCovers;
    InOrderCovers(Start, steps, k);
    BehindIffCovered(Start, steps, k);
    EndsBehind(Start, steps, k);
  }

  /** A worker at its first claim, of instant 0, that reads the clock again at 5 ... */
  lemma AtWork(lease: int) returns (w: World)
    ensures Reachable(w) && Holds(w, Key("t", "a")) && w.now == 5 && w.delivered == {Key("t", "a")}
    ensures w.handles.Keys == {0} && w.handles[0] == Handle(0, Single, w.docs["t"], Executing({}))
    ensures KeyOf(w.docs["t"]) == Key("t", "a")
  {
    hide Reachable, CanRun, Exec, ClaimSteps;
    w := FirstClaim(2, lease);
    ReachableStep(w, BeginWork(0, 0));
    w := Do(w, BeginWork(0, 0));
    ReachableStep(w, Tick(5));
    w := Do(w, Tick(5));
  }

  /** ... gets the extension it asks for then ... */
  lemma Granted(lease: int) returns (w: World)
    ensures Reachable(w) && Holds(w, Key("t", "a")) && w.now == 5 && w.delivered == {Key("t", "a")}
    ensures w.docs["t"].leasedUntil == 5 + lease && w.handles.Keys == {0}
    ensures KeyOf(w.handles[0].snap) == Key("t", "a") && w.handles[0].stage == Executing({5 + lease})
  {
    hide Reachable, CanRun, Exec;
    w := AtWork(lease);
    ReachableStep(w, ExtendOwn(0, 5, lease));
    w := Do(w, ExtendOwn(0, 5, lease));
  }

  /** ... and takes it over. */
  lemma Adopted(lease: int) returns (w: World)
    ensures Reachable(w) && Holds(w, Key("t", "a")) && w.now == 5 && w.delivered == {Key("t", "a")}
    ensures w.docs["t"].leasedUntil == 5 + lease && w.handles.Keys == {0}
    ensures KeyOf(w.handles[0].snap) == Key("t", "a") && Deadlines(w.handles[0]) == {5 + lease}
  {
    hide Reachable, CanRun, Exec;
    w := Granted(lease);
    ReachableStep(w, Adopt(0, 5 + lease));
    w := Do(w, Adopt(0, 5 + lease));
  }

  /** The heartbeat that read the clock at instant 1 and lands only now takes the
      deadline back behind the worker's copy. */
  lemma LateExtensionOvertakes(lease: int) returns (w: World)
    ensures var k, s := Key("t", "a"), Extend(Key("t", "a"), 1, lease);
            && Reachable(w) && Holds(w, k) && CopiesBehind(w, k)
            && CanRun(w, [s]) && Holds(Exec(w, [s]), k) && !CopiesBehind(Exec(w, [s]), k)
  {
    hide Inv, Do, Reachable, CanRun, Exec, Deadlines;
    w := Adopted(lease);
    var k, s := Key("t", "a"), Extend(Key("t", "a"), 1, lease);
    ReachableStep(w, s);
    OneStep(w, s);
    ReachableWorldsAreSafe(w);
    assert RenewsLease(w, s, k) && !Covers(w, s, k) by {
      assert 5 + lease in Deadlines(w.handles[0]);
    }
    HeldAfterExtending(w, s, k);
    UncoveredGetsAhead(w, s, k);
  }

  // ----- The invocation after the handshake -----

  /** Whenever the handler of the cleared slot is invoked, up to the instant
      `until` and if nobody disturbs the claim, the claim is held. */
  ghost predicate InvokedHeld(w: World, slot: nat, until: int)
    requires slot in w.handles
  {
    var k := KeyOf(w.handles[slot].snap);
    forall steps :: CanRun(w, steps) && Undisturbed(w, steps, k, until) && Enabled(Exec(w, steps), Invoke(slot)) ==>
        Holds(Exec(w, steps), k)
  }

  /** A cleared task is sure to be held when its handler is invoked up to the
      deadline in the store and not after it, whatever attempts it has left: a
      claim by somebody else, or on the last attempt a reap, may come in between.
      The late execution is of the old attempt, whose outcome the fence turns away. */
  lemma InvokedHeldIff(w: World, slot: nat, until: int)
    requires Inv(w) && slot in w.handles && w.handles[slot].stage.Cleared?
    requires Holds(w, KeyOf(w.handles[slot].snap)) && w.now <= until
    ensures InvokedHeld(w, slot, until) <==> until <= w.docs[w.handles[slot].snap.id].leasedUntil
  {
    hide Inv, CanRun, Exec, Undisturbed, Holds;
    var k := KeyOf(w.handles[slot].snap);
    HeldIsThere(w, k);
    if until <= w.docs[k.id].leasedUntil {
      LastsToItsDeadline(w, k, until);
    } else {
      var s := Displaced(w, k, until - w.now);
      DisplacedUndisturbed(w, k, until - w.now, s);
    }
  }

  /** So a worker that compared the clock with its copy right before invoking
      would be safe: as long as copies are behind, up to the copy's own deadline
      the claim is held. */
  lemma CopyIsEnough(w: World, slot: nat)
    requires Inv(w) && slot in w.handles && w.handles[slot].stage.Cleared?
    requires Holds(w, KeyOf(w.handles[slot].snap)) && CopiesBehind(w, KeyOf(w.handles[slot].snap))
    requires w.now <= w.handles[slot].snap.leasedUntil
    ensures InvokedHeld(w, slot, w.handles[slot].snap.leasedUntil)
  {
    hide Inv, InvokedHeld;
    assert w.handles[slot].snap.leasedUntil in Deadlines(w.handles[slot]);
    InvokedHeldIff(w, slot, w.handles[slot].snap.leasedUntil);
  }

  /** A batch of one, claimed at instant 0. */
  lemma FirstBatch(attempts: int, lease: int) returns (w: World)
    requires attempts >= 1
    ensures Reachable(w) && w.now == 0 && w.docs.Keys == {"t"} && "t" in w.hist && w.handles.Keys == {0}
    ensures var h := w.handles[0];
            && h == Handle(0, Pipelined, w.docs["t"], Queued) && KeyOf(h.snap) == Key("t", "a")
            && h.snap.status.Running? && h.snap.leasedUntil == lease && h.snap.attempts == 1
            && h.snap.maxAttempts == attempts
  {
    hide Reachable, CanRun, Exec;
    w := FirstCandidate(attempts, lease);
    ReachableStep(w, BatchMint(0, "a"));
    w := Do(w, BatchMint(0, "a"));
    ReachableStep(w, BatchUpdate(0, "t"));
    w := Do(w, BatchUpdate(0, "t"));
    ReachableStep(w, BatchFetch(0));
    w := Do(w, BatchFetch(0));
    ReachableStep(w, BatchRead(0, "t", 0));
    w := Do(w, BatchRead(0, "t", 0));
  }

  lemma FirstCandidate(attempts: int, lease: int) returns (w: World)
    requires attempts >= 1
    ensures Reachable(w) && w.now == 0 && w.docs == map["t" := SomeTask(attempts)] && "t" in w.hist
    ensures w.handles == map[] && "a" !in w.used
    ensures w.calls == map[0 := Call(0, ClaimOptions("", [], [], lease), 0, 1, Finding({"t"}))]
  {
    hide CanRun, Exec;
    w := Start;
    StartIsReachable();
    hide Reachable;
    ReachableStep(w, Insert(SomeTask(attempts)));
    w := Do(w, Insert(SomeTask(attempts)));
    ReachableStep(w, BatchBegin(0, 0, ClaimOptions("", [], [], lease), 0, 1));
    w := Do(w, BatchBegin(0, 0, ClaimOptions("", [], [], lease), 0, 1));
    ReachableStep(w, BatchFind(0, "t"));
    w := Do(w, BatchFind(0, "t"));
  }

  /** Its handshake, all at instant 0. */
  lemma FirstCleared(attempts: int, lease: int) returns (w: World)
    requires attempts >= 1 && lease >= 1
    ensures Reachable(w) && w.now == 0 && 0 in w.handles && w.handles[0].stage.Cleared?
    ensures KeyOf(w.handles[0].snap) == Key("t", "a") && Holds(w, Key("t", "a"))
    ensures var t := w.docs["t"]; t.leasedUntil == lease && t.attempts == 1 && t.maxAttempts == attempts
  {
    hide Reachable, CanRun, Exec;
    w := FirstBatch(attempts, lease);
    ReachableStep(w, BeginWork(0, 0));
    w := Do(w, BeginWork(0, 0));
    ReachableStep(w, Renew(0, 0, lease));
    w := Do(w, Renew(0, 0, lease));
    ReachableStep(w, Answer(0));
    w := Do(w, Answer(0));
  }

  /** And it happens, on the last attempt too. */
  lemma InvokedTooLate(attempts: int, lease: int) returns (w: World, steps: seq<Step>)
    requires attempts >= 1 && lease >= 1
    ensures Reachable(w) && 0 in w.handles && w.handles[0].stage.Cleared?
    ensures var k := KeyOf(w.handles[0].snap);
            && Holds(w, k) && w.docs[k.id].attempts == 1 && w.docs[k.id].maxAttempts == attempts
            && CanRun(w, steps) && !Holds(Exec(w, steps), k) && Enabled(Exec(w, steps), Invoke(0))
  {
    hide Inv, Reachable, CanRun, Exec;
    w := FirstCleared(attempts, lease);
    ReachableWorldsAreSafe(w);
    var s := Displaced(w, KeyOf(w.handles[0].snap), lease + 1);
    steps := [Tick(lease + 1), s];
  }
}
