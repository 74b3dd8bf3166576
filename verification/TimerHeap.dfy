/** timerLoop: a bounded min-heap of known future run_ats and one timer.

    Instants are nanoseconds.  The loop's two events are methods; between them
    the goroutine sleeps, so what `Valid` says holds whenever it sleeps.
 */
module TimerHeap {
  const IDLE := 24 * 60 * 60 * 1_000_000_000
  const MILLISECOND := 1_000_000
  const MAX_DEADLINES := 4096

  function Max(a: int, b: int): int { if a >= b then a else b }

  function Parent(i: int): int
    requires i > 0
  {
    (i - 1) / 2
  }

  ghost predicate HeapOrder(h: seq<int>) {
    forall i :: 0 < i < |h| ==> h[Parent(i)] <= h[i]
  }

  /** A heap but for the place between `j` and its parent. */
  ghost predicate HeapExceptUp(h: seq<int>, j: nat) {
    && j < |h|
    && (forall i :: 0 < i < |h| && i != j ==> h[Parent(i)] <= h[i])
    && (forall i :: 0 < i < |h| && Parent(i) == j && j > 0 ==> h[Parent(j)] <= h[i])
  }

  /** A heap but for the place between `j` and its children. */
  ghost predicate HeapExceptDown(h: seq<int>, j: nat) {
    && (forall i :: 0 < i < |h| && Parent(i) != j ==> h[Parent(i)] <= h[i])
    && (forall i :: 0 < i < |h| && Parent(i) == j && j > 0 ==> h[Parent(j)] <= h[i])
  }

  lemma {:induction false} RootIsLeast(h: seq<int>, i: nat)
    requires HeapOrder(h) && i < |h|
    ensures h[0] <= h[i]
  {
    if i > 0 {
      RootIsLeast(h, Parent(i));
    }
  }

  function Swapped(h: seq<int>, i: nat, j: nat): (r: seq<int>)
    requires i < |h| && j < |h|
    ensures |r| == |h| && multiset(r) == multiset(h)
  {
    h[i := h[j]][j := h[i]]
  }

  lemma SwapUp(h: seq<int>, j: nat)
    requires HeapExceptUp(h, j) && j > 0 && h[j] < h[Parent(j)]
    ensures HeapExceptUp(Swapped(h, Parent(j), j), Parent(j))
  {
    var r := Swapped(h, Parent(j), j);
    forall i | 0 < i < |r| && i != Parent(j) ensures r[Parent(i)] <= r[i] {
      assert i != j ==> h[Parent(i)] <= h[i];
    }
    forall i | 0 < i < |r| && Parent(i) == Parent(j) && Parent(j) > 0 ensures r[Parent(Parent(j))] <= r[i] {
      assert h[Parent(Parent(j))] <= h[Parent(j)];
      assert i != j ==> h[Parent(i)] <= h[i];
    }
  }

  /** container/heap's up. */
  method Up(h0: seq<int>, j0: nat) returns (h: seq<int>)
    requires j0 < |h0| && HeapExceptUp(h0, j0)
    ensures HeapOrder(h) && multiset(h) == multiset(h0)
  {
    hide HeapOrder, HeapExceptUp;
    h := h0;
    var j: nat := j0;
    while true
      invariant j < |h| && HeapExceptUp(h, j) && multiset(h) == multiset(h0)
      decreases j
    {
      var i := if j == 0 then 0 else (j - 1) / 2;
      if i == j || !(h[j] < h[i]) {
        UpEnds(h, j);
        return;
      }
      SwapUp(h, j);
      h := Swapped(h, i, j);
      j := i;
    }
  }

  lemma UpEnds(h: seq<int>, j: nat)
    requires HeapExceptUp(h, j) && (j > 0 ==> h[Parent(j)] <= h[j])
    ensures HeapOrder(h)
  {
  }

  lemma SwapDown(h: seq<int>, i: nat, j: nat)
    requires HeapExceptDown(h, i) && 0 < j < |h| && Parent(j) == i && h[j] < h[i]
    requires forall k :: 0 < k < |h| && Parent(k) == i ==> h[j] <= h[k]
    ensures HeapExceptDown(Swapped(h, i, j), j)
  {
    var r := Swapped(h, i, j);
    forall k | 0 < k < |r| && Parent(k) != j ensures r[Parent(k)] <= r[k] {
      assert Parent(k) != i ==> h[Parent(k)] <= h[k];
    }
    forall k | 0 < k < |r| && Parent(k) == j ensures r[Parent(j)] <= r[k] {
      assert h[Parent(k)] <= h[k];
    }
  }

  /** container/heap's down, from the root. */
  method Down(h0: seq<int>) returns (h: seq<int>)
    requires HeapExceptDown(h0, 0)
    ensures HeapOrder(h) && multiset(h) == multiset(h0)
  {
    hide HeapOrder, HeapExceptDown;
    h := h0;
    var i: nat := 0;
    while true
      invariant HeapExceptDown(h, i) && multiset(h) == multiset(h0)
      decreases |h| - i
    {
      var j1 := 2 * i + 1;
      if j1 >= |h| {
        DownEnds(h, i);
        return;
      }
      var j := j1;
      var j2 := j1 + 1;
      if j2 < |h| && h[j2] < h[j1] {
        j := j2;
      }
      if !(h[j] < h[i]) {
        DownEnds(h, i);
        return;
      }
      SwapDown(h, i, j);
      h := Swapped(h, i, j);
      i := j;
    }
  }

  lemma DownEnds(h: seq<int>, i: nat)
    requires HeapExceptDown(h, i) && forall k :: 0 < k < |h| && Parent(k) == i ==> h[i] <= h[k]
    ensures HeapOrder(h)
  {
  }

  lemma RootRemoved(h: seq<int>)
    requires HeapOrder(h) && h != []
    ensures var n := |h| - 1; var s := Swapped(h, 0, n);
            HeapExceptDown(s[..n], 0) && s[n] == h[0] && multiset(h) == multiset(s[..n]) + multiset{h[0]}
  {
    var n := |h| - 1;
    var s := Swapped(h, 0, n);
    assert s == s[..n] + [s[n]];
  }

  lemma LeafAdded(h: seq<int>, at: int)
    requires HeapOrder(h)
    ensures HeapExceptUp(h + [at], |h|) && multiset(h + [at]) == multiset(h) + multiset{at}
  {
    var more := h + [at];
    assert forall i :: 0 < i < |h| ==> more[Parent(i)] == h[Parent(i)] && more[i] == h[i];
  }

  class TimerLoop {
    var h: seq<int>
    /** When the timer will fire. */
    var armed: int
    /** The watch channel, of capacity one. */
    var nudged: bool
    ghost var rearmed: int
    ghost var accepted: multiset<int>
    ghost var popped: multiset<int>

    ghost predicate Heaped()
      reads this
    {
      HeapOrder(h) && |h| <= MAX_DEADLINES && accepted == popped + multiset(h)
    }

    ghost predicate Valid()
      reads this
    {
      && Heaped()
      && armed == if h == [] then rearmed + IDLE else Max(h[0], rearmed + MILLISECOND)
    }

    constructor (now: int)
      ensures Valid() && h == [] && accepted == multiset{} && popped == multiset{} && rearmed == now && !nudged
    {
      h, nudged, armed := [], false, now + IDLE;
      rearmed, accepted, popped := now, multiset{}, multiset{};
    }

    method Push(at: int)
      requires Heaped() && |h| < MAX_DEADLINES
      modifies `h, `accepted
      ensures Heaped() && accepted == old(accepted) + multiset{at} && multiset(h) == multiset(old(h)) + multiset{at}
    {
      hide HeapOrder, HeapExceptUp;
      LeafAdded(h, at);
      var n := |h|;
      h := h + [at];
      ghost var more := h;
      h := Up(h, n);
      SameSize(h, more);
      accepted := accepted + multiset{at};
    }

    /** Takes out the least deadline. */
    method Pop() returns (at: int)
      requires Heaped() && h != []
      modifies `h, `popped
      ensures Heaped() && popped == old(popped) + multiset{at} && multiset(old(h)) == multiset(h) + multiset{at}
      ensures at == old(h[0]) && |h| == |old(h)| - 1
    {
      hide HeapOrder, HeapExceptDown, Swapped;
      RootRemoved(h);
      var n := |h| - 1;
      var s := Swapped(h, 0, n);
      at := s[n];
      h := Down(s[..n]);
      SameSize(h, s[..n]);
      popped := popped + multiset{at};
    }

    method Rearm(now: int)
      requires Heaped()
      modifies `armed, `rearmed
      ensures Valid() && rearmed == now
    {
      rearmed := now;
      armed := if |h| == 0 then now + IDLE else now + Max(h[0] - now, MILLISECOND);
    }

    /** A deadline arrives; a full heap drops it and leaves the timer as it is. */
    method OnFuture(at: int, now: int)
      requires Valid()
      modifies this
      ensures Valid() && popped == old(popped) && nudged == old(nudged)
      ensures old(|h|) < 4096 ==> accepted == old(accepted) + multiset{at} && rearmed == now
      ensures old(|h|) < 4096 ==> multiset(h) == multiset(old(h)) + multiset{at}
      ensures old(|h|) >= 4096 ==> h == old(h) && accepted == old(accepted) && armed == old(armed)
    {
      if |h| >= MAX_DEADLINES {
        return;
      }
      Push(at);
      Rearm(now);
    }

    /** The timer fires: exactly the deadlines that are due are popped, and
        there is a nudge if there were any.  The clock is read once for the pops
        and once more, `later`, for the timer. */
    method OnTimer(now: int, later: int) returns (ghost gone: multiset<int>)
      requires Valid() && now <= later
      modifies this
      ensures Valid() && accepted == old(accepted) && rearmed == later
      ensures multiset(old(h)) == multiset(h) + gone && popped == old(popped) + gone
      ensures (forall at <- gone :: at <= now) && forall at <- h :: at > now
      ensures nudged <==> old(nudged) || gone != multiset{}
    {
      hide HeapOrder;
      var fired;
      fired, gone := PopDue(now);
      if fired {
        nudged := true;
      }
      Rearm(later);
    }

    method PopDue(now: int) returns (fired: bool, ghost gone: multiset<int>)
      requires Heaped()
      modifies `h, `popped
      ensures Heaped()
      ensures multiset(old(h)) == multiset(h) + gone && popped == old(popped) + gone
      ensures (forall at <- gone :: at <= now) && forall at <- h :: at > now
      ensures fired <==> gone != multiset{}
    {
      hide HeapOrder;
      fired, gone := false, multiset{};
      while |h| > 0 && !(h[0] > now)
        invariant Heaped()
        invariant multiset(old(h)) == multiset(h) + gone && popped == old(popped) + gone
        invariant forall at <- gone :: at <= now
        invariant fired <==> gone != multiset{}
        decreases |h|
      {
        var at := Pop();
        gone := gone + multiset{at};
        fired := true;
      }
      forall at <- h ensures at > now {
        var i :| 0 <= i < |h| && h[i] == at;
        RootIsLeast(h, i);
      }
    }

    /** The timer is never armed later than a stored deadline, or a millisecond
        after it was last set; never earlier than that millisecond; and always
        for that or for a stored deadline.  With none it is set for a day. */
    lemma ArmedInTime()
      requires Valid()
      ensures h == [] ==> armed == rearmed + 86_400_000_000_000
      ensures h != [] ==> armed >= rearmed + 1_000_000 && (armed == rearmed + 1_000_000 || armed in h)
      ensures forall at <- h :: armed <= at || armed == rearmed + 1_000_000
    {
      forall at <- h ensures h[0] <= at {
        var i :| 0 <= i < |h| && h[i] == at;
        RootIsLeast(h, i);
      }
    }
  }

  lemma SameSize(a: seq<int>, b: seq<int>)
    requires multiset(a) == multiset(b)
    ensures |a| == |b|
  {
    assert |multiset(a)| == |a| && |multiset(b)| == |b|;
  }
}
