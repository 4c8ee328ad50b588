/** Reference-counted resource leases: crates/common/src/lease.rs. */
module Leases {
  import opened Wrappers

  /** One shared permit of a budget. It is live while its count is positive, and then
   *  it keeps its parent alive. */
  datatype Lease = Lease(parent: Option<nat>, budget: nat, count: nat)

  function Total<T>(s: seq<T>, weight: T -> nat): nat {
    if s == [] then 0 else Total(s[..|s| - 1], weight) + weight(s[|s| - 1])
  }

  /** How much one live child of `i` keeps of it. */
  function ChildOf(i: nat): Lease -> nat {
    (l: Lease) => if l.count > 0 && l.parent == Some(i) then 1 else 0
  }

  function Uses(budget: nat): Lease -> nat {
    (l: Lease) => if l.count > 0 && l.budget == budget then 1 else 0
  }

  predicate WellFormed(ls: seq<Lease>, free: seq<nat>) {
    forall i :: 0 <= i < |ls| ==>
      ls[i].budget < |free| && (ls[i].parent.Some? ==> ls[i].parent.value < i)
  }

  /** Every lease is counted once for each handle, and once for each live child. */
  ghost predicate Counted(ls: seq<Lease>, handles: seq<nat>) {
    && |handles| == |ls|
    && forall i: nat :: i < |ls| ==> ls[i].count == handles[i] + Total(ls, ChildOf(i))
  }

  /** Free and used permits of every budget add up to its capacity. */
  ghost predicate Budgeted(ls: seq<Lease>, free: seq<nat>, capacity: seq<nat>) {
    && |free| == |capacity|
    && forall b: nat :: b < |free| ==> free[b] + Total(ls, Uses(b)) == capacity[b]
  }

  /** Drops one handle. The last one returns the permit and then drops the parent's
   *  handle. */
  function Release(ls: seq<Lease>, free: seq<nat>, i: nat): (r: (seq<Lease>, seq<nat>))
    requires WellFormed(ls, free) && i < |ls| && ls[i].count > 0
    ensures |r.0| == |ls| && |r.1| == |free| && WellFormed(r.0, r.1)
    decreases i
  {
    var after := ls[i := ls[i].(count := ls[i].count - 1)];
    if ls[i].count > 1 then (after, free)
    else
      var back := free[ls[i].budget := free[ls[i].budget] + 1];
      if ls[i].parent.None? || after[ls[i].parent.value].count == 0 then (after, back)
      else Release(after, back, ls[i].parent.value)
  }

  /** A new lease, whose parent is the current one. */
  function Acquire(ls: seq<Lease>, free: seq<nat>, budget: nat, parent: Option<nat>): (r: (seq<Lease>, seq<nat>))
    requires WellFormed(ls, free) && budget < |free| && free[budget] > 0
    requires parent.Some? ==> parent.value < |ls|
    ensures |r.0| == |ls| + 1 && |r.1| == |free| && WellFormed(r.0, r.1)
  {
    var shared := if parent.Some? then Share(ls, parent.value) else ls;
    (shared + [Lease(parent, budget, 1)], free[budget := free[budget] - 1])
  }

  /** Clones a handle. */
  function Share(ls: seq<Lease>, i: nat): (r: seq<Lease>)
    requires i < |ls|
    ensures |r| == |ls|
  {
    ls[i := ls[i].(count := ls[i].count + 1)]
  }

  // ----- sums -----

  lemma {:induction false} TotalUpdate<T>(s: seq<T>, weight: T -> nat, i: nat, x: T)
    requires i < |s|
    ensures Total(s[i := x], weight) + weight(s[i]) == Total(s, weight) + weight(x)
  {
    var n := |s| - 1;
    var t := s[i := x];
    if i == n {
      assert t[..n] == s[..n];
    } else {
      assert t[..n] == s[..n][i := x];
      TotalUpdate(s[..n], weight, i, x);
    }
  }

  lemma TotalAppend<T>(s: seq<T>, weight: T -> nat, x: T)
    ensures Total(s + [x], weight) == Total(s, weight) + weight(x)
  {
    assert (s + [x])[..|s|] == s;
  }

  lemma {:induction false} TotalAtLeast<T>(s: seq<T>, weight: T -> nat, i: nat)
    requires i < |s|
    ensures Total(s, weight) >= weight(s[i])
  {
    if i < |s| - 1 {
      TotalAtLeast(s[..|s| - 1], weight, i);
    }
  }

  lemma {:induction false} TotalZero<T>(s: seq<T>, weight: T -> nat)
    requires forall i :: 0 <= i < |s| ==> weight(s[i]) == 0
    ensures Total(s, weight) == 0
  {
    if s != [] {
      TotalZero(s[..|s| - 1], weight);
    }
  }

  // ----- what every operation keeps -----

  /** A count that is one too high at `i`: a handle on it has just been dropped. */
  ghost predicate OneTooHigh(ls: seq<Lease>, handles: seq<nat>, i: nat) {
    && |handles| == |ls| && i < |ls|
    && forall k: nat :: k < |ls| ==>
         ls[k].count == handles[k] + Total(ls, ChildOf(k)) + if k == i then 1 else 0
  }

  /** Lowering a count that stays positive moves no child. */
  lemma LowerKeepsChildren(ls: seq<Lease>, i: nat, k: nat)
    requires i < |ls| && ls[i].count > 1
    ensures Total(ls[i := ls[i].(count := ls[i].count - 1)], ChildOf(k)) == Total(ls, ChildOf(k))
  {
    TotalUpdate(ls, ChildOf(k), i, ls[i].(count := ls[i].count - 1));
  }

  lemma LowerKeepsUses(ls: seq<Lease>, i: nat, b: nat)
    requires i < |ls| && ls[i].count > 0
    ensures Total(ls[i := ls[i].(count := ls[i].count - 1)], Uses(b))
          + (if ls[i].count == 1 && ls[i].budget == b then 1 else 0) == Total(ls, Uses(b))
  {
    TotalUpdate(ls, Uses(b), i, ls[i].(count := ls[i].count - 1));
  }

  /** The last handle takes the lease off its parent's count. */
  lemma FreeKeepsChildren(ls: seq<Lease>, i: nat, k: nat)
    requires i < |ls| && ls[i].count == 1
    ensures Total(ls[i := ls[i].(count := 0)], ChildOf(k))
          + (if ls[i].parent == Some(k) then 1 else 0) == Total(ls, ChildOf(k))
  {
    TotalUpdate(ls, ChildOf(k), i, ls[i].(count := 0));
  }

  /** Dropping a handle keeps the books: every lease that loses its last owner returns
   *  its permit exactly once, and so on up the chain of parents. */
  lemma {:induction false} ReleaseKeeps(ls: seq<Lease>, free: seq<nat>, capacity: seq<nat>, handles: seq<nat>, i: nat)
    requires WellFormed(ls, free) && OneTooHigh(ls, handles, i) && Budgeted(ls, free, capacity)
    ensures ls[i].count > 0
    ensures Counted(Release(ls, free, i).0, handles)
    ensures Budgeted(Release(ls, free, i).0, Release(ls, free, i).1, capacity)
    decreases i
  {
    var after := ls[i := ls[i].(count := ls[i].count - 1)];
    forall b: nat | b < |free|
      ensures Total(after, Uses(b)) + (if ls[i].count == 1 && ls[i].budget == b then 1 else 0) == Total(ls, Uses(b))
    {
      LowerKeepsUses(ls, i, b);
    }
    if ls[i].count > 1 {
      forall k: nat | k < |ls| ensures Total(after, ChildOf(k)) == Total(ls, ChildOf(k)) {
        LowerKeepsChildren(ls, i, k);
      }
    } else {
      forall k: nat | k < |ls|
        ensures Total(after, ChildOf(k)) + (if ls[i].parent == Some(k) then 1 else 0) == Total(ls, ChildOf(k))
      {
        FreeKeepsChildren(ls, i, k);
      }
      var back := free[ls[i].budget := free[ls[i].budget] + 1];
      assert Budgeted(after, back, capacity);
      if ls[i].parent.Some? {
        ReleaseKeeps(after, back, capacity, handles, ls[i].parent.value);
      }
    }
  }

  lemma ShareKeeps(ls: seq<Lease>, free: seq<nat>, capacity: seq<nat>, handles: seq<nat>, i: nat)
    requires WellFormed(ls, free) && Counted(ls, handles) && Budgeted(ls, free, capacity)
    requires i < |ls| && ls[i].count > 0
    ensures Counted(Share(ls, i), handles[i := handles[i] + 1]) && Budgeted(Share(ls, i), free, capacity)
  {
    var x := ls[i].(count := ls[i].count + 1);
    forall k: nat ensures Total(Share(ls, i), ChildOf(k)) == Total(ls, ChildOf(k)) {
      TotalUpdate(ls, ChildOf(k), i, x);
    }
    forall b: nat ensures Total(Share(ls, i), Uses(b)) == Total(ls, Uses(b)) {
      TotalUpdate(ls, Uses(b), i, x);
    }
  }

  lemma NoFutureChildren(ls: seq<Lease>, free: seq<nat>, k: nat)
    requires WellFormed(ls, free) && k >= |ls|
    ensures Total(ls, ChildOf(k)) == 0
  {
    TotalZero(ls, ChildOf(k));
  }

  lemma AcquireKeeps(ls: seq<Lease>, free: seq<nat>, capacity: seq<nat>, handles: seq<nat>,
                     budget: nat, parent: Option<nat>)
    requires WellFormed(ls, free) && Counted(ls, handles) && Budgeted(ls, free, capacity)
    requires budget < |free| && free[budget] > 0
    requires parent.Some? ==> parent.value < |ls| && ls[parent.value].count > 0
    ensures Counted(Acquire(ls, free, budget, parent).0, handles + [1])
    ensures Budgeted(Acquire(ls, free, budget, parent).0, Acquire(ls, free, budget, parent).1, capacity)
  {
    var shared := if parent.Some? then Share(ls, parent.value) else ls;
    var added := Lease(parent, budget, 1);
    var after := shared + [added];
    if parent.Some? { ShareKeeps(ls, free, capacity, handles, parent.value); }
    forall k: nat | k < |after| ensures after[k].count == (handles + [1])[k] + Total(after, ChildOf(k)) {
      TotalAppend(shared, ChildOf(k), added);
      if k == |shared| { NoFutureChildren(shared, free, k); }
    }
    forall b: nat | b < |free|
      ensures Acquire(ls, free, budget, parent).1[b] + Total(after, Uses(b)) == capacity[b]
    {
      TotalAppend(shared, Uses(b), added);
    }
  }

  /** `a` is `i` or an enclosing lease of it. */
  ghost predicate Encloses(ls: seq<Lease>, free: seq<nat>, a: nat, i: nat)
    requires WellFormed(ls, free) && i < |ls|
    decreases i
  {
    a == i || (ls[i].parent.Some? && Encloses(ls, free, a, ls[i].parent.value))
  }

  /** A live lease keeps all its enclosing leases live, and so their permits taken. */
  lemma {:induction false} EnclosingAreLive(ls: seq<Lease>, free: seq<nat>, handles: seq<nat>, a: nat, i: nat)
    requires WellFormed(ls, free) && Counted(ls, handles) && i < |ls| && ls[i].count > 0
    requires Encloses(ls, free, a, i)
    ensures a <= i && ls[a].count > 0
    decreases i
  {
    if a != i {
      var p := ls[i].parent.value;
      TotalAtLeast(ls, ChildOf(p), i);
      EnclosingAreLive(ls, free, handles, a, p);
    }
  }

  /** No budget ever has more free permits than its capacity. */
  lemma FreeWithinCapacity(ls: seq<Lease>, free: seq<nat>, capacity: seq<nat>, b: nat)
    requires Budgeted(ls, free, capacity) && b < |free|
    ensures free[b] <= capacity[b] && (free[b] == capacity[b] <==> forall i :: 0 <= i < |ls| ==> Uses(b)(ls[i]) == 0)
  {
    if free[b] == capacity[b] {
      forall i | 0 <= i < |ls| ensures Uses(b)(ls[i]) == 0 {
        TotalAtLeast(ls, Uses(b), i);
      }
    } else if forall i :: 0 <= i < |ls| ==> Uses(b)(ls[i]) == 0 {
      TotalZero(ls, Uses(b));
    }
  }

  /** Dropping a handle never takes a permit, so a budget that refuses reservations only
   *  gets permits back. */
  lemma {:induction false} ReleaseOnlyReturns(ls: seq<Lease>, free: seq<nat>, i: nat, b: nat)
    requires WellFormed(ls, free) && i < |ls| && ls[i].count > 0 && b < |free|
    ensures free[b] <= Release(ls, free, i).1[b]
    decreases i
  {
    if ls[i].count == 1 && ls[i].parent.Some? {
      var after := ls[i := ls[i].(count := 0)];
      var back := free[ls[i].budget := free[ls[i].budget] + 1];
      if after[ls[i].parent.value].count > 0 {
        ReleaseOnlyReturns(after, back, ls[i].parent.value, b);
      }
    }
  }

  /** How a poll of a reservation ends. */
  datatype Reservation = Granted(lease: nat) | Waits | Refused

  /** The shared owners as the source updates them. */
  class LeaseBook {
    var leases: seq<Lease>
    var free: seq<nat>
    var closed: set<nat>

    constructor (capacity: seq<nat>)
      ensures leases == [] && free == capacity && closed == {} && Valid()
    {
      leases, free, closed := [], capacity, {};
    }

    predicate Valid()
      reads this
    {
      WellFormed(leases, free)
    }

    predicate Live(i: nat)
      reads this
    {
      i < |leases| && leases[i].count > 0
    }

    /** A reservation fails on a closed budget, even on one with free permits, and waits
     *  while an open one has none. */
    method Reserve(budget: nat, parent: Option<nat>) returns (r: Reservation)
      requires Valid() && budget < |free| && (parent.Some? ==> Live(parent.value))
      modifies this`leases, this`free
      ensures Valid()
      ensures r.Refused? <==> budget in closed
      ensures r.Waits? <==> budget !in closed && old(free[budget]) == 0
      ensures !r.Granted? ==> leases == old(leases) && free == old(free)
      ensures r.Granted? ==>
                && r.lease == |old(leases)|
                && (leases, free) == Acquire(old(leases), old(free), budget, parent)
    {
      if budget in closed {
        return Refused;
      }
      if free[budget] == 0 {
        return Waits;
      }
      free := free[budget := free[budget] - 1];
      if parent.Some? {
        var p := parent.value;
        leases := leases[p := leases[p].(count := leases[p].count + 1)];
      }
      r := Granted(|leases|);
      leases := leases + [Lease(parent, budget, 1)];
    }

    /** Closes a budget: leases that were granted live on. */
    method Close(budget: nat)
      requires Valid() && budget < |free|
      modifies this`closed
      ensures Valid() && closed == old(closed) + {budget}
    {
      closed := closed + {budget};
    }

    method Clone(i: nat)
      requires Valid() && Live(i)
      modifies this`leases
      ensures Valid() && leases == Share(old(leases), i)
    {
      leases := leases[i := leases[i].(count := leases[i].count + 1)];
    }

    /** Dropping the last handle drops the shared permit, and with it the parent handle. */
    method Drop(i: nat)
      requires Valid() && Live(i)
      modifies this`leases, this`free
      ensures Valid() && (leases, free) == Release(old(leases), old(free), i)
      decreases i
    {
      var l := leases[i];
      leases := leases[i := l.(count := l.count - 1)];
      if l.count == 1 {
        free := free[l.budget := free[l.budget] + 1];
        if l.parent.Some? && leases[l.parent.value].count > 0 {
          Drop(l.parent.value);
        }
      }
    }
  }
}
