/** The task list of the scheduler. F identifies fibers, C is the type of callbacks. */
module Tasks {

  /** The thread of a task that any thread may take. */
  const ANY: int := -1

  datatype Body<F, C> = Empty | Resume(fiber: F) | Call(code: C)

  datatype Task<F, C> = Task(body: Body<F, C>, thread: int)

  predicate Eligible<F, C>(t: Task<F, C>, me: int) {
    t.thread == ANY || t.thread == me
  }

  ghost predicate NoneEmpty<F, C>(q: seq<Task<F, C>>) {
    forall i :: 0 <= i < |q| ==> !q[i].body.Empty?
  }

  /** scheduleLock: an empty task is not queued. */
  function Submitted<F, C>(q: seq<Task<F, C>>, body: Body<F, C>, thread: int): seq<Task<F, C>> {
    if body.Empty? then q else q + [Task(body, thread)]
  }

  /** Where the scan of thread me stops; the end of the list if it finds nothing. */
  function FirstEligible<F, C>(q: seq<Task<F, C>>, me: int): (i: nat)
    ensures i <= |q|
    ensures forall j :: 0 <= j < i ==> !Eligible(q[j], me)
    ensures i < |q| ==> Eligible(q[i], me)
  {
    if q == [] || Eligible(q[0], me) then 0 else 1 + FirstEligible(q[1..], me)
  }

  lemma FirstEligibleIs<F, C>(q: seq<Task<F, C>>, me: int, k: nat)
    requires k <= |q| && (k < |q| ==> Eligible(q[k], me))
    requires forall j :: 0 <= j < k ==> !Eligible(q[j], me)
    ensures FirstEligible(q, me) == k
  {
  }

  function Without<F, C>(q: seq<Task<F, C>>, i: nat): seq<Task<F, C>>
    requires i < |q|
  {
    q[..i] + q[i + 1..]
  }

  /** The tasks pinned to thread p, or unpinned if p is ANY, in order. */
  function Lane<F, C>(q: seq<Task<F, C>>, p: int): seq<Task<F, C>> {
    if q == [] then [] else (if q[0].thread == p then [q[0]] else []) + Lane(q[1..], p)
  }

  lemma {:induction false} LaneConcat<F, C>(q: seq<Task<F, C>>, r: seq<Task<F, C>>, p: int)
    ensures Lane(q + r, p) == Lane(q, p) + Lane(r, p)
  {
    if q == [] {
      assert q + r == r;
    } else {
      var head := if q[0].thread == p then [q[0]] else [];
      assert (q + r)[0] == q[0] && (q + r)[1..] == q[1..] + r;
      assert Lane(q + r, p) == head + Lane(q[1..] + r, p);
      LaneConcat(q[1..], r, p);
    }
  }

  lemma LaneOne<F, C>(t: Task<F, C>, p: int)
    ensures Lane([t], p) == if t.thread == p then [t] else []
  {
    assert Lane([t][1..], p) == [];
  }

  lemma {:induction false} LaneNone<F, C>(q: seq<Task<F, C>>, p: int)
    requires forall j :: 0 <= j < |q| ==> q[j].thread != p
    ensures Lane(q, p) == []
  {
    if q != [] {
      LaneNone(q[1..], p);
    }
  }

  /** Whatever a thread takes is the oldest task of its lane, and no other lane changes. */
  lemma TakesOldest<F, C>(q: seq<Task<F, C>>, me: int, p: int)
    requires FirstEligible(q, me) < |q|
    ensures var i := FirstEligible(q, me);
      Lane(q, p) == (if q[i].thread == p then [q[i]] else []) + Lane(Without(q, i), p)
  {
    var i := FirstEligible(q, me);
    assert q == q[..i] + ([q[i]] + q[i + 1..]);
    LaneConcat(q[..i], [q[i]] + q[i + 1..], p);
    LaneConcat([q[i]], q[i + 1..], p);
    LaneConcat(q[..i], q[i + 1..], p);
    LaneOne(q[i], p);
    if q[i].thread == p {
      LaneNone(q[..i], p);
    }
  }

  lemma WithoutBag<F, C>(q: seq<Task<F, C>>, i: nat)
    requires i < |q|
    ensures multiset(q) == multiset(Without(q, i)) + multiset{q[i]}
  {
    assert q == q[..i] + [q[i]] + q[i + 1..];
  }

  /** A scan finds nothing exactly when no task is unpinned or pinned to the scanning thread. */
  lemma NothingFoundIff<F, C>(q: seq<Task<F, C>>, me: int)
    ensures FirstEligible(q, me) == |q| <==> Lane(q, ANY) == [] && Lane(q, me) == []
  {
    if FirstEligible(q, me) == |q| {
      LaneNone(q, ANY);
      LaneNone(q, me);
    } else {
      TakesOldest(q, me, q[FirstEligible(q, me)].thread);
    }
  }
}
