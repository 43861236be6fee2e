/** The ordered set of timers: a std::set whose comparator looks at the deadline only,
    so two timers with one deadline are the same element to it. */
module DeadlineSet {
  import opened Options

  /** The system clock counts nanoseconds. */
  const TICKS_PER_MS: int := 1_000_000

  datatype Timer<T, C> = Timer(id: T, next: int, ms: nat, recurring: bool, cb: Option<C>) {
    /** The same timer with its deadline one period after now. */
    function Armed(now: int): Timer<T, C> {
      this.(next := now + ms * TICKS_PER_MS)
    }
  }

  ghost predicate Ascending<T, C>(q: seq<Timer<T, C>>) {
    forall i, j :: 0 <= i < j < |q| ==> q[i].next < q[j].next
  }

  ghost predicate DistinctIds<T, C>(q: seq<Timer<T, C>>) {
    forall i, j :: 0 <= i < j < |q| ==> q[i].id != q[j].id
  }

  ghost predicate Holds<T, C>(q: seq<Timer<T, C>>, t: T) {
    exists i :: 0 <= i < |q| && q[i].id == t
  }

  /** Some element has this deadline. */
  ghost predicate Occupied<T, C>(q: seq<Timer<T, C>>, d: int) {
    exists x :: x in q && x.next == d
  }

  function LowerBound<T, C>(q: seq<Timer<T, C>>, d: int): (i: nat)
    ensures i <= |q|
    ensures forall j :: 0 <= j < i ==> q[j].next < d
    ensures i < |q| ==> d <= q[i].next
  {
    if q == [] || d <= q[0].next then 0 else 1 + LowerBound(q[1..], d)
  }

  lemma LowerBoundIs<T, C>(q: seq<Timer<T, C>>, d: int, k: nat)
    requires k <= |q| && (k < |q| ==> d <= q[k].next)
    requires forall j :: 0 <= j < k ==> q[j].next < d
    ensures LowerBound(q, d) == k
  {
  }

  lemma SameBound<T, C>(q: seq<Timer<T, C>>, q': seq<Timer<T, C>>, d: int)
    requires |q| == |q'| && forall i :: 0 <= i < |q| ==> q[i].next == q'[i].next
    ensures LowerBound(q, d) == LowerBound(q', d) && Found(q, d) == Found(q', d)
  {
    LowerBoundIs(q', d, LowerBound(q, d));
  }

  /** find(): is there an element the comparator cannot tell from deadline d? */
  predicate Found<T, C>(q: seq<Timer<T, C>>, d: int) {
    var i := LowerBound(q, d);
    i < |q| && q[i].next == d
  }

  /** insert(): keeps the set as it is when the deadline is taken. */
  function Insert<T, C>(q: seq<Timer<T, C>>, e: Timer<T, C>): seq<Timer<T, C>> {
    var i := LowerBound(q, e.next);
    if Found(q, e.next) then q else q[..i] + [e] + q[i..]
  }

  /** erase(find()): takes out whatever element has deadline d. */
  function Erase<T, C>(q: seq<Timer<T, C>>, d: int): seq<Timer<T, C>> {
    var i := LowerBound(q, d);
    if Found(q, d) then q[..i] + q[i + 1..] else q
  }

  lemma FoundIffOccupied<T, C>(q: seq<Timer<T, C>>, d: int)
    requires Ascending(q)
    ensures Found(q, d) <==> Occupied(q, d)
  {
    var i := LowerBound(q, d);
    if Found(q, d) {
      assert q[i] in q;
    }
  }

  /** The comparator makes deadlines unique: an element is found at its own deadline. */
  lemma FoundItself<T, C>(q: seq<Timer<T, C>>, i: nat)
    requires Ascending(q) && i < |q|
    ensures Found(q, q[i].next) && LowerBound(q, q[i].next) == i
  {
    assert q[i] in q;
    FoundIffOccupied(q, q[i].next);
  }

  lemma InsertAscends<T, C>(q: seq<Timer<T, C>>, e: Timer<T, C>)
    requires Ascending(q)
    ensures Ascending(Insert(q, e))
  {
    var i := LowerBound(q, e.next);
    if !Found(q, e.next) {
      var r := Insert(q, e);
      assert forall j :: i <= j < |q| ==> e.next < q[j].next;
      forall j, k | 0 <= j < k < |r| ensures r[j].next < r[k].next {
        assert r[j] == if j < i then q[j] else if j == i then e else q[j - 1];
        assert r[k] == if k < i then q[k] else if k == i then e else q[k - 1];
      }
    }
  }

  lemma InsertMembers<T, C>(q: seq<Timer<T, C>>, e: Timer<T, C>)
    requires Ascending(q)
    ensures !Occupied(q, e.next) ==> forall x :: x in Insert(q, e) <==> x in q || x == e
    ensures Occupied(q, e.next) ==> Insert(q, e) == q
  {
    FoundIffOccupied(q, e.next);
    var i := LowerBound(q, e.next);
    assert q == q[..i] + q[i..];
  }

  lemma InsertDistinct<T, C>(q: seq<Timer<T, C>>, e: Timer<T, C>)
    requires DistinctIds(q) && !Holds(q, e.id)
    ensures DistinctIds(Insert(q, e))
  {
    var i := LowerBound(q, e.next);
    if !Found(q, e.next) {
      var r := Insert(q, e);
      forall j, k | 0 <= j < k < |r| ensures r[j].id != r[k].id {
        assert r[j] == if j < i then q[j] else if j == i then e else q[j - 1];
        assert r[k] == if k < i then q[k] else if k == i then e else q[k - 1];
      }
    }
  }

  lemma EraseWorks<T, C>(q: seq<Timer<T, C>>, d: int)
    requires Ascending(q)
    ensures Ascending(Erase(q, d))
    ensures DistinctIds(q) ==> DistinctIds(Erase(q, d))
  {
    var i := LowerBound(q, d);
    if Found(q, d) {
      var r := Erase(q, d);
      forall j, k | 0 <= j < k < |r|
        ensures r[j].next < r[k].next && (DistinctIds(q) ==> r[j].id != r[k].id)
      {
        assert r[j] == if j < i then q[j] else q[j + 1];
        assert r[k] == if k < i then q[k] else q[k + 1];
      }
    }
  }

  lemma EraseMembers<T, C>(q: seq<Timer<T, C>>, d: int)
    requires Ascending(q)
    ensures forall x :: x in Erase(q, d) <==> x in q && x.next != d
  {
    FoundIffOccupied(q, d);
    var i := LowerBound(q, d);
    if Found(q, d) {
      assert q == q[..i] + [q[i]] + q[i + 1..];
      assert forall j :: i < j < |q| ==> d < q[j].next;
    }
  }
}
