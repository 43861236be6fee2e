/** Laws of the timer manager over single calls and over whole runs of calls. */
module TimerLaws {
  import opened Options
  import opened DeadlineSet
  import opened TimerModel
  import Drain

  // ----- Looking timers up -----

  lemma IdsAreKeys<T, C>(m: Manager<T, C>, x: Timer<T, C>, y: Timer<T, C>)
    requires Valid(m) && x in m.queue && y in m.queue && (x.id == y.id || x.next == y.next)
    ensures x == y
  {
    var i :| 0 <= i < |m.queue| && m.queue[i] == x;
    var j :| 0 <= j < |m.queue| && m.queue[j] == y;
  }

  lemma LookupIs<T, C>(m: Manager<T, C>, t: T)
    requires Valid(m) && Known(m, t)
    ensures var e := Lookup(m, t);
      && e.id == t
      && (Holds(m.queue, t) <==> e in m.queue)
      && (!Holds(m.queue, t) ==> t in m.others && e == m.others[t])
    ensures forall x :: x in m.queue && x.id == t ==> Lookup(m, t) == x
  {
    var i := IndexOf(m.queue, t);
    if i < |m.queue| {
      assert m.queue[i] in m.queue;
      forall x | x in m.queue && x.id == t ensures x == m.queue[i] {
        IdsAreKeys(m, x, m.queue[i]);
      }
    }
  }

  // ----- Taking out and putting in -----

  lemma NotHeld<T, C>(q: seq<Timer<T, C>>, t: T)
    requires forall x :: x in q ==> x.id != t
    ensures !Holds(q, t)
  {
  }

  lemma DetachWorks<T, C>(m: Manager<T, C>, d: int)
    requires Valid(m)
    ensures var m' := DetachAt(m, d);
      && Valid(m')
      && (forall x :: x in m'.queue <==> x in m.queue && x.next != d)
      && (forall x :: x in m.queue && x.next == d ==> x.id in m'.others && m'.others[x.id] == x)
      && (forall t :: t in m.others ==> t in m'.others && m'.others[t] == m.others[t])
      && (forall t :: t in m'.others && t !in m.others ==> m'.others[t] in m.queue && m'.others[t].next == d)
      && m'.tickled == m.tickled && m'.previous == m.previous
  {
    EraseWorks(m.queue, d);
    EraseMembers(m.queue, d);
    FoundIffOccupied(m.queue, d);
    if Found(m.queue, d) {
      var y := m.queue[LowerBound(m.queue, d)];
      assert y in m.queue;
      forall x | x in m.queue && (x.next == d || x.id == y.id) ensures x == y {
        IdsAreKeys(m, x, y);
      }
    }
  }

  lemma AttachWorks<T, C>(m: Manager<T, C>, e: Timer<T, C>)
    requires Valid(m) && !Holds(m.queue, e.id)
    ensures var m' := Attach(m, e);
      && Valid(m')
      && (forall x :: x in m'.queue <==> x in m.queue || (x == e && !Occupied(m.queue, e.next)))
      && (forall t :: t in m'.others <==> if t == e.id then Occupied(m.queue, e.next) else t in m.others)
      && (forall t :: t in m'.others ==> m'.others[t] == if t == e.id then e else m.others[t])
      && m'.tickled == m.tickled && m'.previous == m.previous
  {
    InsertAscends(m.queue, e);
    InsertMembers(m.queue, e);
    InsertDistinct(m.queue, e);
    FoundIffOccupied(m.queue, e.next);
    forall x | x in m.queue ensures x.id != e.id {
      var i :| 0 <= i < |m.queue| && m.queue[i] == x;
    }
  }

  lemma StepIds<T, C>(s: Drain.State<T, C>, now: int)
    requires s.queue != [] && DistinctIds(s.queue + s.gone)
    ensures var s' := Drain.Step(s, now);
      && DistinctIds(s'.queue + s'.gone)
      && forall t :: Holds(s'.queue + s'.gone, t) <==> Holds(s.queue + s.gone, t)
  {
    var s', e := Drain.Step(s, now), s.queue[0].Armed(now);
    var a, b := s.queue + s.gone, s'.queue + s'.gone;
    var i, n := LowerBound(s.queue[1..], e.next), |s.queue|;
    // The head moves from the front of a to position k of b.
    var k := if s.queue[0].recurring && !Found(s.queue[1..], e.next) then i else |b| - 1;
    assert |b| == |a|;
    assert forall j :: 0 <= j < |b| ==> b[j].id == a[Origin(k, j)].id;
    ReorderedIds(a, b, k);
  }

  /** Where the element at position j comes from when the first one moves to position k. */
  function Origin(k: nat, j: nat): nat {
    if j < k then j + 1 else if j == k then 0 else j
  }

  /** Moving the first id to position k changes neither their distinctness nor which there are. */
  lemma ReorderedIds<T, C>(a: seq<Timer<T, C>>, b: seq<Timer<T, C>>, k: nat)
    requires |a| == |b| && k < |b|
    requires forall j :: 0 <= j < |b| ==> b[j].id == a[Origin(k, j)].id
    requires DistinctIds(a)
    ensures DistinctIds(b)
    ensures forall t :: Holds(b, t) <==> Holds(a, t)
  {
    forall i, j | 0 <= i < j < |b| ensures b[i].id != b[j].id {
      assert Origin(k, i) != Origin(k, j);
    }
    forall t ensures Holds(b, t) <==> Holds(a, t) {
      if j :| 0 <= j < |a| && a[j].id == t {
        var i := if j == 0 then k else if j <= k then j - 1 else j;
        assert Origin(k, i) == j && b[i].id == t;
      }
      if j :| 0 <= j < |b| && b[j].id == t {
        assert a[Origin(k, j)].id == t;
      }
    }
  }

  lemma {:induction false} RunIds<T, C>(s: Drain.State<T, C>, now: int, rollover: bool)
    requires Ascending(s.queue) && Drain.TrapFree(s.queue, now, rollover) && DistinctIds(s.queue + s.gone)
    ensures var r := Drain.Run(s, now, rollover);
      && DistinctIds(r.queue + r.gone)
      && forall t :: Holds(r.queue + r.gone, t) <==> Holds(s.queue + s.gone, t)
    decreases Drain.Due(s.queue, now, rollover)
  {
    if Drain.More(s.queue, now, rollover) {
      Drain.TurnConsumes(s.queue, now, rollover);
      StepIds(s, now);
      RunIds(Drain.Step(s, now), now, rollover);
    }
  }

  lemma {:induction false} AbsorbWorks<T, C>(others: map<T, Timer<T, C>>, gone: seq<Timer<T, C>>)
    requires DistinctIds(gone)
    ensures forall g :: g in gone ==> g.id in Absorb(others, gone) && Absorb(others, gone)[g.id] == g
    ensures forall t :: !Holds(gone, t) ==>
      (t in Absorb(others, gone) <==> t in others) && (t in others ==> Absorb(others, gone)[t] == others[t])
    decreases gone
  {
    if gone != [] {
      AbsorbWorks(others[gone[0].id := gone[0]], gone[1..]);
      forall t | Holds(gone[1..], t) ensures Holds(gone, t) && t != gone[0].id {
        var i :| 0 <= i < |gone[1..]| && gone[1..][i].id == t;
        assert gone[i + 1].id == t;
      }
      assert gone == [gone[0]] + gone[1..];
    }
  }

  lemma CollectWorks<T, C>(m: Manager<T, C>, now: int, checked: int)
    requires Valid(m) && Drain.TrapFree(m.queue, now, RolledOver(m, checked))
    ensures var m', roll := Collect(m, now, checked).m, RolledOver(m, checked);
      && Valid(m') && m'.tickled == m.tickled
      && (forall y :: y in m'.queue <==> Drain.Stays(m.queue, y, now, roll))
      && (forall y :: Drain.Leaves(m.queue, y, now, roll) ==> y.id in m'.others && m'.others[y.id] == y)
      && (forall t :: t in m.others ==> t in m'.others && m'.others[t] == m.others[t])
      && (forall t :: t in m'.others && t !in m.others ==> Drain.Leaves(m.queue, m'.others[t], now, roll))
  {
    var roll := RolledOver(m, checked);
    var s := Drain.State(m.queue, [], []);
    var r := Drain.Run(s, now, roll);
    assert s.queue + s.gone == m.queue;
    RunIds(s, now, roll);
    DistinctParts(r.queue, r.gone);
    assert Ascending(r.queue) by { Drain.FiresTheDue(s, now, roll); }
    forall t | Holds(r.gone, t) || Holds(r.queue, t) ensures t !in m.others {
      HoldsEither(r.queue, r.gone, t);
      var i :| 0 <= i < |m.queue| && m.queue[i].id == t;
      assert m.queue[i] in m.queue;
    }
    AbsorbedApart(m, r.queue, r.gone);
    forall y
      ensures y in r.queue <==> Drain.Stays(m.queue, y, now, roll)
      ensures y in r.gone <==> Drain.Leaves(m.queue, y, now, roll)
    {
      Drain.Fates(s, y, now, roll);
    }
    var o := Absorb(m.others, r.gone);
    assert forall t :: t in o && t !in m.others ==> o[t] in r.gone;
  }

  lemma AbsorbedApart<T, C>(m: Manager<T, C>, q: seq<Timer<T, C>>, gone: seq<Timer<T, C>>)
    requires DistinctIds(gone) && forall t :: t in m.others ==> m.others[t].id == t
    requires forall t :: Holds(gone, t) ==> !Holds(q, t)
    requires forall t :: Holds(gone, t) || Holds(q, t) ==> t !in m.others
    ensures var o := Absorb(m.others, gone);
      && (forall x :: x in q ==> x.id !in o)
      && (forall t :: t in o ==> o[t].id == t)
      && (forall g :: g in gone ==> g.id in o && o[g.id] == g)
      && (forall t :: t in m.others ==> t in o && o[t] == m.others[t])
      && (forall t :: t in o && t !in m.others ==> o[t] in gone)
  {
    var o := Absorb(m.others, gone);
    AbsorbWorks(m.others, gone);
    forall t | t in o && t !in m.others ensures o[t] in gone && o[t].id == t {
      assert Holds(gone, t);
      var i :| 0 <= i < |gone| && gone[i].id == t;
      assert gone[i] in gone;
    }
    forall x | x in q ensures x.id !in o {
      var i :| 0 <= i < |q| && q[i] == x;
      assert Holds(q, x.id);
    }
  }

  lemma HoldsEither<T, C>(a: seq<Timer<T, C>>, b: seq<Timer<T, C>>, t: T)
    ensures Holds(a + b, t) <==> Holds(a, t) || Holds(b, t)
  {
    if i :| 0 <= i < |a| && a[i].id == t {
      assert (a + b)[i].id == t;
    }
    if i :| 0 <= i < |b| && b[i].id == t {
      assert (a + b)[|a| + i].id == t;
    }
  }

  lemma DistinctParts<T, C>(a: seq<Timer<T, C>>, b: seq<Timer<T, C>>)
    requires DistinctIds(a + b)
    ensures DistinctIds(a) && DistinctIds(b)
    ensures forall t :: Holds(b, t) ==> !Holds(a, t)
  {
    forall i, j | 0 <= i < j < |a| ensures a[i].id != a[j].id {
      assert (a + b)[i] == a[i] && (a + b)[j] == a[j];
    }
    forall i, j | 0 <= i < j < |b| ensures b[i].id != b[j].id {
      assert (a + b)[|a| + i] == b[i] && (a + b)[|a| + j] == b[j];
    }
    forall i, j | 0 <= i < |a| && 0 <= j < |b| ensures a[i].id != b[j].id {
      assert (a + b)[i] == a[i] && (a + b)[|a| + j] == b[j];
    }
  }

  lemma HeldMember<T, C>(q: seq<Timer<T, C>>, t: T)
    ensures Holds(q, t) <==> exists x :: x in q && x.id == t
  {
    if x :| x in q && x.id == t {
      var i :| 0 <= i < |q| && q[i] == x;
    }
    if i :| 0 <= i < |q| && q[i].id == t {
      assert q[i] in q;
    }
  }

  /** After the call, the timer t has value e, and every other timer has the value it had. */
  ghost predicate Changes<T, C>(m: Manager<T, C>, m': Manager<T, C>, e: Timer<T, C>, inSet: bool) {
    && Valid(m')
    && (forall x :: x in m'.queue ==> x in m.queue || (x == e && inSet))
    && (forall u :: u in m'.others ==>
          (u == e.id && m'.others[u] == e) || (u in m.others && m'.others[u] == m.others[u]) || m'.others[u] in m.queue)
    && (forall u :: u in m.others && u != e.id ==> u in m'.others && m'.others[u] == m.others[u])
    && Known(m', e.id) && Lookup(m', e.id) == e
  }

  lemma AttachChanges<T, C>(m: Manager<T, C>, e: Timer<T, C>)
    requires Valid(m) && !Holds(m.queue, e.id)
    ensures Changes(m, Attach(m, e), e, true)
  {
    AttachWorks(m, e);
    HeldMember(Attach(m, e).queue, e.id);
    HeldMember(m.queue, e.id);
    LookupIs(Attach(m, e), e.id);
  }

  /** After find and erase at its own deadline, a timer is not in the set. */
  lemma DetachedOwn<T, C>(m: Manager<T, C>, t: T)
    requires Valid(m) && Known(m, t)
    ensures var m1 := DetachAt(m, Lookup(m, t).next); Valid(m1) && !Holds(m1.queue, t)
  {
    LookupIs(m, t);
    DetachWorks(m, Lookup(m, t).next);
    HeldMember(DetachAt(m, Lookup(m, t).next).queue, t);
  }

  lemma MoveChanges<T, C>(m: Manager<T, C>, t: T, e: Timer<T, C>)
    requires Valid(m) && Known(m, t) && e.id == t
    ensures Changes(m, Attach(DetachAt(m, Lookup(m, t).next), e), e, true)
  {
    var m1 := DetachAt(m, Lookup(m, t).next);
    DetachedOwn(m, t);
    AttachChanges(m1, e);
    DetachWorks(m, Lookup(m, t).next);
    ChangesAfter(m, m1, Attach(m1, e), e);
  }

  lemma ChangesAfter<T, C>(m: Manager<T, C>, m1: Manager<T, C>, m2: Manager<T, C>, e: Timer<T, C>)
    requires Changes(m1, m2, e, true) && forall x :: x in m1.queue ==> x in m.queue
    requires forall u :: u in m.others ==> u in m1.others && m1.others[u] == m.others[u]
    requires forall u :: u in m1.others && u !in m.others ==> m1.others[u] in m.queue
    ensures Changes(m, m2, e, true)
  {
  }

  lemma CancelChanges<T, C>(m: Manager<T, C>, t: T)
    requires Valid(m) && Known(m, t) && Cancel(m, t).ok
    ensures Changes(m, Cancel(m, t).m, Lookup(m, t).(cb := None), false)
  {
    LookupIs(m, t);
    DetachedOwn(m, t);
    DetachWorks(m, Lookup(m, t).next);
    var m' := Cancel(m, t).m;
    HeldMember(m'.queue, t);
    LookupIs(m', t);
  }

  // ----- The set against a plain collection of timers -----

  ghost function Elems<T, C>(m: Manager<T, C>): set<Timer<T, C>> {
    set x | x in m.queue
  }

  /** Every timer that still has its callback is in the set, and the others are not: nothing has
      been lost. */
  ghost predicate Sound<T, C>(m: Manager<T, C>) {
    && Valid(m)
    && (forall x :: x in m.queue ==> x.cb.Some?)
    && (forall t :: t in m.others ==> m.others[t].cb.None?)
  }

  /** What a call does to a collection of timers that may share deadlines. */
  ghost function Plain<T, C>(s: set<Timer<T, C>>, op: Op<T, C>, now: int, rollover: bool): set<Timer<T, C>> {
    match op
    case Create(t, made, ms, code, recurring) => s + {Fresh(t, made, ms, code, recurring)}
    case Cancelling(t) => set x | x in s && x.id != t
    case Refreshing(t) => set x | x in s :: if x.id == t then x.Armed(now) else x
    case Resetting(t, ms, fromNow) => set x | x in s :: if x.id == t then Restarted(x, ms, fromNow, now) else x
    case Peeking => s
    case Collecting(read, checked) =>
      set x | x in s && (x.recurring || !Drain.Reached(x.next, read, rollover)) ::
        if Drain.Reached(x.next, read, rollover) then x.Armed(read) else x
  }

  /** No timer but t has deadline d. */
  ghost predicate FreeFor<T, C>(q: seq<Timer<T, C>>, t: T, d: int) {
    forall x :: x in q && x.id != t ==> x.next != d
  }

  /** The deadlines a call installs are free. */
  ghost predicate Clean<T, C>(m: Manager<T, C>, op: Op<T, C>, now: int)
    requires Allowed(m, op, now)
  {
    match op
    case Create(t, made, ms, code, recurring) => FreeFor(m.queue, t, made + ms * TICKS_PER_MS)
    case Cancelling(t) => true
    case Refreshing(t) => Holds(m.queue, t) ==> FreeFor(m.queue, t, Lookup(m, t).Armed(now).next)
    case Resetting(t, ms, fromNow) =>
      Holds(m.queue, t) ==> FreeFor(m.queue, t, Restarted(Lookup(m, t), ms, fromNow, now).next)
    case Peeking => true
    case Collecting(read, checked) => Drain.RearmsFree(m.queue, read, RolledOver(m, checked))
  }

  lemma InQueue<T, C>(m: Manager<T, C>, t: T)
    requires Valid(m) && Known(m, t)
    ensures Holds(m.queue, t) <==> exists x :: x in m.queue && x.id == t
  {
    LookupIs(m, t);
    if Holds(m.queue, t) {
      assert Lookup(m, t) in m.queue;
    }
    if x :| x in m.queue && x.id == t {
      var i :| 0 <= i < |m.queue| && m.queue[i] == x;
    }
  }

  /** An element x taken out of the set, which leaves the others. */
  lemma TakenOut<T, C>(m: Manager<T, C>, x: Timer<T, C>, d: int)
    requires Valid(m) && x in m.queue
    ensures var m1 := DetachAt(m, x.next);
      && Found(m.queue, x.next) && Valid(m1) && !Holds(m1.queue, x.id)
      && (forall y :: y in m1.queue <==> y in m.queue && y != x)
      && (FreeFor(m.queue, x.id, d) <==> !Occupied(m1.queue, d))
  {
    DetachWorks(m, x.next);
    FoundIffOccupied(m.queue, x.next);
    forall y | y in m.queue && (y.id == x.id || y.next == x.next) ensures y == x {
      IdsAreKeys(m, x, y);
    }
    NotHeld(DetachAt(m, x.next).queue, x.id);
  }

  /** Moving an element of the set to another deadline. */
  lemma MoveWorks<T, C>(m: Manager<T, C>, x: Timer<T, C>, e: Timer<T, C>)
    requires Sound(m) && x in m.queue && e.id == x.id && e.cb.Some?
    ensures var m1 := DetachAt(m, x.next); var m' := Attach(m1, e);
      && Found(m.queue, x.next) && Valid(m') && (FreeFor(m.queue, x.id, e.next) ==> Sound(m'))
      && (FreeFor(m.queue, x.id, e.next) <==> forall y :: y in m'.queue <==> y == e || (y in m.queue && y != x))
  {
    var m1 := DetachAt(m, x.next);
    TakenOut(m, x, e.next);
    AttachWorks(m1, e);
    if FreeFor(m.queue, x.id, e.next) {
      MovedSound(m, x, e);
    } else {
      assert e !in m1.queue;
    }
  }

  /** With x out, x is the only timer outside that has its callback. */
  lemma TakenOutSound<T, C>(m: Manager<T, C>, x: Timer<T, C>)
    requires Sound(m) && x in m.queue
    ensures var m1 := DetachAt(m, x.next);
      && (forall y :: y in m1.queue ==> y.cb.Some?)
      && (forall t :: t in m1.others && t != x.id ==> m1.others[t].cb.None?)
  {
    DetachWorks(m, x.next);
    forall y | y in m.queue && y.next == x.next ensures y == x {
      IdsAreKeys(m, x, y);
    }
  }

  lemma MovedSound<T, C>(m: Manager<T, C>, x: Timer<T, C>, e: Timer<T, C>)
    requires Sound(m) && x in m.queue && e.id == x.id && e.cb.Some? && FreeFor(m.queue, x.id, e.next)
    ensures Sound(Attach(DetachAt(m, x.next), e))
  {
    TakenOut(m, x, e.next);
    TakenOutSound(m, x);
    AttachedSound(DetachAt(m, x.next), e);
  }

  lemma AttachedSound<T, C>(m: Manager<T, C>, e: Timer<T, C>)
    requires Valid(m) && !Holds(m.queue, e.id) && !Occupied(m.queue, e.next) && e.cb.Some?
    requires forall y :: y in m.queue ==> y.cb.Some?
    requires forall t :: t in m.others && t != e.id ==> m.others[t].cb.None?
    ensures Sound(Attach(m, e))
  {
    AttachWorks(m, e);
  }

  lemma CreateRefines<T, C>(m: Manager<T, C>, t: T, made: int, ms: nat, code: C, recurring: bool, now: int)
    requires Sound(m) && !Known(m, t) && made <= now
    ensures var e := Fresh(t, made, ms, code, recurring); var m' := AddTimer(m, e).m;
      && Valid(m') && (FreeFor(m.queue, t, e.next) ==> Sound(m'))
      && (Elems(m') == Elems(m) + {e} <==> FreeFor(m.queue, t, e.next))
  {
    var e := Fresh(t, made, ms, code, recurring);
    AttachWorks(m, e);
    forall x | x in m.queue ensures x.id != t {
      var i :| 0 <= i < |m.queue| && m.queue[i] == x;
    }
    assert FreeFor(m.queue, t, e.next) <==> !Occupied(m.queue, e.next);
    var m' := AddTimer(m, e).m;
    assert e in Elems(m') <==> !Occupied(m.queue, e.next);
    assert forall y :: y in Elems(m') ==> y in Elems(m) + {e};
  }

  lemma CancelRefines<T, C>(m: Manager<T, C>, t: T)
    requires Sound(m) && Known(m, t)
    ensures var r := Cancel(m, t);
      && Sound(r.m) && (r.ok <==> Holds(m.queue, t)) && !Holds(r.m.queue, t)
      && Elems(r.m) == set x | x in Elems(m) && x.id != t
  {
    LookupIs(m, t);
    InQueue(m, t);
    var e := Lookup(m, t);
    if Holds(m.queue, t) {
      CancelTakesOut(m, e);
    } else {
      NotHeld(m.queue, t);
    }
  }

  lemma CancelTakesOut<T, C>(m: Manager<T, C>, e: Timer<T, C>)
    requires Sound(m) && e in m.queue
    ensures var m1 := DetachAt(m, e.next); var m' := m1.(others := m1.others[e.id := e.(cb := None)]);
      Sound(m') && !Holds(m'.queue, e.id) && Elems(m') == set x | x in Elems(m) && x.id != e.id
  {
    TakenOut(m, e, e.next);
    DetachWorks(m, e.next);
    forall y | y in m.queue && (y.id == e.id || y.next == e.next) ensures y == e {
      IdsAreKeys(m, e, y);
    }
  }

  lemma PlainMove<T, C>(m: Manager<T, C>, x: Timer<T, C>, ms: nat, fromNow: bool, now: int)
    requires Valid(m) && x in m.queue
    ensures forall y ::
      y in Plain(Elems(m), Op<T, C>.Refreshing(x.id), now, false) <==>
      y == x.Armed(now) || (y in m.queue && y != x)
    ensures forall y ::
      y in Plain(Elems(m), Op<T, C>.Resetting(x.id, ms, fromNow), now, false) <==>
      y == Restarted(x, ms, fromNow, now) || (y in m.queue && y != x)
  {
    forall y | y in m.queue && y.id == x.id ensures y == x {
      IdsAreKeys(m, x, y);
    }
    assert x in Elems(m);
    assert forall y :: y in m.queue <==> y in Elems(m);
  }

  lemma RefreshRefines<T, C>(m: Manager<T, C>, t: T, now: int)
    requires Sound(m) && Known(m, t)
    ensures var r, op := Refresh(m, t, now), Op<T, C>.Refreshing(t);
      && Valid(r.m) && (r.ok <==> Holds(m.queue, t)) && (Clean(m, op, now) ==> Sound(r.m))
      && (Elems(r.m) == Plain(Elems(m), op, now, false) <==> Clean(m, op, now))
  {
    LookupIs(m, t);
    var x := Lookup(m, t);
    if Holds(m.queue, t) {
      MoveWorks(m, x, x.Armed(now));
      PlainMove(m, x, 0, false, now);
      SameElems(Refresh(m, t, now).m, Plain(Elems(m), Op<T, C>.Refreshing(t), now, false));
    } else {
      PlainElsewhere(m, t, 0, false, now);
    }
  }

  lemma SameElems<T, C>(m: Manager<T, C>, S: set<Timer<T, C>>)
    ensures Elems(m) == S <==> forall y :: y in m.queue <==> y in S
  {
    assert forall y :: y in m.queue <==> y in Elems(m);
  }

  lemma PlainElsewhere<T, C>(m: Manager<T, C>, t: T, ms: nat, fromNow: bool, now: int)
    requires Valid(m) && !Holds(m.queue, t)
    ensures Plain(Elems(m), Op<T, C>.Refreshing(t), now, false) == Elems(m)
    ensures Plain(Elems(m), Op<T, C>.Resetting(t, ms, fromNow), now, false) == Elems(m)
  {
    forall x | x in m.queue ensures x.id != t {
      var i :| 0 <= i < |m.queue| && m.queue[i] == x;
    }
  }

  lemma ResetRefines<T, C>(m: Manager<T, C>, t: T, ms: nat, fromNow: bool, now: int)
    requires Sound(m) && Known(m, t)
    ensures var r, op := Reset(m, t, ms, fromNow, now), Op<T, C>.Resetting(t, ms, fromNow);
      && Valid(r.m) && (Clean(m, op, now) ==> Sound(r.m))
      && (r.ok <==> Holds(m.queue, t) || (ms == Lookup(m, t).ms && !fromNow))
      && (Elems(r.m) == Plain(Elems(m), op, now, false) <==> Clean(m, op, now))
  {
    LookupIs(m, t);
    var x := Lookup(m, t);
    var e := Restarted(x, ms, fromNow, now);
    if Holds(m.queue, t) {
      PlainMove(m, x, ms, fromNow, now);
      SameElems(Reset(m, t, ms, fromNow, now).m, Plain(Elems(m), Op<T, C>.Resetting(t, ms, fromNow), now, false));
      if ms == x.ms && !fromNow {
        forall y | y in m.queue && y.next == x.next ensures y == x {
          IdsAreKeys(m, x, y);
        }
      } else {
        MoveWorks(m, x, e);
      }
    } else {
      PlainElsewhere(m, t, ms, fromNow, now);
    }
  }

  lemma CollectSound<T, C>(m: Manager<T, C>, now: int, checked: int)
    requires Sound(m) && Drain.TrapFree(m.queue, now, RolledOver(m, checked))
    ensures Valid(Collect(m, now, checked).m)
    ensures Clean(m, Op<T, C>.Collecting(now, checked), now) ==> Sound(Collect(m, now, checked).m)
  {
    var roll := RolledOver(m, checked);
    var q, m' := m.queue, Collect(m, now, checked).m;
    CollectWorks(m, now, checked);
    forall y | y in m'.queue ensures y.cb.Some? {
      assert Drain.Stays(q, y, now, roll);
      var x :| x in q && Drain.BecomesElement(q, x, y, now, roll);
    }
    if Clean(m, Op<T, C>.Collecting(now, checked), now) {
      forall t | t in m'.others && t !in m.others ensures m'.others[t].cb.None? {
        var x :| x in q && Drain.BecomesDetached(q, x, m'.others[t], now, roll);
      }
    }
  }

  lemma CollectRefines<T, C>(m: Manager<T, C>, now: int, checked: int)
    requires Sound(m) && Drain.TrapFree(m.queue, now, RolledOver(m, checked))
    ensures var m', op, roll := Collect(m, now, checked).m, Op<T, C>.Collecting(now, checked), RolledOver(m, checked);
      Elems(m') == Plain(Elems(m), op, now, roll) <==> Clean(m, op, now)
  {
    var roll := RolledOver(m, checked);
    var q, m' := m.queue, Collect(m, now, checked).m;
    var S := Plain(Elems(m), Op<T, C>.Collecting(now, checked), now, roll);
    StaysInPlain(m, now, checked);
    CollectStays(m, now, checked, S, m'.queue);
    SameElems(m', S);
    Drain.NoRearmLostIff(Drain.State(q, [], []), now, roll);
  }

  /** What the plain collection makes of one timer. */
  lemma PlainCollects<T, C>(m: Manager<T, C>, x: Timer<T, C>, now: int, checked: int)
    requires x in m.queue
    ensures var roll := RolledOver(m, checked); var S := Plain(Elems(m), Op<T, C>.Collecting(now, checked), now, roll);
      && (!Drain.Reached(x.next, now, roll) ==> x in S)
      && (Drain.Reached(x.next, now, roll) && x.recurring ==> x.Armed(now) in S)
  {
    assert x in Elems(m);
  }

  /** The set after a drain is part of the plain collection. */
  lemma StaysInPlain<T, C>(m: Manager<T, C>, now: int, checked: int)
    requires Valid(m) && Drain.TrapFree(m.queue, now, RolledOver(m, checked))
    ensures var S, m', roll := Plain(Elems(m), Op<T, C>.Collecting(now, checked), now, RolledOver(m, checked)),
        Collect(m, now, checked).m, RolledOver(m, checked);
      && (forall y :: y in m'.queue ==> y in S)
      && (forall x :: x in m.queue && !Drain.Reached(x.next, now, roll) ==> x in m'.queue)
  {
    var q, m', roll := m.queue, Collect(m, now, checked).m, RolledOver(m, checked);
    var S := Plain(Elems(m), Op<T, C>.Collecting(now, checked), now, roll);
    assert forall y :: y in m'.queue <==> Drain.Stays(q, y, now, roll) by { CollectWorks(m, now, checked); }
    forall y | y in m'.queue ensures y in S {
      assert Drain.Stays(q, y, now, roll);
      var x :| x in q && Drain.BecomesElement(q, x, y, now, roll);
      PlainCollects(m, x, now, checked);
    }
    forall x | x in q && !Drain.Reached(x.next, now, roll) ensures x in m'.queue {
      assert Drain.BecomesElement(q, x, x, now, roll);
    }
  }

  /** ... and falls short of it by lost re-arms only. */
  lemma CollectStays<T, C>(m: Manager<T, C>, now: int, checked: int, S: set<Timer<T, C>>, r: seq<Timer<T, C>>)
    requires S == Plain(Elems(m), Op<T, C>.Collecting(now, checked), now, RolledOver(m, checked))
    requires forall y :: y in r ==> y in S
    requires forall x :: x in m.queue && !Drain.Reached(x.next, now, RolledOver(m, checked)) ==> x in r
    ensures (forall y :: y in r <==> y in S) <==> Drain.AllRearmed(m.queue, r, now, RolledOver(m, checked))
  {
    forall x | x in m.queue ensures x in Elems(m) {
    }
  }

  // ----- Runs -----

  /** A call and the clock when it runs. */
  datatype Call<T, C> = Call(op: Op<T, C>, now: int)

  ghost predicate AllowedRun<T, C>(m: Manager<T, C>, calls: seq<Call<T, C>>, clock: int)
    decreases calls
  {
    calls == [] || (
      && clock <= calls[0].now && Allowed(m, calls[0].op, calls[0].now)
      && AllowedRun(Apply(m, calls[0].op, calls[0].now).m, calls[1..], calls[0].now))
  }

  function After<T(==), C>(m: Manager<T, C>, calls: seq<Call<T, C>>, clock: int): Manager<T, C>
    requires AllowedRun(m, calls, clock)
    decreases calls
  {
    if calls == [] then m
    else After(Apply(m, calls[0].op, calls[0].now).m, calls[1..], calls[0].now)
  }

  ghost predicate CleanRun<T, C>(m: Manager<T, C>, calls: seq<Call<T, C>>, clock: int)
    requires AllowedRun(m, calls, clock)
    decreases calls
  {
    calls == [] || (
      && Clean(m, calls[0].op, calls[0].now)
      && CleanRun(Apply(m, calls[0].op, calls[0].now).m, calls[1..], calls[0].now))
  }

  ghost function Rollover<T, C>(m: Manager<T, C>, op: Op<T, C>): bool {
    op.Collecting? && RolledOver(m, op.checked)
  }

  ghost function PlainAfter<T, C>(m: Manager<T, C>, s: set<Timer<T, C>>, calls: seq<Call<T, C>>, clock: int)
      : set<Timer<T, C>>
    requires AllowedRun(m, calls, clock)
    decreases calls
  {
    if calls == [] then s
    else
      var c := calls[0];
      PlainAfter(Apply(m, c.op, c.now).m, Plain(s, c.op, c.now, Rollover(m, c.op)), calls[1..], c.now)
  }

  /** With nothing lost so far, a call does to the deadline-keyed set what it does to a plain
      collection of timers exactly when the deadlines it installs are free; and then nothing is
      lost by it. */
  lemma RefinesIff<T, C>(m: Manager<T, C>, op: Op<T, C>, now: int)
    requires Sound(m) && Allowed(m, op, now)
    ensures var m' := Apply(m, op, now).m;
      && (Elems(m') == Plain(Elems(m), op, now, Rollover(m, op)) <==> Clean(m, op, now))
      && (Clean(m, op, now) ==> Sound(m'))
  {
    match op
    case Create(t, made, ms, code, recurring) => CreateRefines(m, t, made, ms, code, recurring, now);
    case Cancelling(t) => CancelRefines(m, t);
    case Refreshing(t) => RefreshRefines(m, t, now);
    case Resetting(t, ms, fromNow) => ResetRefines(m, t, ms, fromNow, now);
    case Peeking =>
    case Collecting(read, checked) =>
      CollectSound(m, read, checked);
      CollectRefines(m, read, checked);
  }

  /** Over every run whose deadlines never clash, the set is the plain collection. */
  lemma {:induction false} RunRefines<T, C>(m: Manager<T, C>, calls: seq<Call<T, C>>, clock: int)
    requires Sound(m) && AllowedRun(m, calls, clock) && CleanRun(m, calls, clock)
    ensures Sound(After(m, calls, clock))
    ensures Elems(After(m, calls, clock)) == PlainAfter(m, Elems(m), calls, clock)
    decreases calls
  {
    if calls != [] {
      RefinesIff(m, calls[0].op, calls[0].now);
      RunRefines(Apply(m, calls[0].op, calls[0].now).m, calls[1..], calls[0].now);
    }
  }

  /** The deadline at the front of the set is the earliest. */
  lemma FrontIsEarliest<T, C>(m: Manager<T, C>)
    requires Valid(m) && m.queue != []
    ensures forall x :: x in m.queue ==> m.queue[0].next <= x.next
  {
  }

  /** Two timers created for one instant: the second is not in the set, and cancelling it takes
      out the first. */
  lemma ClashLosesTimers()
    ensures var m0 := Manager<nat, nat>.Manager([], map[], false, 0);
      var m1 := AddTimer(m0, Fresh(1, 0, 10, 100, false)).m;
      var m2 := AddTimer(m1, Fresh(2, 0, 10, 200, false)).m;
      && Known(m2, 2) && !Holds(m2.queue, 2) && Holds(m2.queue, 1)
      && Cancel(m2, 2).ok && Cancel(m2, 2).m.queue == []
  {
    var e1, e2 := Fresh<nat, nat>(1, 0, 10, 100, false), Fresh<nat, nat>(2, 0, 10, 200, false);
    var m0 := Manager<nat, nat>.Manager([], map[], false, 0);
    var m1 := AddTimer(m0, e1).m;
    assert m1.queue == [e1];
    var m2 := AddTimer(m1, e2).m;
    assert m2.queue == [e1] && m2.others[2] == e2;
    assert m2.queue[0].id == 1;
    assert Lookup(m2, 2) == e2;
  }
}
