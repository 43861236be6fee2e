/** The drain loop of TimerManager::listExpiredCb on the ordered set: when it stops,
    and what it has done when it does. */
module Drain {
  import opened Options
  import opened DeadlineSet

  /** The loop reaches a deadline when it has expired, or always after a clock rollover. */
  predicate Reached(d: int, now: int, rollover: bool) {
    rollover || d <= now
  }

  /** The loop guard. */
  predicate More<T, C>(q: seq<Timer<T, C>>, now: int, rollover: bool) {
    q != [] && Reached(q[0].next, now, rollover)
  }

  /** One turn of the loop: the set it leaves behind. */
  function Turn<T, C>(q: seq<Timer<T, C>>, now: int): seq<Timer<T, C>>
    requires q != []
  {
    if q[0].recurring then Insert(q[1..], q[0].Armed(now)) else q[1..]
  }

  /** The loop exits within n turns. */
  ghost predicate ExitsWithin<T, C>(q: seq<Timer<T, C>>, now: int, rollover: bool, n: nat)
    decreases n
  {
    More(q, now, rollover) ==> n > 0 && ExitsWithin(Turn(q, now), now, rollover, n - 1)
  }

  ghost predicate Terminates<T, C>(q: seq<Timer<T, C>>, now: int, rollover: bool) {
    exists n: nat :: ExitsWithin(q, now, rollover, n)
  }

  /** A recurring timer whose new deadline is still reached would be drained for ever, unless
      its first re-arm is dropped because another timer holds that deadline. */
  ghost predicate Trap<T, C>(q: seq<Timer<T, C>>, x: Timer<T, C>, now: int, rollover: bool) {
    var home := x.Armed(now).next;
    && x.recurring && Reached(x.next, now, rollover) && Reached(home, now, rollover)
    && (home <= x.next || !Occupied(q, home))
  }

  ghost predicate TrapFree<T, C>(q: seq<Timer<T, C>>, now: int, rollover: bool) {
    forall x :: x in q ==> !Trap(q, x, now, rollover)
  }

  /** How many elements the loop reaches. */
  function Due<T, C>(q: seq<Timer<T, C>>, now: int, rollover: bool): (k: nat)
    ensures k <= |q|
  {
    if rollover then |q| else LowerBound(q, now + 1)
  }

  lemma TurnMembers<T, C>(q: seq<Timer<T, C>>, now: int)
    requires Ascending(q) && q != []
    ensures Ascending(Turn(q, now))
    ensures var e := q[0].Armed(now);
      forall x :: x in Turn(q, now) <==> x in q[1..] || (x == e && q[0].recurring && !Occupied(q[1..], e.next))
    ensures forall x :: x in q <==> x == q[0] || x in q[1..]
    ensures forall x :: x in q[1..] ==> q[0].next < x.next
  {
    InsertAscends(q[1..], q[0].Armed(now));
    InsertMembers(q[1..], q[0].Armed(now));
    assert q == [q[0]] + q[1..];
  }

  /** Without a trap, a turn consumes one reached element for good and sets no trap. */
  lemma TurnConsumes<T, C>(q: seq<Timer<T, C>>, now: int, rollover: bool)
    requires Ascending(q) && TrapFree(q, now, rollover) && More(q, now, rollover)
    ensures Ascending(Turn(q, now)) && TrapFree(Turn(q, now), now, rollover)
    ensures var k := Due(q, now, rollover);
      k > 0 && Due(Turn(q, now), now, rollover) == k - 1 && Turn(q, now)[..k - 1] == q[..k][1..]
  {
    TurnMembers(q, now);
    assert !Trap(q, q[0], now, rollover);
    HeadLeavesReach(q, now, rollover);
    TurnDue(q, now, rollover);
    TurnSetsNoTrap(q, now, rollover);
  }

  lemma TurnSetsNoTrap<T, C>(q: seq<Timer<T, C>>, now: int, rollover: bool)
    requires Ascending(q) && TrapFree(q, now, rollover) && More(q, now, rollover)
    requires q[0].recurring && !Found(q[1..], q[0].Armed(now).next) ==> !Reached(q[0].Armed(now).next, now, rollover)
    ensures TrapFree(Turn(q, now), now, rollover)
  {
    TurnMembers(q, now);
    forall x | x in Turn(q, now) ensures !Trap(Turn(q, now), x, now, rollover) {
      if x in q[1..] {
        assert !Trap(q, x, now, rollover);
      }
    }
  }

  /** A head that is re-armed within reach finds its place taken. */
  lemma HeadLeavesReach<T, C>(q: seq<Timer<T, C>>, now: int, rollover: bool)
    requires Ascending(q) && More(q, now, rollover) && !Trap(q, q[0], now, rollover)
    ensures q[0].recurring && !Found(q[1..], q[0].Armed(now).next) ==> !Reached(q[0].Armed(now).next, now, rollover)
  {
    var e := q[0].Armed(now);
    FoundIffOccupied(q[1..], e.next);
    if q[0].recurring && Reached(e.next, now, rollover) {
      var x :| x in q && x.next == e.next;
      assert x in q[1..];
    }
  }

  lemma TurnDue<T, C>(q: seq<Timer<T, C>>, now: int, rollover: bool)
    requires More(q, now, rollover)
    requires q[0].recurring && !Found(q[1..], q[0].Armed(now).next) ==> !Reached(q[0].Armed(now).next, now, rollover)
    ensures var k := Due(q, now, rollover);
      k > 0 && Due(Turn(q, now), now, rollover) == k - 1 && Turn(q, now)[..k - 1] == q[..k][1..]
  {
    var r, e, k := q[1..], q[0].Armed(now), Due(q, now, rollover);
    assert Due(r, now, rollover) == k - 1;
    assert q[..k][1..] == r[..k - 1];
    if q[0].recurring && !Found(r, e.next) {
      BoundUnmoved(r, e, now + 1);
    }
  }

  /** Inserting at or above d does not move what lies below d. */
  lemma BoundUnmoved<T, C>(q: seq<Timer<T, C>>, e: Timer<T, C>, d: int)
    requires d <= e.next
    ensures var k := LowerBound(q, d);
      LowerBound(Insert(q, e), d) == k && Insert(q, e)[..k] == q[..k]
  {
    var i, r, k := LowerBound(q, e.next), Insert(q, e), LowerBound(q, d);
    if !Found(q, e.next) {
      assert forall j :: 0 <= j < |r| ==> r[j] == if j < i then q[j] else if j == i then e else q[j - 1];
      assert k <= i;
      LowerBoundIs(r, d, k);
    }
  }

  /** A trap is never left, and while one is set the loop goes on. */
  lemma TrapStays<T, C>(q: seq<Timer<T, C>>, x: Timer<T, C>, now: int, rollover: bool)
    requires Ascending(q) && x in q && Trap(q, x, now, rollover)
    ensures More(q, now, rollover)
    ensures Ascending(Turn(q, now)) && !TrapFree(Turn(q, now), now, rollover)
  {
    TurnMembers(q, now);
    var e, q' := q[0].Armed(now), Turn(q, now);
    if x == q[0] || (q[0].recurring && x.next < e.next == x.Armed(now).next) {
      // The head itself is re-armed into its own trap.
      assert e in q' && Trap(q', e, now, rollover);
    } else {
      assert x in q' && Trap(q', x, now, rollover);
    }
  }

  lemma {:induction false} TrappedForever<T, C>(q: seq<Timer<T, C>>, now: int, rollover: bool, n: nat)
    requires Ascending(q) && !TrapFree(q, now, rollover)
    ensures !ExitsWithin(q, now, rollover, n)
    decreases n
  {
    var x :| x in q && Trap(q, x, now, rollover);
    TrapStays(q, x, now, rollover);
    if n > 0 {
      TrappedForever(Turn(q, now), now, rollover, n - 1);
    }
  }

  lemma {:induction false} ExitsInDueTurns<T, C>(q: seq<Timer<T, C>>, now: int, rollover: bool)
    requires Ascending(q) && TrapFree(q, now, rollover)
    ensures ExitsWithin(q, now, rollover, Due(q, now, rollover))
    decreases Due(q, now, rollover)
  {
    if More(q, now, rollover) {
      TurnConsumes(q, now, rollover);
      ExitsInDueTurns(Turn(q, now), now, rollover);
    }
  }

  /** The drain loop terminates exactly when no timer is trapped. */
  lemma TerminatesIff<T, C>(q: seq<Timer<T, C>>, now: int, rollover: bool)
    requires Ascending(q)
    ensures Terminates(q, now, rollover) <==> TrapFree(q, now, rollover)
  {
    if TrapFree(q, now, rollover) {
      ExitsInDueTurns(q, now, rollover);
    } else {
      forall n: nat ensures !ExitsWithin(q, now, rollover, n) {
        TrappedForever(q, now, rollover, n);
      }
    }
  }

  /** Positive periods never trap while the clock has not rolled over; after a rollover the
      absence of recurring timers is enough. */
  lemma UsualTermination<T, C>(q: seq<Timer<T, C>>, now: int, rollover: bool)
    requires Ascending(q)
    requires forall x :: x in q && x.recurring ==> !rollover && x.ms > 0
    ensures Terminates(q, now, rollover)
  {
    TerminatesIff(q, now, rollover);
  }

  /** The state of the loop: the set, the callbacks collected, and the timers that have left
      the set with their final values. */
  datatype State<T, C> = State(queue: seq<Timer<T, C>>, fired: seq<Option<C>>, gone: seq<Timer<T, C>>)

  function Step<T, C>(s: State<T, C>, now: int): State<T, C>
    requires s.queue != []
  {
    var e := s.queue[0];
    var out :=
      if !e.recurring then [e.(cb := None)]
      else if Found(s.queue[1..], e.Armed(now).next) then [e.Armed(now)]
      else [];
    State(Turn(s.queue, now), s.fired + [e.cb], s.gone + out)
  }

  function Run<T, C>(s: State<T, C>, now: int, rollover: bool): (r: State<T, C>)
    requires Ascending(s.queue) && TrapFree(s.queue, now, rollover)
    decreases Due(s.queue, now, rollover)
  {
    if More(s.queue, now, rollover) then
      TurnConsumes(s.queue, now, rollover);
      Run(Step(s, now), now, rollover)
    else s
  }

  function Callbacks<T, C>(q: seq<Timer<T, C>>): (cbs: seq<Option<C>>)
    ensures |cbs| == |q| && forall i :: 0 <= i < |q| ==> cbs[i] == q[i].cb
  {
    if q == [] then [] else [q[0].cb] + Callbacks(q[1..])
  }

  lemma CallbacksFirst<T, C>(fired: seq<Option<C>>, q: seq<Timer<T, C>>)
    requires q != []
    ensures fired + [q[0].cb] + Callbacks(q[1..]) == fired + Callbacks(q)
  {
  }

  /** Exactly the callbacks of the reached timers are collected, earliest deadline first, and
      nothing reached is left in the set. */
  lemma {:induction false} FiresTheDue<T, C>(s: State<T, C>, now: int, rollover: bool)
    requires Ascending(s.queue) && TrapFree(s.queue, now, rollover)
    ensures var r := Run(s, now, rollover); var k := Due(s.queue, now, rollover);
      && Ascending(r.queue) && !More(r.queue, now, rollover)
      && r.fired == s.fired + Callbacks(s.queue[..k])
    decreases Due(s.queue, now, rollover)
  {
    var q, k := s.queue, Due(s.queue, now, rollover);
    if More(q, now, rollover) {
      TurnConsumes(q, now, rollover);
      FiresTheDue(Step(s, now), now, rollover);
      CallbacksFirst(s.fired, q[..k]);
    } else {
      assert k == 0;
    }
  }

  /** An earlier recurring timer of q has the period of x, so it is re-armed for the same time. */
  ghost predicate Overtaken<T, C>(q: seq<Timer<T, C>>, x: Timer<T, C>) {
    exists y :: y in q && y.recurring && y.next < x.next && y.ms == x.ms
  }

  /** The timer x of q is re-armed and finds its new deadline free: it is not reached any more,
      no timer of q holds it, and no earlier re-arm has taken it. */
  ghost predicate Rearmed<T, C>(q: seq<Timer<T, C>>, x: Timer<T, C>, now: int, rollover: bool) {
    && x.recurring && Reached(x.next, now, rollover)
    && !Reached(x.Armed(now).next, now, rollover)
    && !Occupied(q, x.Armed(now).next) && !Overtaken(q, x)
  }

  /** A turn re-arms the head exactly when its new deadline is free. */
  lemma TurnRearmsHead<T, C>(q: seq<Timer<T, C>>, now: int, rollover: bool)
    requires Ascending(q) && TrapFree(q, now, rollover) && More(q, now, rollover)
    ensures Rearmed(q, q[0], now, rollover) <==> q[0].recurring && !Occupied(q[1..], q[0].Armed(now).next)
  {
    TurnMembers(q, now);
    assert !Trap(q, q[0], now, rollover);
  }

  /** A turn decides no other re-arm. */
  lemma TurnRearmsNoOther<T, C>(q: seq<Timer<T, C>>, x: Timer<T, C>, now: int, rollover: bool)
    requires Ascending(q) && TrapFree(q, now, rollover) && More(q, now, rollover) && x in q[1..]
    ensures Rearmed(Turn(q, now), x, now, rollover) <==> Rearmed(q, x, now, rollover)
  {
    TurnMembers(q, now);
    var e, q', home := q[0].Armed(now), Turn(q, now), x.Armed(now).next;
    assert q[0] in q;
    if x.recurring && Reached(x.next, now, rollover) && !Reached(home, now, rollover) {
      if q[0].recurring && q[0].ms == x.ms {
        assert Overtaken(q, x);
        assert Occupied(q', home);
      } else {
        assert q[0].next != home;
        assert Occupied(q', home) <==> Occupied(q, home);
        assert Overtaken(q', x) <==> Overtaken(q, x);
      }
    }
  }

  /** What the loop makes of the timer x of q: out of reach and untouched, or re-armed. */
  ghost predicate BecomesElement<T, C>(q: seq<Timer<T, C>>, x: Timer<T, C>, y: Timer<T, C>, now: int, rollover: bool) {
    if Reached(x.next, now, rollover) then Rearmed(q, x, now, rollover) && y == x.Armed(now) else y == x
  }

  /** What the loop makes of the timer x of q when it does not keep it in the set: a one-shot
      timer without its callback, or a recurring one whose re-arm was dropped. */
  ghost predicate BecomesDetached<T, C>(q: seq<Timer<T, C>>, x: Timer<T, C>, y: Timer<T, C>, now: int, rollover: bool) {
    && Reached(x.next, now, rollover)
    && if x.recurring then !Rearmed(q, x, now, rollover) && y == x.Armed(now) else y == x.(cb := None)
  }

  ghost predicate Stays<T, C>(q: seq<Timer<T, C>>, y: Timer<T, C>, now: int, rollover: bool) {
    exists x :: x in q && BecomesElement(q, x, y, now, rollover)
  }

  ghost predicate Leaves<T, C>(q: seq<Timer<T, C>>, y: Timer<T, C>, now: int, rollover: bool) {
    exists x :: x in q && BecomesDetached(q, x, y, now, rollover)
  }

  lemma TurnGone<T, C>(s: State<T, C>, y: Timer<T, C>, now: int, rollover: bool)
    requires Ascending(s.queue) && TrapFree(s.queue, now, rollover) && More(s.queue, now, rollover)
    ensures y in Step(s, now).gone <==> y in s.gone || BecomesDetached(s.queue, s.queue[0], y, now, rollover)
  {
    TurnRearmsHead(s.queue, now, rollover);
    FoundIffOccupied(s.queue[1..], s.queue[0].Armed(now).next);
  }

  /** A turn changes the fate of no timer but its head, whose fate it settles. */
  lemma TurnSettlesHead<T, C>(s: State<T, C>, y: Timer<T, C>, now: int, rollover: bool)
    requires Ascending(s.queue) && TrapFree(s.queue, now, rollover) && More(s.queue, now, rollover)
    ensures var q := s.queue; var q' := Turn(q, now);
      && (q[0].Armed(now) in q' && q[0].Armed(now) !in q[1..] ==>
            !Reached(q[0].Armed(now).next, now, rollover) && Rearmed(q, q[0], now, rollover))
      && (BecomesElement(q, q[0], y, now, rollover) ==> y in q' && !Reached(y.next, now, rollover))
      && (y in Step(s, now).gone <==> y in s.gone || BecomesDetached(q, q[0], y, now, rollover))
  {
    TurnMembers(s.queue, now);
    TurnRearmsHead(s.queue, now, rollover);
    TurnGone(s, y, now, rollover);
  }

  /** The fate of x as far as y is concerned is the same in q and in q'. */
  ghost predicate Spared<T, C>(q: seq<Timer<T, C>>, q': seq<Timer<T, C>>, x: Timer<T, C>, y: Timer<T, C>,
                               now: int, rollover: bool) {
    && x in q'
    && (BecomesElement(q', x, y, now, rollover) <==> BecomesElement(q, x, y, now, rollover))
    && (BecomesDetached(q', x, y, now, rollover) <==> BecomesDetached(q, x, y, now, rollover))
  }

  lemma TurnSparesRest<T, C>(q: seq<Timer<T, C>>, x: Timer<T, C>, y: Timer<T, C>, now: int, rollover: bool)
    requires Ascending(q) && TrapFree(q, now, rollover) && More(q, now, rollover) && x in q[1..]
    ensures Spared(q, Turn(q, now), x, y, now, rollover)
  {
    TurnMembers(q, now);
    TurnRearmsNoOther(q, x, now, rollover);
  }

  lemma TurnSparesAll<T, C>(q: seq<Timer<T, C>>, y: Timer<T, C>, now: int, rollover: bool)
    requires Ascending(q) && TrapFree(q, now, rollover) && More(q, now, rollover)
    ensures forall x :: x in Turn(q, now) ==> x in q[1..] || x == q[0].Armed(now)
    ensures forall x :: x in q[1..] ==> Spared(q, Turn(q, now), x, y, now, rollover)
  {
    TurnMembers(q, now);
    forall x | x in q[1..] ensures Spared(q, Turn(q, now), x, y, now, rollover) {
      TurnSparesRest(q, x, y, now, rollover);
    }
  }

  lemma TurnFates<T, C>(s: State<T, C>, y: Timer<T, C>, now: int, rollover: bool)
    requires Ascending(s.queue) && TrapFree(s.queue, now, rollover) && More(s.queue, now, rollover)
    ensures Stays(Turn(s.queue, now), y, now, rollover) <==> Stays(s.queue, y, now, rollover)
    ensures y in Step(s, now).gone || Leaves(Turn(s.queue, now), y, now, rollover)
      <==> y in s.gone || Leaves(s.queue, y, now, rollover)
  {
    TurnSettlesHead(s, y, now, rollover);
    TurnSparesAll(s.queue, y, now, rollover);
    FatesCompose(s.queue, Turn(s.queue, now), y, now, rollover);
  }

  lemma FatesCompose<T, C>(q: seq<Timer<T, C>>, q': seq<Timer<T, C>>, y: Timer<T, C>, now: int, rollover: bool)
    requires q != [] && Reached(q[0].next, now, rollover)
    requires forall x :: x in q' ==> x in q[1..] || x == q[0].Armed(now)
    requires q[0].Armed(now) in q' && q[0].Armed(now) !in q[1..] ==>
      !Reached(q[0].Armed(now).next, now, rollover) && Rearmed(q, q[0], now, rollover)
    requires BecomesElement(q, q[0], y, now, rollover) ==> y in q' && !Reached(y.next, now, rollover)
    requires forall x :: x in q[1..] ==> Spared(q, q', x, y, now, rollover)
    ensures Stays(q', y, now, rollover) <==> Stays(q, y, now, rollover)
    ensures Leaves(q, y, now, rollover) <==> BecomesDetached(q, q[0], y, now, rollover) || Leaves(q', y, now, rollover)
  {
    var e := q[0].Armed(now);
    assert forall x :: x in q <==> x == q[0] || x in q[1..] by { assert q == [q[0]] + q[1..]; }
    if Stays(q', y, now, rollover) {
      var x :| x in q' && BecomesElement(q', x, y, now, rollover);
      if x !in q[1..] {
        assert BecomesElement(q, q[0], y, now, rollover);
      }
    }
    if Stays(q, y, now, rollover) {
      var x :| x in q && BecomesElement(q, x, y, now, rollover);
      if x !in q[1..] {
        assert BecomesElement(q', y, y, now, rollover);
      }
    }
    if Leaves(q', y, now, rollover) {
      var x :| x in q' && BecomesDetached(q', x, y, now, rollover);
      assert x in q[1..];
    }
    if Leaves(q, y, now, rollover) {
      var x :| x in q && BecomesDetached(q, x, y, now, rollover);
    }
  }

  /** Which timers a drain leaves in the set, and which have left it. */
  lemma {:induction false} Fates<T, C>(s: State<T, C>, y: Timer<T, C>, now: int, rollover: bool)
    requires Ascending(s.queue) && TrapFree(s.queue, now, rollover)
    ensures y in Run(s, now, rollover).queue <==> Stays(s.queue, y, now, rollover)
    ensures y in Run(s, now, rollover).gone <==> y in s.gone || Leaves(s.queue, y, now, rollover)
    decreases Due(s.queue, now, rollover)
  {
    if More(s.queue, now, rollover) {
      TurnConsumes(s.queue, now, rollover);
      TurnFates(s, y, now, rollover);
      Fates(Step(s, now), y, now, rollover);
    } else {
      assert forall x :: x in s.queue ==> s.queue[0].next <= x.next;
    }
  }

  /** Every recurring timer the loop reaches is in r with its new deadline. */
  ghost predicate AllRearmed<T, C>(q: seq<Timer<T, C>>, r: seq<Timer<T, C>>, now: int, rollover: bool) {
    forall x :: x in q && x.recurring && Reached(x.next, now, rollover) ==> x.Armed(now) in r
  }

  /** The deadlines of the re-arms lie beyond the loop's reach, are free, and differ. */
  ghost predicate RearmsFree<T, C>(q: seq<Timer<T, C>>, now: int, rollover: bool) {
    forall x :: x in q && x.recurring && Reached(x.next, now, rollover) ==>
      && !Reached(x.Armed(now).next, now, rollover) && !Occupied(q, x.Armed(now).next)
      && forall y :: y in q && y.recurring && Reached(y.next, now, rollover) && y != x ==> y.ms != x.ms
  }

  /** No recurring timer is lost in a drain exactly when the re-arm deadlines are free. */
  lemma NoRearmLostIff<T, C>(s: State<T, C>, now: int, rollover: bool)
    requires Ascending(s.queue) && DistinctIds(s.queue) && TrapFree(s.queue, now, rollover)
    ensures AllRearmed(s.queue, Run(s, now, rollover).queue, now, rollover) <==> RearmsFree(s.queue, now, rollover)
  {
    var q := s.queue;
    forall x, y | x in q && y in q && (x.id == y.id || x.next == y.next) ensures x == y {
      var i :| 0 <= i < |q| && q[i] == x;
      var j :| 0 <= j < |q| && q[j] == y;
    }
    forall x | x in q && x.recurring && Reached(x.next, now, rollover)
      ensures x.Armed(now) in Run(s, now, rollover).queue <==> Rearmed(q, x, now, rollover)
    {
      Fates(s, x.Armed(now), now, rollover);
      if Rearmed(q, x, now, rollover) {
        assert BecomesElement(q, x, x.Armed(now), now, rollover);
      }
    }
  }
}
