/** The life of one timer, and the clock behind every deadline, over any run of calls. Deadlines
    may clash here. */
module TimerLife {
  import opened Options
  import opened DeadlineSet
  import opened TimerModel
  import opened TimerLaws
  import Drain

  /** Cancelled, or fired as a one-shot. */
  ghost predicate Dead<T, C>(m: Manager<T, C>, t: T) {
    t in m.others && m.others[t].cb.None?
  }

  /** Every timer in the set still has its callback. */
  ghost predicate AllLive<T, C>(m: Manager<T, C>) {
    Valid(m) && forall x :: x in m.queue ==> x.cb.Some?
  }

  lemma DeadIsOut<T, C>(m: Manager<T, C>, t: T)
    requires Valid(m) && Dead(m, t)
    ensures !Holds(m.queue, t) && Known(m, t) && Lookup(m, t).cb.None?
  {
    HeldMember(m.queue, t);
    LookupIs(m, t);
  }

  /** A dead timer refuses to be cancelled or refreshed, and a reset that would change it. */
  lemma DeadRefuses<T, C>(m: Manager<T, C>, t: T, ms: nat, fromNow: bool, now: int)
    requires Valid(m) && Dead(m, t)
    ensures Known(m, t) && !Cancel(m, t).ok && !Refresh(m, t, now).ok
    ensures Reset(m, t, ms, fromNow, now).ok ==> ms == m.others[t].ms && !fromNow
    ensures Cancel(m, t).m == m && Refresh(m, t, now).m == m && Reset(m, t, ms, fromNow, now).m == m
  {
    DeadIsOut(m, t);
    LookupIs(m, t);
  }

  lemma ChangeLives<T, C>(m: Manager<T, C>, m': Manager<T, C>, e: Timer<T, C>, inSet: bool, t: T)
    requires AllLive(m) && Changes(m, m', e, inSet) && (inSet ==> e.cb.Some?)
    ensures AllLive(m') && (Dead(m, t) && t != e.id ==> Dead(m', t))
    ensures !inSet && e.cb.None? ==> Dead(m', e.id)
  {
    LookupIs(m', e.id);
  }

  lemma CancelLives<T, C>(m: Manager<T, C>, u: T, t: T)
    requires AllLive(m) && Known(m, u)
    ensures AllLive(Cancel(m, u).m) && (Cancel(m, u).ok ==> Dead(Cancel(m, u).m, u))
    ensures Dead(m, t) ==> Dead(Cancel(m, u).m, t)
  {
    if Cancel(m, u).ok {
      CancelChanges(m, u);
      LookupIs(m, u);
      ChangeLives(m, Cancel(m, u).m, Lookup(m, u).(cb := None), false, t);
    }
  }

  lemma MoveLives<T, C>(m: Manager<T, C>, u: T, e: Timer<T, C>, t: T)
    requires AllLive(m) && Known(m, u) && e.id == Lookup(m, u).id && e.cb == Lookup(m, u).cb
    ensures Lookup(m, u).cb.Some? ==> AllLive(Attach(DetachAt(m, Lookup(m, u).next), e))
    ensures Lookup(m, u).cb.Some? && Dead(m, t) ==> Dead(Attach(DetachAt(m, Lookup(m, u).next), e), t)
  {
    LookupIs(m, u);
    if Lookup(m, u).cb.Some? {
      MoveChanges(m, u, e);
      ChangeLives(m, Attach(DetachAt(m, Lookup(m, u).next), e), e, true, t);
      if Dead(m, u) {
        DeadIsOut(m, u);
      }
    }
  }

  lemma CollectLives<T, C>(m: Manager<T, C>, now: int, checked: int, t: T)
    requires AllLive(m) && Drain.TrapFree(m.queue, now, RolledOver(m, checked))
    ensures AllLive(Collect(m, now, checked).m)
    ensures Dead(m, t) ==> Dead(Collect(m, now, checked).m, t)
  {
    CollectWorks(m, now, checked);
    forall y | y in Collect(m, now, checked).m.queue ensures y.cb.Some? {
      assert Drain.Stays(m.queue, y, now, RolledOver(m, checked));
      var x :| x in m.queue && Drain.BecomesElement(m.queue, x, y, now, RolledOver(m, checked));
    }
  }

  lemma CreateLives<T, C>(m: Manager<T, C>, e: Timer<T, C>, t: T)
    requires AllLive(m) && !Known(m, e.id) && e.cb.Some?
    ensures AllLive(AddTimer(m, e).m) && (Dead(m, t) ==> Dead(AddTimer(m, e).m, t))
  {
    AttachChanges(m, e);
    ChangeLives(m, Attach(m, e), e, true, t);
  }

  lemma RefreshLives<T, C>(m: Manager<T, C>, u: T, now: int, t: T)
    requires AllLive(m) && Known(m, u)
    ensures AllLive(Refresh(m, u, now).m) && (Dead(m, t) ==> Dead(Refresh(m, u, now).m, t))
  {
    MoveLives(m, u, Lookup(m, u).Armed(now), t);
  }

  lemma ResetLives<T, C>(m: Manager<T, C>, u: T, ms: nat, fromNow: bool, now: int, t: T)
    requires AllLive(m) && Known(m, u)
    ensures AllLive(Reset(m, u, ms, fromNow, now).m) && (Dead(m, t) ==> Dead(Reset(m, u, ms, fromNow, now).m, t))
  {
    var x, m' := Lookup(m, u), Reset(m, u, ms, fromNow, now).m;
    if m' != m {
      var m1 := Attach(DetachAt(m, x.next), Restarted(x, ms, fromNow, now));
      MoveLives(m, u, Restarted(x, ms, fromNow, now), t);
      TickleLives(m1, m'.tickled, t);
      assert m' == m1.(tickled := m'.tickled);
    }
  }

  lemma TickleLives<T, C>(m: Manager<T, C>, flag: bool, t: T)
    requires AllLive(m)
    ensures AllLive(m.(tickled := flag)) && (Dead(m, t) ==> Dead(m.(tickled := flag), t))
  {
  }

  /** A successful cancel kills the timer; no call revives one; the set never holds a timer
      without its callback. */
  lemma CallLives<T, C>(m: Manager<T, C>, op: Op<T, C>, now: int, t: T)
    requires AllLive(m) && Allowed(m, op, now)
    ensures AllLive(Apply(m, op, now).m) && (Dead(m, t) ==> Dead(Apply(m, op, now).m, t))
    ensures op == Cancelling(t) && Apply(m, op, now).ok ==> Dead(Apply(m, op, now).m, t)
  {
    match op
    case Create(u, made, ms, code, recurring) => CreateLives(m, Fresh(u, made, ms, code, recurring), t);
    case Cancelling(u) => CancelLives(m, u, t);
    case Refreshing(u) => RefreshLives(m, u, now, t);
    case Resetting(u, ms, fromNow) => ResetLives(m, u, ms, fromNow, now, t);
    case Peeking =>
    case Collecting(read, checked) => CollectLives(m, read, checked, t);
  }

  /** A drain collects one callback for each due timer of the set and for no other. */
  lemma CollectFires<T, C>(m: Manager<T, C>, now: int, checked: int)
    requires AllLive(m) && Drain.TrapFree(m.queue, now, RolledOver(m, checked))
    ensures var r, k := Collect(m, now, checked), Drain.Due(m.queue, now, RolledOver(m, checked));
      && |r.fired| == k
      && (forall i :: 0 <= i < k ==> r.fired[i] == m.queue[i].cb && r.fired[i].Some?)
      && (forall i :: 0 <= i < |m.queue| ==> (i < k <==> Drain.Reached(m.queue[i].next, now, RolledOver(m, checked))))
  {
    var roll := RolledOver(m, checked);
    var k := Drain.Due(m.queue, now, roll);
    Drain.FiresTheDue(Drain.State(m.queue, [], []), now, roll);
    forall i | 0 <= i < k ensures m.queue[..k][i] == m.queue[i] && m.queue[i].cb.Some? {
      assert m.queue[i] in m.queue;
    }
    forall i | k <= i < |m.queue| && !roll ensures now < m.queue[i].next {
      assert i > k ==> m.queue[k].next < m.queue[i].next;
    }
  }

  /** ... and leaves the one-shots among them dead. */
  lemma CollectKills<T, C>(m: Manager<T, C>, now: int, checked: int, x: Timer<T, C>)
    requires AllLive(m) && Drain.TrapFree(m.queue, now, RolledOver(m, checked))
    requires x in m.queue && !x.recurring && Drain.Reached(x.next, now, RolledOver(m, checked))
    ensures Dead(Collect(m, now, checked).m, x.id)
  {
    CollectWorks(m, now, checked);
    var roll := RolledOver(m, checked);
    assert Drain.BecomesDetached(m.queue, x, x.(cb := None), now, roll);
    assert Drain.Leaves(m.queue, x.(cb := None), now, roll);
  }

  /** Once dead, a timer stays dead and out of the set, whatever is called afterwards. */
  lemma {:induction false} DeadForever<T, C>(m: Manager<T, C>, calls: seq<Call<T, C>>, clock: int, t: T)
    requires AllLive(m) && AllowedRun(m, calls, clock) && Dead(m, t)
    ensures AllLive(After(m, calls, clock)) && Dead(After(m, calls, clock), t)
    ensures !Holds(After(m, calls, clock).queue, t)
    decreases calls
  {
    if calls == [] {
      DeadIsOut(m, t);
    } else {
      CallLives(m, calls[0].op, calls[0].now, t);
      DeadForever(Apply(m, calls[0].op, calls[0].now).m, calls[1..], calls[0].now, t);
    }
  }

  /** cancel returns true at most once for a timer, and refresh returns false ever after. */
  lemma CancelledOnce<T, C>(m: Manager<T, C>, t: T, calls: seq<Call<T, C>>, clock: int, now: int)
    requires AllLive(m) && Known(m, t) && Cancel(m, t).ok && AllowedRun(Cancel(m, t).m, calls, clock)
    ensures var m' := After(Cancel(m, t).m, calls, clock);
      && Known(m', t) && !Holds(m'.queue, t) && !Cancel(m', t).ok && !Refresh(m', t, now).ok
  {
    CallLives(m, Cancelling(t), clock, t);
    DeadForever(Cancel(m, t).m, calls, clock, t);
    DeadRefuses(After(Cancel(m, t).m, calls, clock), t, 0, true, now);
  }

  // ----- The clock -----

  /** When the current period of a timer began. */
  function Began<T, C>(x: Timer<T, C>): int {
    x.next - x.ms * TICKS_PER_MS
  }

  ghost predicate BegunBy<T, C>(m: Manager<T, C>, clock: int) {
    && Valid(m)
    && (forall x :: x in m.queue ==> Began(x) <= clock)
    && (forall t :: t in m.others ==> Began(m.others[t]) <= clock)
  }

  lemma ChangeBegins<T, C>(m: Manager<T, C>, m': Manager<T, C>, e: Timer<T, C>, inSet: bool, clock: int, now: int)
    requires BegunBy(m, clock) && clock <= now && Changes(m, m', e, inSet) && Began(e) <= now
    ensures BegunBy(m', now)
  {
  }

  lemma KnownBegan<T, C>(m: Manager<T, C>, t: T, clock: int)
    requires BegunBy(m, clock) && Known(m, t)
    ensures Began(Lookup(m, t)) <= clock && Lookup(m, t).id == t
  {
    LookupIs(m, t);
  }

  lemma MoveBegins<T, C>(m: Manager<T, C>, t: T, e: Timer<T, C>, clock: int, now: int)
    requires BegunBy(m, clock) && clock <= now && Known(m, t) && e.id == Lookup(m, t).id && Began(e) <= now
    ensures BegunBy(Attach(DetachAt(m, Lookup(m, t).next), e), now)
  {
    LookupIs(m, t);
    MoveChanges(m, t, e);
    ChangeBegins(m, Attach(DetachAt(m, Lookup(m, t).next), e), e, true, clock, now);
  }

  lemma CollectBegins<T, C>(m: Manager<T, C>, clock: int, read: int, checked: int, now: int)
    requires BegunBy(m, clock) && clock <= now && read <= now
    requires Drain.TrapFree(m.queue, read, RolledOver(m, checked))
    ensures BegunBy(Collect(m, read, checked).m, now)
  {
    var m', roll := Collect(m, read, checked).m, RolledOver(m, checked);
    CollectWorks(m, read, checked);
    forall y | y in m'.queue ensures Began(y) <= now {
      assert Drain.Stays(m.queue, y, read, roll);
      var x :| x in m.queue && Drain.BecomesElement(m.queue, x, y, read, roll);
    }
    forall t | t in m'.others && t !in m.others ensures Began(m'.others[t]) <= now {
      assert Drain.Leaves(m.queue, m'.others[t], read, roll);
      var x :| x in m.queue && Drain.BecomesDetached(m.queue, x, m'.others[t], read, roll);
    }
  }

  lemma CreateBegins<T, C>(m: Manager<T, C>, e: Timer<T, C>, clock: int, now: int)
    requires BegunBy(m, clock) && clock <= now && !Known(m, e.id) && Began(e) <= now
    ensures BegunBy(AddTimer(m, e).m, now)
  {
    AttachChanges(m, e);
    ChangeBegins(m, Attach(m, e), e, true, clock, now);
  }

  lemma CancelBegins<T, C>(m: Manager<T, C>, t: T, clock: int, now: int)
    requires BegunBy(m, clock) && clock <= now && Known(m, t)
    ensures BegunBy(Cancel(m, t).m, now)
  {
    KnownBegan(m, t, clock);
    if Cancel(m, t).ok {
      CancelChanges(m, t);
      ChangeBegins(m, Cancel(m, t).m, Lookup(m, t).(cb := None), false, clock, now);
    }
  }

  lemma TickleBegins<T, C>(m: Manager<T, C>, flag: bool, clock: int, now: int)
    requires BegunBy(m, clock) && clock <= now
    ensures BegunBy(m.(tickled := flag), now)
  {
  }

  lemma ResetBegins<T, C>(m: Manager<T, C>, t: T, ms: nat, fromNow: bool, clock: int, now: int)
    requires BegunBy(m, clock) && clock <= now && Known(m, t)
    ensures BegunBy(Reset(m, t, ms, fromNow, now).m, now)
  {
    var x, m' := Lookup(m, t), Reset(m, t, ms, fromNow, now).m;
    if (ms == x.ms && !fromNow) || x.cb.None? || !Found(m.queue, x.next) {
      TickleBegins(m, m.tickled, clock, now);
    } else {
      var e := Restarted(x, ms, fromNow, now);
      KnownBegan(m, t, clock);
      MoveBegins(m, t, e, clock, now);
      TickleBegins(Attach(DetachAt(m, x.next), e), m'.tickled, now, now);
    }
  }

  lemma CallBegins<T, C>(m: Manager<T, C>, op: Op<T, C>, clock: int, now: int)
    requires BegunBy(m, clock) && clock <= now && Allowed(m, op, now)
    ensures BegunBy(Apply(m, op, now).m, now)
  {
    match op
    case Create(t, made, ms, code, recurring) => CreateBegins(m, Fresh(t, made, ms, code, recurring), clock, now);
    case Cancelling(t) => CancelBegins(m, t, clock, now);
    case Refreshing(t) => MoveBegins(m, t, Lookup(m, t).Armed(now), clock, now);
    case Resetting(t, ms, fromNow) => ResetBegins(m, t, ms, fromNow, clock, now);
    case Peeking =>
    case Collecting(read, checked) => CollectBegins(m, clock, read, checked, now);
  }

  function LastClock<T, C>(calls: seq<Call<T, C>>, clock: int): int {
    if calls == [] then clock else calls[|calls| - 1].now
  }

  /** With a monotone clock no period begins in the future, after any run of calls. */
  lemma {:induction false} RunBegins<T, C>(m: Manager<T, C>, calls: seq<Call<T, C>>, clock: int)
    requires BegunBy(m, clock) && AllowedRun(m, calls, clock)
    ensures BegunBy(After(m, calls, clock), LastClock(calls, clock))
    decreases calls
  {
    if calls != [] {
      CallBegins(m, calls[0].op, clock, calls[0].now);
      RunBegins(Apply(m, calls[0].op, calls[0].now).m, calls[1..], calls[0].now);
    }
  }

  /** Hence refresh only ever postpones. */
  lemma RefreshPostpones<T, C>(m: Manager<T, C>, t: T, clock: int, now: int)
    requires BegunBy(m, clock) && clock <= now && Known(m, t)
    ensures var m' := Refresh(m, t, now).m;
      Known(m', t) && Lookup(m, t).next <= Lookup(m', t).next
  {
    KnownBegan(m, t, clock);
    MoveChanges(m, t, Lookup(m, t).Armed(now));
  }
}
