/** What each call makes of every timer, in deadlines and milliseconds: the deadline, period and callback
    that a timer has afterwards, whether it is in the set, and whether the front hook runs. The clock
    counts nanoseconds, so a millisecond is 1_000_000 and an hour 3_600_000_000_000. */
module TimerEffects {
  import opened Options
  import opened DeadlineSet
  import opened TimerModel
  import opened TimerLaws
  import Drain

  /** Timer u has kept its value, and its place in the set unless it was the one at deadline d. */
  ghost predicate Keeps<T, C>(m: Manager<T, C>, m': Manager<T, C>, u: T, d: int) {
    Known(m, u) ==>
      && Known(m', u) && Lookup(m', u) == Lookup(m, u)
      && (Holds(m'.queue, u) <==> Holds(m.queue, u) && Lookup(m, u).next != d)
  }

  /** Timer u has kept its value and its place. */
  ghost predicate Unmoved<T, C>(m: Manager<T, C>, m': Manager<T, C>, u: T) {
    Known(m, u) ==>
      Known(m', u) && Lookup(m', u) == Lookup(m, u) && (Holds(m'.queue, u) <==> Holds(m.queue, u))
  }

  /** Some timer of the set other than the one at deadline d has deadline e. */
  ghost predicate TakenBeside<T, C>(m: Manager<T, C>, d: int, e: int) {
    exists x :: x in m.queue && x.next != d && x.next == e
  }

  /** No timer of the set but the one at deadline d is earlier than e. */
  ghost predicate FirstBeside<T, C>(m: Manager<T, C>, d: int, e: int) {
    forall x :: x in m.queue && x.next != d ==> e <= x.next
  }

  // ----- Values and places -----

  lemma ValueIs<T, C>(m: Manager<T, C>, t: T)
    requires Valid(m)
    ensures Known(m, t) ==>
      if Holds(m.queue, t) then Lookup(m, t) in m.queue && Lookup(m, t).id == t
      else t in m.others && Lookup(m, t) == m.others[t]
    ensures Holds(m.queue, t) <==> exists x :: x in m.queue && x.id == t
    ensures forall x :: x in m.queue && x.id == t ==> Lookup(m, t) == x
  {
    HeldMember(m.queue, t);
    if Known(m, t) {
      LookupIs(m, t);
    }
  }

  lemma DetachKeeps<T, C>(m: Manager<T, C>, d: int, u: T)
    requires Valid(m)
    ensures Keeps(m, DetachAt(m, d), u, d) && Valid(DetachAt(m, d))
  {
    DetachWorks(m, d);
    ValueIs(m, u);
    ValueIs(DetachAt(m, d), u);
  }

  lemma AttachKeeps<T, C>(m: Manager<T, C>, e: Timer<T, C>, u: T)
    requires Valid(m) && !Holds(m.queue, e.id) && u != e.id
    ensures Unmoved(m, Attach(m, e), u)
  {
    AttachWorks(m, e);
    ValueIs(m, u);
    ValueIs(Attach(m, e), u);
  }

  lemma AttachPlaces<T, C>(m: Manager<T, C>, e: Timer<T, C>)
    requires Valid(m) && !Holds(m.queue, e.id)
    ensures var m' := Attach(m, e);
      Known(m', e.id) && Lookup(m', e.id) == e && (Holds(m'.queue, e.id) <==> !Occupied(m.queue, e.next))
  {
    AttachWorks(m, e);
    ValueIs(m, e.id);
    ValueIs(Attach(m, e), e.id);
  }

  lemma TickleKeeps<T, C>(m: Manager<T, C>, flag: bool, u: T)
    ensures Unmoved(m, m.(tickled := flag), u)
    ensures Known(m, u) <==> Known(m.(tickled := flag), u)
  {
  }

  lemma FrontIs<T, C>(m: Manager<T, C>, d: int)
    requires Ascending(m.queue)
    ensures LowerBound(m.queue, d) == 0 <==> forall x :: x in m.queue ==> d <= x.next
  {
    if m.queue != [] {
      assert m.queue[0] in m.queue;
    }
  }

  // ----- A new timer -----

  /** addTimer: the timer made has its deadline one period after the reading of the clock, the given period,
      kind and callback. It is in the set if and only if its deadline was free; the front hook runs if and
      only if nothing in the set is earlier and it has not run since the flag was lowered; no other timer
      notices. */
  lemma CreateEffect<T, C>(m: Manager<T, C>, t: T, made: int, ms: nat, code: C, recurring: bool, now: int)
    requires Valid(m) && Allowed(m, Create(t, made, ms, code, recurring), now)
    ensures var r := Apply(m, Create(t, made, ms, code, recurring), now); var d := made + ms * 1_000_000;
      && Known(r.m, t) && Lookup(r.m, t) == Timer(t, d, ms, recurring, Some(code))
      && (Holds(r.m.queue, t) <==> forall x :: x in m.queue ==> x.next != d)
      && (r.front <==> !m.tickled && forall x :: x in m.queue ==> d <= x.next)
      && r.m.tickled == (m.tickled || r.front)
      && forall u :: u != t ==> Unmoved(m, r.m, u)
  {
    var e := Fresh(t, made, ms, code, recurring);
    var r := AddTimer(m, e);
    AttachPlaces(m, e);
    FrontIs(m, e.next);
    TickleKeeps(Attach(m, e), r.m.tickled, t);
    forall u | u != t ensures Unmoved(m, r.m, u) {
      AttachKeeps(m, e, u);
      TickleKeeps(Attach(m, e), r.m.tickled, u);
    }
  }

  // ----- Moving a timer -----

  lemma MoveEffect<T, C>(m: Manager<T, C>, t: T, e: Timer<T, C>)
    requires Valid(m) && Known(m, t) && e.id == t
    ensures var d := Lookup(m, t).next; var m' := Attach(DetachAt(m, d), e);
      && Known(m', t) && Lookup(m', t) == e && (Holds(m'.queue, t) <==> !TakenBeside(m, d, e.next))
      && forall u :: u != t ==> Keeps(m, m', u, d)
  {
    var d := Lookup(m, t).next;
    var m1 := DetachAt(m, d);
    DetachedOwn(m, t);
    DetachWorks(m, d);
    AttachPlaces(m1, e);
    forall u | u != t ensures Keeps(m, Attach(m1, e), u, d) {
      DetachKeeps(m, d, u);
      AttachKeeps(m1, e, u);
    }
  }

  /** refresh moves a timer that has its callback, and whose deadline is one of the set, to one period from
      now; nothing else of it changes. Any other refresh fails and changes nothing. */
  lemma RefreshEffect<T, C>(m: Manager<T, C>, t: T, now: int)
    requires Valid(m) && Known(m, t)
    ensures var x, r := Lookup(m, t), Refresh(m, t, now); var d := now + x.ms * 1_000_000;
      && (r.ok <==> x.cb.Some? && Occupied(m.queue, x.next)) && !r.front
      && if r.ok then
           && Known(r.m, t) && Lookup(r.m, t) == Timer(t, d, x.ms, x.recurring, x.cb)
           && (Holds(r.m.queue, t) <==> !TakenBeside(m, x.next, d))
           && r.m.tickled == m.tickled && forall u :: u != t ==> Keeps(m, r.m, u, x.next)
         else r.m == m
  {
    var x := Lookup(m, t);
    RefreshIs(m, t, now);
    if Refresh(m, t, now).ok {
      var e := Timer(t, now + x.ms * 1_000_000, x.ms, x.recurring, x.cb);
      MoveEffect(m, t, e);
      StaysTickled(m, x.next, e);
    }
  }

  lemma RefreshIs<T, C>(m: Manager<T, C>, t: T, now: int)
    requires Valid(m) && Known(m, t)
    ensures var x, r := Lookup(m, t), Refresh(m, t, now);
      var e := Timer(t, now + x.ms * 1_000_000, x.ms, x.recurring, x.cb);
      && (r.ok <==> x.cb.Some? && Occupied(m.queue, x.next)) && !r.front
      && r.m == if r.ok then Attach(DetachAt(m, x.next), e) else m
  {
    LookupIs(m, t);
    ArmedIs(Lookup(m, t), now);
    FoundIffOccupied(m.queue, Lookup(m, t).next);
    RefreshForm(m, t, now);
  }

  lemma ArmedIs<T, C>(x: Timer<T, C>, now: int)
    ensures x.Armed(now) == Timer(x.id, now + x.ms * 1_000_000, x.ms, x.recurring, x.cb)
  {
  }

  lemma RefreshForm<T, C>(m: Manager<T, C>, t: T, now: int)
    requires Known(m, t)
    ensures var x, r := Lookup(m, t), Refresh(m, t, now);
      && (r.ok <==> x.cb.Some? && Found(m.queue, x.next)) && !r.front
      && r.m == if r.ok then Attach(DetachAt(m, x.next), x.Armed(now)) else m
  {
  }

  lemma StaysTickled<T, C>(m: Manager<T, C>, d: int, e: Timer<T, C>)
    ensures Attach(DetachAt(m, d), e).tickled == m.tickled
  {
  }

  /** reset gives the timer the new period, counted from now or from where the old one began: then its
      deadline moves by the difference of the periods. Identity, kind and callback stay. The front hook runs
      if and only if nothing else in the set is earlier and it has not run since the flag was lowered. An
      unchanged period not counted from now is no change; a timer without its callback, or whose deadline is
      none of the set, is refused. */
  lemma ResetEffect<T, C>(m: Manager<T, C>, t: T, ms: nat, fromNow: bool, now: int)
    requires Valid(m) && Known(m, t)
    ensures var x, r := Lookup(m, t), Reset(m, t, ms, fromNow, now);
      var d := if fromNow then now + ms * 1_000_000 else x.next + (ms - x.ms) * 1_000_000;
      if ms == x.ms && !fromNow then r.ok && !r.front && r.m == m
      else if x.cb.None? || !Occupied(m.queue, x.next) then !r.ok && !r.front && r.m == m
      else
        && r.ok && Known(r.m, t) && Lookup(r.m, t) == Timer(t, d, ms, x.recurring, x.cb)
        && (Holds(r.m.queue, t) <==> !TakenBeside(m, x.next, d))
        && (r.front <==> !m.tickled && FirstBeside(m, x.next, d))
        && r.m.tickled == (m.tickled || r.front)
        && forall u :: u != t ==> Keeps(m, r.m, u, x.next)
  {
    var x, r := Lookup(m, t), Reset(m, t, ms, fromNow, now);
    LookupIs(m, t);
    FoundIffOccupied(m.queue, x.next);
    if !(ms == x.ms && !fromNow) && x.cb.Some? && Occupied(m.queue, x.next) {
      ResetMoves(m, t, ms, fromNow, now);
    }
  }

  lemma ResetIs<T, C>(m: Manager<T, C>, t: T, ms: nat, fromNow: bool, now: int)
    requires Valid(m) && Known(m, t) && !(ms == Lookup(m, t).ms && !fromNow)
    requires Lookup(m, t).cb.Some? && Found(m.queue, Lookup(m, t).next)
    ensures var x := Lookup(m, t);
      var d := if fromNow then now + ms * 1_000_000 else x.next + (ms - x.ms) * 1_000_000;
      Reset(m, t, ms, fromNow, now) == AddTimer(DetachAt(m, x.next), Timer(t, d, ms, x.recurring, x.cb))
  {
    LookupIs(m, t);
  }

  lemma AddBack<T, C>(m: Manager<T, C>, t: T, e: Timer<T, C>)
    requires Valid(m) && Known(m, t) && e.id == t
    ensures var d := Lookup(m, t).next; var r := AddTimer(DetachAt(m, d), e);
      && r.ok && Known(r.m, t) && Lookup(r.m, t) == e
      && (Holds(r.m.queue, t) <==> !TakenBeside(m, d, e.next))
      && forall u :: u != t ==> Keeps(m, r.m, u, d)
  {
    var d := Lookup(m, t).next;
    var m' := Attach(DetachAt(m, d), e);
    var flag := AddTimer(DetachAt(m, d), e).m.tickled;
    MoveEffect(m, t, e);
    TickleKeeps(m', flag, t);
    forall u | u != t ensures Keeps(m, m'.(tickled := flag), u, d) {
      KeepsTickled(m, m', flag, u, d);
    }
  }

  lemma KeepsTickled<T, C>(m: Manager<T, C>, m': Manager<T, C>, flag: bool, u: T, d: int)
    requires Keeps(m, m', u, d)
    ensures Keeps(m, m'.(tickled := flag), u, d)
  {
    TickleKeeps(m', flag, u);
  }

  lemma AddBackFront<T, C>(m: Manager<T, C>, d: int, e: Timer<T, C>)
    requires Valid(m)
    ensures var r := AddTimer(DetachAt(m, d), e);
      (r.front <==> !m.tickled && FirstBeside(m, d, e.next)) && r.m.tickled == (m.tickled || r.front)
  {
    DetachWorks(m, d);
    FrontIs(DetachAt(m, d), e.next);
  }

  lemma ResetMoves<T, C>(m: Manager<T, C>, t: T, ms: nat, fromNow: bool, now: int)
    requires Valid(m) && Known(m, t) && !(ms == Lookup(m, t).ms && !fromNow)
    requires Lookup(m, t).cb.Some? && Found(m.queue, Lookup(m, t).next)
    ensures var x, r := Lookup(m, t), Reset(m, t, ms, fromNow, now);
      var d := if fromNow then now + ms * 1_000_000 else x.next + (ms - x.ms) * 1_000_000;
      && r.ok && Known(r.m, t) && Lookup(r.m, t) == Timer(t, d, ms, x.recurring, x.cb)
      && (Holds(r.m.queue, t) <==> !TakenBeside(m, x.next, d))
      && (r.front <==> !m.tickled && FirstBeside(m, x.next, d))
      && r.m.tickled == (m.tickled || r.front)
      && forall u :: u != t ==> Keeps(m, r.m, u, x.next)
  {
    var x := Lookup(m, t);
    var d := if fromNow then now + ms * 1_000_000 else x.next + (ms - x.ms) * 1_000_000;
    ResetIs(m, t, ms, fromNow, now);
    AddBack(m, t, Timer(t, d, ms, x.recurring, x.cb));
    AddBackFront(m, x.next, Timer(t, d, ms, x.recurring, x.cb));
  }

  // ----- Cancelling -----

  /** cancel succeeds exactly for a timer that has its callback, which it loses, and nothing else of it; what
      the set has at its deadline leaves the set. A cancel that fails changes nothing. */
  lemma CancelEffect<T, C>(m: Manager<T, C>, t: T)
    requires Valid(m) && Known(m, t)
    ensures var x, r := Lookup(m, t), Cancel(m, t);
      && (r.ok <==> x.cb.Some?) && !r.front
      && if r.ok then
           && Known(r.m, t) && Lookup(r.m, t) == Timer(t, x.next, x.ms, x.recurring, None)
           && !Holds(r.m.queue, t) && r.m.tickled == m.tickled
           && forall u :: u != t ==> Keeps(m, r.m, u, x.next)
         else r.m == m
  {
    var x, m' := Lookup(m, t), Cancel(m, t).m;
    LookupIs(m, t);
    if x.cb.Some? {
      DetachedOwn(m, t);
      DetachWorks(m, x.next);
      CancelChanges(m, t);
      forall u | u != t ensures Keeps(m, m', u, x.next) {
        DetachKeeps(m, x.next, u);
      }
    }
  }

  // ----- Waiting -----

  /** getNextTimer: all 64 bits set without timers, otherwise the whole milliseconds to the earliest
      deadline, and 0 once it is due. */
  lemma TimeoutExact<T, C>(q: seq<Timer<T, C>>, now: int)
    requires Ascending(q)
    ensures var t := NextTimeout(q, now);
      if q == [] then t == 0xFFFF_FFFF_FFFF_FFFF
      else
        && (forall x :: x in q ==> q[0].next <= x.next)
        && if q[0].next <= now then t == 0 else t * 1_000_000 <= q[0].next - now < (t + 1) * 1_000_000
  {
  }

  /** It lowers the flag and changes no timer; the next timer made that is due before all others runs the hook. */
  lemma PeekEffect<T, C>(m: Manager<T, C>, t: T, made: int, ms: nat, code: C, recurring: bool, now: int)
    requires Valid(m) && Allowed(m, Create(t, made, ms, code, recurring), now)
    ensures var r := Apply(m, Peeking, now);
      && !r.front && r.m == m.(tickled := false) && Valid(r.m)
      && Allowed(r.m, Create(t, made, ms, code, recurring), now)
      && (Apply(r.m, Create(t, made, ms, code, recurring), now).front <==>
            forall x :: x in m.queue ==> made + ms * 1_000_000 <= x.next)
  {
    TickledValid(m, false);
    TickleKeeps(m, false, t);
    CreateEffect(m.(tickled := false), t, made, ms, code, recurring, now);
  }

  // ----- Collecting -----

  /** The loop of listExpiredCb reaches x: its deadline is not after the reading, or the clock has gone back
      by more than an hour since the last one. */
  ghost predicate DueIn<T, C>(m: Manager<T, C>, x: Timer<T, C>, read: int, checked: int) {
    x in m.queue && (x.next <= read || m.previous - checked > 3_600_000_000_000)
  }

  /** What a drain makes of one timer. */
  ghost predicate Drained<T, C>(m: Manager<T, C>, m': Manager<T, C>, t: T, read: int, checked: int) {
    Known(m, t) ==>
      var x := Lookup(m, t);
      && Known(m', t)
      && if !DueIn(m, x, read, checked) then Lookup(m', t) == x && (Holds(m'.queue, t) <==> Holds(m.queue, t))
         else if x.recurring then Lookup(m', t) == Timer(t, read + x.ms * 1_000_000, x.ms, true, x.cb)
         else Lookup(m', t) == Timer(t, x.next, x.ms, false, None) && !Holds(m'.queue, t)
  }

  lemma ReachedIs<T, C>(m: Manager<T, C>, x: Timer<T, C>, read: int, checked: int)
    requires x in m.queue
    ensures Drain.Reached(x.next, read, RolledOver(m, checked)) <==> DueIn(m, x, read, checked)
  {
  }

  /** A drain fires one callback for each due timer, in order of deadlines, and for no other; it leaves the
      others as they are, gives each due recurring timer a deadline one period after the reading, and takes
      the callback of each due one-shot. */
  lemma CollectEffect<T, C>(m: Manager<T, C>, read: int, checked: int, now: int)
    requires Valid(m) && Allowed(m, Collecting(read, checked), now)
    ensures var r := Apply(m, Collecting(read, checked), now);
      && r.m.previous == checked && r.m.tickled == m.tickled
      && (forall t :: Drained(m, r.m, t, read, checked))
      && |r.fired| <= |m.queue|
      && (forall i :: 0 <= i < |r.fired| ==> r.fired[i] == m.queue[i].cb)
      && forall i :: 0 <= i < |m.queue| ==> (i < |r.fired| <==> DueIn(m, m.queue[i], read, checked))
  {
    var r, roll := Collect(m, read, checked), RolledOver(m, checked);
    FiredExactly(m, read, checked);
    CollectWorks(m, read, checked);
    forall t ensures Drained(m, r.m, t, read, checked) {
      ValueIs(m, t);
      if Known(m, t) {
        if Holds(m.queue, t) {
          HeldDrained(m, Lookup(m, t), read, checked);
        } else {
          ApartDrained(m, t, read, checked);
        }
      }
    }
  }

  lemma FiredExactly<T, C>(m: Manager<T, C>, read: int, checked: int)
    requires Valid(m) && Drain.TrapFree(m.queue, read, RolledOver(m, checked))
    ensures var r := Collect(m, read, checked);
      && |r.fired| <= |m.queue|
      && (forall i :: 0 <= i < |r.fired| ==> r.fired[i] == m.queue[i].cb)
      && forall i :: 0 <= i < |m.queue| ==> (i < |r.fired| <==> DueIn(m, m.queue[i], read, checked))
  {
    var k := Drain.Due(m.queue, read, RolledOver(m, checked));
    Drain.FiresTheDue(Drain.State(m.queue, [], []), read, RolledOver(m, checked));
    FiredAre(m.queue, Collect(m, read, checked).fired, k);
    forall i | 0 <= i < |m.queue| ensures i < k <==> DueIn(m, m.queue[i], read, checked) {
      DueAre(m.queue, read, RolledOver(m, checked), i);
      ReachedIs(m, m.queue[i], read, checked);
    }
  }

  lemma FiredAre<T, C>(q: seq<Timer<T, C>>, fired: seq<Option<C>>, k: nat)
    requires k <= |q| && fired == [] + Drain.Callbacks(q[..k])
    ensures |fired| == k && forall i :: 0 <= i < k ==> fired[i] == q[i].cb
  {
  }

  lemma DueAre<T, C>(q: seq<Timer<T, C>>, read: int, roll: bool, i: nat)
    requires Ascending(q) && i < |q|
    ensures i < Drain.Due(q, read, roll) <==> Drain.Reached(q[i].next, read, roll)
  {
    var k := Drain.Due(q, read, roll);
    if i > k {
      assert q[k].next < q[i].next;
    }
  }

  /** A timer that is not in the set is not touched. */
  lemma ApartDrained<T, C>(m: Manager<T, C>, t: T, read: int, checked: int)
    requires Valid(m) && t in m.others && Drain.TrapFree(m.queue, read, RolledOver(m, checked))
    ensures Drained(m, Collect(m, read, checked).m, t, read, checked)
  {
    CollectWorks(m, read, checked);
    ValueIs(m, t);
    ValueIs(Collect(m, read, checked).m, t);
  }

  lemma HeldDrained<T, C>(m: Manager<T, C>, x: Timer<T, C>, read: int, checked: int)
    requires Valid(m) && x in m.queue && Drain.TrapFree(m.queue, read, RolledOver(m, checked))
    ensures Drained(m, Collect(m, read, checked).m, x.id, read, checked)
  {
    var m', roll := Collect(m, read, checked).m, RolledOver(m, checked);
    var y := if !Drain.Reached(x.next, read, roll) then x
             else if x.recurring then x.Armed(read) else x.(cb := None);
    CollectWorks(m, read, checked);
    ReachedIs(m, x, read, checked);
    ValueIs(m, x.id);
    assert Drain.BecomesElement(m.queue, x, y, read, roll) || Drain.BecomesDetached(m.queue, x, y, read, roll);
    assert y in m'.queue || (y.id in m'.others && m'.others[y.id] == y) by {
      if Drain.BecomesElement(m.queue, x, y, read, roll) {
        assert Drain.Stays(m.queue, y, read, roll);
      } else {
        assert Drain.Leaves(m.queue, y, read, roll);
      }
    }
    HeldMember(m'.queue, y.id);
    ValueIs(m', x.id);
  }

  lemma ReadingKept<T, C>(m: Manager<T, C>, op: Op<T, C>, now: int)
    requires Allowed(m, op, now)
    ensures Apply(m, op, now).m.previous == if op.Collecting? then op.checked else m.previous
  {
  }

  /** The readings of the drains come in the order of the calls. */
  ghost predicate Monotone<T, C>(calls: seq<Call<T, C>>, clock: int)
    decreases calls
  {
    calls == [] || (
      && (calls[0].op.Collecting? ==> clock <= calls[0].op.checked <= calls[0].now)
      && Monotone(calls[1..], calls[0].now))
  }

  lemma NeverEarly<T, C>(m: Manager<T, C>, read: int, checked: int)
    requires Valid(m) && Drain.TrapFree(m.queue, read, RolledOver(m, checked)) && m.previous <= checked
    ensures forall i :: 0 <= i < |m.queue| ==> (i < |Collect(m, read, checked).fired| <==> m.queue[i].next <= read)
  {
    FiredExactly(m, read, checked);
    forall i | 0 <= i < |m.queue| ensures DueIn(m, m.queue[i], read, checked) <==> m.queue[i].next <= read {
      assert m.queue[i] in m.queue;
    }
  }

  /** With a clock that does not go back there is never a rollover: after any run of calls, a drain fires
      what is due by its reading and nothing else. */
  lemma {:induction false} MonotoneNeverEarly<T, C>(m: Manager<T, C>, calls: seq<Call<T, C>>, clock: int,
                                                    read: int, checked: int, now: int)
    requires Valid(m) && m.previous <= clock && AllowedRun(m, calls, clock) && Monotone(calls, clock)
    requires Allowed(After(m, calls, clock), Collecting(read, checked), now)
    requires (if calls == [] then clock else calls[|calls| - 1].now) <= checked
    ensures var m' := After(m, calls, clock); var r := Apply(m', Collecting(read, checked), now);
      forall i :: 0 <= i < |m'.queue| ==> (i < |r.fired| <==> m'.queue[i].next <= read)
    decreases calls
  {
    if calls == [] {
      NeverEarly(m, read, checked);
    } else {
      var m1, rest := Apply(m, calls[0].op, calls[0].now).m, calls[1..];
      ReadingKept(m, calls[0].op, calls[0].now);
      ApplyValid(m, calls[0].op, calls[0].now);
      assert After(m, calls, clock) == After(m1, rest, calls[0].now);
      MonotoneNeverEarly(m1, rest, calls[0].now, read, checked, now);
    }
  }

  lemma ApplyValid<T, C>(m: Manager<T, C>, op: Op<T, C>, now: int)
    requires Valid(m) && Allowed(m, op, now)
    ensures Valid(Apply(m, op, now).m)
  {
    match op
    case Create(t, made, ms, code, recurring) =>
      AttachWorks(m, Fresh(t, made, ms, code, recurring));
      TickledValid(Attach(m, Fresh(t, made, ms, code, recurring)), Apply(m, op, now).m.tickled);
    case Cancelling(t) =>
      if Cancel(m, t).ok {
        CancelChanges(m, t);
      }
    case Refreshing(t) =>
      LookupIs(m, t);
      MoveChanges(m, t, Lookup(m, t).Armed(now));
    case Resetting(t, ms, fromNow) =>
      LookupIs(m, t);
      MoveChanges(m, t, Restarted(Lookup(m, t), ms, fromNow, now));
      MovedValid(m, t, ms, fromNow, now);
    case Peeking =>
    case Collecting(read, checked) => CollectWorks(m, read, checked);
  }

  lemma TickledValid<T, C>(m: Manager<T, C>, flag: bool)
    requires Valid(m)
    ensures Valid(m.(tickled := flag))
  {
  }

  lemma MovedValid<T, C>(m: Manager<T, C>, t: T, ms: nat, fromNow: bool, now: int)
    requires Valid(m) && Known(m, t)
    requires Valid(Attach(DetachAt(m, Lookup(m, t).next), Restarted(Lookup(m, t), ms, fromNow, now)))
    ensures Valid(Reset(m, t, ms, fromNow, now).m)
  {
  }
}
