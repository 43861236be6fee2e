/** Assigning to the fields of one timer, as a step on the timer model. */
module TimerValues {
  import opened Options
  import opened DeadlineSet
  import opened TimerModel
  import opened TimerLaws
  import Drain

  /** The timer e.id gets value e and stays where it is. */
  ghost function SetValue<T, C>(m: Manager<T, C>, e: Timer<T, C>): Manager<T, C> {
    var i := IndexOf(m.queue, e.id);
    if i < |m.queue| then m.(queue := m.queue[i := e]) else m.(others := m.others[e.id := e])
  }

  lemma SetKeepsValid<T, C>(m: Manager<T, C>, e: Timer<T, C>)
    requires Valid(m) && Known(m, e.id)
    requires Holds(m.queue, e.id) ==> Lookup(m, e.id).next == e.next
    ensures Valid(SetValue(m, e)) && Known(SetValue(m, e), e.id)
  {
    var i := IndexOf(m.queue, e.id);
    if i < |m.queue| {
      assert SetValue(m, e).queue[i].id == e.id;
    }
    forall x | x in SetValue(m, e).queue ensures x.id !in SetValue(m, e).others {
      var j :| 0 <= j < |m.queue| && SetValue(m, e).queue[j] == x;
      assert m.queue[j].id == x.id && m.queue[j] in m.queue;
      if i == |m.queue| {
        assert Holds(m.queue, x.id);
      }
    }
  }

  /** Emptying the callback and then erasing by deadline is cancel. */
  lemma CancelInParts<T, C>(m: Manager<T, C>, t: T)
    requires Valid(m) && Known(m, t) && Lookup(m, t).cb.Some?
    ensures var e := Lookup(m, t);
      DetachAt(SetValue(m, e.(cb := None)), e.next) == Cancel(m, t).m
  {
    LookupIs(m, t);
    if IndexOf(m.queue, t) < |m.queue| {
      CancelHeld(m, t);
    }
  }

  lemma CancelHeld<T, C>(m: Manager<T, C>, t: T)
    requires Valid(m) && Known(m, t) && Lookup(m, t).cb.Some? && IndexOf(m.queue, t) < |m.queue|
    ensures var e := Lookup(m, t);
      DetachAt(SetValue(m, e.(cb := None)), e.next) == Cancel(m, t).m
  {
    var e, i := Lookup(m, t), IndexOf(m.queue, t);
    var q := m.queue[i := e.(cb := None)];
    FoundItself(m.queue, i);
    SameBound(m.queue, q, e.next);
    assert Erase(q, e.next) == Erase(m.queue, e.next);
  }

  lemma DetachValid<T, C>(m: Manager<T, C>, d: int)
    requires Valid(m)
    ensures Valid(DetachAt(m, d))
  {
    DetachWorks(m, d);
  }

  lemma AttachValid<T, C>(m: Manager<T, C>, e: Timer<T, C>)
    requires Valid(m) && e.id in m.others
    ensures Valid(Attach(m, e))
  {
    HeldMember(m.queue, e.id);
    AttachWorks(m, e);
  }

  /** A timer nobody knows yet joins outside the set, and is inserted from there. */
  lemma JoinValid<T, C>(m: Manager<T, C>, e: Timer<T, C>)
    requires Valid(m) && !Known(m, e.id)
    ensures Valid(m.(others := m.others[e.id := e]))
  {
    HeldMember(m.queue, e.id);
  }

  lemma JoinAdds<T, C>(m: Manager<T, C>, e: Timer<T, C>)
    ensures AddTimer(m.(others := m.others[e.id := e]), e) == AddTimer(m, e)
  {
    assert m.others[e.id := e] - {e.id} == m.others - {e.id};
  }

  lemma AttachTaken<T, C>(m: Manager<T, C>, e: Timer<T, C>)
    requires Found(m.queue, e.next) && e.id in m.others && m.others[e.id] == e
    ensures Attach(m, e) == m
  {
  }

  lemma TickleValid<T, C>(m: Manager<T, C>, flag: bool)
    requires Valid(m)
    ensures Valid(m.(tickled := flag))
  {
  }

  /** Writing a timer that is outside the set, and then inserting it. */
  lemma AddAfterSet<T, C>(m: Manager<T, C>, e: Timer<T, C>)
    requires !Holds(m.queue, e.id) && e.id in m.others
    ensures Attach(SetValue(m, e), e) == Attach(m, e) && AddTimer(SetValue(m, e), e) == AddTimer(m, e)
  {
    assert IndexOf(m.queue, e.id) == |m.queue|;
    assert m.others[e.id := e] - {e.id} == m.others - {e.id};
  }

  /** After the erase of refresh or reset: the timer is outside, with the value it had. */
  lemma ErasedOwn<T, C>(m: Manager<T, C>, t: T)
    requires Valid(m) && Known(m, t)
    ensures var m1 := DetachAt(m, Lookup(m, t).next);
      Valid(m1) && !Holds(m1.queue, t) && Known(m1, t) && t in m1.others && m1.others[t] == Lookup(m, t)
  {
    DetachedOwn(m, t);
    LookupIs(m, t);
    DetachWorks(m, Lookup(m, t).next);
  }

  lemma RefreshInParts<T, C>(m: Manager<T, C>, t: T, now: int)
    requires Valid(m) && Known(m, t) && Lookup(m, t).cb.Some?
    ensures var x := Lookup(m, t); var m1 := DetachAt(m, x.next); var e := x.Armed(now);
      Refresh(m, t, now) ==
        if Found(m.queue, x.next) then Silent(Attach(SetValue(m1, e), e), true) else Silent(m1, false)
  {
    ErasedOwn(m, t);
    LookupIs(m, t);
    AddAfterSet(DetachAt(m, Lookup(m, t).next), Lookup(m, t).Armed(now));
  }

  lemma ResetInParts<T, C>(m: Manager<T, C>, t: T, ms: nat, fromNow: bool, now: int)
    requires Valid(m) && Known(m, t) && Lookup(m, t).cb.Some? && !(ms == Lookup(m, t).ms && !fromNow)
    ensures var x := Lookup(m, t); var m1 := DetachAt(m, x.next); var e := Restarted(x, ms, fromNow, now);
      Reset(m, t, ms, fromNow, now) ==
        if Found(m.queue, x.next) then AddTimer(SetValue(m1, e), e) else Silent(m1, false)
  {
    ErasedOwn(m, t);
    LookupIs(m, t);
    AddAfterSet(DetachAt(m, Lookup(m, t).next), Restarted(Lookup(m, t), ms, fromNow, now));
  }

  /** The manager after one turn of the drain loop: the head is taken out, and then re-armed or
      stripped of its callback. */
  ghost function AfterTurn<T, C>(m: Manager<T, C>, now: int): Manager<T, C>
    requires m.queue != []
  {
    var x := m.queue[0];
    var m1 := DetachAt(m, x.next);
    if x.recurring then Attach(m1, x.Armed(now)) else SetValue(m1, x.(cb := None))
  }

  lemma AfterTurnIs<T, C>(m: Manager<T, C>, now: int)
    requires Valid(m) && m.queue != []
    ensures var x := m.queue[0];
      && AfterTurn(m, now).queue == Drain.Turn(m.queue, now)
      && AfterTurn(m, now).others ==
        if !x.recurring then m.others[x.id := x.(cb := None)]
        else if Found(m.queue[1..], x.Armed(now).next) then m.others[x.id := x.Armed(now)]
        else m.others
  {
    var x := m.queue[0];
    FoundItself(m.queue, 0);
    assert Erase(m.queue, x.next) == m.queue[1..];
    var m1 := DetachAt(m, x.next);
    assert x in m.queue;
    assert m.others[x.id := x] - {x.id} == m.others;
    assert m.others[x.id := x][x.id := x.Armed(now)] == m.others[x.id := x.Armed(now)];
    HeadGone(m);
  }

  lemma HeadGone<T, C>(m: Manager<T, C>)
    requires Valid(m) && m.queue != []
    ensures IndexOf(m.queue[1..], m.queue[0].id) == |m.queue| - 1
  {
  }

  lemma {:induction false} AbsorbAppend<T, C>(others: map<T, Timer<T, C>>, gone: seq<Timer<T, C>>, g: Timer<T, C>)
    ensures Absorb(others, gone + [g]) == Absorb(others, gone)[g.id := g]
    decreases gone
  {
    if gone == [] {
      assert [] + [g] == [g];
    } else {
      AbsorbAppend(others[gone[0].id := gone[0]], gone[1..], g);
      assert (gone + [g])[1..] == gone[1..] + [g];
    }
  }

  lemma HeadDetached<T, C>(m: Manager<T, C>)
    requires Valid(m) && m.queue != []
    ensures var x := m.queue[0];
      DetachAt(m, x.next) == m.(queue := m.queue[1..], others := m.others[x.id := x])
  {
    FoundItself(m.queue, 0);
    assert m.queue[..0] + m.queue[1..] == m.queue[1..];
  }

  /** One turn of the loop, on the manager and on the state of the drain. */
  lemma TurnInRun<T, C>(others: map<T, Timer<T, C>>, m: Manager<T, C>, fired: seq<Option<C>>, gone: seq<Timer<T, C>>,
                        now: int, rollover: bool)
    requires Valid(m) && Drain.TrapFree(m.queue, now, rollover) && Drain.More(m.queue, now, rollover)
    requires m.others == Absorb(others, gone)
    ensures var s := Drain.State(m.queue, fired, gone); var s', m' := Drain.Step(s, now), AfterTurn(m, now);
      && s'.queue == m'.queue && s'.fired == fired + [m.queue[0].cb] && m'.others == Absorb(others, s'.gone)
      && Ascending(s'.queue) && Drain.TrapFree(s'.queue, now, rollover)
      && Drain.Due(s'.queue, now, rollover) < Drain.Due(m.queue, now, rollover)
      && Drain.Run(s', now, rollover) == Drain.Run(s, now, rollover)
  {
    var x := m.queue[0];
    AfterTurnIs(m, now);
    AbsorbAppend(others, gone, if x.recurring then x.Armed(now) else x.(cb := None));
    assert gone + [] == gone;
    Drain.TurnConsumes(m.queue, now, rollover);
  }
}
