/** The classes Timer and TimerManager, updated in place, against the timer model. The manager's
    lock makes each method one step; clock readings are parameters. */
module Timers {
  import opened Options
  import D = DeadlineSet
  import M = TimerModel
  import L = TimerLaws
  import V = TimerValues
  import Drain

  type Value<C> = D.Timer<Timer<C>, C>
  type Model<C> = M.Manager<Timer<C>, C>

  class Timer<C> {
    var next: int
    var ms: nat
    const recurring: bool
    var cb: Option<C>
    const manager: TimerManager<C>

    constructor (ms: nat, cb: Option<C>, recurring: bool, manager: TimerManager<C>, now: int)
      ensures this.manager == manager
      ensures Value() == D.Timer(this, now + ms * D.TICKS_PER_MS, ms, recurring, cb)
    {
      this.ms, this.cb, this.recurring, this.manager := ms, cb, recurring, manager;
      next := now + ms * D.TICKS_PER_MS;
    }

    ghost function Value(): Value<C>
      reads this
    {
      D.Timer(this, next, ms, recurring, cb)
    }

    method Cancel() returns (ok: bool)
      requires manager.Valid() && this in manager.all
      modifies this`cb, manager`timers
      ensures manager.Valid() && manager.all == old(manager.all)
      ensures var r := M.Cancel(old(manager.Model()), this); manager.Model() == r.m && ok == r.ok
    {
      ghost var m0 := manager.Model();
      manager.Knows(this);
      if cb.None? {
        return false;
      }
      label before: cb := None;
      manager.Wrote@before(this);
      var _ := manager.Erase(next);
      V.CancelInParts(m0, this);
      ok := true;
    }

    method Refresh(now: int) returns (ok: bool)
      requires manager.Valid() && this in manager.all
      modifies this`next, this`ms, manager`timers
      ensures manager.Valid() && manager.all == old(manager.all)
      ensures var r := M.Refresh(old(manager.Model()), this, now); manager.Model() == r.m && ok == r.ok
    {
      manager.Knows(this);
      if cb.None? {
        return false;
      }
      ghost var m0, x := manager.Model(), Value();
      ghost var r := M.Refresh(m0, this, now);
      V.RefreshInParts(m0, this, now);
      ok := EraseOwn();
      assert manager.Model() == M.DetachAt(m0, x.next);
      if ok {
        SetDeadline(ms, now + ms * D.TICKS_PER_MS);
        assert Value() == x.Armed(now);
        var _ := manager.Place(this);
      }
      assert manager.Model() == r.m;
    }

    /** The lock is dropped between the two halves of the source; here they are one step. */
    method Reset(ms: nat, fromNow: bool, now: int) returns (ok: bool, front: bool)
      requires manager.Valid() && this in manager.all
      modifies this`next, this`ms, manager`timers, manager`tickled
      ensures manager.Valid() && manager.all == old(manager.all)
      ensures var r := M.Reset(old(manager.Model()), this, ms, fromNow, now);
        manager.Model() == r.m && ok == r.ok && front == r.front
    {
      front := false;
      manager.Knows(this);
      if ms == this.ms && !fromNow {
        return true, false;
      }
      if cb.None? {
        return false, false;
      }
      ghost var m0, x := manager.Model(), Value();
      ghost var r := M.Reset(m0, this, ms, fromNow, now);
      V.ResetInParts(m0, this, ms, fromNow, now);
      ok := EraseOwn();
      assert manager.Model() == M.DetachAt(m0, x.next);
      if ok {
        front := StartAgain(ms, fromNow, now);
      }
      assert manager.Model() == r.m && front == r.front;
    }

    /** The second half of reset. */
    method StartAgain(ms: nat, fromNow: bool, now: int) returns (front: bool)
      requires manager.Valid() && this in manager.all && this !in manager.timers
      modifies this`next, this`ms, manager`timers, manager`tickled
      ensures manager.Valid() && manager.all == old(manager.all)
      ensures var e := M.Restarted(old(Value()), ms, fromNow, now);
        var r := M.AddTimer(V.SetValue(old(manager.Model()), e), e);
        manager.Model() == r.m && front == r.front
    {
      ghost var x := Value();
      var start := if fromNow then now else next - this.ms * D.TICKS_PER_MS;
      SetDeadline(ms, start + ms * D.TICKS_PER_MS);
      assert Value() == M.Restarted(x, ms, fromNow, now);
      front := manager.AddTimer(this);
    }

    /** Erase whatever the set finds at this timer's deadline; the timer itself is then outside. */
    method EraseOwn() returns (found: bool)
      requires manager.Valid() && this in manager.all
      modifies manager`timers
      ensures manager.Valid() && manager.all == old(manager.all) && this !in manager.timers
      ensures manager.Model() == M.DetachAt(old(manager.Model()), next)
      ensures found == D.Found(old(manager.Model()).queue, next)
    {
      manager.Knows(this);
      V.ErasedOwn(manager.Model(), this);
      found := manager.Erase(next);
      manager.Knows(this);
    }

    method SetDeadline(ms: nat, next: int)
      requires manager.Valid() && this in manager.all && this !in manager.timers
      modifies this`next, this`ms
      ensures manager.Valid() && Value() == old(Value()).(ms := ms, next := next)
      ensures manager.Model() == V.SetValue(old(manager.Model()), Value())
    {
      this.ms, this.next := ms, next;
      manager.Wrote(this);
    }
  }

  class TimerManager<C> {
    var timers: seq<Timer<C>>
    var tickled: bool
    var previous: int
    ghost var all: set<Timer<C>>

    ghost predicate Valid()
      reads this, all, timers
    {
      && (forall t :: t in timers ==> t in all)
      && (forall t :: t in all ==> t.manager == this)
      && M.Valid(Model())
    }

    ghost function Model(): Model<C>
      reads this, all, timers
    {
      M.Manager(Values(timers), Others(all, timers), tickled, previous)
    }

    /** The timers that are not in the set. */
    static ghost function Others(all: set<Timer<C>>, timers: seq<Timer<C>>): map<Timer<C>, Value<C>>
      reads all
    {
      map t | t in all && t !in timers :: t.Value()
    }

    static ghost function Values(s: seq<Timer<C>>): (q: seq<Value<C>>)
      reads s
      ensures |q| == |s| && forall i :: 0 <= i < |s| ==> q[i] == s[i].Value()
    {
      seq(|s|, i requires 0 <= i < |s| reads s => s[i].Value())
    }

    constructor (now: int)
      ensures Valid() && fresh(this)
      ensures Model() == M.Manager([], map[], false, now) && all == {}
    {
      timers, tickled, previous, all := [], false, now, {};
    }

    /** The position std::set gives deadline d. */
    static function Position(s: seq<Timer<C>>, d: int): (i: nat)
      reads s
      ensures i == D.LowerBound(Values(s), d)
    {
      assert s != [] ==> Values(s)[1..] == Values(s[1..]);
      if s == [] || d <= s[0].next then 0 else 1 + Position(s[1..], d)
    }

    lemma Distinct()
      requires Valid()
      ensures forall i, j :: 0 <= i < j < |timers| ==> timers[i] != timers[j]
    {
      assert forall i :: 0 <= i < |timers| ==> Model().queue[i].id == timers[i];
    }

    lemma Knows(t: Timer<C>)
      requires Valid() && t in all
      ensures M.Known(Model(), t) && M.Lookup(Model(), t) == t.Value()
      ensures t in timers <==> t.Value() in Model().queue
      ensures t in timers <==> D.Holds(Model().queue, t)
    {
      var q := Model().queue;
      assert forall i :: 0 <= i < |timers| ==> q[i].id == timers[i];
      if t in timers {
        var i :| 0 <= i < |timers| && timers[i] == t;
        assert q[i] == t.Value();
      }
      L.LookupIs(Model(), t);
    }

    lemma Outside(t: Timer<C>)
      requires t in all && t !in timers
      ensures !D.Holds(Model().queue, t) && t in Model().others
    {
      assert forall i :: 0 <= i < |timers| ==> Model().queue[i].id == timers[i];
    }

    /** What assigning to the fields of one timer does to the model, when its deadline stays or it
        is not in the set. */
    twostate lemma Wrote(t: Timer<C>)
      requires old(Valid()) && t in old(all)
      requires all == old(all) && timers == old(timers) && tickled == old(tickled) && previous == old(previous)
      requires forall u :: u in all && u != t ==> u.Value() == old(u.Value())
      requires t in timers ==> t.next == old(t.next)
      ensures Valid() && Model() == V.SetValue(old(Model()), t.Value())
    {
      if t in timers {
        WroteInside(t);
      } else {
        WroteOutside(t);
      }
      V.SetKeepsValid(old(Model()), t.Value());
    }

    twostate lemma WroteInside(t: Timer<C>)
      requires old(Valid()) && t in old(all) && t in timers
      requires all == old(all) && timers == old(timers) && tickled == old(tickled) && previous == old(previous)
      requires forall u :: u in all && u != t ==> u.Value() == old(u.Value())
      ensures Model() == V.SetValue(old(Model()), t.Value()) && M.Known(old(Model()), t)
      ensures D.Holds(old(Model().queue), t) && M.Lookup(old(Model()), t) == old(t.Value())
    {
      var m := old(Model());
      var i := M.IndexOf(m.queue, t);
      assert forall j :: 0 <= j < |timers| ==> m.queue[j] == old(timers[j].Value());
      assert forall j :: 0 <= j < |timers| && j != i ==> timers[j] != t;
      assert Values(timers) == m.queue[i := t.Value()];
      assert Others(all, timers) == m.others;
    }

    twostate lemma WroteOutside(t: Timer<C>)
      requires old(Valid()) && t in old(all) && t !in timers
      requires all == old(all) && timers == old(timers) && tickled == old(tickled) && previous == old(previous)
      requires forall u :: u in all && u != t ==> u.Value() == old(u.Value())
      ensures Model() == V.SetValue(old(Model()), t.Value()) && M.Known(old(Model()), t)
      ensures !D.Holds(old(Model().queue), t)
    {
      var m := old(Model());
      assert forall j :: 0 <= j < |timers| ==> m.queue[j] == old(timers[j].Value());
      assert Values(timers) == m.queue;
      assert Others(all, timers) == m.others[t := t.Value()];
    }

    static lemma ErasedAt(all: set<Timer<C>>, s: seq<Timer<C>>, i: nat)
      requires i < |s| && s[i] in all && forall j, k :: 0 <= j < k < |s| ==> s[j] != s[k]
      ensures Values(s[..i] + s[i + 1..]) == Values(s)[..i] + Values(s)[i + 1..]
      ensures Others(all, s[..i] + s[i + 1..]) == Others(all, s)[s[i] := s[i].Value()]
    {
      ErasedFrom(s, i);
      ErasedValues(s, i);
    }

    static lemma ErasedValues(s: seq<Timer<C>>, i: nat)
      requires i < |s|
      ensures Values(s[..i] + s[i + 1..]) == Values(s)[..i] + Values(s)[i + 1..]
    {
      var r, q := s[..i] + s[i + 1..], Values(s)[..i] + Values(s)[i + 1..];
      assert |Values(r)| == |q|;
      forall k | 0 <= k < |q| ensures Values(r)[k] == q[k] {
        assert Values(r)[k] == r[k].Value();
      }
    }

    static lemma ErasedFrom(s: seq<Timer<C>>, i: nat)
      requires i < |s| && forall j, k :: 0 <= j < k < |s| ==> s[j] != s[k]
      ensures forall t :: t in s[..i] + s[i + 1..] <==> t in s && t != s[i]
    {
      assert s == s[..i] + [s[i]] + s[i + 1..];
    }

    static lemma PlacedAmong(s: seq<Timer<C>>, i: nat, t: Timer<C>)
      requires i <= |s|
      ensures forall u :: u in s[..i] + [t] + s[i..] <==> u in s || u == t
    {
      assert s == s[..i] + s[i..];
    }

    static lemma PlacedValues(s: seq<Timer<C>>, i: nat, t: Timer<C>)
      requires i <= |s|
      ensures Values(s[..i] + [t] + s[i..]) == Values(s)[..i] + [t.Value()] + Values(s)[i..]
    {
      var r, q := s[..i] + [t] + s[i..], Values(s)[..i] + [t.Value()] + Values(s)[i..];
      assert |Values(r)| == |q|;
      forall k | 0 <= k < |q| ensures Values(r)[k] == q[k] {
        assert Values(r)[k] == r[k].Value();
      }
    }

    static lemma PlacedAt(all: set<Timer<C>>, s: seq<Timer<C>>, i: nat, t: Timer<C>)
      requires i <= |s| && t !in s
      ensures Values(s[..i] + [t] + s[i..]) == Values(s)[..i] + [t.Value()] + Values(s)[i..]
      ensures Others(all, s[..i] + [t] + s[i..]) == Others(all, s) - {t}
    {
      PlacedAmong(s, i, t);
      PlacedValues(s, i, t);
    }

    method EraseAt(i: nat)
      requires i < |timers| && forall u :: u in timers ==> u in all
      requires forall j, k :: 0 <= j < k < |timers| ==> timers[j] != timers[k]
      modifies this`timers
      ensures timers == old(timers[..i] + timers[i + 1..]) && forall u :: u in timers ==> u in all
      ensures var m, x := old(Model()), old(timers[i]);
        Model() == m.(queue := m.queue[..i] + m.queue[i + 1..], others := m.others[x := x.Value()])
    {
      ErasedAt(all, timers, i);
      ErasedFrom(timers, i);
      timers := timers[..i] + timers[i + 1..];
    }

    method Erase(d: int) returns (found: bool)
      requires Valid()
      modifies this`timers
      ensures Valid() && all == old(all)
      ensures Model() == M.DetachAt(old(Model()), d) && found == D.Found(old(Model()).queue, d)
    {
      ghost var m := Model();
      var i := Position(timers, d);
      found := i < |timers| && timers[i].next == d;
      V.DetachValid(m, d);
      if found {
        Distinct();
        assert m.queue[i] == timers[i].Value();
        EraseAt(i);
      }
    }

    method PlaceAt(i: nat, t: Timer<C>)
      requires i <= |timers| && t in all && t !in timers && forall u :: u in timers ==> u in all
      modifies this`timers
      ensures forall u :: u in timers ==> u in all
      ensures var m := old(Model());
        Model() == m.(queue := m.queue[..i] + [t.Value()] + m.queue[i..], others := m.others - {t})
    {
      PlacedAt(all, timers, i, t);
      timers := timers[..i] + [t] + timers[i..];
    }

    /** m_timers.insert(t), and the position it reports. */
    method Place(t: Timer<C>) returns (i: nat)
      requires Valid() && t in all && t !in timers
      modifies this`timers
      ensures Valid() && all == old(all)
      ensures Model() == M.Attach(old(Model()), t.Value()) && i == D.LowerBound(old(Model()).queue, t.next)
    {
      ghost var m, e := Model(), t.Value();
      i := Position(timers, t.next);
      if i == |timers| || timers[i].next != t.next {
        PlaceAt(i, t);
      } else {
        V.AttachTaken(m, e);
      }
      V.AttachValid(m, e);
    }

    /** Returns whether the front hook has to run. */
    method AddTimer(t: Timer<C>) returns (front: bool)
      requires Valid() && t in all && t !in timers
      modifies this`timers, this`tickled
      ensures Valid() && all == old(all)
      ensures var r := M.AddTimer(old(Model()), t.Value()); Model() == r.m && front == r.front
    {
      ghost var m1 := M.Attach(Model(), t.Value());
      var i := Place(t);
      front := i == 0 && !tickled;
      if front {
        SetTickled(true);
        assert Model() == m1.(tickled := true);
      }
    }

    method SetTickled(flag: bool)
      requires Valid()
      modifies this`tickled
      ensures Valid() && Model() == old(Model()).(tickled := flag)
    {
      V.TickleValid(Model(), flag);
      tickled := flag;
    }

    /** addTimer(ms, cb, recurring): the constructor reads the clock at time made, before the lock
        is taken. */
    method NewTimer(ms: nat, cb: Option<C>, recurring: bool, made: int) returns (t: Timer<C>, front: bool)
      requires Valid()
      modifies this
      ensures Valid() && fresh(t) && all == old(all) + {t} && previous == old(previous)
      ensures var e := D.Timer(t, made + ms * D.TICKS_PER_MS, ms, recurring, cb);
        var r := M.AddTimer(old(Model()), e); t.Value() == e && Model() == r.m && front == r.front
    {
      ghost var m := Model();
      t := new Timer(ms, cb, recurring, this, made);
      V.JoinAdds(m, t.Value());
      Join(t);
      front := AddTimer(t);
    }

    /** A new timer of this manager, not in the set yet. */
    ghost method Join(t: Timer<C>)
      requires Valid() && t !in all && t.manager == this
      modifies this`all
      ensures Valid() && all == old(all) + {t} && t !in timers
      ensures Model() == old(Model()).(others := old(Model()).others[t := t.Value()])
    {
      ghost var m := Model();
      all := all + {t};
      assert Others(all, timers) == m.others[t := t.Value()];
      V.JoinValid(m, t.Value());
    }

    method GetNextTimer(now: int) returns (timeout: nat)
      requires Valid()
      modifies this`tickled
      ensures Valid() && Model() == old(Model()).(tickled := false)
      ensures timeout == M.NextTimeout(Model().queue, now)
    {
      SetTickled(false);
      if timers == [] {
        return M.NO_TIMER;
      }
      var time := timers[0].next;
      if now >= time {
        timeout := 0;
      } else {
        timeout := (time - now) / D.TICKS_PER_MS;
      }
    }

    method HasTimer() returns (has: bool)
      ensures has <==> Model().queue != []
    {
      has := timers != [];
    }

    method DetectClockRollover(checked: int) returns (rollover: bool)
      modifies this`previous
      ensures rollover == M.RolledOver(old(Model()), checked) && Model() == old(Model()).(previous := checked)
    {
      rollover := checked < previous - M.ROLLOVER_WINDOW;
      previous := checked;
    }

    /** A recurring timer that has been drained goes back in. */
    method Rearm(t: Timer<C>, now: int)
      requires Valid() && t in all && t !in timers
      modifies t`next, t`ms, this`timers
      ensures Valid() && all == old(all)
      ensures Model() == M.Attach(old(Model()), old(t.Value()).Armed(now))
    {
      ghost var m, e := Model(), t.Value().Armed(now);
      Outside(t);
      t.SetDeadline(t.ms, now + t.ms * D.TICKS_PER_MS);
      assert t.Value() == e && Model() == V.SetValue(m, e);
      V.AddAfterSet(m, e);
      var _ := Place(t);
    }

    /** A one-shot timer that has been drained loses its callback. */
    method Retire(t: Timer<C>)
      requires Valid() && t in all && t !in timers
      modifies t`cb
      ensures Valid() && all == old(all)
      ensures Model() == V.SetValue(old(Model()), old(t.Value()).(cb := None))
    {
      t.cb := None;
      Wrote(t);
    }

    /** One turn of the drain loop. */
    method DrainOne(now: int) returns (cb: Option<C>)
      requires Valid() && timers != []
      modifies this`timers, timers[0]
      ensures Valid() && all == old(all)
      ensures Model() == V.AfterTurn(old(Model()), now) && cb == old(timers[0].cb)
    {
      ghost var m := Model();
      var t := timers[0];
      assert m.queue[0] == t.Value();
      Distinct();
      assert t !in timers[1..];
      PopFront();
      cb := t.cb;
      if t.recurring {
        Rearm(t, now);
      } else {
        Retire(t);
      }
    }

    /** m_timers.erase(m_timers.begin()). */
    method PopFront()
      requires Valid() && timers != []
      modifies this`timers
      ensures Valid() && all == old(all) && timers == old(timers[1..])
      ensures Model() == M.DetachAt(old(Model()), old(timers[0].next))
    {
      ghost var m := Model();
      V.HeadDetached(m);
      V.DetachValid(m, timers[0].next);
      Distinct();
      assert m.queue[0] == timers[0].Value();
      assert timers[..0] + timers[1..] == timers[1..] && m.queue[..0] + m.queue[1..] == m.queue[1..];
      EraseAt(0);
    }

    /** The drain loop stops exactly when TrapFree holds (Drain.TerminatesIff). */
    method ListExpiredCb(now: int, checked: int) returns (cbs: seq<Option<C>>)
      requires Valid() && Drain.TrapFree(Model().queue, now, M.RolledOver(Model(), checked))
      modifies this`timers, this`previous, all
      ensures Valid() && all == old(all)
      ensures var r := M.Collect(old(Model()), now, checked); Model() == r.m && cbs == r.fired
    {
      ghost var m0 := Model();
      ghost var gone: seq<Value<C>> := [];
      ghost var start := Drain.State(m0.queue, [], []);
      var rollover := DetectClockRollover(checked);
      cbs := [];
      while timers != [] && (rollover || timers[0].next <= now)
        invariant Valid() && all == old(all)
        invariant tickled == old(tickled) && previous == checked
        invariant Drain.TrapFree(Model().queue, now, rollover)
        invariant Drain.Run(Drain.State(Model().queue, cbs, gone), now, rollover) == Drain.Run(start, now, rollover)
        invariant Model().others == M.Absorb(m0.others, gone)
        decreases Drain.Due(Model().queue, now, rollover)
      {
        ghost var s := Drain.State(Model().queue, cbs, gone);
        V.TurnInRun(m0.others, Model(), cbs, gone, now, rollover);
        gone := Drain.Step(s, now).gone;
        var cb := DrainOne(now);
        cbs := cbs + [cb];
        assert Drain.State(Model().queue, cbs, gone) == Drain.Step(s, now);
      }
    }
  }
}
