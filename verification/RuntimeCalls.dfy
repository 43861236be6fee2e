/** What the calls of running code come to, from their beginning to their return, and which calls are
    possible: the whole state afterwards, in plain terms. */
module RuntimeCalls {
  import opened Options
  import opened Tasks
  import opened DeadlineSet
  import Drain
  import opened Runtime
  import F = FiberModel

  /** Worker w executes a fiber, and its code has the next move. */
  predicate InHands(s: State, w: nat) {
    && w < |s.workers| && s.workers[w].phase.Executing? && s.workers[w].phase.todo.Nothing?
    && s.workers[w].phase.f in s.fibers
  }

  /** What may be scheduled: nothing, a fiber that exists and is not left alone, or a callback of a user. */
  predicate Schedulable(c: Config, s: State, body: Job) {
    && (body.Resume? ==> body.fiber in s.fibers && body.fiber !in c.solo)
    && (body.Call? ==> body.code.User?)
  }

  /** The body is queued last, for the thread asked for. */
  function Queued(s: State, body: Job, thread: int): State {
    s.(tasks := s.tasks + [Task(body, thread)], accepted := s.accepted + [Task(body, thread)])
  }

  lemma ActsDirectly(c: Config, s: State, w: nat, act: Act)
    requires InHands(s, w)
    ensures Next(c, s, Codes(w, Acting(act))) == NextAct(c, s, act)
  {
  }

  /** schedule() queues what is not empty. */
  lemma SubmitEffect(c: Config, s: State, w: nat, body: Job, thread: int)
    requires InHands(s, w)
    ensures Next(c, s, Codes(w, Acting(Submit(body, thread)))) ==
      if !Schedulable(c, s, body) then None else if body.Empty? then Some(s) else Some(Queued(s, body, thread))
  {
  }

  /** A fiber that is made and scheduled starts READY, free and without a past. */
  lemma LaunchEffect(c: Config, s: State, w: nat, f: nat, thread: int)
    requires InHands(s, w)
    ensures Next(c, s, Codes(w, Acting(Launch(f, thread)))) ==
      if f in s.fibers then None
      else Some(Queued(s, Resume(f), thread).(fibers := s.fibers[f := Fib(F.Ready, None, [])]))
  {
  }

  /** reset() makes a terminated fiber READY and leaves its mutex and its past alone. */
  lemma RestartEffect(c: Config, s: State, w: nat, f: nat)
    requires InHands(s, w)
    ensures Next(c, s, Codes(w, Acting(Restart(f)))) ==
      if f in s.fibers && s.fibers[f].state == F.Term
      then Some(s.(fibers := s.fibers[f := Fib(F.Ready, s.fibers[f].holder, s.fibers[f].log)]))
      else None
  {
  }

  /** The set has gained this timer if its deadline was free, and is otherwise as it was. */
  ghost predicate GainsIfFree(q: seq<Alarm>, q': seq<Alarm>, e: Alarm) {
    && Ascending(q')
    && (Occupied(q, e.next) ==> q' == q)
    && (!Occupied(q, e.next) ==> forall x :: x in q' <==> x in q || x == e)
  }

  lemma InsertGains(q: seq<Alarm>, e: Alarm)
    requires Ascending(q)
    ensures GainsIfFree(q, Insert(q, e), e)
  {
    InsertMembers(q, e);
    InsertAscends(q, e);
  }

  /** addTimer() in an IOManager: the deadline is ms milliseconds from now. */
  lemma AddTimerEffect(c: Config, s: State, w: nat, ms: nat, k: nat, recurring: bool)
    requires InHands(s, w) && Ascending(s.timers)
    ensures Next(c, s, Codes(w, Acting(AddTimer(ms, k, recurring)))).Some? <==> c.io
    ensures c.io ==>
      var s' := Next(c, s, Codes(w, Acting(AddTimer(ms, k, recurring)))).value;
      && s' == s.(timers := s'.timers)
      && GainsIfFree(s.timers, s'.timers, Timer((), s.clock + ms * 1_000_000, ms, recurring, Some(User(k))))
  {
    ActsDirectly(c, s, w, AddTimer(ms, k, recurring));
    InsertGains(s.timers, Timer((), s.clock + ms * 1_000_000, ms, recurring, Some(User(k))));
  }

  /** The set has lost what was set for d, and nothing else. */
  ghost predicate Loses(q: seq<Alarm>, q': seq<Alarm>, d: int) {
    Ascending(q') && forall x :: x in q' <==> x in q && x.next != d
  }

  lemma EraseLoses(q: seq<Alarm>, d: int)
    requires Ascending(q)
    ensures Loses(q, Erase(q, d), d)
  {
    EraseMembers(q, d);
    EraseWorks(q, d);
  }

  /** A cancel takes out whatever is found at the deadline. */
  lemma EraseTimerEffect(c: Config, s: State, w: nat, d: int)
    requires InHands(s, w) && Ascending(s.timers)
    ensures Next(c, s, Codes(w, Acting(EraseTimer(d)))).Some?
    ensures var s' := Next(c, s, Codes(w, Acting(EraseTimer(d)))).value;
      s' == s.(timers := s'.timers) && Loses(s.timers, s'.timers, d)
  {
    ActsDirectly(c, s, w, EraseTimer(d));
    EraseLoses(s.timers, d);
  }

  /** A hooked sleep leaves a one-shot timer that wakes the sleeper, if the deadline is free, and goes on to
      yield. */
  lemma SleepEffect(c: Config, s: State, w: nat, ms: nat)
    requires InHands(s, w) && Ascending(s.timers)
    ensures Next(c, s, Codes(w, Sleep(ms))).Some? <==> c.io
    ensures c.io ==>
      var s' := Next(c, s, Codes(w, Sleep(ms))).value;
      var task, f, until := s.workers[w].phase.task, s.workers[w].phase.f, s.clock + ms * 1_000_000;
      && s' == s.(timers := s'.timers, workers := s.workers[w := Worker(Leaving(task, f), s.workers[w].term)],
                  fibers := s.fibers[f := Fib(s.fibers[f].state, s.fibers[f].holder, s.fibers[f].log + [Slept(until)])])
      && GainsIfFree(s.timers, s'.timers, Timer((), until, ms, false, Some(Wake(f))))
  {
    var e: Alarm := Timer((), s.clock + ms * 1_000_000, ms, false, Some(Wake(s.workers[w].phase.f)));
    InsertGains(s.timers, e);
    assert c.io ==> Next(c, s, Codes(w, Sleep(ms))).value.timers == Insert(s.timers, e);
  }

  // ----- Event calls -----

  /** The call from its beginning to its return, if nobody comes in between. */
  ghost function Called(c: Config, s: State, w: nat, begin: Begin): Option<State> {
    Exec(c, s, [Codes(w, Calling(begin)), Codes(w, Return)])
  }

  lemma TwoSteps(c: Config, s: State, a: Step, b: Step)
    ensures Exec(c, s, [a, b]) ==
      if Next(c, s, a).None? then None else Next(c, Next(c, s, a).value, b)
  {
    if Next(c, s, a).Some? {
      var s1 := Next(c, s, a).value;
      assert [a, b][1..] == [b];
      if Next(c, s1, b).Some? {
        assert Exec(c, Next(c, s1, b).value, [b][1..]) == Next(c, s1, b);
      }
    }
  }

  lemma BackInCode(s: State, w: nat, todo: Todo)
    requires InHands(s, w)
    ensures var phase := s.workers[w].phase; At(At(s, w, phase.(todo := todo)), w, phase) == s
  {
  }

  lemma CalledIs(c: Config, s: State, w: nat, begin: Begin)
    requires InHands(s, w)
    ensures Called(c, s, w, begin) ==
      if Begun(c, s, begin).None? then None else Some(Completed(Counted(c, s, begin), Begun(c, s, begin).value))
  {
    TwoSteps(c, s, Codes(w, Calling(begin)), Codes(w, Return));
    if Begun(c, s, begin).Some? {
      BackInCode(s, w, InCall(Begun(c, s, begin).value));
    }
  }

  /** addEvent() of an event that is not registered: the waiter is registered and counted. */
  lemma AddEventEffect(c: Config, s: State, w: nat, waiter: Job)
    requires InHands(s, w)
    ensures Called(c, s, w, AddEvent(waiter)) ==
      if !c.io || waiter.Empty? || !Schedulable(c, s, waiter) then None
      else Some(s.(registered := s.registered + [waiter], pending := s.pending + 1))
  {
    CalledIs(c, s, w, AddEvent(waiter));
  }

  /** The table without entry i, counted down. */
  function Withdrawn(s: State, i: nat): State
    requires i < |s.registered|
  {
    s.(registered := s.registered[..i] + s.registered[i + 1..], pending := s.pending - 1)
  }

  /** delEvent() of a registered event: nobody is scheduled. */
  lemma DropEventEffect(c: Config, s: State, w: nat, i: nat)
    requires InHands(s, w)
    ensures Called(c, s, w, DropEvent(i)) == if i < |s.registered| then Some(Withdrawn(s, i)) else None
  {
    CalledIs(c, s, w, DropEvent(i));
  }

  /** cancelEvent() of a registered event: its waiter, and nobody else, is scheduled for any thread. */
  lemma CancelEventEffect(c: Config, s: State, w: nat, i: nat)
    requires InHands(s, w) && (i < |s.registered| ==> !s.registered[i].Empty?)
    ensures Called(c, s, w, CancelEvent(i)) ==
      if i < |s.registered| then Some(Queued(Withdrawn(s, i), s.registered[i], ANY)) else None
  {
    CalledIs(c, s, w, CancelEvent(i));
  }

  /** One report of the idle loop does to table, counter and list what a cancel does. */
  lemma ReportEffect(c: Config, s: State, w: nat, i: nat)
    requires w < |s.workers| && s.workers[w].phase == Idle(Holding([]))
    requires i < |s.registered| ==> !s.registered[i].Empty?
    ensures Exec(c, s, [Idles(w, Report(i)), Idles(w, Repay)]) ==
      if i < |s.registered| then Some(Queued(Withdrawn(s, i), s.registered[i], ANY)) else None
  {
    TwoSteps(c, s, Idles(w, Report(i)), Idles(w, Repay));
    assert At(At(s, w, Idle(Owing)), w, Idle(Holding([]))) == s;
  }

  ghost predicate RearmedAt(q: seq<Alarm>, x: Alarm, now: int) {
    exists y :: y in q && y.recurring && y.next <= now && x == y.(next := now + y.ms * 1_000_000)
  }

  /** The timers up to the reading are collected, earliest first; none of the others is touched, and what is
      re-armed is due a period after the reading. */
  ghost predicate CollectedAt(q: seq<Alarm>, q': seq<Alarm>, cbs: seq<Option<Code>>, now: int) {
    && |cbs| <= |q|
    && (forall i :: 0 <= i < |q| ==> (q[i].next <= now <==> i < |cbs|))
    && (forall i :: 0 <= i < |cbs| ==> cbs[i] == q[i].cb)
    && Ascending(q') && (forall x :: x in q' ==> x.next > now && (x in q || RearmedAt(q, x, now)))
    && forall x :: x in q && x.next > now ==> x in q'
  }

  /** An idle worker can collect for any reading that is not ahead of the clock, provided that the loop ends. */
  lemma CollectEffect(c: Config, s: State, w: nat, now: int)
    requires w < |s.workers| && s.workers[w].phase == Idle(Waiting) && Ascending(s.timers)
    ensures Next(c, s, Idles(w, Collect(now))).Some? <==>
      c.io && now <= s.clock && Drain.Terminates(s.timers, now, false)
    ensures Next(c, s, Idles(w, Collect(now))).Some? ==> exists cbs, q ::
      && Next(c, s, Idles(w, Collect(now))) == Some(At(s, w, Idle(Holding(cbs))).(timers := q))
      && CollectedAt(s.timers, q, cbs, now)
  {
    Drain.TerminatesIff(s.timers, now, false);
    if c.io && now <= s.clock && Drain.TrapFree(s.timers, now, false) {
      var r := Drain.Run(Drain.State(s.timers, [], []), now, false);
      DrainCollects(s.timers, now);
      CollectIs(c, s, w, now, r.fired, r.queue);
    }
  }

  lemma CollectIs(c: Config, s: State, w: nat, now: int, cbs: seq<Option<Code>>, q: seq<Alarm>)
    requires w < |s.workers| && s.workers[w].phase == Idle(Waiting) && Ascending(s.timers)
    requires c.io && now <= s.clock && Drain.TrapFree(s.timers, now, false)
    requires var r := Drain.Run(Drain.State(s.timers, [], []), now, false); cbs == r.fired && q == r.queue
    ensures Next(c, s, Idles(w, Collect(now))) == Some(At(s, w, Idle(Holding(cbs))).(timers := q))
  {
  }

  lemma LeftAfterDrain(q: seq<Alarm>, now: int, x: Alarm)
    requires Ascending(q) && Drain.TrapFree(q, now, false)
    requires x in Drain.Run(Drain.State(q, [], []), now, false).queue
    ensures x.next > now && (x in q || RearmedAt(q, x, now))
  {
    var d := Drain.State(q, [], []);
    Drain.FiresTheDue(d, now, false);
    NoneLate(Drain.Run(d, now, false).queue, now, x);
    Drain.Fates(d, x, now, false);
    var y :| y in q && Drain.BecomesElement(q, y, x, now, false);
  }

  lemma NoneLate(q: seq<Alarm>, now: int, x: Alarm)
    requires Ascending(q) && !Drain.More(q, now, false) && x in q
    ensures x.next > now
  {
    var i :| 0 <= i < |q| && q[i] == x;
    assert q[0].next <= q[i].next;
  }

  lemma LaterStays(q: seq<Alarm>, now: int, x: Alarm)
    requires Ascending(q) && Drain.TrapFree(q, now, false) && x in q && x.next > now
    ensures x in Drain.Run(Drain.State(q, [], []), now, false).queue
  {
    assert Drain.BecomesElement(q, x, x, now, false);
    Drain.Fates(Drain.State(q, [], []), x, now, false);
  }

  lemma DrainCollects(q: seq<Alarm>, now: int)
    requires Ascending(q) && Drain.TrapFree(q, now, false)
    ensures var r := Drain.Run(Drain.State(q, [], []), now, false); CollectedAt(q, r.queue, r.fired, now)
  {
    var r := Drain.Run(Drain.State(q, [], []), now, false);
    Drain.FiresTheDue(Drain.State(q, [], []), now, false);
    DueAreFirst(q, now);
    forall x | x in r.queue ensures x.next > now && (x in q || RearmedAt(q, x, now)) {
      LeftAfterDrain(q, now, x);
    }
    forall x | x in q && x.next > now ensures x in r.queue {
      LaterStays(q, now, x);
    }
  }

  lemma DueAreFirst(q: seq<Alarm>, now: int)
    requires Ascending(q)
    ensures forall i :: 0 <= i < |q| ==> (q[i].next <= now <==> i < Drain.Due(q, now, false))
  {
  }

  /** Adding an event and deleting it again changes nothing; cancelling it schedules the waiter. */
  lemma AddedAndRemoved(c: Config, s: State, w: nat, waiter: Job)
    requires InHands(s, w) && Called(c, s, w, AddEvent(waiter)).Some?
    ensures var s1 := Called(c, s, w, AddEvent(waiter)).value;
      && Called(c, s1, w, DropEvent(|s.registered|)) == Some(s)
      && Called(c, s1, w, CancelEvent(|s.registered|)) == Some(Queued(s, waiter, ANY))
  {
    AddEventEffect(c, s, w, waiter);
    var s1, n := Called(c, s, w, AddEvent(waiter)).value, |s.registered|;
    DropEventEffect(c, s1, w, n);
    CancelEventEffect(c, s1, w, n);
    assert s1.registered[..n] + s1.registered[n + 1..] == s.registered;
  }

  // ----- From outside -----

  /** A thread outside does what running code does, and is late if stop() has been called. */
  lemma OutsideEffect(c: Config, s: State, w: nat, act: Act)
    requires InHands(s, w)
    ensures Next(c, s, Outside(act)) ==
      var r := Next(c, s, Codes(w, Acting(act)));
      if c.outsiders && r.Some? then Some(r.value.(late := s.late || s.stopping)) else None
  {
    ActsDirectly(c, s, w, act);
  }

  /** The same for its event calls. */
  lemma OutsideCallEffect(c: Config, s: State, w: nat, begin: Begin)
    requires InHands(s, w)
    ensures Exec(c, s, [OutsideCall(begin), OutsideReturn(|s.calls|)]) ==
      var r := Called(c, s, w, begin);
      if c.outsiders && r.Some? then Some(r.value.(late := s.late || s.stopping)) else None
  {
    CalledIs(c, s, w, begin);
    TwoSteps(c, s, OutsideCall(begin), OutsideReturn(|s.calls|));
    if c.outsiders && Begun(c, s, begin).Some? {
      OutsideReturns(c, s, begin);
    }
  }

  lemma OutsideReturns(c: Config, s: State, begin: Begin)
    requires c.outsiders && Begun(c, s, begin).Some?
    ensures var call, late := Begun(c, s, begin).value, s.late || s.stopping;
      && Next(c, s, OutsideCall(begin)).Some?
      && Next(c, Next(c, s, OutsideCall(begin)).value, OutsideReturn(|s.calls|))
           == Some(Completed(Counted(c, s, begin), call).(late := late))
  {
    var call := Begun(c, s, begin).value;
    assert (s.calls + [call])[..|s.calls|] + (s.calls + [call])[|s.calls| + 1..] == s.calls;
  }
}
