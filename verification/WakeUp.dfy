/** One idle worker waiting in epoll_wait, and any number of threads inserting, moving and
    cancelling timers: no deadline is overslept. The clock is monotone here. */
module WakeUp {
  import opened Options
  import opened DeadlineSet
  import opened TimerModel
  import opened TimerLaws
  import opened TimerLife

  /** The cap of every wait, in milliseconds. */
  const MAX_TIMEOUT: nat := 5000

  /** Where the worker is. It is counted idle in all phases but Busy. */
  datatype Phase =
    | Busy
    | Idling
    | Armed(readAt: int, timeout: nat)                // the timeout is computed
    | Waiting(readAt: int, timeout: nat, since: int)  // inside epoll_wait

  /** pipe counts the bytes in the pipe; inFlight counts the threads that have to run the front
      hook and have not written yet; hooks counts the front hooks since the last getNextTimer. */
  datatype State<T(==), C> = State(
    clock: int, m: Manager<T, C>, phase: Phase, pipe: nat, inFlight: nat, hooks: nat)

  datatype Step<T, C> =
    | Tick(d: nat)
    | TimerCall(op: Op<T, C>)     // by any thread
    | Tickle                      // a thread in flight reaches tickle()
    | TaskTickle                  // tickle() for a task
    | Enter                       // the idle fiber is resumed
    | Check                       // stopping(), which calls getNextTimer
    | ReadTimeout
    | Wait
    | WakeByPipe                  // the pipe is reported and drained
    | WakeOtherwise               // time-out, a ready descriptor, or a signal
    | Collect(read: int, checked: int)
    | Leave

  /** tickle(): writes only when some thread is counted idle. */
  function Written<T(==), C>(s: State<T, C>): nat {
    if s.phase.Busy? then s.pipe else s.pipe + 1
  }

  ghost function Next<T, C>(s: State<T, C>, step: Step<T, C>): Option<State<T, C>> {
    match step
    case Tick(d) => Some(s.(clock := s.clock + d))
    case TimerCall(op) =>
      if (op.Create? || op.Cancelling? || op.Refreshing? || op.Resetting?) && Allowed(s.m, op, s.clock) then
        var r := Apply(s.m, op, s.clock);
        var n := if r.front then 1 else 0;
        Some(s.(m := r.m, inFlight := s.inFlight + n, hooks := s.hooks + n))
      else None
    case Tickle => if s.inFlight > 0 then Some(s.(inFlight := s.inFlight - 1, pipe := Written(s))) else None
    case TaskTickle => Some(s.(pipe := Written(s)))
    case Enter => if s.phase.Busy? then Some(s.(phase := Idling)) else None
    case Check => if s.phase.Idling? then Some(s.(m := s.m.(tickled := false), hooks := 0)) else None
    case ReadTimeout =>
      if s.phase.Idling? then
        var t := NextTimeout(s.m.queue, s.clock);
        var timeout := if t < MAX_TIMEOUT then t else MAX_TIMEOUT;
        Some(s.(m := s.m.(tickled := false), hooks := 0, phase := Armed(s.clock, timeout)))
      else None
    case Wait =>
      if s.phase.Armed? then Some(s.(phase := Waiting(s.phase.readAt, s.phase.timeout, s.clock))) else None
    case WakeByPipe => if s.phase.Waiting? && s.pipe > 0 then Some(s.(phase := Idling, pipe := 0)) else None
    case WakeOtherwise => if s.phase.Waiting? then Some(s.(phase := Idling)) else None
    case Collect(read, checked) =>
      if s.phase.Idling? && Allowed(s.m, Collecting(read, checked), s.clock) then
        Some(s.(m := Apply(s.m, Collecting(read, checked), s.clock).m))
      else None
    case Leave => if s.phase.Idling? then Some(s.(phase := Busy)) else None
  }

  ghost predicate AllFrom<T, C>(m: Manager<T, C>, bound: int) {
    forall x :: x in m.queue ==> bound <= x.next
  }

  /** Until the flag is set no deadline lies before the end of the computed timeout; once it is
      set, a byte is in the pipe or on its way. */
  ghost predicate Covered<T, C>(s: State<T, C>) {
    s.phase.Armed? || s.phase.Waiting? ==>
      && s.phase.readAt <= s.clock && s.phase.timeout <= MAX_TIMEOUT
      && (s.m.tickled ==> s.pipe + s.inFlight > 0)
      && (!s.m.tickled ==> s.phase.timeout == 0 || AllFrom(s.m, s.phase.readAt + s.phase.timeout * TICKS_PER_MS))
      && (s.phase.Waiting? ==> s.phase.readAt <= s.phase.since)
  }

  ghost predicate Inv<T, C>(s: State<T, C>) {
    && BegunBy(s.m, s.clock) && Covered(s)
    && s.hooks <= (if s.m.tickled then 1 else 0)
  }

  lemma AddCovers<T, C>(m: Manager<T, C>, e: Timer<T, C>, bound: int)
    requires Valid(m) && !Holds(m.queue, e.id) && AllFrom(m, bound) && !m.tickled
    ensures var r := AddTimer(m, e);
      (r.front <==> r.m.tickled) && (!r.front ==> AllFrom(r.m, bound))
  {
    AttachWorks(m, e);
    if m.queue != [] {
      assert m.queue[0] in m.queue;
    }
  }

  lemma RefreshCovers<T, C>(m: Manager<T, C>, t: T, clock: int, bound: int)
    requires BegunBy(m, clock) && Known(m, t) && AllFrom(m, bound)
    ensures AllFrom(Refresh(m, t, clock).m, bound)
  {
    var x := Lookup(m, t);
    KnownBegan(m, t, clock);
    MoveChanges(m, t, x.Armed(clock));
    if Found(m.queue, x.next) {
      assert m.queue[LowerBound(m.queue, x.next)] in m.queue;
    }
  }

  lemma ResetCovers<T, C>(m: Manager<T, C>, t: T, ms: nat, fromNow: bool, clock: int, bound: int)
    requires Valid(m) && Known(m, t) && AllFrom(m, bound) && !m.tickled
    ensures var r := Reset(m, t, ms, fromNow, clock); !r.front ==> AllFrom(r.m, bound)
  {
    var x := Lookup(m, t);
    LookupIs(m, t);
    DetachedOwn(m, t);
    assert AllFrom(DetachAt(m, x.next), bound) && !DetachAt(m, x.next).tickled by { DetachWorks(m, x.next); }
    AddCovers(DetachAt(m, x.next), Restarted(x, ms, fromNow, clock), bound);
  }

  lemma CallCovers<T, C>(m: Manager<T, C>, op: Op<T, C>, clock: int, bound: int)
    requires BegunBy(m, clock) && Allowed(m, op, clock) && !op.Collecting? && !op.Peeking?
    requires !m.tickled && AllFrom(m, bound)
    ensures var r := Apply(m, op, clock); !r.front ==> AllFrom(r.m, bound)
  {
    match op
    case Create(t, made, ms, code, recurring) => AddCovers(m, Fresh(t, made, ms, code, recurring), bound);
    case Cancelling(t) =>
      if Cancel(m, t).ok {
        CancelChanges(m, t);
      }
    case Refreshing(t) => RefreshCovers(m, t, clock, bound);
    case Resetting(t, ms, fromNow) => ResetCovers(m, t, ms, fromNow, clock, bound);
  }

  /** The flag is raised by the call that runs the hook, and by no other. */
  lemma CallFlags<T, C>(m: Manager<T, C>, op: Op<T, C>, clock: int)
    requires Allowed(m, op, clock) && !op.Collecting? && !op.Peeking?
    ensures var r := Apply(m, op, clock);
      && r.m.tickled == (m.tickled || r.front) && (m.tickled ==> !r.front)
  {
  }

  /** The computed timeout does not outlast the earliest deadline. */
  lemma TimeoutEndsInTime<T, C>(q: seq<Timer<T, C>>, now: int, timeout: nat)
    requires Ascending(q) && timeout <= NextTimeout(q, now)
    ensures timeout == 0 || forall x :: x in q ==> now + timeout * TICKS_PER_MS <= x.next
  {
  }

  lemma StepKeeps<T, C>(s: State<T, C>, step: Step<T, C>)
    requires Inv(s) && Next(s, step).Some?
    ensures Inv(Next(s, step).value)
  {
    match step
    case Tick(d) =>
    case TimerCall(op) =>
      CallBegins(s.m, op, s.clock, s.clock);
      CallFlags(s.m, op, s.clock);
      if (s.phase.Armed? || s.phase.Waiting?) && !s.m.tickled && s.phase.timeout != 0 {
        CallCovers(s.m, op, s.clock, s.phase.readAt + s.phase.timeout * TICKS_PER_MS);
      }
    case Tickle =>
    case TaskTickle =>
    case Enter =>
    case Check => TickleBegins(s.m, false, s.clock, s.clock);
    case ReadTimeout =>
      TickleBegins(s.m, false, s.clock, s.clock);
      TimeoutEndsInTime(s.m.queue, s.clock, Next(s, step).value.phase.timeout);
    case Wait =>
    case WakeByPipe =>
    case WakeOtherwise =>
    case Collect(read, checked) =>
      CallBegins(s.m, Collecting(read, checked), s.clock, s.clock);
      CollectWorks(s.m, read, checked);
    case Leave =>
  }

  ghost function Exec<T, C>(s: State<T, C>, steps: seq<Step<T, C>>): Option<State<T, C>>
    decreases steps
  {
    if steps == [] then Some(s)
    else if Next(s, steps[0]).None? then None
    else Exec(Next(s, steps[0]).value, steps[1..])
  }

  lemma {:induction false} RunKeeps<T, C>(s: State<T, C>, steps: seq<Step<T, C>>)
    requires Inv(s) && Exec(s, steps).Some?
    ensures Inv(Exec(s, steps).value)
    decreases steps
  {
    if steps != [] {
      StepKeeps(s, steps[0]);
      RunKeeps(Next(s, steps[0]).value, steps[1..]);
    }
  }

  ghost function Init<T, C>(clock: int, pipe: nat): State<T, C> {
    State(clock, Manager([], map[], false, clock), Busy, pipe, 0, 0)
  }

  /** Whenever the worker waits, its wait ends within the cap, and either a byte is in the pipe or
      on its way, or it does not block, or it ends before every deadline, late by no more than the
      time it took from reading the clock to entering the wait. The front hook has run at most once
      since the last getNextTimer. */
  lemma NoDeadlineOverslept<T, C>(clock: int, pipe: nat, steps: seq<Step<T, C>>)
    requires Exec(Init<T, C>(clock, pipe), steps).Some?
    ensures var s := Exec(Init<T, C>(clock, pipe), steps).value;
      && s.hooks <= 1
      && (s.phase.Waiting? ==>
            var end := s.phase.since + s.phase.timeout * TICKS_PER_MS;
            && s.phase.readAt <= s.phase.since && end <= s.phase.since + MAX_TIMEOUT * TICKS_PER_MS
            && (s.pipe + s.inFlight > 0 || s.phase.timeout == 0
                || forall x :: x in s.m.queue ==> end <= x.next + (s.phase.since - s.phase.readAt)))
  {
    RunKeeps(Init<T, C>(clock, pipe), steps);
  }

  // ----- The worker does wait, and does wake -----

  lemma ThenExec<T, C>(s: State<T, C>, step: Step<T, C>, more: seq<Step<T, C>>)
    requires Next(s, step).Some?
    ensures Exec(s, [step] + more) == Exec(Next(s, step).value, more)
  {
    assert ([step] + more)[1..] == more;
  }

  lemma TwoSteps<T, C>(s: State<T, C>, a: Step<T, C>, b: Step<T, C>)
    requires Next(s, a).Some? && Next(Next(s, a).value, b).Some?
    ensures Exec(s, [a, b]) == Next(Next(s, a).value, b)
  {
    var s1 := Next(s, a).value;
    ThenExec(s, a, [b]);
    ThenExec(s1, b, []);
    assert [a, b] == [a] + [b] && [b] == [b] + [];
  }

  /** A worker with nothing to do becomes idle, and what stopping() reads lowers the flag. */
  lemma BecomesIdle<T, C>(s: State<T, C>)
    requires s.phase.Busy?
    ensures Exec(s, [Enter, Check]) == Some(s.(phase := Idling, m := s.m.(tickled := false), hooks := 0))
  {
    TwoSteps(s, Enter, Check);
  }

  /** How long an idle worker waits: five seconds, or the whole milliseconds to the earliest deadline if those
      are fewer, and not at all once it is due. Reading this lowers the flag. */
  lemma WaitsFor<T, C>(s: State<T, C>)
    requires s.phase.Idling? && Ascending(s.m.queue)
    ensures Exec(s, [ReadTimeout, Wait]).Some?
    ensures var s' := Exec(s, [ReadTimeout, Wait]).value;
      && s'.phase.Waiting?
      && s' == s.(m := s.m.(tickled := false), hooks := 0, phase := Waiting(s.clock, s'.phase.timeout, s.clock))
      && var t := s'.phase.timeout;
         if s.m.queue == [] || s.m.queue[0].next - s.clock >= 5000 * 1_000_000 then t == 5000
         else if s.m.queue[0].next <= s.clock then t == 0
         else t * 1_000_000 <= s.m.queue[0].next - s.clock < (t + 1) * 1_000_000
  {
    TwoSteps(s, ReadTimeout, Wait);
  }

  /** A call that inserts a timer at the front while the worker waits runs the hook, and that wakes it. */
  lemma FrontWakes<T, C>(s: State<T, C>, op: Op<T, C>)
    requires Inv(s) && s.phase.Waiting? && Next(s, TimerCall(op)).Some? && Apply(s.m, op, s.clock).front
    ensures var s1 := Next(s, TimerCall(op)).value;
      && s1.phase.Waiting? && s1.inFlight > 0
      && Exec(s1, [Tickle, WakeByPipe]) == Some(s1.(inFlight := s1.inFlight - 1, phase := Idling, pipe := 0))
  {
    var s1 := Next(s, TimerCall(op)).value;
    TwoSteps(s1, Tickle, WakeByPipe);
  }

  /** A tickle writes one byte, and none while the worker is busy, who looks for himself before he waits. */
  lemma TickleWrites<T, C>(s: State<T, C>)
    ensures Next(s, TaskTickle) == Some(s.(pipe := s.pipe + if s.phase == Busy then 0 else 1))
    ensures Next(s, Tickle) ==
      if s.inFlight == 0 then None
      else Some(s.(inFlight := s.inFlight - 1, pipe := s.pipe + if s.phase == Busy then 0 else 1))
  {
  }

  /** However a wait ends, what is due can be collected then, and the worker goes back to the list. */
  lemma CollectsAfterWait<T, C>(s: State<T, C>, woken: Step<T, C>, read: int, checked: int)
    requires s.phase.Waiting? && (woken.WakeByPipe? || woken.WakeOtherwise?) && (woken.WakeByPipe? ==> s.pipe > 0)
    requires Allowed(s.m, Collecting(read, checked), s.clock)
    ensures var m' := Apply(s.m, Collecting(read, checked), s.clock).m;
      Exec(s, [woken, Collect(read, checked)])
        == Some(s.(phase := Idling, pipe := if woken.WakeByPipe? then 0 else s.pipe, m := m'))
      && Next(Exec(s, [woken, Collect(read, checked)]).value, Leave)
        == Some(s.(phase := Busy, pipe := if woken.WakeByPipe? then 0 else s.pipe, m := m'))
  {
    TwoSteps(s, woken, Collect(read, checked));
  }
}
