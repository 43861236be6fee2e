/** Runs in which an IOManager leaves something behind, and so the exact condition for a safe
    shutdown. */
module RuntimeLeaks {
  import opened Options
  import opened Tasks
  import opened DeadlineSet
  import opened Runtime
  import opened RuntimeShutdown
  import Drain
  import F = FiberModel
  import R = RuntimeCredits
  import Z = RuntimeSleep

  /** What the runs below do not touch. */
  predicate Alike(s: State, s': State) {
    && s'.stopping == s.stopping && s'.pending == s.pending && s'.clock == s.clock && s'.late == s.late
    && s'.registered == s.registered && |s'.workers| == |s.workers|
  }

  predicate UserTask(t: Entry) {
    t.body.Call? && t.body.code.User? && t.thread == ANY
  }

  predicate SoloTask(q: seq<Entry>) {
    |q| == 1 && UserTask(q[0])
  }

  lemma TakesFirst(c: Config, s: State, w: nat) returns (s': State)
    requires w < |s.workers| && s.workers[w].phase.Scanning? && s.tasks != [] && UserTask(s.tasks[0])
    ensures Reaches(c, s, s') && Alike(s, s') && s'.tasks == s.tasks[1..] && s'.timers == s.timers
    ensures s'.active == s.active + 1 && s'.fibers == s.fibers
    ensures s'.workers == s.workers[w := s.workers[w].(phase := Took(s.tasks[0]))]
  {
    FirstEligibleIs(s.tasks, w, 0);
    s' := Goes(c, s, Runs(w, Take));
  }

  lemma StartsTaken(c: Config, s: State, w: nat, g: nat) returns (s': State)
    requires w < |s.workers| && s.workers[w].phase.Took? && UserTask(s.workers[w].phase.task) && g !in s.fibers
    ensures Reaches(c, s, s') && Alike(s, s') && s'.tasks == s.tasks && s'.timers == s.timers
    ensures s'.active == s.active && s'.fibers.Keys == s.fibers.Keys + {g}
    ensures s'.workers == s.workers[w := s.workers[w].(phase := Executing(s.workers[w].phase.task, g, Nothing))]
  {
    var s1 := Goes(c, s, Runs(w, Make(g)));
    s' := Goes(c, s1, Runs(w, Dispatch));
    GoesOn(c, s, s1, s');
  }

  /** Worker w takes the first task and starts it in a new fiber g. */
  lemma TaskStarts(c: Config, s: State, w: nat, g: nat) returns (s': State)
    requires w < |s.workers| && s.workers[w].phase.Scanning? && s.tasks != [] && UserTask(s.tasks[0])
    requires g !in s.fibers
    ensures Reaches(c, s, s') && Alike(s, s') && s'.tasks == s.tasks[1..] && s'.timers == s.timers
    ensures s'.active == s.active + 1 && s'.fibers.Keys == s.fibers.Keys + {g}
    ensures s'.workers == s.workers[w := s.workers[w].(phase := Executing(s.tasks[0], g, Nothing))]
  {
    var s1 := TakesFirst(c, s, w);
    s' := StartsTaken(c, s1, w, g);
    GoesOn(c, s, s1, s');
  }

  predicate DueOnce(a: Alarm, clock: int) {
    a.next <= clock && !a.recurring && a.cb == Some(User(1))
  }

  /** The task sets a timer. */
  lemma TimerAdded(c: Config, s: State, w: nat) returns (s': State)
    requires w < |s.workers| && s.workers[w].phase.Executing? && s.workers[w].phase.todo.Nothing?
    requires s.workers[w].phase.f in s.fibers && c.io && s.timers == []
    ensures Reaches(c, s, s') && s' == s.(timers := s'.timers)
    ensures |s'.timers| == 1 && DueOnce(s'.timers[0], s.clock)
  {
    s' := Goes(c, s, Codes(w, Acting(AddTimer(0, 1, false))));
    assert s'.timers == [Timer((), s.clock, 0, false, Some(User(1)))];
  }

  /** The task ends. */
  lemma TaskEnds(c: Config, s: State, w: nat) returns (s': State)
    requires w < |s.workers| && s.workers[w].phase.Executing? && s.workers[w].phase.todo.Nothing?
    requires s.workers[w].phase.f in s.fibers
    ensures Reaches(c, s, s') && Alike(s, s') && s'.tasks == s.tasks && s'.timers == s.timers
    ensures s'.active == s.active - 1 && s'.fibers.Keys == s.fibers.Keys
    ensures s'.workers == s.workers[w := s.workers[w].(phase := Scanning)]
  {
    var s1 := FiberEnds(c, s, w);
    var s2 := Goes(c, s1, Runs(w, Unlock));
    s' := Goes(c, s2, Runs(w, Finish));
    GoesOn(c, s, s1, s2);
    GoesOn(c, s, s2, s');
  }

  lemma FiberTerminates(c: Config, s: State, w: nat) returns (s': State)
    requires w < |s.workers| && s.workers[w].phase.Executing? && s.workers[w].phase.todo.Nothing?
    requires s.workers[w].phase.f in s.fibers
    ensures Reaches(c, s, s') && Alike(s, s') && s'.tasks == s.tasks && s'.timers == s.timers
    ensures s'.active == s.active && s'.fibers.Keys == s.fibers.Keys
    ensures s'.workers == s.workers[w := s.workers[w].(phase := Ending(s.workers[w].phase.task, s.workers[w].phase.f))]
  {
    s' := Goes(c, s, Codes(w, Terminate));
  }

  lemma FiberLeaves(c: Config, s: State, w: nat) returns (s': State)
    requires w < |s.workers| && s.workers[w].phase.Ending? && s.workers[w].phase.f in s.fibers
    ensures Reaches(c, s, s') && Alike(s, s') && s'.tasks == s.tasks && s'.timers == s.timers
    ensures s'.active == s.active && s'.fibers.Keys == s.fibers.Keys
    ensures s'.workers == s.workers[w := s.workers[w].(phase := Back(s.workers[w].phase.task, s.workers[w].phase.f))]
  {
    var s1 := Goes(c, s, Codes(w, Yield));
    s' := Goes(c, s1, Codes(w, Switch));
    GoesOn(c, s, s1, s');
  }

  lemma FiberEnds(c: Config, s: State, w: nat) returns (s': State)
    requires w < |s.workers| && s.workers[w].phase.Executing? && s.workers[w].phase.todo.Nothing?
    requires s.workers[w].phase.f in s.fibers
    ensures Reaches(c, s, s') && Alike(s, s') && s'.tasks == s.tasks && s'.timers == s.timers
    ensures s'.active == s.active && s'.fibers.Keys == s.fibers.Keys
    ensures s'.workers == s.workers[w := s.workers[w].(phase := Back(s.workers[w].phase.task, s.workers[w].phase.f))]
  {
    var s1 := FiberTerminates(c, s, w);
    s' := FiberLeaves(c, s1, w);
    GoesOn(c, s, s1, s');
  }

  lemma WaitsAtLast(c: Config, s: State, w: nat) returns (s': State)
    requires w < |s.workers| && s.workers[w] == Worker(Scanning, false) && c.io && !c.atomic
    requires s.tasks == [] && s.timers != []
    ensures Reaches(c, s, s') && s' == At(s, w, Idle(Waiting))
  {
    var s1 := Goes(c, s, Runs(w, Rest));
    s' := Goes(c, s1, Idles(w, CheckTimers));
    GoesOn(c, s, s1, s');
    assert s'.workers == At(s, w, Idle(Waiting)).workers;
  }

  lemma Collects(c: Config, s: State, w: nat) returns (s': State)
    requires w < |s.workers| && s.workers[w].phase == Idle(Waiting) && c.io
    requires |s.timers| == 1 && DueOnce(s.timers[0], s.clock)
    ensures Reaches(c, s, s') && s' == At(s, w, Idle(Holding([Some(User(1))]))).(timers := [])
  {
    DrainsOne(s.timers, s.clock);
    s' := Goes(c, s, Idles(w, Collect(s.clock)));
  }

  lemma Posts(c: Config, s: State, w: nat) returns (s': State)
    requires w < |s.workers| && s.workers[w] == Worker(Idle(Holding([Some(User(1))])), false) && s.tasks == []
    ensures Reaches(c, s, s') && Alike(s, s') && SoloTask(s'.tasks) && s'.timers == s.timers
    ensures s'.active == s.active && s'.fibers == s.fibers && s'.workers == s.workers[w := Worker(Scanning, false)]
  {
    var cbs: seq<Option<Code>> := [Some(User(1))];
    assert cbs[1..] == [];
    var s1 := Goes(c, s, Idles(w, Post));
    s' := Goes(c, s1, Idles(w, Leave));
    GoesOn(c, s, s1, s');
    assert s'.workers == s.workers[w := Worker(Scanning, false)];
  }

  /** Worker w finds the timer due and schedules its callback. */
  lemma TimerPosted(c: Config, s: State, w: nat) returns (s': State)
    requires w < |s.workers| && s.workers[w] == Worker(Scanning, false) && c.io && !c.atomic
    requires s.tasks == [] && |s.timers| == 1 && DueOnce(s.timers[0], s.clock)
    ensures Reaches(c, s, s') && Alike(s, s') && SoloTask(s'.tasks) && s'.timers == []
    ensures s'.active == s.active && s'.fibers == s.fibers && s'.workers == s.workers
  {
    var s1 := WaitsAtLast(c, s, w);
    var s2 := Collects(c, s1, w);
    GoesOn(c, s, s1, s2);
    s' := Posts(c, s2, w);
    GoesOn(c, s, s2, s');
    assert s'.workers == s.workers;
  }

  lemma DrainsOne(q: seq<Alarm>, clock: int)
    requires |q| == 1 && DueOnce(q[0], clock)
    ensures Ascending(q) && Drain.TrapFree(q, clock, false)
    ensures var r := Drain.Run(Drain.State(q, [], []), clock, false); r.queue == [] && r.fired == [Some(User(1))]
  {
    var d := Drain.State(q, [], []);
    assert Drain.Step(d, clock).queue == [];
    assert Drain.Run(d, clock, false) == Drain.Run(Drain.Step(d, clock), clock, false);
  }

  /** Worker w finds nothing to do and sees no timer. */
  lemma SeesNoTimers(c: Config, s: State, w: nat) returns (s': State)
    requires w < |s.workers| && s.workers[w] == Worker(Scanning, false) && c.io && !c.atomic
    requires s.tasks == [] && s.timers == []
    ensures Reaches(c, s, s') && s' == At(s, w, Idle(NoTimers))
  {
    var s1 := Goes(c, s, Runs(w, Rest));
    s' := Goes(c, s1, Idles(w, CheckTimers));
    GoesOn(c, s, s1, s');
    assert s'.workers == At(s, w, Idle(NoTimers)).workers;
  }

  /** Worker w goes on to see no event and a scheduler at rest. */
  lemma SeesTheRest(c: Config, s: State, w: nat) returns (s': State)
    requires w < |s.workers| && s.workers[w] == Worker(Idle(NoTimers), false)
    requires s.pending == 0 && SchedulerStopping(s)
    ensures Reaches(c, s, s') && s' == s.(workers := s.workers[w := Worker(Scanning, true)])
  {
    var s1 := Goes(c, s, Idles(w, CheckEvents));
    s' := Goes(c, s1, Idles(w, CheckStop));
    GoesOn(c, s, s1, s');
    assert s'.workers == s.workers[w := Worker(Scanning, true)];
  }

  /** The workers from k on all see no timer. */
  lemma {:induction false} AllSeeNoTimers(c: Config, s: State, k: nat) returns (s': State)
    requires k <= |s.workers| && c.io && !c.atomic && s.tasks == [] && s.timers == []
    requires forall v :: k <= v < |s.workers| ==> s.workers[v] == Worker(Scanning, false)
    ensures Reaches(c, s, s') && s' == s.(workers := s'.workers) && |s'.workers| == |s.workers|
    ensures forall v :: 0 <= v < |s.workers| ==>
      s'.workers[v] == if v < k then s.workers[v] else Worker(Idle(NoTimers), false)
    decreases |s.workers| - k
  {
    if k == |s.workers| {
      assert Exec(c, s, []) == Some(s);
      s' := s;
    } else {
      var s1 := SeesNoTimers(c, s, k);
      s' := AllSeeNoTimers(c, s1, k + 1);
      GoesOn(c, s, s1, s');
    }
  }

  /** ... and see the rest. */
  lemma {:induction false} AllSeeTheRest(c: Config, s: State, k: nat) returns (s': State)
    requires k <= |s.workers| && s.pending == 0 && SchedulerStopping(s)
    requires forall v :: k <= v < |s.workers| ==> s.workers[v] == Worker(Idle(NoTimers), false)
    ensures Reaches(c, s, s') && s' == s.(workers := s'.workers) && |s'.workers| == |s.workers|
    ensures forall v :: 0 <= v < |s.workers| ==>
      s'.workers[v] == if v < k then s.workers[v] else Worker(Scanning, true)
    decreases |s.workers| - k
  {
    if k == |s.workers| {
      assert Exec(c, s, []) == Some(s);
      s' := s;
    } else {
      var s1 := SeesTheRest(c, s, k);
      s' := AllSeeTheRest(c, s1, k + 1);
      GoesOn(c, s, s1, s');
    }
  }

  /** All workers but the first terminate while the first one's task has set a timer. */
  lemma OthersLeave(c: Config, n: nat) returns (s': State)
    requires c.io && !c.atomic && n > 0
    ensures Reaches(c, Init(n, [0], 0), s')
    ensures s'.stopping && !s'.late && s'.pending == 0 && s'.active == 0 && s'.tasks == []
    ensures s'.fibers.Keys == {0} && |s'.timers| == 1 && DueOnce(s'.timers[0], s'.clock)
    ensures |s'.workers| == n && forall v :: 0 <= v < n ==> s'.workers[v] == Worker(Scanning, v > 0)
  {
    var s0 := Init(n, [0], 0);
    var s1 := Goes(c, s0, Stop);
    var s2 := TaskStarts(c, s1, 0, 0);
    GoesOn(c, s0, s1, s2);
    var s3 := AllSeeNoTimers(c, s2, 1);
    GoesOn(c, s0, s2, s3);
    var s4 := TimerAdded(c, s3, 0);
    GoesOn(c, s0, s3, s4);
    var s5 := TaskEnds(c, s4, 0);
    GoesOn(c, s0, s4, s5);
    s' := AllSeeTheRest(c, s5, 1);
    GoesOn(c, s0, s5, s');
  }

  /** The first worker schedules the callback; the second, which has terminated its idle fiber but is
      still in run(), takes it; and the callback sets another timer between two reads of the first. */
  lemma LastOneLeaves(c: Config, s: State) returns (s': State)
    requires c.io && !c.atomic && |s.workers| > 1
    requires s.stopping && !s.late && s.pending == 0 && s.active == 0 && s.tasks == []
    requires s.fibers.Keys == {0} && |s.timers| == 1 && DueOnce(s.timers[0], s.clock)
    requires forall v :: 0 <= v < |s.workers| ==> s.workers[v] == Worker(Scanning, v > 0)
    ensures Reaches(c, s, s') && Over(c, s') && !s'.late && s'.timers != []
  {
    var s1 := TimerPosted(c, s, 0);
    var s2 := TaskStarts(c, s1, 1, 1);
    GoesOn(c, s, s1, s2);
    var s3 := SeesNoTimers(c, s2, 0);
    GoesOn(c, s, s2, s3);
    var s4 := TimerAdded(c, s3, 1);
    GoesOn(c, s, s3, s4);
    var s5 := TaskEnds(c, s4, 1);
    GoesOn(c, s, s4, s5);
    s' := SeesTheRest(c, s5, 0);
    GoesOn(c, s, s5, s');
  }

  /** A timer set from outside between two reads of the only worker, before stop() is called. */
  lemma OutsiderTooQuick(c: Config) returns (s': State)
    requires c.io && !c.atomic && c.outsiders
    ensures Reaches(c, Init(1, [], 0), s') && Over(c, s') && !s'.late && s'.timers != []
  {
    var s0 := Init(1, [], 0);
    var s1 := SeesNoTimers(c, s0, 0);
    var s2 := Goes(c, s1, Outside(AddTimer(0, 1, false)));
    GoesOn(c, s0, s1, s2);
    var s3 := Goes(c, s2, Stop);
    GoesOn(c, s0, s2, s3);
    s' := SeesTheRest(c, s3, 0);
    GoesOn(c, s0, s3, s');
    assert s'.timers == [Timer((), 0, 0, false, Some(User(1)))];
  }

  lemma Concludes(c: Config, s: State, w: nat) returns (s': State)
    requires w < |s.workers| && s.workers[w] == Worker(Scanning, false) && c.io && c.atomic
    requires Quiet(s)
    ensures Reaches(c, s, s') && s' == s.(workers := s.workers[w := Worker(Scanning, true)])
  {
    var s1 := Goes(c, s, Runs(w, Rest));
    s' := Goes(c, s1, Idles(w, CheckStop));
    GoesOn(c, s, s1, s');
    assert s'.workers == s.workers[w := Worker(Scanning, true)];
  }

  lemma {:induction false} AllConclude(c: Config, s: State, k: nat) returns (s': State)
    requires k <= |s.workers| && c.io && c.atomic && Quiet(s)
    requires forall v :: 0 <= v < |s.workers| ==> s.workers[v] == Worker(Scanning, v < k)
    ensures Reaches(c, s, s') && s' == s.(workers := s'.workers) && Over(c, s')
    decreases |s.workers| - k
  {
    if k == |s.workers| {
      assert Exec(c, s, []) == Some(s);
      s' := s;
    } else {
      var s1 := Concludes(c, s, k);
      s' := AllConclude(c, s1, k + 1);
      GoesOn(c, s, s1, s');
    }
  }

  /** With no timer, no count and no task, all workers terminate, whether they read at once or not. */
  lemma AllTerminate(c: Config, s: State) returns (s': State)
    requires c.io && Quiet(s) && forall v :: 0 <= v < |s.workers| ==> s.workers[v] == Worker(Scanning, false)
    ensures Reaches(c, s, s') && s' == s.(workers := s'.workers) && Over(c, s')
  {
    if c.atomic {
      s' := AllConclude(c, s, 0);
    } else {
      var s1 := AllSeeNoTimers(c, s, 0);
      s' := AllSeeTheRest(c, s1, 0);
      GoesOn(c, s, s1, s');
    }
  }

  /** A thread outside adds an event, and has counted it down and not yet handed its waiter over in
      cancelEvent when stop() is called. */
  lemma HalfCancelled(c: Config, n: nat) returns (s': State)
    requires c.io && c.outsiders
    ensures Reaches(c, Init(n, [], 0), s') && Quiet(s') && !s'.late
    ensures s'.calls == [Removing(Call(User(0)), true)]
    ensures |s'.workers| == n && forall v :: 0 <= v < n ==> s'.workers[v] == Worker(Scanning, false)
  {
    var s0 := Init(n, [], 0);
    var s1 := Goes(c, s0, OutsideCall(AddEvent(Call(User(0)))));
    assert s1.calls[..0] + s1.calls[1..] == [];
    var s2 := Goes(c, s1, OutsideReturn(0));
    GoesOn(c, s0, s1, s2);
    assert s2.registered == [Call(User(0))] && s2.calls == [];
    var s3 := Goes(c, s2, OutsideCall(CancelEvent(0)));
    GoesOn(c, s0, s2, s3);
    s' := Goes(c, s3, Stop);
    GoesOn(c, s0, s3, s');
  }

  /** All workers leave in the middle of the cancel, even if they read all at once. */
  lemma CancelTooSlow(c: Config, n: nat) returns (s': State)
    requires c.io && c.outsiders
    ensures Reaches(c, Init(n, [], 0), s') && Over(c, s') && !s'.late && s'.calls != []
  {
    var s := HalfCancelled(c, n);
    s' := AllTerminate(c, s);
    GoesOn(c, Init(n, [], 0), s, s');
  }

  /** The task of a worker adds an event. */
  lemma EventAdded(c: Config, s: State, w: nat) returns (s': State)
    requires w < |s.workers| && s.workers[w].phase.Executing? && s.workers[w].phase.todo.Nothing?
    requires s.workers[w].phase.f in s.fibers && c.io
    ensures Reaches(c, s, s') && s' == s.(registered := s.registered + [Call(User(0))], pending := s.pending + 1)
  {
    var s1 := Goes(c, s, Codes(w, Calling(AddEvent(Call(User(0))))));
    s' := Goes(c, s1, Codes(w, Return));
    GoesOn(c, s, s1, s');
    assert s'.workers == s.workers;
  }

  /** ... and then deletes an event that is not registered. */
  lemma StrayDeleted(c: Config, s: State, w: nat) returns (s': State)
    requires w < |s.workers| && s.workers[w].phase.Executing? && s.workers[w].phase.todo.Nothing?
    requires s.workers[w].phase.f in s.fibers && c.io && !c.guarded
    ensures Reaches(c, s, s') && s'.registered != [] && s'.strays == s.strays + 1
    ensures s' == s.(registered := s'.registered, strays := s'.strays)
  {
    var s1 := EventAdded(c, s, w);
    s' := Goes(c, s1, Codes(w, Acting(StrayDelete)));
    GoesOn(c, s, s1, s');
  }

  /** A task adds an event and deletes another one that is not registered, which lowers the counter; all
      workers leave while the waiter is registered, however they read and whoever calls. */
  lemma DeletedOther(c: Config, n: nat) returns (s': State)
    requires c.io && !c.guarded && n > 0
    ensures Reaches(c, Init(n, [0], 0), s') && Over(c, s') && !s'.late && s'.registered != []
  {
    var s0 := Init(n, [0], 0);
    var s1 := TaskStarts(c, s0, 0, 0);
    var s2 := StrayDeleted(c, s1, 0);
    GoesOn(c, s0, s1, s2);
    var s3 := TaskEnds(c, s2, 0);
    GoesOn(c, s0, s2, s3);
    var s4 := Goes(c, s3, Stop);
    GoesOn(c, s0, s3, s4);
    s' := AllTerminate(c, s4);
    GoesOn(c, s0, s4, s');
  }

  lemma LeftoversAreUnsafe(c: Config, n: nat, calls: seq<nat>, s: State)
    requires Reaches(c, Init(n, calls, 0), s) && Over(c, s) && !s.late
    requires s.timers != [] || s.calls != [] || s.registered != []
    ensures !ShutdownSafe(c, n)
  {
    var steps :| Exec(c, Init(n, calls, 0), steps) == Some(s);
    assert Reachable(c, n, s) && !AtRest(s);
  }

  /** A plain scheduler always shuts down with nothing left behind. An IOManager does exactly when events
      are deleted only while they are registered, nobody calls from outside, and it has a single worker;
      with one-step reads it would for any number of workers, still not in the other two cases. */
  lemma ShutdownSafeIff(c: Config, n: nat)
    requires n > 0
    ensures ShutdownSafe(c, n) <==> !c.io || (c.guarded && !c.outsiders && (c.atomic || n == 1))
  {
    if Trusted(c, n) {
      TrustedIsSafe(c, n);
    } else if !c.guarded {
      var s' := DeletedOther(c, n);
      LeftoversAreUnsafe(c, n, [0], s');
    } else if c.outsiders {
      var s' := CancelTooSlow(c, n);
      LeftoversAreUnsafe(c, n, [], s');
    } else {
      var s := OthersLeave(c, n);
      var s' := LastOneLeaves(c, s);
      GoesOn(c, Init(n, [0], 0), s, s');
      LeftoversAreUnsafe(c, n, [0], s');
    }
  }

  // ----- A failed assertion -----

  lemma EndsReset(c: Config, s: State) returns (s': State)
    requires c.outsiders && |s.workers| == 1 && s.workers[0].phase.Executing? && s.workers[0].phase.todo.Nothing?
    requires s.workers[0].phase.f == 0 && 0 in s.fibers
    ensures Reaches(c, s, s') && |s'.workers| == 1 && s'.workers[0].phase.Ending? && s'.workers[0].phase.f == 0
    ensures 0 in s'.fibers && s'.fibers[0].state == F.Ready
  {
    var s1 := Goes(c, s, Codes(0, Terminate));
    s' := Goes(c, s1, Outside(Restart(0)));
    GoesOn(c, s, s1, s');
  }

  /** A callback ends, a thread outside resets its fiber, and the assertion of its last yield fails. */
  lemma ResetTooEarly(c: Config) returns (s': State)
    requires c.outsiders
    ensures Reachable(c, 1, s') && s'.failed
  {
    var s0 := Init(1, [0], 0);
    var s1 := TaskStarts(c, s0, 0, 0);
    var s2 := EndsReset(c, s1);
    GoesOn(c, s0, s1, s2);
    s' := Goes(c, s2, Codes(0, Yield));
    GoesOn(c, s0, s2, s');
    var steps :| Exec(c, s0, steps) == Some(s');
  }

  // ----- A lost sleep -----

  lemma Sleeps(c: Config, s: State, w: nat, ms: nat) returns (s': State)
    requires w < |s.workers| && s.workers[w].phase.Executing? && s.workers[w].phase.todo.Nothing?
    requires s.workers[w].phase.f in s.fibers && c.io && s.timers == []
    ensures Reaches(c, s, s') && s'.tasks == s.tasks && s'.clock == s.clock && s'.fibers.Keys == s.fibers.Keys
    ensures |s'.timers| == 1 && s'.timers[0].next == s.clock + ms * TICKS_PER_MS
    ensures |s'.workers| == |s.workers| && forall v :: 0 <= v < |s.workers| && v != w ==> s'.workers[v] == s.workers[v]
  {
    s' := Goes(c, s, Codes(w, Sleep(ms)));
    assert |s'.timers| == 1;
  }

  /** Two callbacks sleep for the same time at the same reading of the clock. */
  lemma ClashComesAbout(c: Config) returns (s: State)
    requires c.io
    ensures Reachable(c, 2, s) && R.CanSleep(c, s, 1, 10, 1)
    ensures Occupied(s.timers, s.clock + 10 * TICKS_PER_MS)
  {
    var s0 := Init(2, [0, 1], 0);
    var s1 := TaskStarts(c, s0, 0, 0);
    var s2 := Sleeps(c, s1, 0, 10);
    GoesOn(c, s0, s1, s2);
    s := TaskStarts(c, s2, 1, 1);
    GoesOn(c, s0, s2, s);
    assert s.timers[0] in s.timers;
    var steps :| Exec(c, Init(2, [0, 1], 0), steps) == Some(s);
  }

  lemma SecondHangs(c: Config, s: State)
    requires 1 in c.solo && Reachable(c, 2, s) && R.CanSleep(c, s, 1, 10, 1)
    requires Occupied(s.timers, s.clock + 10 * TICKS_PER_MS)
    ensures Z.HangsForever(c, NextCode(c, s, 1, Sleep(10)).value, 1)
  {
    var s1 := NextCode(c, s, 1, Sleep(10)).value;
    assert Exec(c, s1, []) == Some(s1);
    Z.SleepFateIff(c, 2, s, 1, 10, 1, []);
  }

  /** The second of them is never resumed. */
  lemma TwoSleepersOneWakes(c: Config) returns (s: State)
    requires c.io && 1 in c.solo
    ensures Reachable(c, 2, s) && R.CanSleep(c, s, 1, 10, 1)
    ensures Z.HangsForever(c, NextCode(c, s, 1, Sleep(10)).value, 1)
  {
    s := ClashComesAbout(c);
    SecondHangs(c, s);
  }
}
