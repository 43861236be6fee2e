/** What the histories of the fibers look like: a fiber is resumed only after its last yield has been
    completed, on whatever thread. */
module RuntimeLogs {
  import opened Options
  import F = FiberModel
  import opened Tasks
  import opened Runtime
  import opened RuntimeMoves
  import M = RuntimeMutex

  /** The execution is saved: the fiber has not started, or its last yield is complete. */
  predicate Settled(log: seq<Event>) {
    log == [] || log[|log| - 1].Left?
  }

  predicate LogFits(log: seq<Event>, phase: Phase) {
    match phase
    case Executing(_, _, _) => log != [] && log[|log| - 1].Resumed?
    case Ending(_, _) => log != [] && log[|log| - 1].Resumed?
    case Leaving(_, _) => log != [] && log[|log| - 1].Slept?
    case Switching(_, _) => log != [] && !log[|log| - 1].Left?
    case _ => Settled(log)
  }

  predicate HistoryFits(fib: Fib, workers: seq<Worker>) {
    match fib.holder
    case None => Settled(fib.log)
    case Some(w) => w < |workers| ==> LogFits(fib.log, workers[w].phase)
  }

  /** A resume comes first, and every other one follows the completion of a yield. */
  ghost predicate Alternates(log: seq<Event>) {
    && (log != [] ==> log[0].Resumed?)
    && forall i :: 0 < i < |log| && log[i].Resumed? ==> log[i - 1].Left?
  }

  ghost predicate Historical(workers: seq<Worker>, fibers: map<nat, Fib>) {
    forall f :: f in fibers ==> HistoryFits(fibers[f], workers) && Alternates(fibers[f].log)
  }

  ghost predicate Inv(s: State) {
    M.Inv(s) && Historical(s.workers, s.fibers)
  }

  // ----- One worker moves, and at most the fiber it uses changes -----

  lemma FiberChanges(workers: seq<Worker>, fibers: map<nat, Fib>, w: nat, x: Worker, f: nat, fib: Fib)
    requires M.Guarded(workers, fibers) && Historical(workers, fibers) && w < |workers|
    requires M.Owned(workers[w].phase) == None || M.Owned(workers[w].phase) == Some(f)
    requires HistoryFits(fib, workers[w := x]) && Alternates(fib.log)
    ensures Historical(workers[w := x], fibers[f := fib])
  {
    forall g | g in fibers && g != f ensures HistoryFits(fibers[g], workers[w := x]) {
      assert M.FiberFits(g, fibers[g], workers) && HistoryFits(fibers[g], workers);
    }
  }

  lemma PhaseChanges(workers: seq<Worker>, fibers: map<nat, Fib>, w: nat, x: Worker)
    requires M.Guarded(workers, fibers) && Historical(workers, fibers) && w < |workers|
    requires M.Owned(workers[w].phase).Some? ==>
      M.Owned(workers[w].phase).value in fibers ==> LogFits(fibers[M.Owned(workers[w].phase).value].log, x.phase)
    ensures Historical(workers[w := x], fibers)
  {
    forall g | g in fibers ensures HistoryFits(fibers[g], workers[w := x]) {
      assert M.FiberFits(g, fibers[g], workers) && HistoryFits(fibers[g], workers);
    }
  }

  lemma NewFiber(workers: seq<Worker>, fibers: map<nat, Fib>, f: nat, fib: Fib)
    requires Historical(workers, fibers)
    requires if f in fibers then fib.log == fibers[f].log && fib.holder == fibers[f].holder
             else fib.log == [] && fib.holder == None
    ensures Historical(workers, fibers[f := fib])
  {
    if f in fibers {
      assert HistoryFits(fibers[f], workers) && Alternates(fibers[f].log);
    }
  }

  lemma Grows(log: seq<Event>, e: Event)
    requires Alternates(log) && if e.Resumed? then Settled(log) else log != []
    ensures Alternates(log + [e])
  {
  }

  // ----- The moves -----

  lemma ActKeeps(c: Config, s: State, act: Act)
    requires Inv(s) && NextAct(c, s, act).Some?
    ensures var s' := NextAct(c, s, act).value; Historical(s'.workers, s'.fibers)
  {
    match act
    case Launch(f, thread) => NewFiber(s.workers, s.fibers, f, Fib(F.Ready, None, []));
    case Restart(f) => NewFiber(s.workers, s.fibers, f, s.fibers[f].(state := F.Ready));
    case _ =>
  }

  lemma ResumingKeeps(s: State, w: nat)
    requires Inv(s) && w < |s.workers| && s.workers[w].phase.Locked? && s.workers[w].phase.f in s.fibers
    ensures Historical(Resuming(s, w).workers, Resuming(s, w).fibers)
  {
    var s', p := Resuming(s, w), s.workers[w].phase;
    assert M.WorkerFits(p, w, s.fibers) && HistoryFits(s.fibers[p.f], s.workers);
    Grows(s.fibers[p.f].log, Resumed(s.clock));
    FiberChanges(s.workers, s.fibers, w, s'.workers[w], p.f, s'.fibers[p.f]);
  }

  lemma DispatchKeeps(s: State, w: nat)
    requires Inv(s) && w < |s.workers| && NextDispatch(s, w).Some?
    ensures var s' := NextDispatch(s, w).value; Historical(s'.workers, s'.fibers)
  {
    var p := s.workers[w].phase;
    if NextDispatch(s, w).value == Resuming(s, w) {
      ResumingKeeps(s, w);
    } else {
      assert M.WorkerFits(p, w, s.fibers) && HistoryFits(s.fibers[p.f], s.workers);
      PhaseChanges(s.workers, s.fibers, w, s.workers[w].(phase := Back(p.task, p.f)));
    }
  }

  lemma MakeKeeps(s: State, w: nat, g: nat)
    requires Inv(s) && w < |s.workers| && NextMake(s, w, g).Some?
    ensures var s' := NextMake(s, w, g).value; Historical(s'.workers, s'.fibers)
  {
    var s' := NextMake(s, w, g).value;
    FiberChanges(s.workers, s.fibers, w, s'.workers[w], g, s'.fibers[g]);
  }

  lemma LockKeeps(s: State, w: nat)
    requires Inv(s) && w < |s.workers| && NextLock(s, w).Some?
    ensures var s' := NextLock(s, w).value; Historical(s'.workers, s'.fibers)
  {
    var s' := NextLock(s, w).value;
    var f := s.workers[w].phase.task.body.fiber;
    assert HistoryFits(s.fibers[f], s.workers);
    FiberChanges(s.workers, s.fibers, w, s'.workers[w], f, s'.fibers[f]);
  }

  lemma UnlockKeeps(s: State, w: nat)
    requires Inv(s) && w < |s.workers| && NextUnlock(s, w).Some?
    ensures var s' := NextUnlock(s, w).value; Historical(s'.workers, s'.fibers)
  {
    var s', f := NextUnlock(s, w).value, s.workers[w].phase.f;
    assert M.WorkerFits(s.workers[w].phase, w, s.fibers) && HistoryFits(s.fibers[f], s.workers);
    FiberChanges(s.workers, s.fibers, w, s'.workers[w], f, s'.fibers[f]);
  }

  lemma RunKeeps(s: State, w: nat, move: RunMove)
    requires Inv(s) && w < |s.workers| && NextRun(s, w, move).Some?
    ensures var s' := NextRun(s, w, move).value; Historical(s'.workers, s'.fibers)
  {
    match move
    case Make(g) => MakeKeeps(s, w, g);
    case Lock => LockKeeps(s, w);
    case Dispatch => DispatchKeeps(s, w);
    case Unlock => UnlockKeeps(s, w);
    case _ =>
      RunRan(s, w, move);
      PhaseChanges(s.workers, s.fibers, w, NextRun(s, w, move).value.workers[w]);
  }

  lemma SleepKeeps(c: Config, s: State, w: nat, ms: nat)
    requires Inv(s) && w < |s.workers| && NextSleep(c, s, w, ms).Some?
    ensures var s' := NextSleep(c, s, w, ms).value; Historical(s'.workers, s'.fibers)
  {
    var s', f := NextSleep(c, s, w, ms).value, s.workers[w].phase.f;
    assert M.WorkerFits(s.workers[w].phase, w, s.fibers);
    FiberChanges(s.workers, s.fibers, w, s'.workers[w], f, s'.fibers[f]);
  }

  lemma YieldKeeps(s: State, w: nat)
    requires Inv(s) && w < |s.workers| && NextYield(s, w).Some?
    ensures var s' := NextYield(s, w).value; Historical(s'.workers, s'.fibers)
  {
    var s', f := NextYield(s, w).value, s.workers[w].phase.f;
    assert M.WorkerFits(s.workers[w].phase, w, s.fibers) && HistoryFits(s.fibers[f], s.workers);
    FiberChanges(s.workers, s.fibers, w, s'.workers[w], f, s'.fibers[f]);
  }

  lemma TerminateKeeps(s: State, w: nat)
    requires Inv(s) && w < |s.workers| && NextTerminate(s, w).Some?
    ensures var s' := NextTerminate(s, w).value; Historical(s'.workers, s'.fibers)
  {
    var s', f := NextTerminate(s, w).value, s.workers[w].phase.f;
    assert M.WorkerFits(s.workers[w].phase, w, s.fibers) && HistoryFits(s.fibers[f], s.workers);
    FiberChanges(s.workers, s.fibers, w, s'.workers[w], f, s'.fibers[f]);
  }

  lemma SwitchKeeps(s: State, w: nat)
    requires Inv(s) && w < |s.workers| && NextSwitch(s, w).Some?
    ensures var s' := NextSwitch(s, w).value; Historical(s'.workers, s'.fibers)
  {
    var s', f := NextSwitch(s, w).value, s.workers[w].phase.f;
    assert M.WorkerFits(s.workers[w].phase, w, s.fibers) && HistoryFits(s.fibers[f], s.workers);
    FiberChanges(s.workers, s.fibers, w, s'.workers[w], f, s'.fibers[f]);
  }

  lemma CallKeeps(s: State, s': State, w: nat, move: CodeMove)
    requires Inv(s) && Coded(s, s', w, move) && IsCall(move)
    ensures Historical(s'.workers, s'.fibers)
  {
    var p := s.workers[w].phase;
    assert M.WorkerFits(p, w, s.fibers) && HistoryFits(s.fibers[p.f], s.workers);
    PhaseChanges(s.workers, s.fibers, w, s'.workers[w]);
  }

  lemma CodeKeeps(c: Config, s: State, w: nat, move: CodeMove)
    requires Inv(s) && w < |s.workers| && NextCode(c, s, w, move).Some?
    ensures var s' := NextCode(c, s, w, move).value; Historical(s'.workers, s'.fibers)
  {
    match move
    case Acting(act) => ActKeeps(c, s, act);
    case Sleep(ms) => SleepKeeps(c, s, w, ms);
    case Yield => YieldKeeps(s, w);
    case Terminate => TerminateKeeps(s, w);
    case Switch => SwitchKeeps(s, w);
    case _ =>
      CodeCoded(c, s, w, move);
      CallKeeps(s, NextCode(c, s, w, move).value, w, move);
  }

  lemma StepKeeps(c: Config, s: State, step: Step)
    requires Inv(s) && Next(c, s, step).Some?
    ensures Inv(Next(c, s, step).value)
  {
    M.StepKeeps(c, s, step);
    match step
    case Runs(w, move) => RunKeeps(s, w, move);
    case Codes(w, move) => CodeKeeps(c, s, w, move);
    case Idles(w, move) =>
      IdleIdled(c, s, w, move);
      PhaseChanges(s.workers, s.fibers, w, Next(c, s, step).value.workers[w]);
    case Outside(act) => ActKeeps(c, s, act);
    case _ => NobodyMoves(c, s, step);
  }

  lemma {:induction false} ExecKeeps(c: Config, s: State, steps: seq<Step>)
    requires Inv(s) && Exec(c, s, steps).Some?
    ensures Inv(Exec(c, s, steps).value)
    decreases steps
  {
    if steps != [] {
      StepKeeps(c, s, steps[0]);
      ExecKeeps(c, Next(c, s, steps[0]).value, steps[1..]);
    }
  }

  /** In every run, however often a fiber is queued, it is resumed only when its last yield has been
      completed. */
  lemma ResumedOnceSaved(c: Config, n: nat, s: State, f: nat)
    requires Reachable(c, n, s) && f in s.fibers
    ensures Alternates(s.fibers[f].log)
  {
    var calls, clock, steps :| Exec(c, Init(n, calls, clock), steps) == Some(s);
    ExecKeeps(c, Init(n, calls, clock), steps);
  }
}
