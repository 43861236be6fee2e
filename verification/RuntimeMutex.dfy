/** The fiber mutex at work: a fiber never executes on two threads. */
module RuntimeMutex {
  import opened Options
  import F = FiberModel
  import opened Tasks
  import opened Runtime
  import opened RuntimeMoves

  /** The fiber whose mutex a worker holds. */
  function Owned(phase: Phase): Option<nat> {
    match phase
    case Locked(_, f) => Some(f)
    case Executing(_, f, _) => Some(f)
    case Leaving(_, f) => Some(f)
    case Ending(_, f) => Some(f)
    case Switching(_, f) => Some(f)
    case Back(_, f) => Some(f)
    case _ => None
  }

  /** Between a resume and the moment the state is set back. */
  predicate Executes(phase: Phase) {
    phase.Executing? || phase.Leaving?
  }

  /** What the state of a fiber may be while its holder is at phase. */
  predicate StateFits(phase: Phase, state: F.FiberState) {
    && (Executes(phase) <==> state == F.Running)
    && (phase.Locked? && !phase.task.body.Resume? ==> state == F.Ready)
  }

  ghost predicate WorkerFits(phase: Phase, w: nat, fibers: map<nat, Fib>) {
    Owned(phase).Some? ==>
      var f := Owned(phase).value;
      f in fibers && fibers[f].holder == Some(w) && StateFits(phase, fibers[f].state)
  }

  ghost predicate FiberFits(f: nat, fib: Fib, workers: seq<Worker>) {
    match fib.holder
    case None => fib.state != F.Running
    case Some(w) => w < |workers| && Owned(workers[w].phase) == Some(f)
  }

  /** A mutex is held by the worker that is using the fiber, and by no other; a running fiber is
      being executed by the holder of its mutex. */
  ghost predicate Guarded(workers: seq<Worker>, fibers: map<nat, Fib>) {
    && (forall w :: 0 <= w < |workers| ==> WorkerFits(workers[w].phase, w, fibers))
    && (forall f :: f in fibers ==> FiberFits(f, fibers[f], workers))
  }

  ghost predicate Inv(s: State) {
    Guarded(s.workers, s.fibers)
  }

  // ----- One worker moves, and at most the fiber it uses changes -----

  lemma FiberChanges(workers: seq<Worker>, fibers: map<nat, Fib>, w: nat, x: Worker, f: nat, fib: Fib)
    requires Guarded(workers, fibers) && w < |workers|
    requires f in fibers ==> fibers[f].holder == None || fibers[f].holder == Some(w)
    requires Owned(workers[w].phase) == None || Owned(workers[w].phase) == Some(f)
    requires fib.holder == None || fib.holder == Some(w)
    requires Owned(x.phase) == if fib.holder == None then None else Some(f)
    requires if fib.holder == None then fib.state != F.Running else StateFits(x.phase, fib.state)
    ensures Guarded(workers[w := x], fibers[f := fib])
  {
    var workers', fibers' := workers[w := x], fibers[f := fib];
    forall v | 0 <= v < |workers'| ensures WorkerFits(workers'[v].phase, v, fibers') {
      if v != w {
        assert WorkerFits(workers[v].phase, v, fibers);
      }
    }
    forall g | g in fibers' ensures FiberFits(g, fibers'[g], workers') {
      if g != f {
        assert FiberFits(g, fibers[g], workers);
      }
    }
  }

  lemma PhaseChanges(workers: seq<Worker>, fibers: map<nat, Fib>, w: nat, x: Worker)
    requires Guarded(workers, fibers) && w < |workers|
    requires Owned(x.phase) == Owned(workers[w].phase)
    requires WorkerFits(x.phase, w, fibers)
    ensures Guarded(workers[w := x], fibers)
  {
    var workers' := workers[w := x];
    forall v | 0 <= v < |workers'| ensures WorkerFits(workers'[v].phase, v, fibers) {
      assert WorkerFits(workers[v].phase, v, fibers);
    }
    forall g | g in fibers ensures FiberFits(g, fibers[g], workers') {
      assert FiberFits(g, fibers[g], workers);
    }
  }

  /** A fiber nobody holds is made, or one that has terminated is reset. */
  lemma StateChanges(workers: seq<Worker>, fibers: map<nat, Fib>, f: nat, fib: Fib)
    requires Guarded(workers, fibers) && fib.state == F.Ready
    requires if f in fibers then fibers[f].state == F.Term && fib.holder == fibers[f].holder else fib.holder == None
    ensures Guarded(workers, fibers[f := fib])
  {
    var fibers' := fibers[f := fib];
    forall v | 0 <= v < |workers| ensures WorkerFits(workers[v].phase, v, fibers') {
      assert WorkerFits(workers[v].phase, v, fibers);
    }
    forall g | g in fibers' ensures FiberFits(g, fibers'[g], workers) {
      assert g in fibers ==> FiberFits(g, fibers[g], workers);
    }
  }

  // ----- The moves -----

  lemma ActKeeps(c: Config, s: State, act: Act)
    requires Guarded(s.workers, s.fibers) && NextAct(c, s, act).Some?
    ensures var s' := NextAct(c, s, act).value; Guarded(s'.workers, s'.fibers)
  {
    match act
    case Launch(f, thread) => StateChanges(s.workers, s.fibers, f, Fib(F.Ready, None, []));
    case Restart(f) => StateChanges(s.workers, s.fibers, f, s.fibers[f].(state := F.Ready));
    case _ =>
  }

  /** A worker that holds no mutex before or after. */
  lemma FreeHandsKeep(s: State, s': State, w: nat)
    requires Guarded(s.workers, s.fibers) && Turned(s, s', w) && s'.fibers == s.fibers
    requires Owned(s.workers[w].phase) == None && Owned(s'.workers[w].phase) == None
    ensures Guarded(s'.workers, s'.fibers)
  {
    PhaseChanges(s.workers, s.fibers, w, s'.workers[w]);
  }

  lemma MakeKeeps(s: State, w: nat, g: nat)
    requires Guarded(s.workers, s.fibers) && w < |s.workers| && NextMake(s, w, g).Some?
    ensures var s' := NextMake(s, w, g).value; Guarded(s'.workers, s'.fibers)
  {
    var s' := NextMake(s, w, g).value;
    FiberChanges(s.workers, s.fibers, w, s'.workers[w], g, s'.fibers[g]);
  }

  lemma LockKeeps(s: State, w: nat)
    requires Guarded(s.workers, s.fibers) && w < |s.workers| && NextLock(s, w).Some?
    ensures var s' := NextLock(s, w).value; Guarded(s'.workers, s'.fibers)
  {
    var s' := NextLock(s, w).value;
    var f := s.workers[w].phase.task.body.fiber;
    assert FiberFits(f, s.fibers[f], s.workers);
    FiberChanges(s.workers, s.fibers, w, s'.workers[w], f, s'.fibers[f]);
  }

  lemma ResumingKeeps(s: State, w: nat)
    requires Guarded(s.workers, s.fibers) && w < |s.workers|
    requires s.workers[w].phase.Locked? && s.workers[w].phase.f in s.fibers
    ensures Guarded(Resuming(s, w).workers, Resuming(s, w).fibers)
  {
    var s', p := Resuming(s, w), s.workers[w].phase;
    assert WorkerFits(p, w, s.fibers);
    FiberChanges(s.workers, s.fibers, w, s'.workers[w], p.f, s'.fibers[p.f]);
  }

  lemma DispatchKeeps(s: State, w: nat)
    requires Guarded(s.workers, s.fibers) && w < |s.workers| && NextDispatch(s, w).Some?
    ensures var s' := NextDispatch(s, w).value; Guarded(s'.workers, s'.fibers)
  {
    var s', p := NextDispatch(s, w).value, s.workers[w].phase;
    if s' == Resuming(s, w) {
      ResumingKeeps(s, w);
    } else {
      assert WorkerFits(p, w, s.fibers);
      PhaseChanges(s.workers, s.fibers, w, s.workers[w].(phase := Back(p.task, p.f)));
    }
  }

  lemma UnlockKeeps(s: State, w: nat)
    requires Guarded(s.workers, s.fibers) && w < |s.workers| && NextUnlock(s, w).Some?
    ensures var s' := NextUnlock(s, w).value; Guarded(s'.workers, s'.fibers)
  {
    var s', p := NextUnlock(s, w).value, s.workers[w].phase;
    assert WorkerFits(p, w, s.fibers);
    FiberChanges(s.workers, s.fibers, w, s'.workers[w], p.f, s'.fibers[p.f]);
  }

  lemma RunKeeps(s: State, w: nat, move: RunMove)
    requires Guarded(s.workers, s.fibers) && w < |s.workers| && NextRun(s, w, move).Some?
    ensures var s' := NextRun(s, w, move).value; Guarded(s'.workers, s'.fibers)
  {
    match move
    case Make(g) => MakeKeeps(s, w, g);
    case Lock => LockKeeps(s, w);
    case Dispatch => DispatchKeeps(s, w);
    case Unlock => UnlockKeeps(s, w);
    case _ =>
      RunRan(s, w, move);
      FreeHandsKeep(s, NextRun(s, w, move).value, w);
  }

  lemma YieldKeeps(s: State, w: nat)
    requires Guarded(s.workers, s.fibers) && w < |s.workers| && NextYield(s, w).Some?
    ensures var s' := NextYield(s, w).value; Guarded(s'.workers, s'.fibers)
  {
    var s', f := NextYield(s, w).value, s.workers[w].phase.f;
    assert WorkerFits(s.workers[w].phase, w, s.fibers);
    FiberChanges(s.workers, s.fibers, w, s'.workers[w], f, s'.fibers[f]);
  }

  lemma SleepKeeps(c: Config, s: State, w: nat, ms: nat)
    requires Guarded(s.workers, s.fibers) && w < |s.workers| && NextSleep(c, s, w, ms).Some?
    ensures var s' := NextSleep(c, s, w, ms).value; Guarded(s'.workers, s'.fibers)
  {
    var s', f := NextSleep(c, s, w, ms).value, s.workers[w].phase.f;
    assert WorkerFits(s.workers[w].phase, w, s.fibers);
    FiberChanges(s.workers, s.fibers, w, s'.workers[w], f, s'.fibers[f]);
  }

  lemma TerminateKeeps(s: State, w: nat)
    requires Guarded(s.workers, s.fibers) && w < |s.workers| && NextTerminate(s, w).Some?
    ensures var s' := NextTerminate(s, w).value; Guarded(s'.workers, s'.fibers)
  {
    var s', f := NextTerminate(s, w).value, s.workers[w].phase.f;
    assert WorkerFits(s.workers[w].phase, w, s.fibers);
    FiberChanges(s.workers, s.fibers, w, s'.workers[w], f, s'.fibers[f]);
  }

  lemma SwitchKeeps(s: State, w: nat)
    requires Guarded(s.workers, s.fibers) && w < |s.workers| && NextSwitch(s, w).Some?
    ensures var s' := NextSwitch(s, w).value; Guarded(s'.workers, s'.fibers)
  {
    var s', f := NextSwitch(s, w).value, s.workers[w].phase.f;
    assert WorkerFits(s.workers[w].phase, w, s.fibers);
    FiberChanges(s.workers, s.fibers, w, s'.workers[w], f, s'.fibers[f]);
  }

  lemma CallKeeps(s: State, s': State, w: nat, move: CodeMove)
    requires Guarded(s.workers, s.fibers) && Coded(s, s', w, move) && IsCall(move)
    ensures Guarded(s'.workers, s'.fibers)
  {
    assert WorkerFits(s.workers[w].phase, w, s.fibers);
    PhaseChanges(s.workers, s.fibers, w, s'.workers[w]);
  }

  lemma CodeKeeps(c: Config, s: State, w: nat, move: CodeMove)
    requires Guarded(s.workers, s.fibers) && w < |s.workers| && NextCode(c, s, w, move).Some?
    ensures var s' := NextCode(c, s, w, move).value; Guarded(s'.workers, s'.fibers)
  {
    match move
    case Acting(act) => ActKeeps(c, s, act);
    case Sleep(ms) => SleepKeeps(c, s, w, ms);
    case Yield => YieldKeeps(s, w);
    case Terminate => TerminateKeeps(s, w);
    case Switch => SwitchKeeps(s, w);
    case _ =>
      CodeCoded(c, s, w, move);
      CallKeeps(s, NextCode(c, s, w, move).value, w, move);
  }

  lemma IdleKeeps(c: Config, s: State, w: nat, move: IdleMove)
    requires Guarded(s.workers, s.fibers) && w < |s.workers| && NextIdle(c, s, w, move).Some?
    ensures var s' := NextIdle(c, s, w, move).value; Guarded(s'.workers, s'.fibers)
  {
    IdleIdled(c, s, w, move);
    FreeHandsKeep(s, NextIdle(c, s, w, move).value, w);
  }

  lemma StepKeeps(c: Config, s: State, step: Step)
    requires Inv(s) && Next(c, s, step).Some?
    ensures Inv(Next(c, s, step).value)
  {
    match step
    case Runs(w, move) => RunKeeps(s, w, move);
    case Codes(w, move) => CodeKeeps(c, s, w, move);
    case Idles(w, move) => IdleKeeps(c, s, w, move);
    case Outside(act) => ActKeeps(c, s, act);
    case _ => NobodyMoves(c, s, step);
  }
}
