/** The assertions of run, resume and yield, and the one way to make them fail: Fiber::reset takes no
    mutex, so it can make a fiber ready that has terminated and has its last yield still to come. */
module RuntimeResets {
  import opened Options
  import F = FiberModel
  import opened Tasks
  import opened Runtime
  import opened RuntimeMoves
  import M = RuntimeMutex
  import T = RuntimeTasks

  /** The worker has set f to TERM, and f has not yielded since. */
  predicate Ends(phase: Phase, f: nat) {
    phase.Ending? && phase.f == f
  }

  /** f is reset between its end and its last yield. */
  ghost predicate Untimely(s: State, act: Act) {
    act.Restart? && exists w :: 0 <= w < |s.workers| && Ends(s.workers[w].phase, act.f)
  }

  ghost predicate UntimelyStep(s: State, step: Step) {
    || (step.Codes? && step.code.Acting? && Untimely(s, step.code.act))
    || (step.Outside? && Untimely(s, step.act))
  }

  /** Some step of the run is an untimely reset. */
  ghost predicate Untimed(c: Config, s: State, steps: seq<Step>)
    requires Exec(c, s, steps).Some?
    decreases steps
  {
    steps != [] && (UntimelyStep(s, steps[0]) || Untimed(c, Next(c, s, steps[0]).value, steps[1..]))
  }

  /** The fiber of worker w has its last yield to come and is ready. */
  ghost predicate DoomedAt(s: State, w: nat) {
    && w < |s.workers| && s.workers[w].phase.Ending? && s.workers[w].phase.f in s.fibers
    && s.fibers[s.workers[w].phase.f].state == F.Ready
  }

  ghost predicate Doomed(s: State) {
    exists w :: DoomedAt(s, w)
  }

  // ----- Who can fail -----

  lemma CodeFails(c: Config, s: State, w: nat, move: CodeMove)
    requires M.Inv(s) && w < |s.workers| && NextCode(c, s, w, move).Some? && !s.failed
    ensures NextCode(c, s, w, move).value.failed <==> move.Yield? && DoomedAt(s, w)
  {
    assert M.WorkerFits(s.workers[w].phase, w, s.fibers);
  }

  lemma RunFailsNot(s: State, w: nat, move: RunMove)
    requires M.Inv(s) && NoneEmpty(s.tasks) && w < |s.workers| && NextRun(s, w, move).Some? && !s.failed
    ensures !NextRun(s, w, move).value.failed
  {
    assert M.WorkerFits(s.workers[w].phase, w, s.fibers);
  }

  /** The scan finds no empty task, a fiber that is resumed is ready, and one that yields is running or
      terminated, unless it is doomed. */
  lemma StepFails(c: Config, s: State, step: Step)
    requires M.Inv(s) && NoneEmpty(s.tasks) && Next(c, s, step).Some? && !s.failed
    ensures Next(c, s, step).value.failed <==> step.Codes? && step.code.Yield? && DoomedAt(s, step.w)
  {
    match step
    case Runs(w, move) => RunFailsNot(s, w, move);
    case Codes(w, move) => CodeFails(c, s, w, move);
    case _ =>
  }

  lemma ActFailsNot(c: Config, s: State, act: Act)
    requires NextAct(c, s, act).Some?
    ensures NextAct(c, s, act).value.failed == s.failed
  {
  }

  lemma CodeStaysFailed(c: Config, s: State, w: nat, move: CodeMove)
    requires w < |s.workers| && NextCode(c, s, w, move).Some? && s.failed
    ensures NextCode(c, s, w, move).value.failed
  {
    if move.Acting? {
      ActFailsNot(c, s, move.act);
    }
  }

  lemma StaysFailed(c: Config, s: State, step: Step)
    requires Next(c, s, step).Some? && s.failed
    ensures Next(c, s, step).value.failed
  {
    match step
    case Codes(w, move) => CodeStaysFailed(c, s, w, move);
    case Idles(w, move) => IdleIdled(c, s, w, move);
    case Outside(act) => ActFailsNot(c, s, act);
    case _ =>
  }

  // ----- What becomes of a fiber in the hands of worker w while others move -----

  lemma ActLeaves(c: Config, s: State, act: Act, f: nat)
    requires NextAct(c, s, act).Some? && f in s.fibers && act != Restart(f)
    ensures var s' := NextAct(c, s, act).value; f in s'.fibers && s'.fibers[f] == s.fibers[f]
  {
  }

  /** Worker v has moved, and changed no fiber but the one it holds. */
  lemma TurnedLeaves(s: State, s': State, v: nat, w: nat, f: nat, g: nat)
    requires M.Inv(s) && w < |s.workers| && v != w && M.Owned(s.workers[w].phase) == Some(f) && Turned(s, s', v)
    requires s'.fibers == s.fibers || (g != f && g in s'.fibers && s'.fibers == s.fibers[g := s'.fibers[g]])
    ensures s'.workers[w] == s.workers[w] && f in s.fibers && f in s'.fibers && s'.fibers[f] == s.fibers[f]
  {
    assert M.WorkerFits(s.workers[w].phase, w, s.fibers);
  }

  lemma LocksAnother(s: State, v: nat, w: nat, f: nat)
    requires M.Inv(s) && v < |s.workers| && w < |s.workers| && M.Owned(s.workers[w].phase) == Some(f)
    requires NextLock(s, v).Some?
    ensures s.workers[v].phase.task.body.fiber != f
  {
    assert M.WorkerFits(s.workers[w].phase, w, s.fibers);
  }

  lemma RunLeaves(s: State, v: nat, move: RunMove, w: nat, f: nat)
    requires M.Inv(s) && v < |s.workers| && w < |s.workers| && v != w && M.Owned(s.workers[w].phase) == Some(f)
    requires NextRun(s, v, move).Some?
    ensures var s' := NextRun(s, v, move).value;
      && |s'.workers| == |s.workers| && s'.workers[w] == s.workers[w]
      && f in s.fibers && f in s'.fibers && s'.fibers[f] == s.fibers[f]
  {
    var s' := NextRun(s, v, move).value;
    RunRan(s, v, move);
    assert M.WorkerFits(s.workers[w].phase, w, s.fibers) && M.WorkerFits(s.workers[v].phase, v, s.fibers);
    match move
    case Make(g) => TurnedLeaves(s, s', v, w, f, g);
    case Lock =>
      LocksAnother(s, v, w, f);
      TurnedLeaves(s, s', v, w, f, s.workers[v].phase.task.body.fiber);
    case Dispatch => TurnedLeaves(s, s', v, w, f, s.workers[v].phase.f);
    case Unlock => TurnedLeaves(s, s', v, w, f, s.workers[v].phase.f);
    case _ => TurnedLeaves(s, s', v, w, f, 0);
  }

  lemma ActLeavesAll(c: Config, s: State, act: Act, w: nat, f: nat)
    requires w < |s.workers| && NextAct(c, s, act).Some? && f in s.fibers && act != Restart(f)
    ensures var s' := NextAct(c, s, act).value;
      && |s'.workers| == |s.workers| && s'.workers[w] == s.workers[w] && f in s'.fibers && s'.fibers[f] == s.fibers[f]
  {
    T.ActHands(c, s, act);
    ActLeaves(c, s, act, f);
  }

  lemma CodedLeaves(s: State, s': State, v: nat, move: CodeMove, w: nat, f: nat)
    requires M.Inv(s) && w < |s.workers| && v != w && M.Owned(s.workers[w].phase) == Some(f)
    requires Coded(s, s', v, move)
    ensures s'.workers[w] == s.workers[w] && f in s.fibers && f in s'.fibers && s'.fibers[f] == s.fibers[f]
  {
    assert M.WorkerFits(s.workers[w].phase, w, s.fibers) && M.WorkerFits(s.workers[v].phase, v, s.fibers);
    TurnedLeaves(s, s', v, w, f, s.workers[v].phase.f);
  }

  lemma CodeLeaves(c: Config, s: State, v: nat, move: CodeMove, w: nat, f: nat)
    requires M.Inv(s) && v < |s.workers| && w < |s.workers| && v != w && M.Owned(s.workers[w].phase) == Some(f)
    requires NextCode(c, s, v, move).Some? && move != Acting(Restart(f))
    ensures var s' := NextCode(c, s, v, move).value;
      && |s'.workers| == |s.workers| && s'.workers[w] == s.workers[w]
      && f in s.fibers && f in s'.fibers && s'.fibers[f] == s.fibers[f]
  {
    if move.Acting? {
      assert M.WorkerFits(s.workers[w].phase, w, s.fibers);
      ActLeavesAll(c, s, move.act, w, f);
    } else {
      CodeCoded(c, s, v, move);
      CodedLeaves(s, NextCode(c, s, v, move).value, v, move, w, f);
    }
  }

  predicate Restarts(step: Step, f: nat) {
    step == Outside(Restart(f)) || (step.Codes? && step.code == Acting(Restart(f)))
  }

  lemma OthersLeave(c: Config, s: State, step: Step, w: nat, f: nat)
    requires M.Inv(s) && w < |s.workers| && M.Owned(s.workers[w].phase) == Some(f) && Next(c, s, step).Some?
    requires !T.MovedBy(step, w) && !Restarts(step, f)
    ensures var s' := Next(c, s, step).value;
      && |s'.workers| == |s.workers| && s'.workers[w] == s.workers[w]
      && f in s.fibers && f in s'.fibers && s'.fibers[f] == s.fibers[f]
  {
    assert M.WorkerFits(s.workers[w].phase, w, s.fibers);
    match step
    case Runs(v, move) => RunLeaves(s, v, move, w, f);
    case Codes(v, move) => CodeLeaves(c, s, v, move, w, f);
    case Idles(v, move) => IdleIdled(c, s, v, move);
    case Outside(act) => ActLeavesAll(c, s, act, w, f);
    case _ => NobodyMoves(c, s, step);
  }

  // ----- Doom -----

  lemma RestartDoes(c: Config, s: State, step: Step, f: nat)
    requires Next(c, s, step).Some? && Restarts(step, f)
    ensures var s' := Next(c, s, step).value;
      && s'.workers == s.workers && f in s.fibers && s.fibers[f].state == F.Term
      && s'.fibers == s.fibers[f := s.fibers[f].(state := F.Ready)]
  {
  }

  lemma OwnMoveEnds(c: Config, s: State, step: Step, w: nat)
    requires w < |s.workers| && s.workers[w].phase.Ending? && Next(c, s, step).Some? && T.MovedBy(step, w)
    ensures step == Codes(w, Yield) && w < |Next(c, s, step).value.workers|
    ensures !Next(c, s, step).value.workers[w].phase.Ending?
  {
  }

  /** A doomed fiber stays so until its last yield. */
  lemma DoomStays(c: Config, s: State, step: Step, w: nat)
    requires M.Inv(s) && DoomedAt(s, w) && Next(c, s, step).Some? && step != Codes(w, Yield)
    ensures DoomedAt(Next(c, s, step).value, w)
  {
    var f := s.workers[w].phase.f;
    if T.MovedBy(step, w) {
      OwnMoveEnds(c, s, step, w);
    } else if Restarts(step, f) {
      RestartDoes(c, s, step, f);
    } else {
      OthersLeave(c, s, step, w, f);
    }
  }

  lemma CodeEndsInTerm(c: Config, s: State, w: nat, move: CodeMove)
    requires w < |s.workers| && NextCode(c, s, w, move).Some? && !move.Acting?
    ensures !DoomedAt(NextCode(c, s, w, move).value, w)
  {
  }

  /** A worker that comes to the end of its fiber has just set its state to TERM. */
  lemma EndsInTerm(c: Config, s: State, step: Step, w: nat)
    requires w < |s.workers| && !s.workers[w].phase.Ending? && Next(c, s, step).Some? && T.MovedBy(step, w)
    ensures !DoomedAt(Next(c, s, step).value, w)
  {
    match step
    case Runs(w, move) => RunRan(s, w, move);
    case Codes(w, move) =>
      if move.Acting? {
        T.ActHands(c, s, move.act);
      } else {
        CodeEndsInTerm(c, s, w, move);
      }
    case Idles(w, move) => IdleIdled(c, s, w, move);
  }

  /** A fiber becomes doomed by an untimely reset only. */
  lemma NewDoom(c: Config, s: State, step: Step, w: nat)
    requires M.Inv(s) && !DoomedAt(s, w) && Next(c, s, step).Some? && DoomedAt(Next(c, s, step).value, w)
    ensures UntimelyStep(s, step)
  {
    var s' := Next(c, s, step).value;
    var f := s'.workers[w].phase.f;
    T.SameCrew(c, s, step);
    if T.MovedBy(step, w) {
      if s.workers[w].phase.Ending? {
        OwnMoveEnds(c, s, step, w);
      } else {
        EndsInTerm(c, s, step, w);
      }
    } else {
      T.OthersStay(c, s, step, w);
      assert M.WorkerFits(s.workers[w].phase, w, s.fibers);
      if Restarts(step, f) {
        assert Ends(s.workers[w].phase, f);
      } else {
        OthersLeave(c, s, step, w, f);
      }
    }
  }

  lemma UntimelyDooms(c: Config, s: State, step: Step)
    requires UntimelyStep(s, step) && Next(c, s, step).Some?
    ensures Doomed(Next(c, s, step).value)
  {
    var f := if step.Outside? then step.act.f else step.code.act.f;
    RestartDoes(c, s, step, f);
    var w :| 0 <= w < |s.workers| && Ends(s.workers[w].phase, f);
    assert DoomedAt(Next(c, s, step).value, w);
  }

  // ----- Runs -----

  /** An assertion has failed, or will as soon as a certain fiber yields. */
  ghost predicate Failing(s: State) {
    s.failed || Doomed(s)
  }

  lemma StepFailing(c: Config, s: State, step: Step)
    requires M.Inv(s) && NoneEmpty(s.tasks) && Next(c, s, step).Some?
    ensures Failing(Next(c, s, step).value) <==> Failing(s) || UntimelyStep(s, step)
  {
    var s' := Next(c, s, step).value;
    if s.failed {
      StaysFailed(c, s, step);
    } else {
      StepFails(c, s, step);
      if Doomed(s) {
        var w :| DoomedAt(s, w);
        if step != Codes(w, Yield) {
          DoomStays(c, s, step, w);
        }
      }
      if UntimelyStep(s, step) {
        UntimelyDooms(c, s, step);
      }
      if !s'.failed && Doomed(s') {
        var w :| DoomedAt(s', w);
        if !DoomedAt(s, w) {
          NewDoom(c, s, step, w);
        }
      }
    }
  }

  lemma {:induction false} RunFailing(c: Config, s: State, steps: seq<Step>)
    requires T.Inv(s) && Exec(c, s, steps).Some?
    ensures Failing(Exec(c, s, steps).value) <==> Failing(s) || Untimed(c, s, steps)
    decreases steps
  {
    if steps != [] {
      StepFailing(c, s, steps[0]);
      T.StepKeeps(c, s, steps[0]);
      RunFailing(c, Next(c, s, steps[0]).value, steps[1..]);
    }
  }

  /** A run has failed an assertion, or has a fiber whose last yield will, if and only if it has a reset
      of a fiber between its end and its last yield. */
  lemma FailsIff(c: Config, n: nat, calls: seq<nat>, clock: int, steps: seq<Step>)
    requires Exec(c, Init(n, calls, clock), steps).Some?
    ensures Failing(Exec(c, Init(n, calls, clock), steps).value) <==> Untimed(c, Init(n, calls, clock), steps)
  {
    T.InitInv(n, calls, clock);
    RunFailing(c, Init(n, calls, clock), steps);
  }

  /** The last yield of a doomed fiber can be made at once, and fails its assertion; whatever happens
      instead, it stays to come. */
  lemma DoomedFails(c: Config, n: nat, s: State, w: nat)
    requires Reachable(c, n, s) && DoomedAt(s, w)
    ensures Next(c, s, Codes(w, Yield)).Some? && Next(c, s, Codes(w, Yield)).value.failed
    ensures forall step :: Next(c, s, step).Some? && step != Codes(w, Yield) ==> DoomedAt(Next(c, s, step).value, w)
  {
    T.ReachableInv(c, n, s);
    forall step | Next(c, s, step).Some? && step != Codes(w, Yield) ensures DoomedAt(Next(c, s, step).value, w) {
      DoomStays(c, s, step, w);
    }
  }

  /** Every reset of the run is of a fiber whose mutex nobody holds. */
  ghost predicate ResetsUnheld(c: Config, s: State, steps: seq<Step>)
    requires Exec(c, s, steps).Some?
    decreases steps
  {
    steps != [] ==>
      && (forall f :: Restarts(steps[0], f) && f in s.fibers ==> s.fibers[f].holder == None)
      && ResetsUnheld(c, Next(c, s, steps[0]).value, steps[1..])
  }

  lemma UntimelyIsHeld(s: State, step: Step)
    requires M.Inv(s) && UntimelyStep(s, step)
    ensures exists f :: Restarts(step, f) && f in s.fibers && s.fibers[f].holder.Some?
  {
    var f := if step.Outside? then step.act.f else step.code.act.f;
    var w :| 0 <= w < |s.workers| && Ends(s.workers[w].phase, f);
    assert M.WorkerFits(s.workers[w].phase, w, s.fibers) && Restarts(step, f);
  }

  lemma {:induction false} UnheldIsTimely(c: Config, s: State, steps: seq<Step>)
    requires T.Inv(s) && Exec(c, s, steps).Some? && ResetsUnheld(c, s, steps)
    ensures !Untimed(c, s, steps)
    decreases steps
  {
    if steps != [] {
      T.StepKeeps(c, s, steps[0]);
      UnheldIsTimely(c, Next(c, s, steps[0]).value, steps[1..]);
      if UntimelyStep(s, steps[0]) {
        UntimelyIsHeld(s, steps[0]);
      }
    }
  }

  /** So whoever resets a fiber can keep every assertion from failing by holding the fiber's mutex. */
  lemma UnheldResetsNeverFail(c: Config, n: nat, calls: seq<nat>, clock: int, steps: seq<Step>)
    requires Exec(c, Init(n, calls, clock), steps).Some? && ResetsUnheld(c, Init(n, calls, clock), steps)
    ensures !Exec(c, Init(n, calls, clock), steps).value.failed
  {
    T.InitInv(n, calls, clock);
    UnheldIsTimely(c, Init(n, calls, clock), steps);
    FailsIff(c, n, calls, clock, steps);
  }

  // ----- A fiber that has ended -----

  /** f has ended, and since the given log has at most yielded. */
  ghost predicate StaysEnded(fibers: map<nat, Fib>, f: nat, log: seq<Event>) {
    && f in fibers && fibers[f].state == F.Term && log <= fibers[f].log
    && forall i :: |log| <= i < |fibers[f].log| ==> fibers[f].log[i].Left?
  }

  lemma SameFiberEnded(fibers: map<nat, Fib>, fibers': map<nat, Fib>, f: nat)
    requires f in fibers && fibers[f].state == F.Term && f in fibers'
    requires fibers'[f].state == fibers[f].state && fibers'[f].log == fibers[f].log
    ensures StaysEnded(fibers', f, fibers[f].log)
  {
  }

  lemma RunEnded(s: State, w: nat, move: RunMove, f: nat)
    requires M.Inv(s) && w < |s.workers| && NextRun(s, w, move).Some? && f in s.fibers && s.fibers[f].state == F.Term
    ensures StaysEnded(NextRun(s, w, move).value.fibers, f, s.fibers[f].log)
  {
    assert M.WorkerFits(s.workers[w].phase, w, s.fibers);
    RunRan(s, w, move);
    SameFiberEnded(s.fibers, NextRun(s, w, move).value.fibers, f);
  }

  lemma YieldEnded(s: State, w: nat, f: nat)
    requires w < |s.workers| && NextYield(s, w).Some? && f in s.fibers && s.fibers[f].state == F.Term
    ensures StaysEnded(NextYield(s, w).value.fibers, f, s.fibers[f].log)
  {
    SameFiberEnded(s.fibers, NextYield(s, w).value.fibers, f);
  }

  lemma SwitchEnded(s: State, w: nat, f: nat)
    requires w < |s.workers| && NextSwitch(s, w).Some? && f in s.fibers && s.fibers[f].state == F.Term
    ensures StaysEnded(NextSwitch(s, w).value.fibers, f, s.fibers[f].log)
  {
  }

  lemma CodedEnded(s: State, s': State, w: nat, move: CodeMove, f: nat)
    requires M.Inv(s) && Coded(s, s', w, move) && !move.Yield? && !move.Switch?
    requires f in s.fibers && s.fibers[f].state == F.Term
    ensures StaysEnded(s'.fibers, f, s.fibers[f].log)
  {
    assert M.WorkerFits(s.workers[w].phase, w, s.fibers);
    SameFiberEnded(s.fibers, s'.fibers, f);
  }

  lemma CodeEnded(c: Config, s: State, w: nat, move: CodeMove, f: nat)
    requires M.Inv(s) && w < |s.workers| && NextCode(c, s, w, move).Some? && f in s.fibers
    requires s.fibers[f].state == F.Term && move != Acting(Restart(f))
    ensures StaysEnded(NextCode(c, s, w, move).value.fibers, f, s.fibers[f].log)
  {
    match move
    case Acting(act) => ActLeaves(c, s, act, f);
    case Yield => YieldEnded(s, w, f);
    case Switch => SwitchEnded(s, w, f);
    case _ =>
      CodeCoded(c, s, w, move);
      CodedEnded(s, NextCode(c, s, w, move).value, w, move, f);
  }

  lemma StepEnded(c: Config, s: State, step: Step, f: nat)
    requires M.Inv(s) && Next(c, s, step).Some? && f in s.fibers && s.fibers[f].state == F.Term && !Restarts(step, f)
    ensures StaysEnded(Next(c, s, step).value.fibers, f, s.fibers[f].log)
  {
    match step
    case Runs(w, move) => RunEnded(s, w, move, f);
    case Codes(w, move) => CodeEnded(c, s, w, move, f);
    case Idles(w, move) => IdleIdled(c, s, w, move);
    case Outside(act) => ActLeaves(c, s, act, f);
    case _ => NobodyMoves(c, s, step);
  }

  lemma EndedOn(log: seq<Event>, log1: seq<Event>, fibers: map<nat, Fib>, f: nat)
    requires StaysEnded(fibers, f, log1) && log <= log1 && forall i :: |log| <= i < |log1| ==> log1[i].Left?
    ensures StaysEnded(fibers, f, log)
  {
  }

  lemma {:induction false} RunStaysEnded(c: Config, s: State, steps: seq<Step>, f: nat)
    requires T.Inv(s) && Exec(c, s, steps).Some? && f in s.fibers && s.fibers[f].state == F.Term
    requires forall k :: 0 <= k < |steps| ==> !Restarts(steps[k], f)
    ensures StaysEnded(Exec(c, s, steps).value.fibers, f, s.fibers[f].log)
    decreases steps
  {
    if steps != [] {
      var s1 := Next(c, s, steps[0]).value;
      StepEnded(c, s, steps[0], f);
      T.StepKeeps(c, s, steps[0]);
      RunStaysEnded(c, s1, steps[1..], f);
      EndedOn(s.fibers[f].log, s1.fibers[f].log, Exec(c, s, steps).value.fibers, f);
    }
  }

  /** In every run a fiber that has ended stays so, however often it is scheduled, and is not resumed, until
      it is reset. */
  lemma EndedUntilReset(c: Config, n: nat, s: State, steps: seq<Step>, f: nat)
    requires Reachable(c, n, s) && Exec(c, s, steps).Some? && f in s.fibers && s.fibers[f].state == F.Term
    requires forall k :: 0 <= k < |steps| ==> !Restarts(steps[k], f)
    ensures StaysEnded(Exec(c, s, steps).value.fibers, f, s.fibers[f].log)
  {
    T.ReachableInv(c, n, s);
    RunStaysEnded(c, s, steps, f);
  }
}
