/** What a move of a worker does to the worker itself, and what it leaves alone. */
module RuntimeMoves {
  import opened Options
  import opened Tasks
  import opened Runtime

  /** Of the workers at most w has moved. */
  predicate Turned(s: State, s': State, w: nat) {
    w < |s.workers| && |s'.workers| == |s.workers| && s'.workers == s.workers[w := s'.workers[w]]
  }

  predicate SameHistory(s: State, s': State) {
    && s'.active == s.active && s'.taken == s.taken && s'.takers == s.takers && s'.done == s.done
  }

  /** The calls and the clock, which no move of a worker changes. */
  predicate SameFrame(s: State, s': State) {
    && s'.stopping == s.stopping && s'.calls == s.calls && s'.clock == s.clock && s'.strays == s.strays
    && s'.late == s.late
  }

  predicate SameTable(s: State, s': State) {
    s'.registered == s.registered && s'.pending == s.pending
  }

  // ----- Calls -----

  lemma CountedFrame(c: Config, s: State, begin: Begin)
    requires Begun(c, s, begin).Some?
    ensures var s' := Counted(c, s, begin);
      && s'.workers == s.workers && s'.fibers == s.fibers && s'.timers == s.timers && s'.tasks == s.tasks
      && SameFrame(s, s') && SameHistory(s, s') && s'.failed == s.failed
  {
  }

  lemma CompletedFrame(s: State, call: Call)
    ensures var s' := Completed(s, call);
      && s'.workers == s.workers && s'.fibers == s.fibers && s'.timers == s.timers
      && SameFrame(s, s') && SameHistory(s, s') && s'.failed == s.failed
  {
  }

  predicate ByNobody(step: Step) {
    step.OutsideCall? || step.OutsideReturn? || step.Stop? || step.Tick?
  }

  predicate NobodyMoved(s: State, s': State) {
    && s'.workers == s.workers && s'.fibers == s.fibers && s'.timers == s.timers && SameHistory(s, s')
    && s.clock <= s'.clock && s'.failed == s.failed
  }

  lemma BeginMoves(c: Config, s: State, begin: Begin)
    requires Next(c, s, OutsideCall(begin)).Some?
    ensures var s' := Next(c, s, OutsideCall(begin)).value; NobodyMoved(s, s') && s'.tasks == s.tasks
  {
    CountedFrame(c, s, begin);
  }

  lemma ReturnMoves(c: Config, s: State, k: nat)
    requires Next(c, s, OutsideReturn(k)).Some?
    ensures NobodyMoved(s, Next(c, s, OutsideReturn(k)).value)
  {
    CompletedFrame(s.(calls := s.calls[..k] + s.calls[k + 1..]), s.calls[k]);
  }

  /** A step of nobody's code moves no worker and changes no fiber and no timer. */
  lemma NobodyMoves(c: Config, s: State, step: Step)
    requires Next(c, s, step).Some? && ByNobody(step)
    ensures NobodyMoved(s, Next(c, s, step).value)
    ensures step.OutsideReturn? || Next(c, s, step).value.tasks == s.tasks
  {
    match step
    case OutsideCall(begin) => BeginMoves(c, s, begin);
    case OutsideReturn(k) => ReturnMoves(c, s, k);
    case Stop =>
    case Tick(d) =>
  }

  // ----- run() -----

  predicate RunTurn(x: Worker, x': Worker, move: RunMove) {
    var p, p' := x.phase, x'.phase;
    && x'.term == x.term
    && match move
       case Take => p.Scanning? && p'.Took?
       case Make(g) => p.Took? && p.task.body.Call? && p' == Locked(p.task, g)
       case Lock => p.Took? && p.task.body.Resume? && p' == Locked(p.task, p.task.body.fiber)
       case Dispatch =>
         && p.Locked?
         && (p' == Executing(p.task, p.f, Opening(p.task)) || (p.task.body.Resume? && p' == Back(p.task, p.f)))
       case Unlock => p.Back? && p' == Released(p.task)
       case Finish => p.Released? && p' == Scanning
       case Rest => p.Scanning? && p' == if x.term then Gone else Idle(Checking)
  }

  predicate ChangesFibers(move: RunMove) {
    move.Make? || move.Lock? || move.Dispatch? || move.Unlock?
  }

  ghost predicate Ran(s: State, s': State, w: nat, move: RunMove) {
    && Turned(s, s', w) && SameFrame(s, s') && SameTable(s, s') && RunTurn(s.workers[w], s'.workers[w], move)
    && s'.timers == s.timers && s'.accepted == s.accepted
    && (if move.Take? then s'.workers[w].phase.task in s.tasks else s'.tasks == s.tasks)
    && (move.Take? || move.Finish? || SameHistory(s, s'))
    && (if ChangesFibers(move) then
          var f := if move.Unlock? then s.workers[w].phase.f else s'.workers[w].phase.f;
          f in s'.fibers && s'.fibers == s.fibers[f := s'.fibers[f]] && (f in s.fibers || move.Make?)
        else s'.fibers == s.fibers)
  }

  lemma TakeRan(s: State, w: nat)
    requires w < |s.workers| && NextTake(s, w).Some?
    ensures Ran(s, NextTake(s, w).value, w, Take)
  {
  }

  lemma MakeRan(s: State, w: nat, g: nat)
    requires w < |s.workers| && NextMake(s, w, g).Some?
    ensures Ran(s, NextMake(s, w, g).value, w, Make(g))
  {
  }

  lemma LockRan(s: State, w: nat)
    requires w < |s.workers| && NextLock(s, w).Some?
    ensures Ran(s, NextLock(s, w).value, w, Lock)
  {
  }

  lemma ResumingRan(s: State, w: nat)
    requires w < |s.workers| && s.workers[w].phase.Locked? && s.workers[w].phase.f in s.fibers
    ensures Ran(s, Resuming(s, w), w, Dispatch)
  {
  }

  lemma DispatchRan(s: State, w: nat)
    requires w < |s.workers| && NextDispatch(s, w).Some?
    ensures Ran(s, NextDispatch(s, w).value, w, Dispatch)
  {
    if NextDispatch(s, w).value == Resuming(s, w) {
      ResumingRan(s, w);
    }
  }

  lemma UnlockRan(s: State, w: nat)
    requires w < |s.workers| && NextUnlock(s, w).Some?
    ensures Ran(s, NextUnlock(s, w).value, w, Unlock)
  {
  }

  lemma FinishRan(s: State, w: nat)
    requires w < |s.workers| && NextFinish(s, w).Some?
    ensures Ran(s, NextFinish(s, w).value, w, Finish)
  {
  }

  lemma RestRan(s: State, w: nat)
    requires w < |s.workers| && NextRest(s, w).Some?
    ensures Ran(s, NextRest(s, w).value, w, Rest)
  {
  }

  lemma RunRan(s: State, w: nat, move: RunMove)
    requires w < |s.workers| && NextRun(s, w, move).Some?
    ensures Ran(s, NextRun(s, w, move).value, w, move)
  {
    match move
    case Take => TakeRan(s, w);
    case Make(g) => MakeRan(s, w, g);
    case Lock => LockRan(s, w);
    case Dispatch => DispatchRan(s, w);
    case Unlock => UnlockRan(s, w);
    case Finish => FinishRan(s, w);
    case Rest => RestRan(s, w);
  }

  // ----- The code of a fiber -----

  predicate CodeTurn(x: Worker, x': Worker, move: CodeMove) {
    var p, p' := x.phase, x'.phase;
    && x'.term == x.term
    && match move
       case Acting(_) => false
       case Calling(_) =>
         p.Executing? && p.todo.Nothing? && p'.Executing? && p'.todo.InCall? && p' == p.(todo := p'.todo)
       case Return => p.Executing? && p.todo.InCall? && p' == p.(todo := Nothing)
       case RunWake => p.Executing? && p.todo.Waking? && p' == p.(todo := Nothing)
       case Sleep(_) => p.Executing? && p.todo.Nothing? && p' == Leaving(p.task, p.f)
       case Yield =>
         ((p.Executing? && p.todo.Nothing?) || p.Leaving? || p.Ending?) && p' == Switching(p.task, p.f)
       case Terminate => p.Executing? && p.todo.Nothing? && p' == Ending(p.task, p.f)
       case Switch => p.Switching? && p' == Back(p.task, p.f)
  }

  predicate IsCall(move: CodeMove) {
    move.Calling? || move.Return? || move.RunWake?
  }

  ghost predicate Coded(s: State, s': State, w: nat, move: CodeMove) {
    && Turned(s, s', w) && SameFrame(s, s') && SameHistory(s, s') && CodeTurn(s.workers[w], s'.workers[w], move)
    && (move.Calling? || move.Return? || SameTable(s, s'))
    && (move.Sleep? || s'.timers == s.timers)
    && (move.Return? || move.RunWake? || (s'.tasks == s.tasks && s'.accepted == s.accepted))
    && (if IsCall(move) then s'.fibers == s.fibers
        else
          var f := s.workers[w].phase.f;
          f in s.fibers && f in s'.fibers && s'.fibers == s.fibers[f := s'.fibers[f]])
  }

  lemma CallingCoded(c: Config, s: State, w: nat, begin: Begin)
    requires w < |s.workers| && NextCalling(c, s, w, begin).Some?
    ensures Coded(s, NextCalling(c, s, w, begin).value, w, Calling(begin))
  {
  }

  lemma ReturnCoded(s: State, w: nat)
    requires w < |s.workers| && NextReturn(s, w).Some?
    ensures Coded(s, NextReturn(s, w).value, w, Return)
  {
    var phase := s.workers[w].phase;
    CompletedFrame(At(s, w, phase.(todo := Nothing)), phase.todo.call);
  }

  lemma RunWakeCoded(s: State, w: nat)
    requires w < |s.workers| && NextRunWake(s, w).Some?
    ensures Coded(s, NextRunWake(s, w).value, w, RunWake)
  {
  }

  lemma SleepCoded(c: Config, s: State, w: nat, ms: nat)
    requires w < |s.workers| && NextSleep(c, s, w, ms).Some?
    ensures Coded(s, NextSleep(c, s, w, ms).value, w, Sleep(ms))
  {
  }

  lemma YieldCoded(s: State, w: nat)
    requires w < |s.workers| && NextYield(s, w).Some?
    ensures Coded(s, NextYield(s, w).value, w, Yield)
  {
  }

  lemma TerminateCoded(s: State, w: nat)
    requires w < |s.workers| && NextTerminate(s, w).Some?
    ensures Coded(s, NextTerminate(s, w).value, w, Terminate)
  {
  }

  lemma SwitchCoded(s: State, w: nat)
    requires w < |s.workers| && NextSwitch(s, w).Some?
    ensures Coded(s, NextSwitch(s, w).value, w, Switch)
  {
  }

  lemma CodeCoded(c: Config, s: State, w: nat, move: CodeMove)
    requires w < |s.workers| && NextCode(c, s, w, move).Some? && !move.Acting?
    ensures Coded(s, NextCode(c, s, w, move).value, w, move)
  {
    match move
    case Calling(begin) => CallingCoded(c, s, w, begin);
    case Return => ReturnCoded(s, w);
    case RunWake => RunWakeCoded(s, w);
    case Sleep(ms) => SleepCoded(c, s, w, ms);
    case Yield => YieldCoded(s, w);
    case Terminate => TerminateCoded(s, w);
    case Switch => SwitchCoded(s, w);
  }

  // ----- The idle loops -----

  predicate IdleTurn(c: Config, s: State, x: Worker, x': Worker, move: IdleMove) {
    && x.phase.Idle?
    && var at := x.phase.at;
       match move
       case CheckTimers =>
         && at.Checking? && c.io && !c.atomic
         && x' == x.(phase := Idle(if s.timers == [] then NoTimers else Waiting))
       case CheckEvents => at.NoTimers? && x' == x.(phase := Idle(if s.pending == 0 then NoEvents else Waiting))
       case CheckStop =>
         && (at.NoEvents? || (at.Checking? && (!c.io || c.atomic)))
         && (x' == Worker(Scanning, true) || x' == x.(phase := Idle(Waiting)))
       case Collect(_) => at.Waiting? && c.io && x'.phase.Idle? && x'.phase.at.Holding? && x'.term == x.term
       case Post => at.Holding? && at.cbs != [] && x' == x.(phase := Idle(Holding(at.cbs[1..])))
       case Report(_) => at == Holding([]) && x' == x.(phase := Idle(Owing))
       case Repay => at.Owing? && x' == x.(phase := Idle(Holding([])))
       case Leave => (at == Holding([]) || (at.Waiting? && !c.io)) && x' == x.(phase := Scanning)
  }

  ghost predicate Idled(c: Config, s: State, s': State, w: nat, move: IdleMove) {
    && Turned(s, s', w) && SameFrame(s, s') && SameHistory(s, s')
    && IdleTurn(c, s, s.workers[w], s'.workers[w], move)
    && s'.fibers == s.fibers && s'.failed == s.failed
    && (move.Report? || move.Repay? || SameTable(s, s'))
    && (move.Collect? || s'.timers == s.timers)
    && (move.Post? || move.Report? || (s'.tasks == s.tasks && s'.accepted == s.accepted))
  }

  lemma ReadsIdled(c: Config, s: State, w: nat, move: IdleMove)
    requires w < |s.workers| && NextIdle(c, s, w, move).Some? && (move.CheckTimers? || move.CheckEvents?)
    ensures Idled(c, s, NextIdle(c, s, w, move).value, w, move)
  {
  }

  lemma StopIdled(c: Config, s: State, w: nat)
    requires w < |s.workers| && NextCheckStop(c, s, w).Some?
    ensures Idled(c, s, NextCheckStop(c, s, w).value, w, CheckStop)
  {
    var s' := NextCheckStop(c, s, w).value;
    assert s' == Conclude(s, w, true) || s' == Conclude(s, w, false);
  }

  lemma CollectIdled(c: Config, s: State, w: nat, now: int)
    requires w < |s.workers| && NextCollect(c, s, w, now).Some?
    ensures Idled(c, s, NextCollect(c, s, w, now).value, w, Collect(now))
  {
  }

  lemma HandsOverIdled(c: Config, s: State, w: nat, move: IdleMove)
    requires w < |s.workers| && NextIdle(c, s, w, move).Some? && (move.Post? || move.Report?)
    ensures Idled(c, s, NextIdle(c, s, w, move).value, w, move)
  {
  }

  lemma EndsIdled(c: Config, s: State, w: nat, move: IdleMove)
    requires w < |s.workers| && NextIdle(c, s, w, move).Some? && (move.Repay? || move.Leave?)
    ensures Idled(c, s, NextIdle(c, s, w, move).value, w, move)
  {
  }

  lemma IdleIdled(c: Config, s: State, w: nat, move: IdleMove)
    requires w < |s.workers| && NextIdle(c, s, w, move).Some?
    ensures Idled(c, s, NextIdle(c, s, w, move).value, w, move)
  {
    match move
    case Collect(now) => CollectIdled(c, s, w, now);
    case Post => HandsOverIdled(c, s, w, move);
    case Report(i) => HandsOverIdled(c, s, w, move);
    case Repay => EndsIdled(c, s, w, move);
    case Leave => EndsIdled(c, s, w, move);
    case CheckStop => StopIdled(c, s, w);
    case _ => ReadsIdled(c, s, w, move);
  }
}
