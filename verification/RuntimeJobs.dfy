/** Two facts about jobs that hold in every run: the fibers they name exist, and the wake-up of a sleeper
    is for any thread. */
module RuntimeJobs {
  import opened Options
  import opened Tasks
  import opened DeadlineSet
  import Drain
  import opened Runtime
  import opened RuntimeMoves
  import opened RuntimeCredits
  import T = RuntimeTasks
  import L = RuntimeLogs

  // ----- The fibers of a job exist -----

  predicate JobKnown(fibers: map<nat, Fib>, body: Job) {
    match body
    case Empty => true
    case Resume(f) => f in fibers
    case Call(code) => code.Wake? ==> code.f in fibers
  }

  predicate Real(fibers: map<nat, Fib>, body: Job) {
    !body.Empty? && JobKnown(fibers, body)
  }

  ghost predicate PhaseKnown(fibers: map<nat, Fib>, phase: Phase) {
    match phase
    case Took(task) => Real(fibers, task.body)
    case Locked(task, _) => Real(fibers, task.body)
    case Executing(_, _, todo) =>
      && (todo.Waking? ==> todo.f in fibers)
      && (todo.InCall? ==> JobKnown(fibers, todo.call.waiter))
    case Idle(Holding(cbs)) => forall i :: 0 <= i < |cbs| ==> JobKnown(fibers, JobOf(cbs[i]))
    case _ => true
  }

  ghost predicate TasksKnown(fibers: map<nat, Fib>, tasks: seq<Entry>) {
    forall i :: 0 <= i < |tasks| ==> Real(fibers, tasks[i].body)
  }

  ghost predicate TableKnown(fibers: map<nat, Fib>, registered: seq<Job>, calls: seq<Call>) {
    && (forall i :: 0 <= i < |registered| ==> JobKnown(fibers, registered[i]))
    && (forall k :: 0 <= k < |calls| ==> JobKnown(fibers, calls[k].waiter))
  }

  ghost predicate TimersKnown(fibers: map<nat, Fib>, timers: seq<Alarm>) {
    forall a :: a in timers ==> Real(fibers, JobOf(a.cb))
  }

  ghost predicate WorkersKnown(fibers: map<nat, Fib>, workers: seq<Worker>) {
    forall w :: 0 <= w < |workers| ==> PhaseKnown(fibers, workers[w].phase)
  }

  ghost predicate Known(s: State) {
    && TasksKnown(s.fibers, s.tasks) && TableKnown(s.fibers, s.registered, s.calls)
    && TimersKnown(s.fibers, s.timers) && WorkersKnown(s.fibers, s.workers)
  }

  predicate Grows(fibers: map<nat, Fib>, fibers': map<nat, Fib>) {
    fibers.Keys <= fibers'.Keys
  }

  lemma PhaseGrows(fibers: map<nat, Fib>, fibers': map<nat, Fib>, phase: Phase)
    requires Grows(fibers, fibers') && PhaseKnown(fibers, phase)
    ensures PhaseKnown(fibers', phase)
  {
  }

  lemma AllGrows(s: State, fibers': map<nat, Fib>)
    requires Grows(s.fibers, fibers') && Known(s)
    ensures TasksKnown(fibers', s.tasks) && TableKnown(fibers', s.registered, s.calls)
    ensures TimersKnown(fibers', s.timers) && WorkersKnown(fibers', s.workers)
  {
    forall w | 0 <= w < |s.workers| ensures PhaseKnown(fibers', s.workers[w].phase) {
      PhaseGrows(s.fibers, fibers', s.workers[w].phase);
    }
  }

  // ----- The fibers grow -----

  lemma ActGrows(c: Config, s: State, act: Act)
    requires NextAct(c, s, act).Some?
    ensures Grows(s.fibers, NextAct(c, s, act).value.fibers)
  {
  }

  lemma CodeGrows(c: Config, s: State, w: nat, move: CodeMove)
    requires w < |s.workers| && NextCode(c, s, w, move).Some?
    ensures Grows(s.fibers, NextCode(c, s, w, move).value.fibers)
  {
    if move.Acting? {
      ActGrows(c, s, move.act);
    } else {
      CodeCoded(c, s, w, move);
    }
  }

  lemma StepGrows(c: Config, s: State, step: Step)
    requires Next(c, s, step).Some?
    ensures Grows(s.fibers, Next(c, s, step).value.fibers)
  {
    match step
    case Runs(w, move) => RunRan(s, w, move);
    case Codes(w, move) => CodeGrows(c, s, w, move);
    case Idles(w, move) => IdleIdled(c, s, w, move);
    case Outside(act) => ActGrows(c, s, act);
    case _ => NobodyMoves(c, s, step);
  }

  // ----- The list -----

  lemma CodeJobKnown(c: Config, s: State, w: nat, move: CodeMove)
    requires Known(s) && w < |s.workers| && !move.Acting?
    ensures JobKnown(s.fibers, T.CodeJob(s, s.workers[w].phase, move).0)
  {
    assert PhaseKnown(s.fibers, s.workers[w].phase);
  }

  lemma ActJobKnown(c: Config, s: State, act: Act)
    requires NextAct(c, s, act).Some?
    ensures JobKnown(NextAct(c, s, act).value.fibers, T.ActJob(s, act).0)
  {
  }

  lemma IdleJobKnown(s: State, w: nat, move: IdleMove)
    requires Known(s) && w < |s.workers|
    ensures JobKnown(s.fibers, T.IdleJob(s, s.workers[w].phase, move).0)
  {
    assert PhaseKnown(s.fibers, s.workers[w].phase);
  }

  lemma JobInKnown(c: Config, s: State, step: Step)
    requires Known(s) && Next(c, s, step).Some?
    ensures JobKnown(Next(c, s, step).value.fibers, T.JobIn(s, step).0)
  {
    StepGrows(c, s, step);
    match step
    case Codes(w, move) =>
      if move.Acting? {
        ActJobKnown(c, s, move.act);
      } else {
        CodeJobKnown(c, s, w, move);
      }
    case Idles(w, move) => IdleJobKnown(s, w, move);
    case Outside(act) => ActJobKnown(c, s, act);
    case _ =>
  }

  lemma StepTasksKnown(c: Config, s: State, step: Step)
    requires Known(s) && Next(c, s, step).Some?
    ensures TasksKnown(Next(c, s, step).value.fibers, Next(c, s, step).value.tasks)
  {
    StepGrows(c, s, step);
    AllGrows(s, Next(c, s, step).value.fibers);
    if step.Runs? && step.run.Take? {
      T.TakeHands(s, step.w);
    } else if step.Runs? && step.run.Finish? {
      T.FinishHands(s, step.w);
    } else {
      T.StepHands(c, s, step);
      JobInKnown(c, s, step);
    }
  }

  // ----- The timers -----

  lemma InsertKnown(q: seq<Alarm>, e: Alarm, fibers: map<nat, Fib>)
    requires TimersKnown(fibers, q) && Real(fibers, JobOf(e.cb))
    ensures TimersKnown(fibers, Insert(q, e))
  {
    InsertShares(q, e, 0);
  }

  lemma StartKnown(s: State, ms: nat, code: Code, recurring: bool, fibers: map<nat, Fib>)
    requires TimersKnown(fibers, s.timers) && JobKnown(fibers, Call(code))
    ensures TimersKnown(fibers, Start(s, ms, code, recurring).timers)
  {
    InsertKnown(s.timers, Timer((), s.clock + ms * TICKS_PER_MS, ms, recurring, Some(code)), fibers);
  }

  lemma ActTimersKnown(c: Config, s: State, act: Act, fibers: map<nat, Fib>)
    requires TimersKnown(fibers, s.timers) && Ascending(s.timers) && NextAct(c, s, act).Some?
    ensures TimersKnown(fibers, NextAct(c, s, act).value.timers)
  {
    match act
    case AddTimer(ms, k, recurring) => StartKnown(s, ms, User(k), recurring, fibers);
    case EraseTimer(d) => EraseMembers(s.timers, d);
    case _ =>
  }

  lemma CodeTimersKnown(c: Config, s: State, w: nat, move: CodeMove, fibers: map<nat, Fib>)
    requires TimersKnown(fibers, s.timers) && Ascending(s.timers) && Grows(s.fibers, fibers)
    requires w < |s.workers| && NextCode(c, s, w, move).Some?
    ensures TimersKnown(fibers, NextCode(c, s, w, move).value.timers)
  {
    if move.Acting? {
      ActTimersKnown(c, s, move.act, fibers);
    } else if move.Sleep? {
      SleepStarts(c, s, w, move.ms);
      StartKnown(s, move.ms, Wake(s.workers[w].phase.f), false, fibers);
    } else {
      CodeCoded(c, s, w, move);
    }
  }

  /** The same timer, at another deadline if it recurs. */
  predicate SameTimer(a: Alarm, b: Alarm) {
    a == b.(next := a.next) && (b.recurring || a == b)
  }

  ghost predicate ComesFrom(a: Alarm, q: seq<Alarm>) {
    exists b :: b in q && SameTimer(a, b)
  }

  ghost predicate AllFrom(q: seq<Alarm>, q': seq<Alarm>) {
    forall a :: a in q' ==> ComesFrom(a, q)
  }

  lemma TurnAllFrom(q: seq<Alarm>, now: int)
    requires Ascending(q) && q != []
    ensures AllFrom(q, Drain.Turn(q, now))
  {
    Drain.TurnMembers(q, now);
    forall a | a in Drain.Turn(q, now) ensures ComesFrom(a, q) {
      if a in q[1..] {
        assert a in q && SameTimer(a, a);
      } else {
        assert q[0] in q && SameTimer(a, q[0]);
      }
    }
  }

  lemma AllFromOn(q: seq<Alarm>, q1: seq<Alarm>, q2: seq<Alarm>)
    requires AllFrom(q, q1) && AllFrom(q1, q2)
    ensures AllFrom(q, q2)
  {
    forall a | a in q2 ensures ComesFrom(a, q) {
      var b :| b in q1 && SameTimer(a, b);
      var d :| d in q && SameTimer(b, d);
      assert SameTimer(a, d);
    }
  }

  lemma AllFromSelf(q: seq<Alarm>)
    ensures AllFrom(q, q)
  {
    forall a | a in q ensures ComesFrom(a, q) {
      assert SameTimer(a, a);
    }
  }

  /** What a drain leaves in the set was there before. */
  lemma {:induction false} DrainAllFrom(d: Drain.State<(), Code>, now: int)
    requires Ascending(d.queue) && Drain.TrapFree(d.queue, now, false)
    ensures AllFrom(d.queue, Drain.Run(d, now, false).queue)
    decreases Drain.Due(d.queue, now, false)
  {
    if Drain.More(d.queue, now, false) {
      Drain.TurnConsumes(d.queue, now, false);
      TurnAllFrom(d.queue, now);
      DrainAllFrom(Drain.Step(d, now), now);
      AllFromOn(d.queue, Drain.Turn(d.queue, now), Drain.Run(d, now, false).queue);
    } else {
      AllFromSelf(d.queue);
    }
  }

  lemma AllFromKnown(q: seq<Alarm>, q': seq<Alarm>, fibers: map<nat, Fib>)
    requires TimersKnown(fibers, q) && AllFrom(q, q')
    ensures TimersKnown(fibers, q')
  {
    forall a | a in q' ensures Real(fibers, JobOf(a.cb)) {
      var b :| b in q && SameTimer(a, b);
    }
  }

  lemma IdleTimersKnown(c: Config, s: State, w: nat, move: IdleMove)
    requires TimersKnown(s.fibers, s.timers) && w < |s.workers| && NextIdle(c, s, w, move).Some?
    ensures TimersKnown(s.fibers, NextIdle(c, s, w, move).value.timers)
  {
    if move.Collect? {
      DrainAllFrom(Drain.State(s.timers, [], []), move.now);
      AllFromKnown(s.timers, NextIdle(c, s, w, move).value.timers, s.fibers);
    } else {
      IdleIdled(c, s, w, move);
    }
  }

  lemma StepTimersKnown(c: Config, s: State, step: Step)
    requires Known(s) && Ascending(s.timers) && Next(c, s, step).Some?
    ensures TimersKnown(Next(c, s, step).value.fibers, Next(c, s, step).value.timers)
  {
    var fibers' := Next(c, s, step).value.fibers;
    StepGrows(c, s, step);
    AllGrows(s, fibers');
    match step
    case Runs(w, move) => RunRan(s, w, move);
    case Codes(w, move) => CodeTimersKnown(c, s, w, move, fibers');
    case Idles(w, move) => IdleTimersKnown(c, s, w, move); IdleIdled(c, s, w, move);
    case Outside(act) => ActTimersKnown(c, s, act, fibers');
    case _ => NobodyMoves(c, s, step);
  }

  // ----- The table -----

  lemma StepTableKnown(c: Config, s: State, step: Step)
    requires Known(s) && Next(c, s, step).Some?
    ensures TableKnown(Next(c, s, step).value.fibers, Next(c, s, step).value.registered, Next(c, s, step).value.calls)
  {
    var s' := Next(c, s, step).value;
    StepGrows(c, s, step);
    AllGrows(s, s'.fibers);
    match step
    case Runs(w, move) =>
      RunRan(s, w, move);
      RanTable(c, s, s', w, move);
      TableOf(s, s', w);
    case Codes(w, move) =>
      if move.Acting? {
        ActTable(c, s, move.act);
      } else {
        CodeTable(c, s, w, move);
        TableOf(s, s', w);
      }
    case Idles(w, move) => IdleTable(c, s, w, move); TableOf(s, s', w);
    case Outside(act) => ActTable(c, s, act);
    case OutsideCall(begin) => CallBegunKnown(c, s, begin);
    case OutsideReturn(k) => CallReturnedKnown(c, s, k);
    case Stop =>
    case Tick(d) =>
  }

  lemma TableOf(s: State, s': State, w: nat)
    requires Known(s) && Grows(s.fibers, s'.fibers) && TableStays(s, s', w)
    ensures TableKnown(s'.fibers, s'.registered, s'.calls)
  {
    assert PhaseKnown(s.fibers, s.workers[w].phase);
    forall i | 0 <= i < |s'.registered| ensures JobKnown(s'.fibers, s'.registered[i]) {
      assert s'.registered[i] in s'.registered;
    }
  }

  lemma TableIn(fibers: map<nat, Fib>, s: State, s': State, call: Call)
    requires TableKnown(fibers, s.registered, s.calls) && JobKnown(fibers, call.waiter)
    requires forall body :: body in s'.registered ==> body in s.registered || body == call.waiter
    requires forall k :: 0 <= k < |s'.calls| ==> s'.calls[k] in s.calls || s'.calls[k] == call
    ensures TableKnown(fibers, s'.registered, s'.calls)
  {
    forall i | 0 <= i < |s'.registered| ensures JobKnown(fibers, s'.registered[i]) {
      assert s'.registered[i] in s'.registered;
    }
  }

  lemma CallBegunKnown(c: Config, s: State, begin: Begin)
    requires TableKnown(s.fibers, s.registered, s.calls) && Next(c, s, OutsideCall(begin)).Some?
    ensures var s' := Next(c, s, OutsideCall(begin)).value; TableKnown(s'.fibers, s'.registered, s'.calls)
  {
    BegunTable(c, s, begin);
    CountedFrame(c, s, begin);
    TableIn(s.fibers, s, Next(c, s, OutsideCall(begin)).value, Begun(c, s, begin).value);
  }

  lemma CallReturnedKnown(c: Config, s: State, k: nat)
    requires TableKnown(s.fibers, s.registered, s.calls) && Next(c, s, OutsideReturn(k)).Some?
    ensures var s' := Next(c, s, OutsideReturn(k)).value; TableKnown(s'.fibers, s'.registered, s'.calls)
  {
    var s1 := s.(calls := s.calls[..k] + s.calls[k + 1..]);
    CompletedTable(s1, s.calls[k]);
    CompletedFrame(s1, s.calls[k]);
    TableIn(s.fibers, s, Next(c, s, OutsideReturn(k)).value, s.calls[k]);
  }

  // ----- The workers -----

  lemma RanPhaseKnown(s: State, s': State, w: nat, move: RunMove)
    requires Ran(s, s', w, move) && TasksKnown(s.fibers, s.tasks) && PhaseKnown(s.fibers, s.workers[w].phase)
    ensures PhaseKnown(s'.fibers, s'.workers[w].phase)
  {
    var p, p' := s.workers[w].phase, s'.workers[w].phase;
    match move
    case Take => assert Real(s.fibers, p'.task.body);
    case Make(g) => assert Real(s'.fibers, p.task.body);
    case Lock => assert Real(s'.fibers, p.task.body);
    case Dispatch => assert Real(s'.fibers, p.task.body);
    case _ =>
  }

  lemma TurnKnown(fibers: map<nat, Fib>, x: Worker, x': Worker, move: CodeMove)
    requires CodeTurn(x, x', move) && !move.Calling?
    ensures PhaseKnown(fibers, x'.phase)
  {
  }

  lemma CodePhaseKnown(c: Config, s: State, w: nat, move: CodeMove)
    requires Known(s) && w < |s.workers| && NextCode(c, s, w, move).Some? && !move.Acting?
    ensures var s' := NextCode(c, s, w, move).value; w < |s'.workers| && PhaseKnown(s'.fibers, s'.workers[w].phase)
  {
    CodeCoded(c, s, w, move);
    if move.Calling? {
      BegunTable(c, s, move.begin);
    } else {
      TurnKnown(NextCode(c, s, w, move).value.fibers, s.workers[w], NextCode(c, s, w, move).value.workers[w], move);
    }
  }

  lemma CollectPhaseKnown(c: Config, s: State, w: nat, now: int)
    requires Known(s) && w < |s.workers| && NextCollect(c, s, w, now).Some?
    ensures var s' := NextCollect(c, s, w, now).value;
      w < |s'.workers| && PhaseKnown(s'.fibers, s'.workers[w].phase)
  {
    var q := s.timers;
    var fired := Drain.Run(Drain.State(q, [], []), now, false).fired;
    Drain.FiresTheDue(Drain.State(q, [], []), now, false);
    var k := Drain.Due(q, now, false);
    assert fired == Drain.Callbacks(q[..k]);
    forall i | 0 <= i < |fired| ensures JobKnown(s.fibers, JobOf(fired[i])) {
      assert fired[i] == q[..k][i].cb && q[i] in q;
    }
  }

  lemma IdledPhaseKnown(c: Config, s: State, s': State, w: nat, move: IdleMove)
    requires Idled(c, s, s', w, move) && !move.Collect? && PhaseKnown(s.fibers, s.workers[w].phase)
    ensures PhaseKnown(s'.fibers, s'.workers[w].phase)
  {
  }

  lemma StepPhaseKnown(c: Config, s: State, step: Step, w: nat)
    requires Known(s) && Next(c, s, step).Some? && w < |s.workers|
    ensures var s' := Next(c, s, step).value; w < |s'.workers| && PhaseKnown(s'.fibers, s'.workers[w].phase)
  {
    var s' := Next(c, s, step).value;
    assert PhaseKnown(s.fibers, s.workers[w].phase);
    if T.MovedBy(step, w) && !(step.Codes? && step.code.Acting?) {
      match step
      case Runs(w, move) =>
        RunRan(s, w, move);
        RanPhaseKnown(s, s', w, move);
      case Codes(w, move) => CodePhaseKnown(c, s, w, move);
      case Idles(w, move) =>
        if move.Collect? {
          CollectPhaseKnown(c, s, w, move.now);
        } else {
          IdleIdled(c, s, w, move);
          IdledPhaseKnown(c, s, s', w, move);
        }
    } else {
      StepGrows(c, s, step);
      if T.MovedBy(step, w) {
        T.ActHands(c, s, step.code.act);
      } else {
        T.OthersStay(c, s, step, w);
      }
      PhaseGrows(s.fibers, s'.fibers, s.workers[w].phase);
    }
  }

  lemma StepKnown(c: Config, s: State, step: Step)
    requires Known(s) && Ascending(s.timers) && Next(c, s, step).Some?
    ensures Known(Next(c, s, step).value)
  {
    StepTasksKnown(c, s, step);
    StepTimersKnown(c, s, step);
    StepTableKnown(c, s, step);
    T.SameCrew(c, s, step);
    forall w | 0 <= w < |Next(c, s, step).value.workers|
      ensures PhaseKnown(Next(c, s, step).value.fibers, Next(c, s, step).value.workers[w].phase)
    {
      StepPhaseKnown(c, s, step, w);
    }
  }

  // ----- Wake-ups are for any thread -----

  /** A task that will resume f is pinned to a thread only if it is to start f. */
  ghost predicate ForAnyone(s: State, f: nat) {
    f in s.fibers && s.fibers[f].log != [] ==>
      forall i :: 0 <= i < |s.tasks| && JobCredit(s.tasks[i].body, f) > 0 ==> s.tasks[i].thread == ANY
  }

  lemma TaskComes(s: State, i: nat, f: nat)
    requires i < |s.tasks| && JobCredit(s.tasks[i].body, f) > 0
    ensures Coming(s, f) > 0
  {
    TasksLose(s.tasks, i, f);
  }

  /** What is handed over and resumes a fiber that exists is for any thread. */
  lemma JobInThread(c: Config, s: State, step: Step, f: nat)
    requires f in c.solo && Next(c, s, step).Some? && JobCredit(T.JobIn(s, step).0, f) > 0 && f in s.fibers
    ensures T.JobIn(s, step).1 == ANY
  {
    match step
    case Codes(w, move) =>
      if move.Acting? {
        assert JobCredit(T.ActJob(s, move.act).0, f) > 0;
        NotActJob(c, s, move.act, f);
      }
    case Outside(act) => NotActJob(c, s, act, f);
    case _ =>
  }

  lemma NotActJob(c: Config, s: State, act: Act, f: nat)
    requires f in c.solo && NextAct(c, s, act).Some? && f in s.fibers
    ensures JobCredit(T.ActJob(s, act).0, f) == 0
  {
  }

  /** The list after a step: entries of before, and the job handed over. */
  lemma ListAfter(c: Config, s: State, step: Step, i: nat)
    requires Next(c, s, step).Some? && i < |Next(c, s, step).value.tasks|
    ensures var t := Next(c, s, step).value.tasks[i];
      t in s.tasks || t == Task(T.JobIn(s, step).0, T.JobIn(s, step).1)
  {
    if step.Runs? && step.run.Take? {
      T.TakeHands(s, step.w);
    } else if step.Runs? && step.run.Finish? {
      T.FinishHands(s, step.w);
    } else {
      T.StepHands(c, s, step);
    }
  }

  /** A log of one event is not that of a sleeper. */
  lemma FirstIsNoSleep(c: Config, s: State, f: nat)
    requires Inv(c, s) && f in s.fibers && |s.fibers[f].log| == 1
    ensures !Rested(s.fibers[f].log, s.clock)
  {
    assert L.Alternates(s.fibers[f].log);
  }

  lemma StepForAnyone(c: Config, s: State, step: Step, f: nat)
    requires Inv(c, s) && f in c.solo && ForAnyone(s, f) && Next(c, s, step).Some?
    ensures ForAnyone(Next(c, s, step).value, f)
  {
    var s' := Next(c, s, step).value;
    StepKeeps(c, s, step);
    assert SleeperFits(s', f);
    if f in s'.fibers && s'.fibers[f].log != [] {
      forall i | 0 <= i < |s'.tasks| && JobCredit(s'.tasks[i].body, f) > 0 ensures s'.tasks[i].thread == ANY {
        TaskComes(s', i, f);
        StepSleeps(c, s, step, f);
        if f in s.fibers && s.fibers[f].log != [] {
          ListAfter(c, s, step, i);
          if s'.tasks[i] !in s.tasks {
            JobInThread(c, s, step, f);
          }
        } else {
          StartsEmpty(c, s, step, f);
        }
      }
    }
  }

  lemma StartsEmpty(c: Config, s: State, step: Step, f: nat)
    requires Inv(c, s) && f in c.solo && Next(c, s, step).Some?
    requires f in s.fibers ==> s.fibers[f].log == []
    requires var s' := Next(c, s, step).value; f in s'.fibers && s'.fibers[f].log != []
    ensures Coming(Next(c, s, step).value, f) == 0
  {
    var s' := Next(c, s, step).value;
    StepKeeps(c, s, step);
    StepSleeps(c, s, step, f);
    assert SleeperFits(s', f);
    if f in s.fibers {
      FirstIsNoSleep(c, s', f);
    } else {
      NewIsEmpty(c, s, step, f);
    }
  }

  lemma ActNew(c: Config, s: State, act: Act, f: nat)
    requires NextAct(c, s, act).Some? && f !in s.fibers && f in NextAct(c, s, act).value.fibers
    ensures NextAct(c, s, act).value.fibers[f].log == []
  {
  }

  lemma RunNew(s: State, w: nat, move: RunMove, f: nat)
    requires w < |s.workers| && NextRun(s, w, move).Some? && f !in s.fibers && f in NextRun(s, w, move).value.fibers
    ensures NextRun(s, w, move).value.fibers[f].log == []
  {
    RunRan(s, w, move);
    assert move.Make?;
  }

  lemma NewIsEmpty(c: Config, s: State, step: Step, f: nat)
    requires Next(c, s, step).Some? && f !in s.fibers && f in Next(c, s, step).value.fibers
    ensures Next(c, s, step).value.fibers[f].log == []
  {
    match step
    case Runs(w, move) => RunNew(s, w, move, f);
    case Codes(w, move) =>
      if move.Acting? {
        ActNew(c, s, move.act, f);
      } else {
        CodeCoded(c, s, w, move);
      }
    case Idles(w, move) => IdleIdled(c, s, w, move);
    case Outside(act) => ActNew(c, s, act, f);
    case _ => NobodyMoves(c, s, step);
  }

  // ----- Together -----

  /** A worker leaves only once its idle fiber has terminated. */
  ghost predicate GoneFits(s: State) {
    forall w :: 0 <= w < |s.workers| && s.workers[w].phase.Gone? ==> s.workers[w].term
  }

  ghost predicate Lively(c: Config, s: State) {
    Inv(c, s) && Known(s) && GoneFits(s) && forall f :: f in c.solo ==> ForAnyone(s, f)
  }

  lemma CodeNotGone(c: Config, s: State, w: nat, move: CodeMove)
    requires w < |s.workers| && NextCode(c, s, w, move).Some?
    ensures var s' := NextCode(c, s, w, move).value; w < |s'.workers| && !s'.workers[w].phase.Gone?
  {
    if move.Acting? {
      T.ActHands(c, s, move.act);
    } else {
      CodeCoded(c, s, w, move);
    }
  }

  lemma StepGone(c: Config, s: State, step: Step)
    requires GoneFits(s) && Next(c, s, step).Some?
    ensures GoneFits(Next(c, s, step).value)
  {
    var s' := Next(c, s, step).value;
    T.SameCrew(c, s, step);
    forall w | 0 <= w < |s'.workers| && s'.workers[w].phase.Gone? ensures s'.workers[w].term {
      if T.MovedBy(step, w) {
        match step
        case Runs(w, move) => RunRan(s, w, move);
        case Codes(w, move) => CodeNotGone(c, s, w, move);
        case Idles(w, move) => IdleIdled(c, s, w, move);
      } else {
        T.OthersStay(c, s, step, w);
      }
    }
  }

  lemma StepLively(c: Config, s: State, step: Step)
    requires Lively(c, s) && Next(c, s, step).Some?
    ensures Lively(c, Next(c, s, step).value)
  {
    StepKeeps(c, s, step);
    StepKnown(c, s, step);
    StepGone(c, s, step);
    forall f | f in c.solo ensures ForAnyone(Next(c, s, step).value, f) {
      StepForAnyone(c, s, step, f);
    }
  }

  lemma {:induction false} ExecLively(c: Config, s: State, steps: seq<Step>)
    requires Lively(c, s) && Exec(c, s, steps).Some?
    ensures Lively(c, Exec(c, s, steps).value)
    decreases steps
  {
    if steps != [] {
      StepLively(c, s, steps[0]);
      ExecLively(c, Next(c, s, steps[0]).value, steps[1..]);
    }
  }

  lemma InitLively(c: Config, n: nat, calls: seq<nat>, clock: int)
    ensures Lively(c, Init(n, calls, clock))
  {
    var s := Init(n, calls, clock);
    assert Exec(c, s, []) == Some(s);
    ReachableInv(c, n, s);
  }

  lemma ReachableLively(c: Config, n: nat, s: State)
    requires Reachable(c, n, s)
    ensures Lively(c, s)
  {
    var calls, clock, steps :| Exec(c, Init(n, calls, clock), steps) == Some(s);
    InitLively(c, n, calls, clock);
    ExecLively(c, Init(n, calls, clock), steps);
  }
}
