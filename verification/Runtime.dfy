/** The scheduler, the fibers it runs, the timers and the idle loops as one step system. Workers take
    tasks from one list, run fibers under their mutexes, count themselves active, look after timers
    and events when there is nothing to take, and leave once they have found everything at rest.
    Any interleaving of their steps, and of calls from threads outside, is a run. */
module Runtime {
  import opened Options
  import F = FiberModel
  import opened Tasks
  import opened DeadlineSet
  import Drain

  /** Fibers are numbered. A callback is the one a hooked sleep leaves with its timer, which
      schedules the sleeper, or anything a user has written. */
  datatype Code = Wake(f: nat) | User(k: nat)

  type Job = Body<nat, Code>
  type Entry = Task<nat, Code>
  type Alarm = DeadlineSet.Timer<(), Code>

  /** io: an IOManager, not a plain Scheduler. atomic: IOManager::stopping() makes its three reads at
      once. outsiders: threads other than the workers call the runtime too. guarded: delEvent is called for
      registered events only. solo: the fibers nobody schedules but their creator, once, and their own
      sleeps. */
  datatype Config = Config(io: bool, atomic: bool, outsiders: bool, guarded: bool, solo: set<nat>)

  /** What has happened to a fiber: a resume, a hooked sleep, the end of a yield. */
  datatype Event = Resumed(at: int) | Slept(until: int) | Left

  datatype Fib = Fib(state: F.FiberState, holder: Option<nat>, log: seq<Event>)

  datatype IdleAt =
    | Checking                          // at the top of the loop
    | NoTimers                          // stopping() has seen no timer
    | NoEvents                          // ... and no pending event
    | Waiting
    | Holding(cbs: seq<Option<Code>>)   // expired callbacks collected and not yet scheduled
    | Owing                             // a waiter is scheduled and the counter not yet lowered

  /** An event call in progress, which holds the mutex of its descriptor. addEvent has counted the waiter
      and not set its bit yet; delEvent and cancelEvent have counted it down and not taken it out yet. */
  datatype Call = Adding(waiter: Job) | Removing(waiter: Job, fire: bool)

  /** What an executing fiber is in the middle of: its own code, the callback of a sleep, which has this
      fiber to schedule, or an event call. */
  datatype Todo = Nothing | Waking(f: nat) | InCall(call: Call)

  datatype Phase =
    | Scanning
    | Took(task: Entry)                             // counted active from here ...
    | Locked(task: Entry, f: nat)                   // holds the fiber's mutex from here ...
    | Executing(task: Entry, f: nat, todo: Todo)
    | Leaving(task: Entry, f: nat)                  // a sleep has added its timer and will yield
    | Ending(task: Entry, f: nat)                   // the state is TERM and the last yield to come
    | Switching(task: Entry, f: nat)                // state set, context not switched yet
    | Back(task: Entry, f: nat)                     // ... to here
    | Released(task: Entry)                         // ... to here
    | Idle(at: IdleAt)
    | Gone

  /** term: the worker's idle fiber has terminated. */
  datatype Worker = Worker(phase: Phase, term: bool)

  /** registered holds the waiters whose bits are set and that no call is about to take out; calls are the
      event calls that threads outside have in progress. strays is how often delEvent has counted down for
      an event that was not registered. accepted, taken, takers and done are the history
      of the task list; late tells that a call from outside has begun or returned after stop(); failed,
      that an assertion of the code has failed. */
  datatype State = State(
    tasks: seq<Entry>, workers: seq<Worker>, fibers: map<nat, Fib>, active: int, stopping: bool,
    timers: seq<Alarm>, registered: seq<Job>, calls: seq<Call>, pending: int, strays: nat, clock: int,
    accepted: seq<Entry>, taken: seq<Entry>, takers: seq<nat>, done: multiset<Entry>,
    late: bool, failed: bool)

  /** Calls on the shared state. */
  datatype Act =
    | Submit(body: Job, thread: int)
    | Launch(f: nat, thread: int)     // makes a fiber and schedules it
    | AddTimer(ms: nat, k: nat, recurring: bool)
    | EraseTimer(d: int)              // a cancel takes out what it finds at the deadline
    | Restart(f: nat)                 // Fiber::reset
    | StrayDelete                     // delEvent of an event that is not registered, next to one that is

  /** The beginnings of addEvent, delEvent and cancelEvent. */
  datatype Begin = AddEvent(waiter: Job) | DropEvent(i: nat) | CancelEvent(i: nat)

  datatype RunMove = Take | Make(g: nat) | Lock | Dispatch | Unlock | Finish | Rest

  datatype CodeMove =
    Acting(act: Act) | Calling(begin: Begin) | Return | RunWake | Sleep(ms: nat) | Yield | Terminate | Switch

  datatype IdleMove = CheckTimers | CheckEvents | CheckStop | Collect(now: int) | Post | Report(i: nat) | Repay | Leave

  datatype Step =
    | Runs(w: nat, run: RunMove)
    | Codes(w: nat, code: CodeMove)
    | Idles(w: nat, idle: IdleMove)
    | Outside(act: Act)
    | OutsideCall(begin: Begin)
    | OutsideReturn(k: nat)
    | Stop
    | Tick(d: nat)

  function At(s: State, w: nat, phase: Phase): State
    requires w < |s.workers|
  {
    s.(workers := s.workers[w := s.workers[w].(phase := phase)])
  }

  function Schedule(s: State, body: Job, thread: int): State {
    s.(tasks := Submitted(s.tasks, body, thread), accepted := Submitted(s.accepted, body, thread))
  }

  function SetFiber(s: State, f: nat, fib: Fib): State {
    s.(fibers := s.fibers[f := fib])
  }

  function Start(s: State, ms: nat, code: Code, recurring: bool): State {
    s.(timers := Insert(s.timers, Timer((), s.clock + ms * TICKS_PER_MS, ms, recurring, Some(code))))
  }

  function Unregister(s: State, i: nat): State
    requires i < |s.registered|
  {
    s.(registered := s.registered[..i] + s.registered[i + 1..])
  }

  /** What users may schedule: not the fibers that are left alone. */
  predicate Harmless(c: Config, body: Job) {
    match body
    case Empty => true
    case Resume(f) => f !in c.solo
    case Call(code) => code.User?
  }

  predicate Permitted(c: Config, s: State, body: Job) {
    Harmless(c, body) && (body.Resume? ==> body.fiber in s.fibers)
  }

  function NextAct(c: Config, s: State, act: Act): Option<State> {
    match act
    case Submit(body, thread) => if Permitted(c, s, body) then Some(Schedule(s, body, thread)) else None
    case Launch(f, thread) =>
      if f !in s.fibers then Some(Schedule(SetFiber(s, f, Fib(F.Ready, None, [])), Resume(f), thread)) else None
    case AddTimer(ms, k, recurring) => if c.io then Some(Start(s, ms, User(k), recurring)) else None
    case EraseTimer(d) => Some(s.(timers := Erase(s.timers, d)))
    case Restart(f) =>
      if f in s.fibers && s.fibers[f].state == F.Term then Some(SetFiber(s, f, s.fibers[f].(state := F.Ready)))
      else None
    case StrayDelete =>
      if !c.guarded && s.registered != [] then Some(s.(pending := s.pending - 1, strays := s.strays + 1)) else None
  }

  /** The call that begins, if it can. */
  function Begun(c: Config, s: State, begin: Begin): Option<Call> {
    match begin
    case AddEvent(waiter) => if c.io && !waiter.Empty? && Permitted(c, s, waiter) then Some(Adding(waiter)) else None
    case DropEvent(i) => if i < |s.registered| then Some(Removing(s.registered[i], false)) else None
    case CancelEvent(i) => if i < |s.registered| then Some(Removing(s.registered[i], true)) else None
  }

  /** Its first half: the counter. What is being removed is in the hands of the call. */
  function Counted(c: Config, s: State, begin: Begin): State
    requires Begun(c, s, begin).Some?
  {
    if begin.AddEvent? then s.(pending := s.pending + 1)
    else Unregister(s, begin.i).(pending := s.pending - 1)
  }

  /** Its second half: the table, and the hand-over of a cancel. */
  function Completed(s: State, call: Call): State {
    match call
    case Adding(waiter) => s.(registered := s.registered + [waiter])
    case Removing(waiter, fire) => if fire then Schedule(s, waiter, ANY) else s
  }

  /** What a new execution has to do first: the callback of a sleep is to schedule the sleeper. */
  function Opening(task: Entry): Todo {
    if task.body.Call? && task.body.code.Wake? then Waking(task.body.code.f) else Nothing
  }

  /** The scan, one step under m_mutex. */
  function NextTake(s: State, w: nat): Option<State>
    requires w < |s.workers|
  {
    var i := FirstEligible(s.tasks, w);
    if s.workers[w].phase.Scanning? && i < |s.tasks| then
      Some(At(s, w, Took(s.tasks[i])).(
        tasks := Without(s.tasks, i), active := s.active + 1, failed := s.failed || s.tasks[i].body.Empty?,
        taken := s.taken + [s.tasks[i]], takers := s.takers + [w]))
    else None
  }

  function NextMake(s: State, w: nat, g: nat): Option<State>
    requires w < |s.workers|
  {
    var phase := s.workers[w].phase;
    if phase.Took? && phase.task.body.Call? && g !in s.fibers then
      Some(SetFiber(At(s, w, Locked(phase.task, g)), g, Fib(F.Ready, Some(w), [])))
    else None
  }

  function NextLock(s: State, w: nat): Option<State>
    requires w < |s.workers|
  {
    var phase := s.workers[w].phase;
    if phase.Took? && phase.task.body.Resume? then
      var f := phase.task.body.fiber;
      if f in s.fibers && s.fibers[f].holder.None? then
        Some(SetFiber(At(s, w, Locked(phase.task, f)), f, s.fibers[f].(holder := Some(w))))
      else None
    else None
  }

  /** Fiber::resume on the fiber that worker w has locked. */
  function Resuming(s: State, w: nat): State
    requires w < |s.workers| && s.workers[w].phase.Locked? && s.workers[w].phase.f in s.fibers
  {
    var phase := s.workers[w].phase;
    var fib := s.fibers[phase.f];
    var fib' := fib.(state := F.Running, log := fib.log + [Resumed(s.clock)]);
    SetFiber(At(s, w, Executing(phase.task, phase.f, Opening(phase.task))), phase.f, fib').(
      failed := s.failed || fib.state != F.Ready)
  }

  /** A fiber that has terminated is not resumed. */
  function NextDispatch(s: State, w: nat): Option<State>
    requires w < |s.workers|
  {
    var phase := s.workers[w].phase;
    if phase.Locked? && phase.f in s.fibers then
      if phase.task.body.Resume? && s.fibers[phase.f].state == F.Term then Some(At(s, w, Back(phase.task, phase.f)))
      else Some(Resuming(s, w))
    else None
  }

  function NextUnlock(s: State, w: nat): Option<State>
    requires w < |s.workers|
  {
    var phase := s.workers[w].phase;
    if phase.Back? && phase.f in s.fibers then
      Some(SetFiber(At(s, w, Released(phase.task)), phase.f, s.fibers[phase.f].(holder := None)))
    else None
  }

  function NextFinish(s: State, w: nat): Option<State>
    requires w < |s.workers|
  {
    var phase := s.workers[w].phase;
    if phase.Released? then
      Some(At(s, w, Scanning).(active := s.active - 1, done := s.done + multiset{phase.task}))
    else None
  }

  function NextRest(s: State, w: nat): Option<State>
    requires w < |s.workers|
  {
    if s.workers[w].phase.Scanning? && FirstEligible(s.tasks, w) == |s.tasks| then
      Some(At(s, w, if s.workers[w].term then Gone else Idle(Checking)))
    else None
  }

  /** Scheduler::run. */
  function NextRun(s: State, w: nat, move: RunMove): Option<State>
    requires w < |s.workers|
  {
    match move
    case Take => NextTake(s, w)
    case Make(g) => NextMake(s, w, g)
    case Lock => NextLock(s, w)
    case Dispatch => NextDispatch(s, w)
    case Unlock => NextUnlock(s, w)
    case Finish => NextFinish(s, w)
    case Rest => NextRest(s, w)
  }

  /** The code of the fiber that worker w executes can go on. */
  predicate InCode(s: State, phase: Phase) {
    phase.Executing? && phase.todo.Nothing? && phase.f in s.fibers
  }

  function NextCalling(c: Config, s: State, w: nat, begin: Begin): Option<State>
    requires w < |s.workers|
  {
    var phase := s.workers[w].phase;
    if InCode(s, phase) && Begun(c, s, begin).Some? then
      Some(At(Counted(c, s, begin), w, phase.(todo := InCall(Begun(c, s, begin).value))))
    else None
  }

  function NextReturn(s: State, w: nat): Option<State>
    requires w < |s.workers|
  {
    var phase := s.workers[w].phase;
    if phase.Executing? && phase.todo.InCall? then
      Some(Completed(At(s, w, phase.(todo := Nothing)), phase.todo.call))
    else None
  }

  function NextRunWake(s: State, w: nat): Option<State>
    requires w < |s.workers|
  {
    var phase := s.workers[w].phase;
    if phase.Executing? && phase.todo.Waking? then
      Some(Schedule(At(s, w, phase.(todo := Nothing)), Resume(phase.todo.f), ANY))
    else None
  }

  function NextSleep(c: Config, s: State, w: nat, ms: nat): Option<State>
    requires w < |s.workers|
  {
    var phase := s.workers[w].phase;
    if InCode(s, phase) && c.io then
      var fib := s.fibers[phase.f];
      Some(Start(SetFiber(At(s, w, Leaving(phase.task, phase.f)), phase.f,
                          fib.(log := fib.log + [Slept(s.clock + ms * TICKS_PER_MS)])), ms, Wake(phase.f), false))
    else None
  }

  function NextYield(s: State, w: nat): Option<State>
    requires w < |s.workers|
  {
    var phase := s.workers[w].phase;
    if InCode(s, phase) || ((phase.Leaving? || phase.Ending?) && phase.f in s.fibers) then
      var fib := s.fibers[phase.f];
      Some(SetFiber(At(s, w, Switching(phase.task, phase.f)), phase.f,
                    fib.(state := if fib.state == F.Term then F.Term else F.Ready)).(
        failed := s.failed || fib.state == F.Ready))
    else None
  }

  function NextTerminate(s: State, w: nat): Option<State>
    requires w < |s.workers|
  {
    var phase := s.workers[w].phase;
    if InCode(s, phase) then
      Some(SetFiber(At(s, w, Ending(phase.task, phase.f)), phase.f, s.fibers[phase.f].(state := F.Term)))
    else None
  }

  function NextSwitch(s: State, w: nat): Option<State>
    requires w < |s.workers|
  {
    var phase := s.workers[w].phase;
    if phase.Switching? && phase.f in s.fibers then
      var fib := s.fibers[phase.f];
      Some(SetFiber(At(s, w, Back(phase.task, phase.f)), phase.f, fib.(log := fib.log + [Left])))
    else None
  }

  /** What the code of the fiber in the hands of worker w does. */
  function NextCode(c: Config, s: State, w: nat, move: CodeMove): Option<State>
    requires w < |s.workers|
  {
    match move
    case Acting(act) => if InCode(s, s.workers[w].phase) then NextAct(c, s, act) else None
    case Calling(begin) => NextCalling(c, s, w, begin)
    case Return => NextReturn(s, w)
    case RunWake => NextRunWake(s, w)
    case Sleep(ms) => NextSleep(c, s, w, ms)
    case Yield => NextYield(s, w)
    case Terminate => NextTerminate(s, w)
    case Switch => NextSwitch(s, w)
  }

  predicate SchedulerStopping(s: State) {
    s.stopping && s.tasks == [] && s.active == 0
  }

  /** stopping() comes to its verdict: the idle fiber terminates, or the loop goes on. */
  function Conclude(s: State, w: nat, verdict: bool): State
    requires w < |s.workers|
  {
    if verdict then s.(workers := s.workers[w := Worker(Scanning, true)]) else At(s, w, Idle(Waiting))
  }

  function NextCheckTimers(c: Config, s: State, w: nat): Option<State>
    requires w < |s.workers|
  {
    if s.workers[w].phase == Idle(Checking) && c.io && !c.atomic then
      Some(At(s, w, Idle(if s.timers == [] then NoTimers else Waiting)))
    else None
  }

  function NextCheckEvents(s: State, w: nat): Option<State>
    requires w < |s.workers|
  {
    if s.workers[w].phase == Idle(NoTimers) then
      Some(At(s, w, Idle(if s.pending == 0 then NoEvents else Waiting)))
    else None
  }

  function NextCheckStop(c: Config, s: State, w: nat): Option<State>
    requires w < |s.workers|
  {
    var phase := s.workers[w].phase;
    if phase == Idle(NoEvents) || (phase == Idle(Checking) && !c.io) then Some(Conclude(s, w, SchedulerStopping(s)))
    else if phase == Idle(Checking) && c.atomic then
      Some(Conclude(s, w, s.timers == [] && s.pending == 0 && SchedulerStopping(s)))
    else None
  }

  ghost function NextCollect(c: Config, s: State, w: nat, now: int): Option<State>
    requires w < |s.workers|
  {
    if s.workers[w].phase == Idle(Waiting) && c.io && now <= s.clock
      && Ascending(s.timers) && Drain.TrapFree(s.timers, now, false)
    then
      var r := Drain.Run(Drain.State(s.timers, [], []), now, false);
      Some(At(s, w, Idle(Holding(r.fired))).(timers := r.queue))
    else None
  }

  function NextPost(s: State, w: nat): Option<State>
    requires w < |s.workers|
  {
    var phase := s.workers[w].phase;
    if phase.Idle? && phase.at.Holding? && phase.at.cbs != [] then
      Some(Schedule(At(s, w, Idle(Holding(phase.at.cbs[1..]))), JobOf(phase.at.cbs[0]), ANY))
    else None
  }

  function NextReport(s: State, w: nat, i: nat): Option<State>
    requires w < |s.workers|
  {
    if s.workers[w].phase == Idle(Holding([])) && i < |s.registered| then
      Some(Schedule(At(Unregister(s, i), w, Idle(Owing)), s.registered[i], ANY))
    else None
  }

  function NextRepay(s: State, w: nat): Option<State>
    requires w < |s.workers|
  {
    if s.workers[w].phase == Idle(Owing) then Some(At(s, w, Idle(Holding([]))).(pending := s.pending - 1)) else None
  }

  function NextLeave(c: Config, s: State, w: nat): Option<State>
    requires w < |s.workers|
  {
    var phase := s.workers[w].phase;
    if phase == Idle(Holding([])) || (phase == Idle(Waiting) && !c.io) then Some(At(s, w, Scanning)) else None
  }

  /** The idle loops of Scheduler and of IOManager. */
  ghost function NextIdle(c: Config, s: State, w: nat, move: IdleMove): Option<State>
    requires w < |s.workers|
  {
    match move
    case CheckTimers => NextCheckTimers(c, s, w)
    case CheckEvents => NextCheckEvents(s, w)
    case CheckStop => NextCheckStop(c, s, w)
    case Collect(now) => NextCollect(c, s, w, now)
    case Post => NextPost(s, w)
    case Report(i) => NextReport(s, w, i)
    case Repay => NextRepay(s, w)
    case Leave => NextLeave(c, s, w)
  }

  function JobOf(cb: Option<Code>): Job {
    match cb case None => Empty case Some(code) => Call(code)
  }

  ghost function Next(c: Config, s: State, step: Step): Option<State> {
    match step
    case Runs(w, move) => if w < |s.workers| then NextRun(s, w, move) else None
    case Codes(w, move) => if w < |s.workers| then NextCode(c, s, w, move) else None
    case Idles(w, move) => if w < |s.workers| then NextIdle(c, s, w, move) else None
    case Outside(act) =>
      var r := NextAct(c, s, act);
      if c.outsiders && r.Some? then Some(r.value.(late := s.late || s.stopping)) else None
    case OutsideCall(begin) =>
      if c.outsiders && Begun(c, s, begin).Some? then
        Some(Counted(c, s, begin).(calls := s.calls + [Begun(c, s, begin).value], late := s.late || s.stopping))
      else None
    case OutsideReturn(k) =>
      if c.outsiders && k < |s.calls| then
        Some(Completed(s.(calls := s.calls[..k] + s.calls[k + 1..]), s.calls[k]).(late := s.late || s.stopping))
      else None
    case Stop => Some(s.(stopping := true))
    case Tick(d) => Some(s.(clock := s.clock + d))
  }

  ghost function Exec(c: Config, s: State, steps: seq<Step>): Option<State>
    decreases steps
  {
    if steps == [] then Some(s)
    else if Next(c, s, steps[0]).None? then None
    else Exec(c, Next(c, s, steps[0]).value, steps[1..])
  }

  lemma {:induction false} ExecConcat(c: Config, s: State, a: seq<Step>, b: seq<Step>)
    requires Exec(c, s, a).Some?
    ensures Exec(c, s, a + b) == Exec(c, Exec(c, s, a).value, b)
    decreases a
  {
    if a == [] {
      assert a + b == b;
    } else {
      var s1 := Next(c, s, a[0]).value;
      assert (a + b)[0] == a[0] && (a + b)[1..] == a[1..] + b;
      assert Exec(c, s, a + b) == Exec(c, s1, a[1..] + b);
      ExecConcat(c, s1, a[1..], b);
    }
  }

  /** s' is reached in some continuation of s. */
  ghost predicate Reaches(c: Config, s: State, s': State) {
    exists steps :: Exec(c, s, steps) == Some(s')
  }

  lemma Goes(c: Config, s: State, step: Step) returns (s': State)
    requires Next(c, s, step).Some?
    ensures Next(c, s, step) == Some(s') && Reaches(c, s, s')
  {
    s' := Next(c, s, step).value;
    assert Exec(c, s', [step][1..]) == Some(s');
    assert Exec(c, s, [step]) == Some(s');
  }

  lemma GoesOn(c: Config, s: State, s1: State, s2: State)
    requires Reaches(c, s, s1) && Reaches(c, s1, s2)
    ensures Reaches(c, s, s2)
  {
    var a :| Exec(c, s, a) == Some(s1);
    var b :| Exec(c, s1, b) == Some(s2);
    ExecConcat(c, s, a, b);
  }

  /** n workers about to scan a list that holds the given callbacks. */
  function Init(n: nat, calls: seq<nat>, clock: int): State {
    var tasks := seq(|calls|, i requires 0 <= i < |calls| => Task(Call(User(calls[i])), ANY));
    State(tasks, seq(n, i => Worker(Scanning, false)), map[], 0, false, [], [], [], 0, 0, clock,
          tasks, [], [], multiset{}, false, false)
  }

  /** s is reached in some run of n workers. */
  ghost predicate Reachable(c: Config, n: nat, s: State) {
    exists calls, clock, steps :: Exec(c, Init(n, calls, clock), steps) == Some(s)
  }
}
