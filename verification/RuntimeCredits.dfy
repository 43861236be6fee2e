/** The credits of sleeping fibers: the right to resume one passes from its timer to a callback, a task
    and a worker, and on the way it is neither doubled nor lost. */
module RuntimeCredits {
  import opened Options
  import opened Bags
  import F = FiberModel
  import opened Tasks
  import opened DeadlineSet
  import Drain
  import opened Runtime
  import opened RuntimeMoves
  import M = RuntimeMutex
  import T = RuntimeTasks
  import L = RuntimeLogs

  // ----- Credits: the resumes of a fiber that are on their way -----

  function CodeShare(cb: Option<Code>): multiset<nat> {
    if cb.Some? && cb.value.Wake? then multiset{cb.value.f} else multiset{}
  }

  function JobShare(body: Job): multiset<nat> {
    match body
    case Empty => multiset{}
    case Resume(f) => multiset{f}
    case Call(code) => CodeShare(Some(code))
  }

  function TaskShare(task: Entry): multiset<nat> {
    JobShare(task.body)
  }

  function AlarmShare(a: Alarm): multiset<nat> {
    CodeShare(a.cb)
  }

  /** What a worker carries that will lead to a resume. */
  function WorkerShare(x: Worker): multiset<nat> {
    match x.phase
    case Took(task) => JobShare(task.body)
    case Locked(task, f) => if task.body.Resume? then multiset{f} else JobShare(task.body) + multiset{f}
    case Executing(_, _, todo) => if todo.Waking? then multiset{todo.f} else multiset{}
    case Idle(Holding(cbs)) => Gather(cbs, CodeShare)
    case _ => multiset{}
  }

  /** The fiber that executes and has not gone to sleep. */
  function AwakeShare(x: Worker): multiset<nat> {
    if x.phase.Executing? then multiset{x.phase.f} else multiset{}
  }

  /** The shares, counted for one fiber. */
  function CodeCredit(cb: Option<Code>, f: nat): nat {
    if cb == Some(Wake(f)) then 1 else 0
  }

  function JobCredit(body: Job, f: nat): nat {
    if body == Resume(f) || body == Call(Wake(f)) then 1 else 0
  }

  function WorkerCredit(x: Worker, f: nat): nat {
    match x.phase
    case Took(task) => JobCredit(task.body, f)
    case Locked(task, g) => (if g == f then 1 else 0) + if task.body.Resume? then 0 else JobCredit(task.body, f)
    case Executing(_, _, todo) => if todo == Waking(f) then 1 else 0
    case Idle(at) => if at.Holding? then Gather(at.cbs, CodeShare)[f] else 0
    case _ => 0
  }

  function AwakeCredit(x: Worker, f: nat): nat {
    if x.phase.Executing? && x.phase.f == f then 1 else 0
  }

  lemma JobCounted(body: Job, f: nat)
    ensures JobShare(body)[f] == JobCredit(body, f)
  {
  }

  lemma WorkerCounted(x: Worker, f: nat)
    ensures WorkerShare(x)[f] == WorkerCredit(x, f)
  {
    match x.phase
    case Took(task) => JobCounted(task.body, f);
    case Locked(task, g) =>
      JobCounted(task.body, f);
      assert (JobShare(task.body) + multiset{g})[f] == JobShare(task.body)[f] + multiset{g}[f];
    case _ =>
  }

  lemma AwakeCounted(x: Worker, f: nat)
    ensures AwakeShare(x)[f] == AwakeCredit(x, f)
  {
  }

  function Timed(s: State, f: nat): nat {
    Gather(s.timers, AlarmShare)[f]
  }

  function Coming(s: State, f: nat): nat {
    Gather(s.tasks, TaskShare)[f] + Gather(s.workers, WorkerShare)[f]
  }

  /** The resumes of f that are on their way. */
  function OnWay(s: State, f: nat): nat {
    Timed(s, f) + Coming(s, f)
  }

  function Awake(s: State, f: nat): nat {
    Gather(s.workers, AwakeShare)[f]
  }

  function Total(s: State, f: nat): nat {
    OnWay(s, f) + Awake(s, f)
  }

  lemma WorkerTurns(s: State, s': State, w: nat, f: nat)
    requires w < |s.workers| && |s'.workers| == |s.workers| && s'.workers == s.workers[w := s'.workers[w]]
    ensures Gather(s'.workers, WorkerShare)[f] + WorkerCredit(s.workers[w], f)
         == Gather(s.workers, WorkerShare)[f] + WorkerCredit(s'.workers[w], f)
    ensures Gather(s'.workers, AwakeShare)[f] + AwakeCredit(s.workers[w], f)
         == Gather(s.workers, AwakeShare)[f] + AwakeCredit(s'.workers[w], f)
  {
    WorkerCounted(s.workers[w], f);
    WorkerCounted(s'.workers[w], f);
    AwakeCounted(s.workers[w], f);
    AwakeCounted(s'.workers[w], f);
    CountUpdate(s.workers, w, s'.workers[w], WorkerShare, f);
    CountUpdate(s.workers, w, s'.workers[w], AwakeShare, f);
  }

  lemma TasksGain(q: seq<Entry>, body: Job, thread: int, f: nat)
    ensures Gather(Submitted(q, body, thread), TaskShare)[f] == Gather(q, TaskShare)[f] + JobCredit(body, f)
  {
    if !body.Empty? {
      GatherAppend(q, Task(body, thread), TaskShare);
    }
  }

  lemma TasksLose(q: seq<Entry>, i: nat, f: nat)
    requires i < |q|
    ensures Gather(q, TaskShare)[f] == Gather(Without(q, i), TaskShare)[f] + JobCredit(q[i].body, f)
  {
    CountSplit(q, i, TaskShare, f);
  }

  lemma FiredGain(q: seq<Option<Code>>, cb: Option<Code>, f: nat)
    ensures Gather(q + [cb], CodeShare)[f] == Gather(q, CodeShare)[f] + CodeCredit(cb, f)
  {
    GatherAppend(q, cb, CodeShare);
  }

  lemma CollectedLose(q: seq<Option<Code>>, f: nat)
    requires q != []
    ensures Gather(q, CodeShare)[f] == Gather(q[1..], CodeShare)[f] + CodeCredit(q[0], f)
  {
  }

  lemma TimersLose(q: seq<Alarm>, f: nat)
    requires q != []
    ensures Gather(q, AlarmShare)[f] == Gather(q[1..], AlarmShare)[f] + CodeCredit(q[0].cb, f)
  {
  }

  lemma InsertShares(q: seq<Alarm>, e: Alarm, f: nat)
    ensures Gather(Insert(q, e), AlarmShare)[f] <= Gather(q, AlarmShare)[f] + CodeCredit(e.cb, f)
    ensures CodeCredit(e.cb, f) == 0 ==> Gather(Insert(q, e), AlarmShare)[f] == Gather(q, AlarmShare)[f]
    ensures forall a :: a in Insert(q, e) ==> a in q || a == e
  {
    var i, r := LowerBound(q, e.next), Insert(q, e);
    if !Found(q, e.next) {
      CountSplit(r, i, AlarmShare, f);
      assert r[i] == e && r[..i] + r[i + 1..] == q;
    }
  }

  /** Some timer of q wakes f at deadline d. */
  ghost predicate WakesIn(q: seq<Alarm>, f: nat, d: int) {
    exists a :: a in q && a.cb == Some(Wake(f)) && a.next == d
  }

  lemma EraseShares(q: seq<Alarm>, d: int, f: nat)
    requires Ascending(q)
    ensures Gather(Erase(q, d), AlarmShare)[f] + (if WakesIn(q, f, d) then 1 else 0) == Gather(q, AlarmShare)[f]
  {
    var i := LowerBound(q, d);
    FoundIffOccupied(q, d);
    if Found(q, d) {
      CountSplit(q, i, AlarmShare, f);
      WakesAt(q, i, f);
    }
  }

  lemma WakesAt(q: seq<Alarm>, i: nat, f: nat)
    requires Ascending(q) && i < |q|
    ensures AlarmShare(q[i])[f] == if WakesIn(q, f, q[i].next) then 1 else 0
  {
    assert q[i] in q && forall a :: a in q && a.next == q[i].next ==> a == q[i];
  }

  lemma TimedIfSet(s: State, f: nat, a: Alarm)
    requires a in s.timers && a.cb == Some(Wake(f))
    ensures Timed(s, f) > 0
  {
    var i :| 0 <= i < |s.timers| && s.timers[i] == a;
    GatherMember(s.timers, i, AlarmShare);
    assert AlarmShare(a)[f] == 1;
  }

  // ----- What is known of a sleeper -----

  /** The last thing the fiber has done is to go to sleep. */
  predicate Asleep(log: seq<Event>) {
    log != [] && (log[|log| - 1].Slept? || (|log| > 1 && log[|log| - 1].Left? && log[|log| - 2].Slept?))
  }

  function Until(log: seq<Event>): int
    requires Asleep(log)
  {
    if log[|log| - 1].Slept? then log[|log| - 1].until else log[|log| - 2].until
  }

  /** The fiber has not been started, or its sleep is over. */
  predicate Rested(log: seq<Event>, clock: int) {
    log == [] || (Asleep(log) && Until(log) <= clock)
  }

  /** Every resume but the first ends a sleep, whose deadline has passed and whose yield is complete;
      so each sleep is ended by one resume at most. */
  ghost predicate SleepsProperly(log: seq<Event>) {
    forall i :: 0 < i < |log| && log[i].Resumed? ==>
      i > 1 && log[i - 1].Left? && log[i - 2].Slept? && log[i - 2].until <= log[i].at
  }

  ghost predicate AlarmFits(a: Alarm, f: nat, log: seq<Event>) {
    a.cb == Some(Wake(f)) ==> Asleep(log) && Until(log) <= a.next
  }

  ghost predicate SleeperFits(s: State, f: nat) {
    && Total(s, f) <= 1
    && (f !in s.fibers ==> Total(s, f) == 0)
    && (f in s.fibers ==>
          var log := s.fibers[f].log;
          && SleepsProperly(log)
          && (Coming(s, f) > 0 ==> Rested(log, s.clock))
          && (OnWay(s, f) > 0 ==> s.fibers[f].state != F.Term)
          && forall a :: a in s.timers ==> AlarmFits(a, f, log))
  }

  predicate Wakes(a: Alarm) {
    a.cb.Some? && a.cb.value.Wake?
  }

  /** The step from s to s' resumes f. */
  ghost predicate ResumedBy(s: State, s': State, f: nat) {
    f in s.fibers && f in s'.fibers && s'.fibers[f].log == s.fibers[f].log + [Resumed(s.clock)]
  }

  /** At most one thing has happened to the fiber, and that not a resume. */
  predicate Quietly(log: seq<Event>, log': seq<Event>) {
    log' == log || (|log'| == |log| + 1 && log <= log' && !log'[|log|].Resumed?)
  }

  /** A fiber that exists gains no credit, and is resumed on a credit only. */
  ghost predicate Conserved(s: State, s': State, f: nat) {
    f in s.fibers ==>
      && f in s'.fibers && Total(s', f) <= Total(s, f)
      && ((ResumedBy(s, s', f) && Coming(s, f) > 0) || Quietly(s.fibers[f].log, s'.fibers[f].log))
  }

  /** A resume on its way is made or stays on its way. */
  ghost predicate Delivers(s: State, s': State, f: nat) {
    f in s.fibers && OnWay(s, f) > 0 ==> OnWay(s', f) > 0 || ResumedBy(s, s', f)
  }

  ghost predicate CarriesOn(s: State, s': State, f: nat) {
    SleeperFits(s', f) && Conserved(s, s', f) && Delivers(s, s', f)
  }

  /** Wake-up timers are one-shot. */
  ghost predicate OneShot(q: seq<Alarm>) {
    forall a :: a in q && a.recurring ==> !Wakes(a)
  }

  // ----- The ways in which a step can concern a sleeper -----

  /** Nothing happens to f but for its state, which it ends in only if no resume is on its way. */
  ghost predicate Undisturbed(s: State, s': State, f: nat) {
    && (f in s'.fibers <==> f in s.fibers)
    && (f in s.fibers ==>
          && s'.fibers[f].log == s.fibers[f].log
          && (s'.fibers[f].state == F.Term ==> s.fibers[f].state == F.Term || OnWay(s, f) == 0))
  }

  /** Nothing is gained or lost, and nothing happens to f. */
  ghost predicate Tame(s: State, s': State, f: nat) {
    && Undisturbed(s, s', f)
    && Timed(s', f) == Timed(s, f) && Coming(s', f) == Coming(s, f) && Awake(s', f) <= Awake(s, f)
    && s.clock <= s'.clock
    && forall a :: a in s'.timers && a.cb == Some(Wake(f)) ==> a in s.timers
  }

  lemma TameFits(s: State, s': State, f: nat)
    requires SleeperFits(s, f) && Tame(s, s', f)
    ensures CarriesOn(s, s', f)
  {
    if f in s'.fibers {
      forall a | a in s'.timers ensures AlarmFits(a, f, s'.fibers[f].log) {
        assert a in s.timers ==> AlarmFits(a, f, s.fibers[f].log);
      }
    }
  }

  /** f is made and its first resume is on its way. */
  lemma BornFits(s: State, s': State, f: nat)
    requires SleeperFits(s, f) && f !in s.fibers && f in s'.fibers
    requires s'.fibers[f].log == [] && s'.fibers[f].state != F.Term
    requires Timed(s', f) <= Timed(s, f) && Coming(s', f) <= Coming(s, f) + 1 && Awake(s', f) <= Awake(s, f)
    ensures CarriesOn(s, s', f)
  {
    forall a | a in s'.timers ensures AlarmFits(a, f, s'.fibers[f].log) {
      if a.cb == Some(Wake(f)) {
        TimedIfSet(s', f, a);
      }
    }
  }

  lemma ProperGrows(log: seq<Event>, e: Event)
    requires SleepsProperly(log) && (e.Resumed? ==> L.Settled(log) && Rested(log, e.at))
    ensures SleepsProperly(log + [e])
  {
    var log' := log + [e];
    forall i | 0 < i < |log'| && log'[i].Resumed?
      ensures i > 1 && log'[i - 1].Left? && log'[i - 2].Slept? && log'[i - 2].until <= log'[i].at
    {
      if i < |log| {
        assert log[i].Resumed?;
      }
    }
  }

  /** f is resumed. */
  lemma ResumeFits(s: State, s': State, f: nat)
    requires SleeperFits(s, f) && f in s.fibers && f in s'.fibers && L.Settled(s.fibers[f].log)
    requires s'.fibers[f].log == s.fibers[f].log + [Resumed(s.clock)] && s.clock <= s'.clock
    requires Coming(s, f) > 0 && Timed(s', f) <= Timed(s, f)
    requires Coming(s', f) < Coming(s, f) && Awake(s', f) <= Awake(s, f) + 1
    ensures CarriesOn(s, s', f)
  {
    var log, log' := s.fibers[f].log, s'.fibers[f].log;
    assert Rested(log, s.clock);
    ProperGrows(log, Resumed(s.clock));
    forall a | a in s'.timers ensures AlarmFits(a, f, log') {
      if a.cb == Some(Wake(f)) {
        TimedIfSet(s', f, a);
      }
    }
  }

  /** f goes to sleep until the deadline of the only timer it gets. */
  lemma SleepFits(s: State, s': State, f: nat, until: int)
    requires SleeperFits(s, f) && f in s.fibers && f in s'.fibers && Awake(s, f) > 0
    requires s'.fibers[f].log == s.fibers[f].log + [Slept(until)] && s'.fibers[f].state != F.Term
    requires Timed(s', f) <= Timed(s, f) + 1 && Coming(s', f) <= Coming(s, f) && Awake(s', f) < Awake(s, f)
    requires forall a :: a in s'.timers && a.cb == Some(Wake(f)) ==> a in s.timers || a.next == until
    ensures CarriesOn(s, s', f)
  {
    var log, log' := s.fibers[f].log, s'.fibers[f].log;
    ProperGrows(log, Slept(until));
    forall a | a in s'.timers ensures AlarmFits(a, f, log') {
      if a.cb == Some(Wake(f)) && a in s.timers {
        TimedIfSet(s, f, a);
      }
    }
  }

  /** The yield of f is complete. */
  lemma LeftFits(s: State, s': State, f: nat)
    requires SleeperFits(s, f) && f in s.fibers && f in s'.fibers
    requires s.fibers[f].log != [] && !s.fibers[f].log[|s.fibers[f].log| - 1].Left?
    requires s'.fibers[f].log == s.fibers[f].log + [Left] && s'.clock == s.clock && s'.timers == s.timers
    requires s'.fibers[f].state == s.fibers[f].state
    requires Coming(s', f) == Coming(s, f) && Awake(s', f) <= Awake(s, f)
    ensures CarriesOn(s, s', f)
  {
    var log, log' := s.fibers[f].log, s'.fibers[f].log;
    ProperGrows(log, Left);
    forall a | a in s'.timers ensures AlarmFits(a, f, log') {
      assert AlarmFits(a, f, log);
    }
  }

  /** The timer of f expires: its credit passes to the thread that collects the callback. */
  lemma CollectFits(s: State, s': State, f: nat)
    requires SleeperFits(s, f) && s'.fibers == s.fibers && s'.clock == s.clock
    requires OnWay(s', f) == OnWay(s, f) && Awake(s', f) <= Awake(s, f)
    requires forall a :: a in s'.timers && a.cb == Some(Wake(f)) ==> a in s.timers
    requires Coming(s', f) > Coming(s, f) ==> exists a :: a in s.timers && a.cb == Some(Wake(f)) && a.next <= s.clock
    ensures CarriesOn(s, s', f)
  {
    if f in s.fibers {
      forall a | a in s'.timers ensures AlarmFits(a, f, s'.fibers[f].log) {
        assert a in s.timers ==> AlarmFits(a, f, s.fibers[f].log);
      }
      if Coming(s', f) > Coming(s, f) {
        var a :| a in s.timers && a.cb == Some(Wake(f)) && a.next <= s.clock;
        assert AlarmFits(a, f, s.fibers[f].log);
      }
    }
  }

  // ----- What moves what -----

  /** A worker has moved and touched no list. */
  predicate Moved(s: State, s': State, w: nat) {
    && Turned(s, s', w)
    && s'.tasks == s.tasks && s'.timers == s.timers && s'.clock == s.clock
  }

  lemma MovedCounts(s: State, s': State, w: nat, f: nat)
    requires Moved(s, s', w)
    ensures Coming(s', f) + WorkerCredit(s.workers[w], f) == Coming(s, f) + WorkerCredit(s'.workers[w], f)
    ensures Awake(s', f) + AwakeCredit(s.workers[w], f) == Awake(s, f) + AwakeCredit(s'.workers[w], f)
    ensures Timed(s', f) == Timed(s, f)
  {
    WorkerTurns(s, s', w, f);
  }

  lemma MovedFits(s: State, s': State, w: nat, f: nat)
    requires SleeperFits(s, f) && Moved(s, s', w) && Undisturbed(s, s', f)
    requires WorkerCredit(s'.workers[w], f) == WorkerCredit(s.workers[w], f)
    requires AwakeCredit(s'.workers[w], f) <= AwakeCredit(s.workers[w], f)
    ensures CarriesOn(s, s', f)
  {
    MovedCounts(s, s', w, f);
    TameFits(s, s', f);
  }

  /** A worker has moved and what it gave away is in the list. */
  lemma PushedFits(s: State, s': State, w: nat, body: Job, f: nat)
    requires SleeperFits(s, f) && Turned(s, s', w) && Undisturbed(s, s', f)
    requires s'.tasks == Submitted(s.tasks, body, ANY)
    requires s'.timers == s.timers && s'.clock == s.clock
    requires WorkerCredit(s'.workers[w], f) + JobCredit(body, f) == WorkerCredit(s.workers[w], f)
    requires AwakeCredit(s'.workers[w], f) <= AwakeCredit(s.workers[w], f)
    ensures CarriesOn(s, s', f)
  {
    TasksGain(s.tasks, body, ANY, f);
    WorkerTurns(s, s', w, f);
    TameFits(s, s', f);
  }

  lemma TakenFits(s: State, s': State, w: nat, i: nat, f: nat)
    requires SleeperFits(s, f) && Turned(s, s', w) && s'.fibers == s.fibers
    requires i < |s.tasks| && s'.tasks == Without(s.tasks, i)
    requires s'.timers == s.timers && s'.clock == s.clock
    requires s.workers[w].phase.Scanning? && s'.workers[w].phase == Took(s.tasks[i])
    ensures CarriesOn(s, s', f)
  {
    TasksLose(s.tasks, i, f);
    WorkerTurns(s, s', w, f);
    TameFits(s, s', f);
  }

  // ----- Calls -----

  lemma HarmlessCredit(c: Config, body: Job, f: nat)
    requires f in c.solo && Harmless(c, body)
    ensures JobCredit(body, f) == 0
  {
  }

  /** A job for the scheduler, with a credit for f only if it is the first. */
  lemma SubmitFits(s: State, s': State, body: Job, thread: int, f: nat)
    requires SleeperFits(s, f) && s'.tasks == Submitted(s.tasks, body, thread)
    requires s'.timers == s.timers && s'.clock == s.clock && s'.workers == s.workers
    requires if JobCredit(body, f) == 0 then Undisturbed(s, s', f)
             else f !in s.fibers && f in s'.fibers && s'.fibers[f].log == [] && s'.fibers[f].state != F.Term
    ensures CarriesOn(s, s', f)
  {
    TasksGain(s.tasks, body, thread, f);
    if JobCredit(body, f) == 0 {
      TameFits(s, s', f);
    } else {
      BornFits(s, s', f);
    }
  }

  lemma AlarmFitsIn(s: State, s': State, e: Alarm, f: nat)
    requires SleeperFits(s, f) && s' == s.(timers := Insert(s.timers, e)) && !Wakes(e)
    ensures CarriesOn(s, s', f)
  {
    InsertShares(s.timers, e, f);
    TameFits(s, s', f);
  }

  /** An erase takes the credit of f exactly when it hits the timer that wakes f. */
  lemma EraseFits(s: State, s': State, d: int, f: nat)
    requires SleeperFits(s, f) && Ascending(s.timers) && s' == s.(timers := Erase(s.timers, d))
    ensures SleeperFits(s', f) && Conserved(s, s', f)
    ensures if WakesIn(s.timers, f, d) then Total(s', f) == 0 else Delivers(s, s', f)
  {
    EraseShares(s.timers, d, f);
    EraseMembers(s.timers, d);
    if f in s.fibers {
      forall a | a in s'.timers ensures AlarmFits(a, f, s'.fibers[f].log) {
        assert AlarmFits(a, f, s.fibers[f].log);
      }
    }
  }

  lemma AddTimerSleeps(c: Config, s: State, act: Act, f: nat)
    requires SleeperFits(s, f) && NextAct(c, s, act).Some? && act.AddTimer?
    ensures CarriesOn(s, NextAct(c, s, act).value, f)
  {
    var e := Timer((), s.clock + act.ms * TICKS_PER_MS, act.ms, act.recurring, Some(User(act.k)));
    AlarmFitsIn(s, NextAct(c, s, act).value, e, f);
  }

  lemma SubmitSleeps(c: Config, s: State, act: Act, f: nat)
    requires f in c.solo && SleeperFits(s, f) && NextAct(c, s, act).Some? && act.Submit?
    ensures CarriesOn(s, NextAct(c, s, act).value, f)
  {
    HarmlessCredit(c, act.body, f);
    SubmitFits(s, NextAct(c, s, act).value, act.body, act.thread, f);
  }

  lemma LaunchSleeps(c: Config, s: State, act: Act, f: nat)
    requires SleeperFits(s, f) && NextAct(c, s, act).Some? && act.Launch?
    ensures CarriesOn(s, NextAct(c, s, act).value, f)
  {
    SubmitFits(s, NextAct(c, s, act).value, Resume(act.f), act.thread, f);
  }

  /** What a call of the users, other than an erase, does to a sleeper. */
  lemma ActSleeps(c: Config, s: State, act: Act, f: nat)
    requires f in c.solo && SleeperFits(s, f) && NextAct(c, s, act).Some? && !act.EraseTimer?
    ensures CarriesOn(s, NextAct(c, s, act).value, f)
  {
    var s' := NextAct(c, s, act).value;
    match act
    case Submit(_, _) => SubmitSleeps(c, s, act, f);
    case Launch(_, _) => LaunchSleeps(c, s, act, f);
    case Restart(g) => RestartFits(s, s', f);
    case AddTimer(_, _, _) => AddTimerSleeps(c, s, act, f);
    case StrayDelete => TameFits(s, s', f);
  }

  lemma RestartFits(s: State, s': State, f: nat)
    requires SleeperFits(s, f) && s' == s.(fibers := s'.fibers) && Undisturbed(s, s', f)
    ensures CarriesOn(s, s', f)
  {
    TameFits(s, s', f);
  }

  // ----- The moves of a worker -----

  lemma TakeSleeps(s: State, w: nat, f: nat)
    requires SleeperFits(s, f) && w < |s.workers| && NextTake(s, w).Some?
    ensures CarriesOn(s, NextTake(s, w).value, f)
  {
    TakenFits(s, NextTake(s, w).value, w, FirstEligible(s.tasks, w), f);
  }

  lemma MadeCredits(x: Worker, x': Worker, g: nat, f: nat)
    requires x.phase.Took? && x.phase.task.body.Call? && x'.phase == Locked(x.phase.task, g)
    ensures WorkerCredit(x', f) == WorkerCredit(x, f) + if g == f then 1 else 0
    ensures AwakeCredit(x, f) == AwakeCredit(x', f) == 0
  {
  }

  lemma MakeSleeps(s: State, w: nat, g: nat, f: nat)
    requires SleeperFits(s, f) && w < |s.workers| && NextMake(s, w, g).Some?
    ensures CarriesOn(s, NextMake(s, w, g).value, f)
  {
    var s' := NextMake(s, w, g).value;
    assert Moved(s, s', w);
    MadeCredits(s.workers[w], s'.workers[w], g, f);
    if g == f {
      MovedCounts(s, s', w, f);
      BornFits(s, s', f);
    } else {
      MovedFits(s, s', w, f);
    }
  }

  /** What a resume does, to the fiber and to its credits. */
  lemma ResumingShape(s: State, w: nat, f: nat)
    requires L.Inv(s) && w < |s.workers| && s.workers[w].phase.Locked? && s.workers[w].phase.f in s.fibers
    ensures var s', g := Resuming(s, w), s.workers[w].phase.f;
      && Moved(s, s', w) && L.Settled(s.fibers[g].log)
      && if f == g then f in s'.fibers && s'.fibers[f].log == s.fibers[f].log + [Resumed(s.clock)]
         else Undisturbed(s, s', f)
  {
    var p := s.workers[w].phase;
    assert M.WorkerFits(p, w, s.fibers) && L.HistoryFits(s.fibers[p.f], s.workers);
  }

  lemma ResumingCredits(x: Worker, x': Worker, f: nat)
    requires x.phase.Locked? && x'.phase == Executing(x.phase.task, x.phase.f, Opening(x.phase.task))
    ensures AwakeCredit(x, f) == 0
    ensures if f == x.phase.f then WorkerCredit(x, f) > WorkerCredit(x', f)
            else WorkerCredit(x', f) == WorkerCredit(x, f) && AwakeCredit(x', f) == 0
  {
  }

  lemma SkippedCredits(x: Worker, x': Worker, f: nat)
    requires x.phase.Locked? && x.phase.task.body.Resume? && x'.phase.Back?
    ensures if f == x.phase.f then WorkerCredit(x, f) > 0
            else WorkerCredit(x', f) == WorkerCredit(x, f) && AwakeCredit(x', f) == 0
  {
  }

  lemma ComingIfCarried(s: State, w: nat, f: nat)
    requires w < |s.workers| && WorkerCredit(s.workers[w], f) > 0
    ensures Coming(s, f) > 0
  {
    GatherMember(s.workers, w, WorkerShare);
    WorkerCounted(s.workers[w], f);
  }

  lemma ResumingSleeps(s: State, w: nat, f: nat)
    requires L.Inv(s) && SleeperFits(s, f)
    requires w < |s.workers| && s.workers[w].phase.Locked? && s.workers[w].phase.f in s.fibers
    ensures CarriesOn(s, Resuming(s, w), f)
  {
    var s' := Resuming(s, w);
    ResumingShape(s, w, f);
    ResumingCredits(s.workers[w], s'.workers[w], f);
    if s.workers[w].phase.f == f {
      ComingIfCarried(s, w, f);
      MovedCounts(s, s', w, f);
      ResumeFits(s, s', f);
    } else {
      MovedFits(s, s', w, f);
    }
  }

  /** A fiber that is skipped has terminated, so no resume of it can be on its way. */
  lemma SkippedSleeps(s: State, s': State, w: nat, f: nat)
    requires SleeperFits(s, f) && Moved(s, s', w) && s'.fibers == s.fibers
    requires s.workers[w].phase.Locked? && s.workers[w].phase.task.body.Resume? && s'.workers[w].phase.Back?
    requires s.workers[w].phase.f in s.fibers && s.fibers[s.workers[w].phase.f].state == F.Term
    ensures CarriesOn(s, s', f)
  {
    SkippedCredits(s.workers[w], s'.workers[w], f);
    if s.workers[w].phase.f == f {
      ComingIfCarried(s, w, f);
    } else {
      MovedFits(s, s', w, f);
    }
  }

  lemma DispatchSleeps(s: State, w: nat, f: nat)
    requires L.Inv(s) && SleeperFits(s, f) && w < |s.workers| && NextDispatch(s, w).Some?
    ensures CarriesOn(s, NextDispatch(s, w).value, f)
  {
    if NextDispatch(s, w).value == Resuming(s, w) {
      ResumingSleeps(s, w, f);
    } else {
      SkippedSleeps(s, NextDispatch(s, w).value, w, f);
    }
  }

  lemma QuietTurnCredits(x: Worker, x': Worker, move: RunMove, f: nat)
    requires RunTurn(x, x', move) && (move.Lock? || move.Unlock? || move.Finish? || move.Rest?)
    ensures WorkerCredit(x', f) == WorkerCredit(x, f) && AwakeCredit(x', f) == 0
  {
  }

  /** Who holds a mutex is none of the sleeper's business. */
  lemma HolderChanges(s: State, w: nat, move: RunMove, f: nat)
    requires w < |s.workers| && NextRun(s, w, move).Some? && (move.Lock? || move.Unlock?)
    ensures Undisturbed(s, NextRun(s, w, move).value, f)
  {
  }

  lemma QuietRunSleeps(s: State, w: nat, move: RunMove, f: nat)
    requires SleeperFits(s, f) && w < |s.workers| && NextRun(s, w, move).Some?
    requires move.Lock? || move.Unlock? || move.Finish? || move.Rest?
    ensures CarriesOn(s, NextRun(s, w, move).value, f)
  {
    RunRan(s, w, move);
    QuietTurnCredits(s.workers[w], NextRun(s, w, move).value.workers[w], move, f);
    if move.Lock? || move.Unlock? {
      HolderChanges(s, w, move, f);
    }
    MovedFits(s, NextRun(s, w, move).value, w, f);
  }

  lemma RunSleeps(s: State, w: nat, move: RunMove, f: nat)
    requires L.Inv(s) && SleeperFits(s, f) && w < |s.workers| && NextRun(s, w, move).Some?
    ensures CarriesOn(s, NextRun(s, w, move).value, f)
  {
    match move
    case Take => TakeSleeps(s, w, f);
    case Make(g) => MakeSleeps(s, w, g, f);
    case Dispatch => DispatchSleeps(s, w, f);
    case _ => QuietRunSleeps(s, w, move, f);
  }

  lemma AwakeIfExecuting(s: State, w: nat, f: nat)
    requires w < |s.workers| && s.workers[w].phase.Executing? && s.workers[w].phase.f == f
    ensures Awake(s, f) > 0
  {
    GatherMember(s.workers, w, AwakeShare);
    AwakeCounted(s.workers[w], f);
  }

  /** A sleep of g: its timer, which the set may drop. */
  predicate Dozed(s: State, s': State, w: nat, e: Alarm, g: nat) {
    && Turned(s, s', w) && s'.tasks == s.tasks && s'.clock == s.clock
    && s'.timers == Insert(s.timers, e) && e.cb == Some(Wake(g))
    && s.workers[w].phase.Executing? && s.workers[w].phase.f == g && s.workers[w].phase.todo.Nothing?
    && s'.workers[w].phase.Leaving?
  }

  lemma DozedTimers(s: State, s': State, e: Alarm, f: nat)
    requires s'.timers == Insert(s.timers, e)
    ensures Timed(s', f) <= Timed(s, f) + CodeCredit(e.cb, f)
    ensures CodeCredit(e.cb, f) == 0 ==> Timed(s', f) == Timed(s, f)
    ensures forall a :: a in s'.timers ==> a in s.timers || a == e
  {
    InsertShares(s.timers, e, f);
  }

  lemma DozedCounts(s: State, s': State, w: nat, e: Alarm, g: nat, f: nat)
    requires Dozed(s, s', w, e, g)
    ensures Coming(s', f) == Coming(s, f) && Awake(s', f) + CodeCredit(e.cb, f) == Awake(s, f)
  {
    DozedCredits(s.workers[w], s'.workers[w], f);
    WorkerTurns(s, s', w, f);
  }

  lemma DozedCredits(x: Worker, x': Worker, f: nat)
    requires x.phase.Executing? && x.phase.todo.Nothing? && x'.phase.Leaving?
    ensures WorkerCredit(x, f) == WorkerCredit(x', f) == AwakeCredit(x', f) == 0
    ensures AwakeCredit(x, f) == CodeCredit(Some(Wake(x.phase.f)), f)
  {
  }

  lemma DozedFits(s: State, s': State, w: nat, e: Alarm, g: nat, f: nat)
    requires SleeperFits(s, f) && Dozed(s, s', w, e, g)
    requires if f == g then
        && f in s.fibers && f in s'.fibers && s'.fibers[f].log == s.fibers[f].log + [Slept(e.next)]
        && s'.fibers[f].state != F.Term
      else Undisturbed(s, s', f)
    ensures CarriesOn(s, s', f)
  {
    DozedTimers(s, s', e, f);
    DozedCounts(s, s', w, e, g, f);
    if g == f {
      SleepFits(s, s', f, e.next);
    } else {
      TameFits(s, s', f);
    }
  }

  predicate CanSleep(c: Config, s: State, w: nat, ms: nat, f: nat) {
    w < |s.workers| && NextCode(c, s, w, Sleep(ms)).Some? && s.workers[w].phase.f == f
  }

  lemma SleepSets(c: Config, s: State, w: nat, ms: nat)
    requires w < |s.workers| && NextSleep(c, s, w, ms).Some?
    ensures NextSleep(c, s, w, ms).value.timers ==
      Insert(s.timers, Timer((), s.clock + ms * TICKS_PER_MS, ms, false, Some(Wake(s.workers[w].phase.f))))
  {
  }

  lemma SleepLogs(c: Config, s: State, w: nat, ms: nat)
    requires w < |s.workers| && NextSleep(c, s, w, ms).Some?
    ensures var s', f := NextSleep(c, s, w, ms).value, s.workers[w].phase.f;
      && f in s.fibers && f in s'.fibers
      && s'.fibers[f].log == s.fibers[f].log + [Slept(s.clock + ms * TICKS_PER_MS)]
      && s'.fibers[f].state == s.fibers[f].state
  {
  }

  lemma SleepDozes(c: Config, s: State, w: nat, ms: nat, f: nat)
    requires CanSleep(c, s, w, ms, f)
    ensures var s' := NextCode(c, s, w, Sleep(ms)).value;
      && Dozed(s, s', w, Timer((), s.clock + ms * TICKS_PER_MS, ms, false, Some(Wake(f))), f)
      && f in s.fibers && f in s'.fibers && s'.fibers == s.fibers[f := s'.fibers[f]]
      && s'.fibers[f].log == s.fibers[f].log + [Slept(s.clock + ms * TICKS_PER_MS)]
      && s'.fibers[f].state == s.fibers[f].state
  {
    SleepCoded(c, s, w, ms);
    SleepSets(c, s, w, ms);
    SleepLogs(c, s, w, ms);
  }

  lemma SleepSleeps(c: Config, s: State, w: nat, ms: nat, f: nat)
    requires L.Inv(s) && SleeperFits(s, f) && w < |s.workers| && NextSleep(c, s, w, ms).Some?
    ensures CarriesOn(s, NextSleep(c, s, w, ms).value, f)
  {
    var s', g := NextSleep(c, s, w, ms).value, s.workers[w].phase.f;
    SleepDozes(c, s, w, ms, g);
    NeverTerm(s, w);
    DozedFits(s, s', w, Timer((), s.clock + ms * TICKS_PER_MS, ms, false, Some(Wake(g))), g, f);
  }

  lemma NeverTerm(s: State, w: nat)
    requires M.Inv(s) && w < |s.workers| && s.workers[w].phase.Executing?
    ensures var f := s.workers[w].phase.f; f in s.fibers && s.fibers[f].state != F.Term
  {
    assert M.WorkerFits(s.workers[w].phase, w, s.fibers);
  }

  lemma TurnCredits(x: Worker, x': Worker, move: CodeMove, f: nat)
    requires CodeTurn(x, x', move) && !move.RunWake?
    ensures WorkerCredit(x', f) == WorkerCredit(x, f) && AwakeCredit(x', f) <= AwakeCredit(x, f)
  {
  }

  lemma WakeCredits(x: Worker, x': Worker, f: nat)
    requires CodeTurn(x, x', RunWake)
    ensures WorkerCredit(x', f) + JobCredit(Resume(x.phase.todo.f), f) == WorkerCredit(x, f)
    ensures AwakeCredit(x', f) <= AwakeCredit(x, f)
  {
  }

  lemma SwitchLeaves(s: State, w: nat)
    requires L.Inv(s) && w < |s.workers| && NextSwitch(s, w).Some?
    ensures var s', f := NextSwitch(s, w).value, s.workers[w].phase.f;
      && s.fibers[f].log != [] && !s.fibers[f].log[|s.fibers[f].log| - 1].Left?
      && f in s'.fibers && s'.fibers[f] == s.fibers[f].(log := s.fibers[f].log + [Left])
  {
    var p := s.workers[w].phase;
    assert M.WorkerFits(p, w, s.fibers) && L.HistoryFits(s.fibers[p.f], s.workers);
  }

  lemma SwitchSleeps(s: State, w: nat, f: nat)
    requires L.Inv(s) && SleeperFits(s, f) && w < |s.workers| && NextSwitch(s, w).Some?
    ensures CarriesOn(s, NextSwitch(s, w).value, f)
  {
    var s' := NextSwitch(s, w).value;
    SwitchCoded(s, w);
    TurnCredits(s.workers[w], s'.workers[w], Switch, f);
    SwitchTame(s, w);
    if s.workers[w].phase.f == f {
      SwitchLeaves(s, w);
      MovedCounts(s, s', w, f);
      LeftFits(s, s', f);
    } else {
      MovedFits(s, s', w, f);
    }
  }

  lemma SwitchTame(s: State, w: nat)
    requires w < |s.workers| && NextSwitch(s, w).Some?
    ensures Moved(s, NextSwitch(s, w).value, w)
  {
  }

  lemma YieldDisturbsNot(s: State, w: nat, f: nat)
    requires w < |s.workers| && NextYield(s, w).Some?
    ensures Moved(s, NextYield(s, w).value, w) && Undisturbed(s, NextYield(s, w).value, f)
  {
  }

  lemma YieldSleeps(s: State, w: nat, f: nat)
    requires SleeperFits(s, f) && w < |s.workers| && NextYield(s, w).Some?
    ensures CarriesOn(s, NextYield(s, w).value, f)
  {
    YieldCoded(s, w);
    TurnCredits(s.workers[w], NextYield(s, w).value.workers[w], Yield, f);
    YieldDisturbsNot(s, w, f);
    MovedFits(s, NextYield(s, w).value, w, f);
  }

  /** A fiber that comes to its end is awake, so no resume of it is on its way. */
  lemma EndDisturbsNot(s: State, w: nat, f: nat)
    requires SleeperFits(s, f) && w < |s.workers| && NextTerminate(s, w).Some?
    ensures Moved(s, NextTerminate(s, w).value, w) && Undisturbed(s, NextTerminate(s, w).value, f)
  {
    if s.workers[w].phase.f == f {
      AwakeIfExecuting(s, w, f);
    }
  }

  lemma EndSleeps(s: State, w: nat, f: nat)
    requires SleeperFits(s, f) && w < |s.workers| && NextTerminate(s, w).Some?
    ensures CarriesOn(s, NextTerminate(s, w).value, f)
  {
    TerminateCoded(s, w);
    TurnCredits(s.workers[w], NextTerminate(s, w).value.workers[w], Terminate, f);
    EndDisturbsNot(s, w, f);
    MovedFits(s, NextTerminate(s, w).value, w, f);
  }

  /** The waiters of the event table are not those left alone. */
  ghost predicate WaitersHarmless(c: Config, s: State) {
    && (forall i :: 0 <= i < |s.registered| ==> Harmless(c, s.registered[i]))
    && (forall k :: 0 <= k < |s.calls| ==> Harmless(c, s.calls[k].waiter))
    && (forall w :: 0 <= w < |s.workers| ==> PhaseHarmless(c, s.workers[w].phase))
  }

  predicate PhaseHarmless(c: Config, phase: Phase) {
    phase.Executing? && phase.todo.InCall? ==> Harmless(c, phase.todo.call.waiter)
  }

  lemma CallSleeps(s: State, s': State, w: nat, move: CodeMove, f: nat)
    requires SleeperFits(s, f) && Coded(s, s', w, move) && move.Calling?
    ensures CarriesOn(s, s', f)
  {
    TurnCredits(s.workers[w], s'.workers[w], move, f);
    MovedFits(s, s', w, f);
  }

  lemma ReturnSleeps(c: Config, s: State, w: nat, f: nat)
    requires f in c.solo && WaitersHarmless(c, s) && SleeperFits(s, f)
    requires w < |s.workers| && NextReturn(s, w).Some?
    ensures CarriesOn(s, NextReturn(s, w).value, f)
  {
    var s', call := NextReturn(s, w).value, s.workers[w].phase.todo.call;
    assert PhaseHarmless(c, s.workers[w].phase);
    HarmlessCredit(c, call.waiter, f);
    ReturnCoded(s, w);
    T.ReturnHands(s, w);
    TurnCredits(s.workers[w], s'.workers[w], Return, f);
    PushedFits(s, s', w, T.CallJob(call).0, f);
  }

  lemma RunWakeSleeps(s: State, w: nat, f: nat)
    requires SleeperFits(s, f) && w < |s.workers| && NextRunWake(s, w).Some?
    ensures CarriesOn(s, NextRunWake(s, w).value, f)
  {
    RunWakeCoded(s, w);
    T.RunWakeHands(s, w);
    WakeCredits(s.workers[w], NextRunWake(s, w).value.workers[w], f);
    PushedFits(s, NextRunWake(s, w).value, w, Resume(s.workers[w].phase.todo.f), f);
  }

  lemma CodeSleeps(c: Config, s: State, w: nat, move: CodeMove, f: nat)
    requires f in c.solo && L.Inv(s) && WaitersHarmless(c, s) && SleeperFits(s, f)
    requires w < |s.workers| && NextCode(c, s, w, move).Some? && !(move.Acting? && move.act.EraseTimer?)
    ensures CarriesOn(s, NextCode(c, s, w, move).value, f)
  {
    match move
    case Acting(act) => ActSleeps(c, s, act, f);
    case Calling(begin) =>
      CallingCoded(c, s, w, begin);
      CallSleeps(s, NextCalling(c, s, w, begin).value, w, move, f);
    case Return => ReturnSleeps(c, s, w, f);
    case RunWake => RunWakeSleeps(s, w, f);
    case Sleep(ms) => SleepSleeps(c, s, w, ms, f);
    case Switch => SwitchSleeps(s, w, f);
    case Yield => YieldSleeps(s, w, f);
    case Terminate => EndSleeps(s, w, f);
  }

  lemma OutsideReturnSleeps(c: Config, s: State, k: nat, f: nat)
    requires f in c.solo && WaitersHarmless(c, s) && SleeperFits(s, f) && Next(c, s, OutsideReturn(k)).Some?
    ensures CarriesOn(s, Next(c, s, OutsideReturn(k)).value, f)
  {
    var s1 := s.(calls := s.calls[..k] + s.calls[k + 1..]);
    HarmlessCredit(c, s.calls[k].waiter, f);
    CompletedFrame(s1, s.calls[k]);
    T.CompletedHands(s1, s.calls[k]);
    SubmitFits(s, Next(c, s, OutsideReturn(k)).value, T.CallJob(s.calls[k]).0, ANY, f);
  }

  // ----- Collecting -----

  /** A drain hands every credit on or keeps it: none is lost and none doubled. */
  lemma {:induction false} DrainShares(d: Drain.State<(), Code>, now: int, f: nat)
    requires Ascending(d.queue) && OneShot(d.queue) && Drain.TrapFree(d.queue, now, false)
    ensures var r := Drain.Run(d, now, false);
      Gather(r.queue, AlarmShare)[f] + Gather(r.fired, CodeShare)[f]
        == Gather(d.queue, AlarmShare)[f] + Gather(d.fired, CodeShare)[f]
    ensures forall a :: a in Drain.Run(d, now, false).queue ==> a in d.queue || !Wakes(a)
    decreases Drain.Due(d.queue, now, false)
  {
    if Drain.More(d.queue, now, false) {
      Drain.TurnConsumes(d.queue, now, false);
      TurnShares(d, now, f);
      DrainShares(Drain.Step(d, now), now, f);
    }
  }

  lemma TurnShares(d: Drain.State<(), Code>, now: int, f: nat)
    requires d.queue != [] && OneShot(d.queue)
    ensures var r := Drain.Step(d, now);
      && OneShot(r.queue)
      && Gather(r.queue, AlarmShare)[f] + Gather(r.fired, CodeShare)[f]
           == Gather(d.queue, AlarmShare)[f] + Gather(d.fired, CodeShare)[f]
      && forall a :: a in r.queue ==> a in d.queue || !Wakes(a)
  {
    var e := d.queue[0];
    TimersLose(d.queue, f);
    FiredGain(d.fired, e.cb, f);
    TurnMembers(d.queue, now);
    InsertShares(d.queue[1..], e.Armed(now), f);
  }

  lemma TurnMembers(q: seq<Alarm>, now: int)
    requires q != [] && OneShot(q)
    ensures OneShot(Drain.Turn(q, now)) && (q[0].recurring ==> !Wakes(q[0]))
    ensures forall a :: a in Drain.Turn(q, now) ==> a in q || !Wakes(a)
  {
    assert q[0] in q;
    InsertShares(q[1..], q[0].Armed(now), 0);
  }

  /** Whoever is collected is due. */
  lemma FiredAreDue(q: seq<Alarm>, now: int, f: nat) returns (a: Alarm)
    requires Ascending(q) && Drain.TrapFree(q, now, false)
    requires Gather(Drain.Run(Drain.State(q, [], []), now, false).fired, CodeShare)[f] > 0
    ensures a in q && a.cb == Some(Wake(f)) && a.next <= now
  {
    Drain.FiresTheDue(Drain.State(q, [], []), now, false);
    var k := Drain.Due(q, now, false);
    var fired := Drain.Run(Drain.State(q, [], []), now, false).fired;
    assert fired == Drain.Callbacks(q[..k]);
    var i := GatherWhere(fired, CodeShare, f);
    a := q[i];
    assert fired[i] == q[..k][i].cb;
  }

  lemma CollectedCredit(x: Worker, x': Worker, fired: seq<Option<Code>>, f: nat)
    requires x.phase == Idle(Waiting) && x'.phase == Idle(Holding(fired))
    ensures WorkerCredit(x, f) == AwakeCredit(x, f) == AwakeCredit(x', f) == 0
    ensures WorkerCredit(x', f) == Gather(fired, CodeShare)[f]
  {
  }

  lemma CollectedCounts(s: State, s': State, w: nat, fired: seq<Option<Code>>, f: nat)
    requires Turned(s, s', w) && s'.tasks == s.tasks
    requires s.workers[w].phase == Idle(Waiting) && s'.workers[w].phase == Idle(Holding(fired))
    requires Timed(s', f) + Gather(fired, CodeShare)[f] == Timed(s, f)
    ensures OnWay(s', f) == OnWay(s, f) && Awake(s', f) == Awake(s, f)
    ensures Coming(s', f) == Coming(s, f) + Gather(fired, CodeShare)[f]
  {
    CollectedCredit(s.workers[w], s'.workers[w], fired, f);
    WorkerTurns(s, s', w, f);
  }

  lemma CollectedFits(s: State, s': State, w: nat, now: int, f: nat)
    requires OneShot(s.timers) && SleeperFits(s, f) && Turned(s, s', w)
    requires Ascending(s.timers) && Drain.TrapFree(s.timers, now, false) && now <= s.clock
    requires s'.tasks == s.tasks && s'.clock == s.clock && s'.fibers == s.fibers
    requires var r := Drain.Run(Drain.State(s.timers, [], []), now, false);
      s'.timers == r.queue && s.workers[w].phase == Idle(Waiting) && s'.workers[w].phase == Idle(Holding(r.fired))
    ensures CarriesOn(s, s', f)
  {
    var fired := Drain.Run(Drain.State(s.timers, [], []), now, false).fired;
    DrainShares(Drain.State(s.timers, [], []), now, f);
    CollectedCounts(s, s', w, fired, f);
    if Gather(fired, CodeShare)[f] > 0 {
      var a := FiredAreDue(s.timers, now, f);
    }
    CollectFits(s, s', f);
  }

  lemma PostedCredit(x: Worker, x': Worker, cbs: seq<Option<Code>>, f: nat)
    requires cbs != [] && x.phase == Idle(Holding(cbs)) && x'.phase == Idle(Holding(cbs[1..]))
    ensures WorkerCredit(x', f) + JobCredit(JobOf(cbs[0]), f) == WorkerCredit(x, f)
    ensures AwakeCredit(x', f) == AwakeCredit(x, f)
  {
    CollectedLose(cbs, f);
  }

  lemma PostFits(s: State, s': State, w: nat, cbs: seq<Option<Code>>, f: nat)
    requires SleeperFits(s, f) && Turned(s, s', w) && cbs != [] && s'.tasks == Submitted(s.tasks, JobOf(cbs[0]), ANY)
    requires s'.timers == s.timers && s'.clock == s.clock && s'.fibers == s.fibers
    requires s.workers[w].phase == Idle(Holding(cbs)) && s'.workers[w].phase == Idle(Holding(cbs[1..]))
    ensures CarriesOn(s, s', f)
  {
    PostedCredit(s.workers[w], s'.workers[w], cbs, f);
    PushedFits(s, s', w, JobOf(cbs[0]), f);
  }

  lemma ReportFits(c: Config, s: State, s': State, w: nat, body: Job, f: nat)
    requires f in c.solo && SleeperFits(s, f) && Turned(s, s', w) && Harmless(c, body)
    requires s'.tasks == Submitted(s.tasks, body, ANY)
    requires s'.timers == s.timers && s'.clock == s.clock && s'.fibers == s.fibers
    requires s.workers[w].phase == Idle(Holding([])) && s'.workers[w].phase == Idle(Owing)
    ensures CarriesOn(s, s', f)
  {
    HarmlessCredit(c, body, f);
    PushedFits(s, s', w, body, f);
  }

  predicate Carefree(phase: Phase) {
    phase.Scanning? || (phase.Idle? && (phase.at.Holding? ==> phase.at.cbs == []))
  }

  lemma CollectSleeps(c: Config, s: State, w: nat, now: int, f: nat)
    requires OneShot(s.timers) && SleeperFits(s, f) && w < |s.workers| && NextCollect(c, s, w, now).Some?
    ensures CarriesOn(s, NextCollect(c, s, w, now).value, f)
  {
    CollectedFits(s, NextCollect(c, s, w, now).value, w, now, f);
  }

  lemma PostSleeps(c: Config, s: State, w: nat, f: nat)
    requires SleeperFits(s, f) && w < |s.workers| && NextPost(s, w).Some?
    ensures CarriesOn(s, NextPost(s, w).value, f)
  {
    HandsOverIdled(c, s, w, Post);
    T.PostHands(s, w);
    PostFits(s, NextPost(s, w).value, w, s.workers[w].phase.at.cbs, f);
  }

  lemma ReportSleeps(c: Config, s: State, w: nat, i: nat, f: nat)
    requires f in c.solo && WaitersHarmless(c, s) && SleeperFits(s, f)
    requires w < |s.workers| && NextReport(s, w, i).Some?
    ensures CarriesOn(s, NextReport(s, w, i).value, f)
  {
    HandsOverIdled(c, s, w, Report(i));
    T.ReportHands(s, w, i);
    ReportFits(c, s, NextReport(s, w, i).value, w, s.registered[i], f);
  }

  lemma QuietIdleSleeps(c: Config, s: State, w: nat, move: IdleMove, f: nat)
    requires SleeperFits(s, f) && w < |s.workers| && NextIdle(c, s, w, move).Some?
    requires !move.Collect? && !move.Post? && !move.Report?
    ensures CarriesOn(s, NextIdle(c, s, w, move).value, f)
  {
    IdleIdled(c, s, w, move);
    IdledCarefree(c, s, NextIdle(c, s, w, move).value, w, move);
    CarefreeCredits(s.workers[w], f);
    CarefreeCredits(NextIdle(c, s, w, move).value.workers[w], f);
    MovedFits(s, NextIdle(c, s, w, move).value, w, f);
  }

  lemma IdledCarefree(c: Config, s: State, s': State, w: nat, move: IdleMove)
    requires Idled(c, s, s', w, move) && !move.Collect? && !move.Post? && !move.Report?
    ensures Carefree(s.workers[w].phase) && Carefree(s'.workers[w].phase)
  {
  }

  lemma CarefreeCredits(x: Worker, f: nat)
    requires Carefree(x.phase)
    ensures WorkerCredit(x, f) == 0 && AwakeCredit(x, f) == 0
  {
  }

  lemma IdleSleeps(c: Config, s: State, w: nat, move: IdleMove, f: nat)
    requires f in c.solo && OneShot(s.timers) && WaitersHarmless(c, s) && SleeperFits(s, f)
    requires w < |s.workers| && NextIdle(c, s, w, move).Some?
    ensures CarriesOn(s, NextIdle(c, s, w, move).value, f)
  {
    match move
    case Collect(now) => CollectSleeps(c, s, w, now, f);
    case Post => PostSleeps(c, s, w, f);
    case Report(i) => ReportSleeps(c, s, w, i, f);
    case _ => QuietIdleSleeps(c, s, w, move, f);
  }

  // ----- Runs -----

  lemma InsertOneShot(q: seq<Alarm>, e: Alarm)
    requires OneShot(q) && (e.recurring ==> !Wakes(e))
    ensures OneShot(Insert(q, e))
  {
    InsertShares(q, e, 0);
  }

  lemma StartOneShot(s: State, ms: nat, code: Code, recurring: bool)
    requires OneShot(s.timers) && (recurring ==> code.User?)
    ensures OneShot(Start(s, ms, code, recurring).timers)
  {
    InsertOneShot(s.timers, Timer((), s.clock + ms * TICKS_PER_MS, ms, recurring, Some(code)));
  }

  lemma ActOneShot(c: Config, s: State, act: Act)
    requires OneShot(s.timers) && Ascending(s.timers) && NextAct(c, s, act).Some?
    ensures OneShot(NextAct(c, s, act).value.timers)
  {
    match act
    case AddTimer(ms, k, recurring) => StartOneShot(s, ms, User(k), recurring);
    case EraseTimer(d) => EraseMembers(s.timers, d);
    case _ =>
  }

  lemma CodeOneShot(c: Config, s: State, w: nat, move: CodeMove)
    requires OneShot(s.timers) && Ascending(s.timers) && w < |s.workers| && NextCode(c, s, w, move).Some?
    ensures OneShot(NextCode(c, s, w, move).value.timers)
  {
    if move.Acting? {
      ActOneShot(c, s, move.act);
    } else if move.Sleep? {
      SleepStarts(c, s, w, move.ms);
      StartOneShot(s, move.ms, Wake(s.workers[w].phase.f), false);
    } else {
      CodeCoded(c, s, w, move);
    }
  }

  lemma IdleOneShot(c: Config, s: State, w: nat, move: IdleMove)
    requires OneShot(s.timers) && w < |s.workers| && NextIdle(c, s, w, move).Some?
    ensures OneShot(NextIdle(c, s, w, move).value.timers)
  {
    if move.Collect? {
      DrainShares(Drain.State(s.timers, [], []), move.now, 0);
    } else {
      IdleIdled(c, s, w, move);
    }
  }

  ghost predicate Inv(c: Config, s: State) {
    && L.Inv(s) && OneShot(s.timers) && Ascending(s.timers) && WaitersHarmless(c, s)
    && forall f :: f in c.solo ==> SleeperFits(s, f)
  }

  lemma StepOneShot(c: Config, s: State, step: Step)
    requires OneShot(s.timers) && Ascending(s.timers) && Next(c, s, step).Some?
    ensures OneShot(Next(c, s, step).value.timers)
  {
    match step
    case Runs(w, move) => RunRan(s, w, move);
    case Codes(w, move) => CodeOneShot(c, s, w, move);
    case Idles(w, move) => IdleOneShot(c, s, w, move);
    case Outside(act) => ActOneShot(c, s, act);
    case _ => NobodyMoves(c, s, step);
  }

  lemma StartAscends(s: State, ms: nat, code: Code, recurring: bool)
    requires Ascending(s.timers)
    ensures Ascending(Start(s, ms, code, recurring).timers)
  {
    InsertAscends(s.timers, Timer((), s.clock + ms * TICKS_PER_MS, ms, recurring, Some(code)));
  }

  lemma ActAscends(c: Config, s: State, act: Act)
    requires Ascending(s.timers) && NextAct(c, s, act).Some?
    ensures Ascending(NextAct(c, s, act).value.timers)
  {
    match act
    case AddTimer(ms, k, recurring) => StartAscends(s, ms, User(k), recurring);
    case EraseTimer(d) => EraseWorks(s.timers, d);
    case _ =>
  }

  lemma CodeAscends(c: Config, s: State, w: nat, move: CodeMove)
    requires Ascending(s.timers) && w < |s.workers| && NextCode(c, s, w, move).Some?
    ensures Ascending(NextCode(c, s, w, move).value.timers)
  {
    if move.Acting? {
      ActAscends(c, s, move.act);
    } else if move.Sleep? {
      SleepStarts(c, s, w, move.ms);
      StartAscends(s, move.ms, Wake(s.workers[w].phase.f), false);
    } else {
      CodeCoded(c, s, w, move);
    }
  }

  lemma SleepStarts(c: Config, s: State, w: nat, ms: nat)
    requires w < |s.workers| && NextSleep(c, s, w, ms).Some?
    ensures s.workers[w].phase.Executing?
    ensures NextSleep(c, s, w, ms).value.timers == Start(s, ms, Wake(s.workers[w].phase.f), false).timers
  {
  }

  lemma IdleAscends(c: Config, s: State, w: nat, move: IdleMove)
    requires Ascending(s.timers) && w < |s.workers| && NextIdle(c, s, w, move).Some?
    ensures Ascending(NextIdle(c, s, w, move).value.timers)
  {
    if move.Collect? {
      Drain.FiresTheDue(Drain.State(s.timers, [], []), move.now, false);
    } else {
      IdleIdled(c, s, w, move);
    }
  }

  lemma StepAscends(c: Config, s: State, step: Step)
    requires Ascending(s.timers) && Next(c, s, step).Some?
    ensures Ascending(Next(c, s, step).value.timers)
  {
    match step
    case Runs(w, move) => RunRan(s, w, move);
    case Codes(w, move) => CodeAscends(c, s, w, move);
    case Idles(w, move) => IdleAscends(c, s, w, move);
    case Outside(act) => ActAscends(c, s, act);
    case _ => NobodyMoves(c, s, step);
  }

  // ----- The waiters -----

  lemma ActWaiters(c: Config, s: State, act: Act)
    requires WaitersHarmless(c, s) && NextAct(c, s, act).Some?
    ensures WaitersHarmless(c, NextAct(c, s, act).value)
  {
    T.ActHands(c, s, act);
    ActTable(c, s, act);
  }

  lemma ActTable(c: Config, s: State, act: Act)
    requires NextAct(c, s, act).Some?
    ensures var s' := NextAct(c, s, act).value; s'.registered == s.registered && s'.calls == s.calls
  {
  }

  /** The table after a step of worker w: it has lost entries, or gained the one in the hands of w. */
  ghost predicate TableStays(s: State, s': State, w: nat) {
    && Turned(s, s', w) && s'.calls == s.calls
    && forall body :: body in s'.registered ==>
         var phase := s.workers[w].phase;
         body in s.registered || (phase.Executing? && phase.todo.InCall? && body == phase.todo.call.waiter)
  }

  lemma TableHarmless(c: Config, s: State, s': State, w: nat)
    requires WaitersHarmless(c, s) && TableStays(s, s', w) && PhaseHarmless(c, s'.workers[w].phase)
    ensures WaitersHarmless(c, s')
  {
    assert PhaseHarmless(c, s.workers[w].phase);
    forall i | 0 <= i < |s'.registered| ensures Harmless(c, s'.registered[i]) {
      assert s'.registered[i] in s'.registered;
    }
  }

  lemma RanTable(c: Config, s: State, s': State, w: nat, move: RunMove)
    requires Ran(s, s', w, move)
    ensures TableStays(s, s', w) && PhaseHarmless(c, s'.workers[w].phase)
  {
  }

  lemma BegunTable(c: Config, s: State, begin: Begin)
    requires Begun(c, s, begin).Some?
    ensures forall body :: body in Counted(c, s, begin).registered ==> body in s.registered
    ensures Begun(c, s, begin).value.waiter in s.registered || Permitted(c, s, Begun(c, s, begin).value.waiter)
  {
  }

  lemma BegunHarmless(c: Config, s: State, begin: Begin)
    requires WaitersHarmless(c, s) && Begun(c, s, begin).Some?
    ensures Harmless(c, Begun(c, s, begin).value.waiter)
  {
    BegunTable(c, s, begin);
  }

  lemma CompletedTable(s: State, call: Call)
    ensures forall body :: body in Completed(s, call).registered ==> body in s.registered || body == call.waiter
  {
  }

  lemma CallingTable(c: Config, s: State, w: nat, begin: Begin)
    requires w < |s.workers| && NextCalling(c, s, w, begin).Some?
    ensures TableStays(s, NextCalling(c, s, w, begin).value, w)
  {
    CallingCoded(c, s, w, begin);
    BegunTable(c, s, begin);
  }

  lemma ReturnTable(s: State, w: nat)
    requires w < |s.workers| && NextReturn(s, w).Some?
    ensures TableStays(s, NextReturn(s, w).value, w)
  {
    ReturnCoded(s, w);
    CompletedTable(At(s, w, s.workers[w].phase.(todo := Nothing)), s.workers[w].phase.todo.call);
  }

  lemma CodeTable(c: Config, s: State, w: nat, move: CodeMove)
    requires w < |s.workers| && NextCode(c, s, w, move).Some? && !move.Acting?
    ensures TableStays(s, NextCode(c, s, w, move).value, w)
  {
    if move.Calling? {
      CallingTable(c, s, w, move.begin);
    } else if move.Return? {
      ReturnTable(s, w);
    } else {
      CodeCoded(c, s, w, move);
    }
  }

  lemma TurnHarmless(c: Config, x: Worker, x': Worker, move: CodeMove)
    requires CodeTurn(x, x', move) && !move.Calling?
    ensures PhaseHarmless(c, x'.phase)
  {
  }

  lemma CodeHarmless(c: Config, s: State, w: nat, move: CodeMove)
    requires WaitersHarmless(c, s) && w < |s.workers| && NextCode(c, s, w, move).Some? && !move.Acting?
    ensures var s' := NextCode(c, s, w, move).value; w < |s'.workers| && PhaseHarmless(c, s'.workers[w].phase)
  {
    CodeCoded(c, s, w, move);
    if move.Calling? {
      BegunHarmless(c, s, move.begin);
    } else {
      TurnHarmless(c, s.workers[w], NextCode(c, s, w, move).value.workers[w], move);
    }
  }

  lemma ReportTable(s: State, w: nat, i: nat)
    requires w < |s.workers| && NextReport(s, w, i).Some?
    ensures forall body :: body in NextReport(s, w, i).value.registered ==> body in s.registered
  {
  }

  lemma RepayTable(s: State, w: nat)
    requires w < |s.workers| && NextRepay(s, w).Some?
    ensures NextRepay(s, w).value.registered == s.registered
  {
  }

  lemma IdleTable(c: Config, s: State, w: nat, move: IdleMove)
    requires w < |s.workers| && NextIdle(c, s, w, move).Some?
    ensures var s' := NextIdle(c, s, w, move).value; TableStays(s, s', w) && PhaseHarmless(c, s'.workers[w].phase)
  {
    IdleIdled(c, s, w, move);
    if move.Report? {
      ReportTable(s, w, move.i);
    } else if move.Repay? {
      RepayTable(s, w);
    }
  }

  lemma OutsideCallWaiters(c: Config, s: State, begin: Begin)
    requires WaitersHarmless(c, s) && Next(c, s, OutsideCall(begin)).Some?
    ensures WaitersHarmless(c, Next(c, s, OutsideCall(begin)).value)
  {
    var s' := Next(c, s, OutsideCall(begin)).value;
    BegunTable(c, s, begin);
    BegunHarmless(c, s, begin);
    CountedFrame(c, s, begin);
    WaitersIn(c, s, s', s.calls + [Begun(c, s, begin).value]);
  }

  lemma WaitersIn(c: Config, s: State, s': State, calls: seq<Call>)
    requires WaitersHarmless(c, s) && s'.workers == s.workers && s'.calls == calls
    requires forall body :: body in s'.registered ==> Harmless(c, body)
    requires forall call :: call in calls ==> Harmless(c, call.waiter)
    ensures WaitersHarmless(c, s')
  {
    forall i | 0 <= i < |s'.registered| ensures Harmless(c, s'.registered[i]) {
      assert s'.registered[i] in s'.registered;
    }
    forall k | 0 <= k < |calls| ensures Harmless(c, calls[k].waiter) {
      assert calls[k] in calls;
    }
  }

  lemma OutsideReturnWaiters(c: Config, s: State, k: nat)
    requires WaitersHarmless(c, s) && Next(c, s, OutsideReturn(k)).Some?
    ensures WaitersHarmless(c, Next(c, s, OutsideReturn(k)).value)
  {
    var s1 := s.(calls := s.calls[..k] + s.calls[k + 1..]);
    CompletedTable(s1, s.calls[k]);
    CompletedFrame(s1, s.calls[k]);
    WaitersIn(c, s, Next(c, s, OutsideReturn(k)).value, s1.calls);
  }

  lemma StepWaiters(c: Config, s: State, step: Step)
    requires WaitersHarmless(c, s) && Next(c, s, step).Some?
    ensures WaitersHarmless(c, Next(c, s, step).value)
  {
    var s' := Next(c, s, step).value;
    match step
    case Runs(w, move) =>
      RunRan(s, w, move);
      RanTable(c, s, s', w, move);
      TableHarmless(c, s, s', w);
    case Codes(w, move) =>
      if move.Acting? {
        ActWaiters(c, s, move.act);
      } else {
        CodeTable(c, s, w, move);
        CodeHarmless(c, s, w, move);
        TableHarmless(c, s, s', w);
      }
    case Idles(w, move) => IdleTable(c, s, w, move); TableHarmless(c, s, s', w);
    case Outside(act) => ActWaiters(c, s, act);
    case OutsideCall(begin) => OutsideCallWaiters(c, s, begin);
    case OutsideReturn(k) => OutsideReturnWaiters(c, s, k);
    case Stop =>
    case Tick(d) =>
  }

  // ----- All steps -----

  /** The step erases the timer that wakes f. */
  ghost predicate Erases(s: State, step: Step, f: nat) {
    || (step.Outside? && step.act.EraseTimer? && WakesIn(s.timers, f, step.act.d))
    || (step.Codes? && step.code.Acting? && step.code.act.EraseTimer? && WakesIn(s.timers, f, step.code.act.d))
  }

  predicate IsErase(step: Step) {
    (step.Outside? && step.act.EraseTimer?) || (step.Codes? && step.code.Acting? && step.code.act.EraseTimer?)
  }

  lemma EraseSleeps(c: Config, s: State, step: Step, f: nat)
    requires SleeperFits(s, f) && Ascending(s.timers) && Next(c, s, step).Some? && IsErase(step)
    ensures var s' := Next(c, s, step).value;
      && SleeperFits(s', f) && Conserved(s, s', f)
      && if Erases(s, step, f) then Total(s', f) == 0 else Delivers(s, s', f)
  {
    var d := if step.Outside? then step.act.d else step.code.act.d;
    var s1 := s.(timers := Erase(s.timers, d));
    assert Next(c, s, step).value == s1.(late := Next(c, s, step).value.late);
    ErasedLate(s, s1, Next(c, s, step).value, d, f);
  }

  lemma ErasedLate(s: State, s1: State, s': State, d: int, f: nat)
    requires SleeperFits(s, f) && Ascending(s.timers)
    requires s1 == s.(timers := Erase(s.timers, d)) && s' == s1.(late := s'.late)
    ensures SleeperFits(s', f) && Conserved(s, s', f)
    ensures if WakesIn(s.timers, f, d) then Total(s', f) == 0 else Delivers(s, s', f)
  {
    EraseFits(s, s1, d, f);
    LatelyFits(s1, s', f);
  }

  /** In any step, a resume of f on its way is made or stays on its way, unless the step erases the timer
      of f; and f is resumed on such a credit only. */
  lemma StepSleeps(c: Config, s: State, step: Step, f: nat)
    requires f in c.solo && Inv(c, s) && Next(c, s, step).Some?
    ensures var s' := Next(c, s, step).value;
      && SleeperFits(s', f) && Conserved(s, s', f)
      && if Erases(s, step, f) then Total(s', f) == 0 else Delivers(s, s', f)
  {
    assert SleeperFits(s, f);
    if IsErase(step) {
      EraseSleeps(c, s, step, f);
    } else {
      OtherSleeps(c, s, step, f);
    }
  }

  lemma NobodySleeps(c: Config, s: State, step: Step, f: nat)
    requires SleeperFits(s, f) && Next(c, s, step).Some? && (step.OutsideCall? || step.Stop? || step.Tick?)
    ensures CarriesOn(s, Next(c, s, step).value, f)
  {
    NobodyMoves(c, s, step);
    TameFits(s, Next(c, s, step).value, f);
  }

  lemma OtherSleeps(c: Config, s: State, step: Step, f: nat)
    requires f in c.solo && Inv(c, s) && Next(c, s, step).Some? && !IsErase(step)
    ensures CarriesOn(s, Next(c, s, step).value, f)
  {
    assert SleeperFits(s, f);
    match step
    case Runs(w, move) => RunSleeps(s, w, move, f);
    case Codes(w, move) => CodeSleeps(c, s, w, move, f);
    case Idles(w, move) => IdleSleeps(c, s, w, move, f);
    case Outside(act) => OutsideSleeps(c, s, act, f);
    case OutsideReturn(k) => OutsideReturnSleeps(c, s, k, f);
    case _ => NobodySleeps(c, s, step, f);
  }

  lemma OutsideSleeps(c: Config, s: State, act: Act, f: nat)
    requires f in c.solo && SleeperFits(s, f) && Next(c, s, Outside(act)).Some? && !act.EraseTimer?
    ensures CarriesOn(s, Next(c, s, Outside(act)).value, f)
  {
    ActSleeps(c, s, act, f);
    LatelyFits(NextAct(c, s, act).value, Next(c, s, Outside(act)).value, f);
  }

  lemma LatelyFits(s: State, s': State, f: nat)
    requires SleeperFits(s, f) && s' == s.(late := s'.late)
    ensures SleeperFits(s', f) && OnWay(s', f) == OnWay(s, f) && Total(s', f) == Total(s, f)
  {
  }

  lemma StepKeeps(c: Config, s: State, step: Step)
    requires Inv(c, s) && Next(c, s, step).Some?
    ensures Inv(c, Next(c, s, step).value)
  {
    L.StepKeeps(c, s, step);
    StepOneShot(c, s, step);
    StepAscends(c, s, step);
    StepWaiters(c, s, step);
    forall f | f in c.solo ensures SleeperFits(Next(c, s, step).value, f) {
      StepSleeps(c, s, step, f);
    }
  }

  lemma {:induction false} ExecKeeps(c: Config, s: State, steps: seq<Step>)
    requires Inv(c, s) && Exec(c, s, steps).Some?
    ensures Inv(c, Exec(c, s, steps).value)
    decreases steps
  {
    if steps != [] {
      StepKeeps(c, s, steps[0]);
      ExecKeeps(c, Next(c, s, steps[0]).value, steps[1..]);
    }
  }

  lemma InitTotal(n: nat, calls: seq<nat>, clock: int, f: nat)
    ensures Total(Init(n, calls, clock), f) == 0
  {
    var s := Init(n, calls, clock);
    GatherEmpty(s.tasks, TaskShare);
    GatherEmpty(s.workers, WorkerShare);
    GatherEmpty(s.workers, AwakeShare);
  }

  lemma ReachableInv(c: Config, n: nat, s: State)
    requires Reachable(c, n, s)
    ensures Inv(c, s)
  {
    var calls, clock, steps :| Exec(c, Init(n, calls, clock), steps) == Some(s);
    forall f | f in c.solo ensures SleeperFits(Init(n, calls, clock), f) {
      InitTotal(n, calls, clock, f);
    }
    ExecKeeps(c, Init(n, calls, clock), steps);
  }
}
