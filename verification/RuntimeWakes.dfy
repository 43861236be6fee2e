/** A resume on its way can be made: from any state of any run, as long as one worker has not terminated
    and is not in the middle of stopping(), some continuation resumes the sleeper. */
module RuntimeWakes {
  import opened Options
  import opened Bags
  import opened Tasks
  import opened DeadlineSet
  import Drain
  import opened Runtime
  import opened RuntimeMoves
  import opened RuntimeCredits
  import opened RuntimeJobs
  import opened RuntimeSleep
  import M = RuntimeMutex
  import T = RuntimeTasks
  import S = RuntimeShutdown

  // ----- Paths -----

  /** s' comes after s, and f has its log continued. */
  ghost predicate Path(c: Config, s: State, s': State, f: nat) {
    && Reaches(c, s, s') && Lively(c, s')
    && f in s.fibers && f in s'.fibers && s.fibers[f].log <= s'.fibers[f].log
  }

  ghost predicate Still(s: State, s': State, f: nat)
    requires f in s.fibers && f in s'.fibers
  {
    NotResumedSince(s.fibers[f].log, s'.fibers[f].log)
  }

  lemma PathStays(c: Config, s: State, f: nat)
    requires Lively(c, s) && f in s.fibers
    ensures Path(c, s, s, f) && Still(s, s, f)
  {
    assert Exec(c, s, []) == Some(s);
  }

  lemma PathGoesOn(c: Config, s: State, s1: State, s2: State, f: nat)
    requires Path(c, s, s1, f) && Path(c, s1, s2, f)
    ensures Path(c, s, s2, f) && (Still(s, s2, f) ==> Still(s, s1, f) && Still(s1, s2, f))
  {
    GoesOn(c, s, s1, s2);
    StillParts(s.fibers[f].log, s1.fibers[f].log, s2.fibers[f].log);
  }

  lemma StillParts(log: seq<Event>, log1: seq<Event>, log2: seq<Event>)
    requires log <= log1 <= log2
    ensures NotResumedSince(log, log2) ==> NotResumedSince(log, log1) && NotResumedSince(log1, log2)
  {
    assert forall i :: 0 <= i < |log1| ==> log1[i] == log2[i];
  }

  lemma StepStill(s: State, s': State, f: nat)
    requires f in s.fibers && OnWay(s, f) > 0 && Conserved(s, s', f) && Delivers(s, s', f)
    ensures f in s'.fibers && s.fibers[f].log <= s'.fibers[f].log
    ensures Still(s, s', f) ==> OnWay(s', f) > 0
  {
    var log, log' := s.fibers[f].log, s'.fibers[f].log;
    if ResumedBy(s, s', f) {
      assert log'[|log|].Resumed?;
    }
  }

  /** One step that erases nothing: f is resumed, or its resume stays on its way. */
  lemma PathStep(c: Config, s: State, step: Step, f: nat) returns (s': State)
    requires Lively(c, s) && f in c.solo && f in s.fibers && OnWay(s, f) > 0
    requires Next(c, s, step).Some? && !IsErase(step)
    ensures Next(c, s, step) == Some(s') && Path(c, s, s', f) && (Still(s, s', f) ==> OnWay(s', f) > 0)
  {
    s' := Goes(c, s, step);
    StepLively(c, s, step);
    StepCarries(c, s, step, f);
    StepStill(s, s', f);
  }

  lemma StepCarries(c: Config, s: State, step: Step, f: nat)
    requires Inv(c, s) && f in c.solo && Next(c, s, step).Some? && !IsErase(step)
    ensures Conserved(s, Next(c, s, step).value, f) && Delivers(s, Next(c, s, step).value, f)
  {
    StepSleeps(c, s, step, f);
  }

  // ----- Work left -----

  function JobWeight(body: Job): nat {
    if body.Empty? then 0 else if body.Call? && body.code.Wake? then 2 else 1
  }

  function Weight(t: Entry): nat {
    JobWeight(t.body)
  }

  /** What a worker can still hand over before it scans again. */
  function Carry(x: Worker): nat {
    match x.phase
    case Took(task) => JobWeight(task.body) - if task.body.Empty? then 0 else 1
    case Locked(task, _) => JobWeight(task.body) - if task.body.Empty? then 0 else 1
    case Executing(_, _, todo) =>
      if todo.Waking? then 1 else if todo.InCall? then JobWeight(todo.call.waiter) else 0
    case Idle(Holding(cbs)) => 2 * |cbs|
    case _ => 0
  }

  /** How many moves a worker has to go before it scans or collects again. */
  function Rank(x: Worker): nat {
    match x.phase
    case Took(_) => 9
    case Locked(_, _) => 8
    case Executing(_, _, todo) => if todo.Nothing? then 6 else 7
    case Leaving(_, _) => 5
    case Ending(_, _) => 5
    case Switching(_, _) => 4
    case Back(_, _) => 3
    case Released(_) => 2
    case Idle(Holding(cbs)) => |cbs|
    case _ => 0
  }

  function Load(s: State): nat {
    Sum(s.tasks, Weight) + Sum(s.workers, Carry)
  }

  function Effort(s: State): nat {
    Sum(s.workers, Rank)
  }

  /** Where a worker ends up when it has nothing left in hand. */
  function Settled(phase: Phase): Phase {
    if T.Busy(phase) then Scanning
    else if phase.Idle? && phase.at.Holding? then Idle(Holding([]))
    else phase
  }

  /** A worker with something in hand. */
  predicate Laden(phase: Phase) {
    T.Busy(phase) || (phase.Idle? && phase.at.Holding? && phase.at.cbs != [])
  }

  /** It waits for nobody. */
  predicate Movable(s: State, w: nat) {
    && w < |s.workers| && Laden(s.workers[w].phase)
    && (s.workers[w].phase.Took? && s.workers[w].phase.task.body.Resume? ==>
          var f := s.workers[w].phase.task.body.fiber;
          f in s.fibers ==> s.fibers[f].holder.None?)
  }

  /** The move of worker w; g is to be the fiber of a callback. */
  function MoveOf(s: State, w: nat, g: nat): Step
    requires Movable(s, w)
  {
    match s.workers[w].phase
    case Took(task) => if task.body.Call? then Runs(w, Make(g)) else Runs(w, Lock)
    case Locked(_, _) => Runs(w, Dispatch)
    case Executing(_, _, todo) =>
      Codes(w, match todo case Nothing => Terminate case Waking(_) => RunWake case InCall(_) => Return)
    case Switching(_, _) => Codes(w, Switch)
    case Back(_, _) => Runs(w, Unlock)
    case Released(_) => Runs(w, Finish)
    case Idle(_) => Idles(w, Post)
    case _ => Codes(w, Yield)
  }

  lemma CanMove(c: Config, s: State, w: nat, g: nat)
    requires Lively(c, s) && Movable(s, w) && g !in s.fibers
    ensures Next(c, s, MoveOf(s, w, g)).Some? && !IsErase(MoveOf(s, w, g))
  {
    assert M.WorkerFits(s.workers[w].phase, w, s.fibers) && PhaseKnown(s.fibers, s.workers[w].phase);
  }

  /** The job a move of w hands over. */
  function Given(phase: Phase): Job {
    if phase.Executing? && phase.todo.Waking? then Resume(phase.todo.f)
    else if phase.Executing? && phase.todo.InCall? && phase.todo.call.Removing? && phase.todo.call.fire then
      phase.todo.call.waiter
    else if phase.Idle? && phase.at.Holding? && phase.at.cbs != [] then JobOf(phase.at.cbs[0])
    else Empty
  }

  /** Worker w has come closer to its next scan, and has handed over no more than it carried. */
  ghost predicate Advances(s: State, s': State, w: nat) {
    && Turned(s, s', w) && s'.timers == s.timers && s'.clock == s.clock
    && s'.workers[w].term == s.workers[w].term
    && Settled(s'.workers[w].phase) == Settled(s.workers[w].phase)
    && s'.tasks == Submitted(s.tasks, Given(s.workers[w].phase), ANY)
    && Rank(s'.workers[w]) < Rank(s.workers[w])
    && JobWeight(Given(s.workers[w].phase)) + Carry(s'.workers[w]) <= Carry(s.workers[w])
  }

  lemma RanAdvances(s: State, s': State, w: nat, move: RunMove)
    requires Ran(s, s', w, move) && !move.Take? && !move.Rest?
    ensures Advances(s, s', w)
  {
  }

  lemma TurnAdvances(x: Worker, x': Worker, move: CodeMove)
    requires CodeTurn(x, x', move) && !move.Calling? && !move.Sleep?
    ensures Settled(x'.phase) == Settled(x.phase) && Rank(x') < Rank(x)
    ensures JobWeight(Given(x.phase)) + Carry(x') <= Carry(x)
    ensures move.Return? || move.RunWake? || Given(x.phase) == Empty
  {
  }

  lemma CodeAdvances(c: Config, s: State, w: nat, move: CodeMove)
    requires w < |s.workers| && NextCode(c, s, w, move).Some?
    requires !move.Acting? && !move.Calling? && !move.Sleep?
    ensures Advances(s, NextCode(c, s, w, move).value, w)
  {
    CodeCoded(c, s, w, move);
    TurnAdvances(s.workers[w], NextCode(c, s, w, move).value.workers[w], move);
    T.CodeHands(c, s, w, move);
  }

  lemma PostAdvances(c: Config, s: State, w: nat)
    requires w < |s.workers| && NextPost(s, w).Some?
    ensures Advances(s, NextPost(s, w).value, w)
  {
  }

  lemma MoveAdvances(c: Config, s: State, w: nat, g: nat)
    requires Movable(s, w) && Next(c, s, MoveOf(s, w, g)).Some?
    ensures Advances(s, Next(c, s, MoveOf(s, w, g)).value, w)
  {
    match MoveOf(s, w, g)
    case Runs(v, move) =>
      RunRan(s, v, move);
      RanAdvances(s, Next(c, s, Runs(v, move)).value, v, move);
    case Codes(v, move) => CodeAdvances(c, s, v, move);
    case Idles(v, move) => PostAdvances(c, s, v);
  }

  lemma AdvanceCounts(s: State, s': State, w: nat)
    requires Advances(s, s', w)
    ensures Load(s') <= Load(s) && Effort(s') < Effort(s)
  {
    SumUpdate(s.workers, w, s'.workers[w], Rank);
    SumUpdate(s.workers, w, s'.workers[w], Carry);
    SubmittedWeight(s.tasks, Given(s.workers[w].phase));
  }

  lemma SubmittedWeight(q: seq<Entry>, body: Job)
    ensures Sum(Submitted(q, body, ANY), Weight) == Sum(q, Weight) + JobWeight(body)
  {
    if !body.Empty? {
      var t := Task(body, ANY);
      SumConcat(q, [t], Weight);
      assert Sum([t], Weight) == Weight(t) + Sum([t][1..], Weight);
    }
  }

  lemma TakeCounts(s: State, w: nat)
    requires w < |s.workers| && NextRun(s, w, Take).Some? && NoneEmpty(s.tasks)
    ensures Load(NextRun(s, w, Take).value) < Load(s)
  {
    var i, s' := FirstEligible(s.tasks, w), NextRun(s, w, Take).value;
    SumSplit(s.tasks, i, Weight);
    SumUpdate(s.workers, w, s'.workers[w], Carry);
  }

  lemma FreshFiber(fibers: map<nat, Fib>) returns (g: nat)
    ensures g !in fibers
  {
    g := FreshNumber(fibers.Keys);
  }

  lemma {:induction false} FreshNumber(keys: set<nat>) returns (g: nat)
    ensures forall k :: k in keys ==> k < g
    decreases |keys|
  {
    if keys == {} {
      g := 0;
    } else {
      var k :| k in keys;
      var h := FreshNumber(keys - {k});
      g := if h <= k then k + 1 else h;
      forall j | j in keys ensures j < g {
        assert j == k || j in keys - {k};
      }
    }
  }

  /** A worker that waits for a mutex waits for one that can move. */
  lemma SomeoneMoves(c: Config, s: State, v: nat) returns (w: nat)
    requires Lively(c, s) && v < |s.workers| && Laden(s.workers[v].phase)
    ensures Movable(s, w)
  {
    w := v;
    if !Movable(s, v) {
      w := HolderMoves(s, s.workers[v].phase.task.body.fiber);
    }
  }

  lemma HolderMoves(s: State, f: nat) returns (w: nat)
    requires M.Inv(s) && f in s.fibers && s.fibers[f].holder.Some?
    ensures Movable(s, w)
  {
    w := s.fibers[f].holder.value;
    assert M.FiberFits(f, s.fibers[f], s.workers);
    assert M.Owned(s.workers[w].phase) == Some(f);
  }

  // ----- Coming to rest -----

  /** Nothing is in hand, and whoever is scanning has nothing to take. */
  ghost predicate Calm(s: State) {
    forall w :: 0 <= w < |s.workers| ==>
      && !Laden(s.workers[w].phase)
      && (s.workers[w].phase.Scanning? ==> FirstEligible(s.tasks, w) == |s.tasks|)
  }

  /** The timers and the clock are as they were, and every worker ends up where it would have. */
  ghost predicate Kin(s: State, s': State) {
    && s'.timers == s.timers && s'.clock == s.clock && |s'.workers| == |s.workers|
    && forall w :: 0 <= w < |s.workers| ==>
         && s'.workers[w].term == s.workers[w].term
         && Settled(s'.workers[w].phase) == Settled(s.workers[w].phase)
  }

  lemma KinGoesOn(s: State, s1: State, s2: State)
    requires Kin(s, s1) && Kin(s1, s2)
    ensures Kin(s, s2)
  {
  }

  lemma AdvanceIsKin(s: State, s': State, w: nat)
    requires Advances(s, s', w)
    ensures Kin(s, s')
  {
  }

  lemma TakeIsKin(s: State, w: nat)
    requires w < |s.workers| && NextRun(s, w, Take).Some?
    ensures Kin(s, NextRun(s, w, Take).value)
  {
  }

  lemma SomeoneHasWork(s: State) returns (v: nat)
    requires !Calm(s)
    ensures v < |s.workers|
    ensures Laden(s.workers[v].phase) || NextTake(s, v).Some?
  {
    v :| 0 <= v < |s.workers| && (Laden(s.workers[v].phase)
      || (s.workers[v].phase.Scanning? && FirstEligible(s.tasks, v) < |s.tasks|));
  }

  lemma TakeSomething(c: Config, s: State, f: nat, v: nat) returns (s': State)
    requires Lively(c, s) && f in c.solo && f in s.fibers && OnWay(s, f) > 0
    requires v < |s.workers| && NextTake(s, v).Some?
    ensures Path(c, s, s', f) && (Still(s, s', f) ==> OnWay(s', f) > 0) && Kin(s, s')
    ensures Load(s') < Load(s)
  {
    s' := PathStep(c, s, Runs(v, Take), f);
    TakeIsKin(s, v);
    TakeCounts(s, v);
  }

  /** A state that is not calm has a step with which f is resumed or less work is left. */
  lemma SomeStep(c: Config, s: State, f: nat) returns (s': State)
    requires Lively(c, s) && f in c.solo && f in s.fibers && OnWay(s, f) > 0 && !Calm(s)
    ensures Path(c, s, s', f) && (Still(s, s', f) ==> OnWay(s', f) > 0) && Kin(s, s')
    ensures Load(s') < Load(s) || (Load(s') == Load(s) && Effort(s') < Effort(s))
  {
    var v := SomeoneHasWork(s);
    if Laden(s.workers[v].phase) {
      s' := MoveSomeone(c, s, f, v);
    } else {
      s' := TakeSomething(c, s, f, v);
    }
  }

  lemma MoveSomeone(c: Config, s: State, f: nat, v: nat) returns (s': State)
    requires Lively(c, s) && f in c.solo && f in s.fibers && OnWay(s, f) > 0
    requires v < |s.workers| && Laden(s.workers[v].phase)
    ensures Path(c, s, s', f) && (Still(s, s', f) ==> OnWay(s', f) > 0) && Kin(s, s')
    ensures Load(s') <= Load(s) && Effort(s') < Effort(s)
  {
    var w := SomeoneMoves(c, s, v);
    var g := FreshFiber(s.fibers);
    CanMove(c, s, w, g);
    s' := PathStep(c, s, MoveOf(s, w, g), f);
    MoveAdvances(c, s, w, g);
    AdvanceIsKin(s, s', w);
    AdvanceCounts(s, s', w);
  }

  /** From any state the workers can come to rest, if f is not resumed on the way. */
  lemma {:induction false} ComesToRest(c: Config, s: State, f: nat) returns (s': State)
    requires Lively(c, s) && f in c.solo && f in s.fibers && OnWay(s, f) > 0
    ensures Path(c, s, s', f) && |s'.workers| == |s.workers|
    ensures Still(s, s', f) ==> OnWay(s', f) > 0 && Calm(s') && Kin(s, s')
    decreases Load(s), Effort(s)
  {
    if Calm(s) {
      PathStays(c, s, f);
      s' := s;
    } else {
      var s1 := SomeStep(c, s, f);
      if Still(s, s1, f) {
        s' := ComesToRest(c, s1, f);
        PathGoesOn(c, s, s1, s', f);
        if Still(s, s', f) {
          KinGoesOn(s, s1, s');
        }
      } else {
        s' := s1;
      }
    }
  }

  // ----- Where the resume is when nothing is in hand -----

  lemma UnladenCarriesNone(x: Worker, f: nat)
    requires !Laden(x.phase)
    ensures WorkerShare(x)[f] == 0
  {
    WorkerCounted(x, f);
  }

  lemma CalmCarriesNone(s: State, f: nat)
    requires Calm(s)
    ensures Gather(s.workers, WorkerShare)[f] == 0
  {
    if f in Gather(s.workers, WorkerShare) {
      var i := GatherWhere(s.workers, WorkerShare, f);
      UnladenCarriesNone(s.workers[i], f);
    }
  }

  lemma QueuedTask(s: State, f: nat) returns (i: nat)
    requires Calm(s) && Coming(s, f) > 0
    ensures i < |s.tasks| && JobCredit(s.tasks[i].body, f) > 0
  {
    CalmCarriesNone(s, f);
    i := GatherWhere(s.tasks, TaskShare, f);
    JobCounted(s.tasks[i].body, f);
  }

  lemma AnyoneTakes(s: State, w: nat, f: nat, i: nat)
    requires ForAnyone(s, f) && f in s.fibers && s.fibers[f].log != []
    requires i < |s.tasks| && JobCredit(s.tasks[i].body, f) > 0
    ensures FirstEligible(s.tasks, w) < |s.tasks|
  {
    assert Eligible(s.tasks[i], w);
  }

  /** A scanning worker that finds nothing leaves no task for the sleeper. */
  lemma NothingLeft(c: Config, s: State, w: nat, f: nat)
    requires Lively(c, s) && f in c.solo && f in s.fibers && s.fibers[f].log != []
    requires Calm(s) && w < |s.workers| && s.workers[w].phase.Scanning?
    ensures Coming(s, f) == 0
  {
    if Coming(s, f) > 0 {
      var i := QueuedTask(s, f);
      AnyoneTakes(s, w, f, i);
    }
  }

  // ----- One turn of an idle loop -----

  /** Between two turns of its loops, and not terminated. */
  predicate Ready(x: Worker) {
    && !x.term
    && (x.phase.Scanning? || x.phase == Idle(Checking) || x.phase == Idle(Waiting))
  }

  /** Worker w is where it was but for its phase, and so is the sleeper. */
  ghost predicate Reaching(c: Config, s: State, s': State, w: nat, f: nat) {
    && Path(c, s, s', f) && w < |s'.workers|
    && (Still(s, s', f) ==> OnWay(s', f) > 0 && s'.timers == s.timers && s'.clock == s.clock && !s'.workers[w].term)
  }

  lemma ReachingOn(c: Config, s: State, s1: State, s2: State, w: nat, f: nat)
    requires Reaching(c, s, s1, w, f) && Still(s, s1, f) && Reaching(c, s1, s2, w, f)
    ensures Reaching(c, s, s2, w, f) && (Still(s, s2, f) ==> Still(s1, s2, f))
  {
    PathGoesOn(c, s, s1, s2, f);
  }

  lemma IdleStep(c: Config, s: State, w: nat, move: IdleMove, f: nat) returns (s': State)
    requires Lively(c, s) && f in c.solo && f in s.fibers && OnWay(s, f) > 0
    requires w < |s.workers| && NextIdle(c, s, w, move).Some?
    ensures NextIdle(c, s, w, move) == Some(s') && Idled(c, s, s', w, move)
    ensures Path(c, s, s', f) && Still(s, s', f) && OnWay(s', f) > 0
  {
    s' := PathStep(c, s, Idles(w, move), f);
    IdleIdled(c, s, w, move);
  }

  /** With a timer set or a task queued, stopping() comes out false. */
  lemma StopsNot(c: Config, s: State, w: nat)
    requires s.timers != [] || s.tasks != []
    requires w < |s.workers| && ((s.workers[w].phase == Idle(Checking) && c.io && c.atomic)
                                 || (s.workers[w].phase == Idle(NoEvents) && s.tasks != []))
    ensures NextCheckStop(c, s, w) == Some(At(s, w, Idle(Waiting)))
  {
  }

  lemma Waits(c: Config, s: State, w: nat, f: nat) returns (s': State)
    requires Lively(c, s) && c.io && f in c.solo && f in s.fibers && OnWay(s, f) > 0
    requires w < |s.workers| && s.workers[w] == Worker(Idle(Checking), false) && (s.timers != [] || s.tasks != [])
    ensures Reaching(c, s, s', w, f) && (Still(s, s', f) ==> s'.workers[w].phase == Idle(Waiting))
  {
    if c.atomic {
      StopsNot(c, s, w);
      s' := IdleStep(c, s, w, CheckStop, f);
    } else {
      s' := WaitsByReads(c, s, w, f);
    }
  }

  lemma WaitsByReads(c: Config, s: State, w: nat, f: nat) returns (s': State)
    requires Lively(c, s) && c.io && !c.atomic && f in c.solo && f in s.fibers && OnWay(s, f) > 0
    requires w < |s.workers| && s.workers[w] == Worker(Idle(Checking), false) && (s.timers != [] || s.tasks != [])
    ensures Reaching(c, s, s', w, f) && (Still(s, s', f) ==> s'.workers[w].phase == Idle(Waiting))
  {
    s' := IdleStep(c, s, w, CheckTimers, f);
    if s.timers == [] {
      var s1 := s';
      s' := WaitsLater(c, s1, w, f);
      ReachingOn(c, s, s1, s', w, f);
    }
  }

  lemma WaitsLater(c: Config, s: State, w: nat, f: nat) returns (s': State)
    requires Lively(c, s) && f in c.solo && f in s.fibers && OnWay(s, f) > 0
    requires w < |s.workers| && s.workers[w] == Worker(Idle(NoTimers), false) && s.tasks != []
    ensures Reaching(c, s, s', w, f) && (Still(s, s', f) ==> s'.workers[w].phase == Idle(Waiting))
  {
    s' := IdleStep(c, s, w, CheckEvents, f);
    if s.pending == 0 {
      var s1 := s';
      s' := WaitsLast(c, s1, w, f);
      ReachingOn(c, s, s1, s', w, f);
    }
  }

  lemma WaitsLast(c: Config, s: State, w: nat, f: nat) returns (s': State)
    requires Lively(c, s) && f in c.solo && f in s.fibers && OnWay(s, f) > 0
    requires w < |s.workers| && s.workers[w] == Worker(Idle(NoEvents), false) && s.tasks != []
    ensures Reaching(c, s, s', w, f) && (Still(s, s', f) ==> s'.workers[w].phase == Idle(Waiting))
  {
    StopsNot(c, s, w);
    s' := IdleStep(c, s, w, CheckStop, f);
  }

  lemma RestsAndWaits(c: Config, s: State, w: nat, f: nat) returns (s': State)
    requires Lively(c, s) && c.io && f in c.solo && f in s.fibers && OnWay(s, f) > 0 && s.fibers[f].log != []
    requires Calm(s) && w < |s.workers| && s.workers[w] == Worker(Scanning, false)
    ensures Reaching(c, s, s', w, f) && (Still(s, s', f) ==> s'.workers[w].phase == Idle(Waiting))
  {
    NothingLeft(c, s, w, f);
    var s1 := PathStep(c, s, Runs(w, Rest), f);
    RunRan(s, w, Rest);
    SameLogStill(s, s1, f);
    s' := Waits(c, s1, w, f);
    ReachingOn(c, s, s1, s', w, f);
  }

  lemma ToWaiting(c: Config, s: State, w: nat, f: nat) returns (s': State)
    requires Lively(c, s) && c.io && f in c.solo && f in s.fibers && OnWay(s, f) > 0 && s.fibers[f].log != []
    requires Calm(s) && w < |s.workers| && Ready(s.workers[w])
    ensures Reaching(c, s, s', w, f) && (Still(s, s', f) ==> s'.workers[w].phase == Idle(Waiting))
  {
    PathStays(c, s, f);
    s' := s;
    if s.workers[w].phase.Scanning? {
      s' := RestsAndWaits(c, s, w, f);
    } else if s.workers[w].phase == Idle(Checking) {
      if s.timers == [] {
        var i := QueuedTask(s, f);
      }
      s' := Waits(c, s, w, f);
    }
  }

  /** It has not terminated, and is not in the middle of the reads with which stopping() may end it. */
  predicate Usable(x: Worker) {
    !x.term && x.phase != Idle(NoTimers) && x.phase != Idle(NoEvents)
  }

  /** Everybody comes to rest, and worker w where it would have. */
  lemma Rests(c: Config, s: State, w: nat, f: nat) returns (s': State)
    requires Lively(c, s) && f in c.solo && f in s.fibers && OnWay(s, f) > 0
    requires w < |s.workers| && !s.workers[w].term
    ensures Reaching(c, s, s', w, f)
    ensures Still(s, s', f) ==> Calm(s') && Settled(s'.workers[w].phase) == Settled(s.workers[w].phase)
  {
    s' := ComesToRest(c, s, f);
  }

  lemma LeaveScans(c: Config, s: State, w: nat)
    requires w < |s.workers| && s.workers[w] == Worker(Idle(Holding([])), false)
    ensures NextIdle(c, s, w, Leave).Some?
    ensures var s' := NextIdle(c, s, w, Leave).value;
      w < |s'.workers| && s'.workers[w] == Worker(Scanning, false) && s'.timers == s.timers && s'.clock == s.clock
  {
  }

  lemma CalmScans(s: State, w: nat)
    requires Calm(s) && w < |s.workers| && Settled(s.workers[w].phase) == Scanning
    ensures s.workers[w].phase == Scanning
  {
  }

  /** It leaves its idle loop, and everybody comes to rest. */
  lemma LeavesIdle(c: Config, s: State, w: nat, f: nat) returns (s': State)
    requires Lively(c, s) && f in c.solo && f in s.fibers && OnWay(s, f) > 0
    requires w < |s.workers| && s.workers[w] == Worker(Idle(Holding([])), false)
    ensures Reaching(c, s, s', w, f)
    ensures Still(s, s', f) ==> Calm(s') && s'.workers[w].phase == Scanning
  {
    LeaveScans(c, s, w);
    var s1 := IdleStep(c, s, w, Leave, f);
    s' := Rests(c, s1, w, f);
    ReachingOn(c, s, s1, s', w, f);
    if Still(s, s', f) {
      CalmScans(s', w);
    }
  }

  lemma RepaysAndLeaves(c: Config, s: State, w: nat, f: nat) returns (s': State)
    requires Lively(c, s) && f in c.solo && f in s.fibers && OnWay(s, f) > 0
    requires w < |s.workers| && s.workers[w] == Worker(Idle(Owing), false)
    ensures Reaching(c, s, s', w, f)
    ensures Still(s, s', f) ==> Calm(s') && s'.workers[w].phase == Scanning
  {
    var s1 := IdleStep(c, s, w, Repay, f);
    s' := LeavesIdle(c, s1, w, f);
    ReachingOn(c, s, s1, s', w, f);
  }

  lemma Freshens(c: Config, s: State, w: nat, f: nat) returns (s': State)
    requires Lively(c, s) && f in c.solo && f in s.fibers && OnWay(s, f) > 0
    requires Calm(s) && w < |s.workers| && Usable(s.workers[w])
    ensures Reaching(c, s, s', w, f) && (Still(s, s', f) ==> Calm(s') && Ready(s'.workers[w]))
  {
    if s.workers[w].phase == Idle(Owing) {
      s' := RepaysAndLeaves(c, s, w, f);
    } else if s.workers[w].phase == Idle(Holding([])) {
      s' := LeavesIdle(c, s, w, f);
    } else {
      AlreadyReady(s.workers[w]);
      PathStays(c, s, f);
      s' := s;
    }
  }

  lemma AlreadyReady(x: Worker)
    requires Usable(x) && !Laden(x.phase) && !x.phase.Gone?
    requires x.phase != Idle(Owing) && x.phase != Idle(Holding([]))
    ensures Ready(x)
  {
  }

  // ----- Collecting and handing over -----

  ghost predicate PositivePeriods(q: seq<Alarm>) {
    forall a :: a in q && a.recurring ==> a.ms > 0
  }

  /** How long it takes until every timer has expired. */
  function Span(q: seq<Alarm>, clock: int): nat {
    if q != [] && q[|q| - 1].next > clock then q[|q| - 1].next - clock else 0
  }

  /** A drain after the last deadline leaves no wake-up in the set. */
  lemma DrainsAllWakes(q: seq<Alarm>, now: int, f: nat)
    requires Ascending(q) && OneShot(q) && Drain.TrapFree(q, now, false)
    requires forall a :: a in q ==> a.next <= now
    ensures Gather(Drain.Run(Drain.State(q, [], []), now, false).queue, AlarmShare)[f] == 0
  {
    var r := Drain.Run(Drain.State(q, [], []), now, false);
    DrainShares(Drain.State(q, [], []), now, f);
    Drain.FiresTheDue(Drain.State(q, [], []), now, false);
    if f in Gather(r.queue, AlarmShare) {
      var i := GatherWhere(r.queue, AlarmShare, f);
      LeftIsLater(r.queue, now, i);
    }
  }

  lemma LeftIsLater(q: seq<Alarm>, now: int, i: nat)
    requires Ascending(q) && !Drain.More(q, now, false) && i < |q|
    ensures q[i] in q && q[i].next > now
  {
    assert q[0].next <= q[i].next;
  }

  lemma AllExpired(q: seq<Alarm>, clock: int)
    requires Ascending(q)
    ensures forall a :: a in q ==> a.next <= clock + Span(q, clock)
  {
    forall a | a in q ensures a.next <= clock + Span(q, clock) {
      var i :| 0 <= i < |q| && q[i] == a;
      assert q[i].next <= q[|q| - 1].next;
    }
  }

  lemma CanCollect(c: Config, s: State, w: nat, now: int)
    requires Inv(c, s) && c.io && w < |s.workers| && s.workers[w].phase == Idle(Waiting)
    requires now <= s.clock && PositivePeriods(s.timers)
    ensures Drain.TrapFree(s.timers, now, false) && NextCollect(c, s, w, now).Some?
    ensures NextCollect(c, s, w, now).value.timers == Drain.Run(Drain.State(s.timers, [], []), now, false).queue
  {
    Drain.UsualTermination(s.timers, now, false);
    Drain.TerminatesIff(s.timers, now, false);
  }

  /** All that has expired is collected. */
  lemma CollectsNow(c: Config, s: State, w: nat, f: nat) returns (s': State)
    requires Lively(c, s) && c.io && f in c.solo && f in s.fibers && OnWay(s, f) > 0
    requires w < |s.workers| && s.workers[w] == Worker(Idle(Waiting), false) && PositivePeriods(s.timers)
    requires forall a :: a in s.timers ==> a.next <= s.clock
    ensures Path(c, s, s', f) && Still(s, s', f) && OnWay(s', f) > 0 && Timed(s', f) == 0
    ensures w < |s'.workers| && !s'.workers[w].term && s'.workers[w].phase.Idle? && s'.workers[w].phase.at.Holding?
  {
    CanCollect(c, s, w, s.clock);
    s' := IdleStep(c, s, w, Collect(s.clock), f);
    DrainsAllWakes(s.timers, s.clock, f);
  }

  lemma SameLogStill(s: State, s': State, f: nat)
    requires f in s.fibers && f in s'.fibers && s'.fibers[f] == s.fibers[f]
    ensures Still(s, s', f)
  {
  }

  lemma TicksOn(c: Config, s: State, d: nat, f: nat) returns (s': State)
    requires Lively(c, s) && f in c.solo && f in s.fibers && OnWay(s, f) > 0
    ensures Path(c, s, s', f) && Still(s, s', f) && OnWay(s', f) > 0
    ensures s'.workers == s.workers && s'.timers == s.timers && s'.clock == s.clock + d
  {
    s' := PathStep(c, s, Tick(d), f);
    SameLogStill(s, s', f);
  }

  /** The worker that waits sleeps until every timer has expired, and collects them. */
  lemma CollectsAll(c: Config, s: State, w: nat, f: nat) returns (s': State)
    requires Lively(c, s) && c.io && f in c.solo && f in s.fibers && OnWay(s, f) > 0
    requires w < |s.workers| && s.workers[w] == Worker(Idle(Waiting), false) && PositivePeriods(s.timers)
    ensures Path(c, s, s', f) && Still(s, s', f) && OnWay(s', f) > 0 && Timed(s', f) == 0
    ensures w < |s'.workers| && !s'.workers[w].term && s'.workers[w].phase.Idle? && s'.workers[w].phase.at.Holding?
  {
    var s1 := TicksOn(c, s, Span(s.timers, s.clock), f);
    AllExpired(s.timers, s.clock);
    s' := CollectsNow(c, s1, w, f);
    StillTwice(c, s, s1, s', f);
  }

  lemma StillTwice(c: Config, s: State, s1: State, s2: State, f: nat)
    requires Path(c, s, s1, f) && Path(c, s1, s2, f) && Still(s, s1, f) && Still(s1, s2, f)
    ensures Path(c, s, s2, f) && Still(s, s2, f)
  {
    PathGoesOn(c, s, s1, s2, f);
  }

  /** What is collected is handed over, and the sleeper resumed. */
  lemma Arrives(c: Config, s: State, w: nat, f: nat) returns (s': State)
    requires Lively(c, s) && f in c.solo && f in s.fibers && s.fibers[f].log != []
    requires OnWay(s, f) > 0 && Timed(s, f) == 0
    requires w < |s.workers| && !s.workers[w].term && s.workers[w].phase.Idle? && s.workers[w].phase.at.Holding?
    ensures Path(c, s, s', f) && !Still(s, s', f)
  {
    s' := ComesToRest(c, s, f);
    if Still(s, s', f) {
      var s1 := s';
      s' := LeavesIdle(c, s1, w, f);
      PathGoesOn(c, s, s1, s', f);
      if Still(s, s', f) {
        NothingLeft(c, s', w, f);
      }
    }
  }

  // ----- Together -----

  lemma RestsReady(c: Config, s: State, w: nat, f: nat) returns (s': State)
    requires Lively(c, s) && f in c.solo && f in s.fibers && OnWay(s, f) > 0
    requires w < |s.workers| && Usable(s.workers[w])
    ensures Reaching(c, s, s', w, f) && (Still(s, s', f) ==> Calm(s') && Ready(s'.workers[w]))
  {
    s' := Rests(c, s, w, f);
    if Still(s, s', f) {
      var s1 := s';
      s' := Freshens(c, s1, w, f);
      ReachingOn(c, s, s1, s', w, f);
    }
  }

  lemma ToTheIdleLoop(c: Config, s: State, w: nat, f: nat) returns (s': State)
    requires Lively(c, s) && c.io && f in c.solo && f in s.fibers && OnWay(s, f) > 0 && s.fibers[f].log != []
    requires w < |s.workers| && Usable(s.workers[w])
    ensures Reaching(c, s, s', w, f) && (Still(s, s', f) ==> s'.workers[w].phase == Idle(Waiting))
  {
    s' := RestsReady(c, s, w, f);
    if Still(s, s', f) {
      var s1 := s';
      s' := ToWaiting(c, s1, w, f);
      ReachingOn(c, s, s1, s', w, f);
    }
  }

  lemma IsWoken(c: Config, s: State, w: nat, f: nat) returns (s': State)
    requires Lively(c, s) && c.io && f in c.solo && f in s.fibers && OnWay(s, f) > 0 && s.fibers[f].log != []
    requires w < |s.workers| && Usable(s.workers[w]) && PositivePeriods(s.timers)
    ensures Path(c, s, s', f) && !Still(s, s', f)
  {
    s' := ToTheIdleLoop(c, s, w, f);
    if Still(s, s', f) {
      var s1 := s';
      var s2 := CollectsAll(c, s1, w, f);
      s' := Arrives(c, s2, w, f);
      PathGoesOn(c, s1, s2, s', f);
      PathGoesOn(c, s, s1, s', f);
    }
  }

  lemma PathEndsHang(c: Config, s: State, s': State, f: nat)
    requires Path(c, s, s', f) && !Still(s, s', f)
    ensures !HangsForever(c, s, f)
  {
    var steps :| Exec(c, s, steps) == Some(s');
  }

  /** In any state of any run of an IOManager, as long as one worker is usable and no recurring timer has
      period zero, a fiber that has been started, does not execute and is left alone by others is doomed to
      hang if and only if no resume of it is on its way. */
  lemma HangsIff(c: Config, n: nat, s: State, w: nat, f: nat)
    requires Reachable(c, n, s) && c.io && f in c.solo && f in s.fibers && s.fibers[f].log != [] && Awake(s, f) == 0
    requires w < |s.workers| && Usable(s.workers[w]) && PositivePeriods(s.timers)
    ensures HangsForever(c, s, f) <==> OnWay(s, f) == 0
  {
    ReachableLively(c, n, s);
    if OnWay(s, f) == 0 {
      NoCreditHangs(c, s, f);
    } else {
      var s' := IsWoken(c, s, w, f);
      PathEndsHang(c, s, s', f);
    }
  }

  /** s' comes after the sleep of f with which s1 begins, f has not been resumed in between, and no
      recurring timer has period zero. */
  ghost predicate StillAsleep(s1: State, s': State, f: nat) {
    && f in s1.fibers && s1.fibers[f].log != [] && f in s'.fibers
    && NotResumedSince(s1.fibers[f].log, s'.fibers[f].log) && PositivePeriods(s'.timers)
  }

  /** ... and worker v is usable. */
  ghost predicate CouldWake(s1: State, s': State, f: nat, v: nat) {
    StillAsleep(s1, s', f) && v < |s'.workers| && Usable(s'.workers[v])
  }

  lemma HangsIfLost(c: Config, s1: State, s': State, f: nat, v: nat, lost: bool)
    requires Lively(c, s') && c.io && f in c.solo && CouldWake(s1, s', f, v) && SleepFate(c, s1, s', f, lost)
    ensures HangsForever(c, s', f) <==> lost
  {
    if !lost {
      var s2 := IsWoken(c, s', v, f);
      PathEndsHang(c, s', s2, f);
    }
  }

  lemma AfterSleep(c: Config, n: nat, s: State, w: nat, ms: nat, f: nat, steps: seq<Step>)
    requires Reachable(c, n, s) && CanSleep(c, s, w, ms, f)
    requires Exec(c, NextCode(c, s, w, Sleep(ms)).value, steps).Some?
    ensures c.io && Lively(c, Exec(c, NextCode(c, s, w, Sleep(ms)).value, steps).value)
  {
    ReachableLively(c, n, s);
    StepLively(c, s, Codes(w, Sleep(ms)));
    ExecLively(c, NextCode(c, s, w, Sleep(ms)).value, steps);
  }

  /** A fiber goes to sleep, the run goes on in any way, and it has not been resumed. As long as one worker
      is usable and no recurring timer has period zero, no continuation resumes it if and only if the
      deadline of the sleep was taken or an erase has hit its timer while that was set. */
  lemma SleepHangsIff(c: Config, n: nat, s: State, w: nat, ms: nat, f: nat, steps: seq<Step>, v: nat)
    requires Reachable(c, n, s) && f in c.solo && CanSleep(c, s, w, ms, f)
    requires Exec(c, NextCode(c, s, w, Sleep(ms)).value, steps).Some?
    requires var s1 := NextCode(c, s, w, Sleep(ms)).value; CouldWake(s1, Exec(c, s1, steps).value, f, v)
    ensures var s1 := NextCode(c, s, w, Sleep(ms)).value;
      HangsForever(c, Exec(c, s1, steps).value, f) <==>
      (Occupied(s.timers, s.clock + ms * TICKS_PER_MS) || ErasedIn(c, s1, steps, f))
  {
    var s1 := NextCode(c, s, w, Sleep(ms)).value;
    SleepFateIff(c, n, s, w, ms, f, steps);
    AfterSleep(c, n, s, w, ms, f, steps);
    HangsIfLost(c, s1, Exec(c, s1, steps).value, f, v,
                Occupied(s.timers, s.clock + ms * TICKS_PER_MS) || ErasedIn(c, s1, steps, f));
  }

  // ----- Where stopping() can be trusted -----

  lemma LeftCarriesNone(x: Worker, f: nat)
    requires !T.Busy(x.phase) && !x.phase.Idle?
    ensures WorkerShare(x) == multiset{}
  {
  }

  lemma QuietCarriesNone(c: Config, s: State, f: nat)
    requires S.Inv(c, s) && S.Quiet(s) && forall w :: 0 <= w < |s.workers| ==> s.workers[w].term
    ensures OnWay(s, f) == 0
  {
    S.NobodyBusy(s);
    forall w | 0 <= w < |s.workers| ensures WorkerShare(s.workers[w]) == multiset{} {
      LeftCarriesNone(s.workers[w], f);
    }
    GatherEmpty(s.workers, WorkerShare);
  }

  /** As long as a resume is on its way, some worker has not terminated. */
  lemma SomeoneStays(c: Config, s: State, f: nat) returns (w: nat)
    requires S.Inv(c, s) && c.io && !c.outsiders && OnWay(s, f) > 0
    ensures w < |s.workers| && !s.workers[w].term
  {
    if forall w :: 0 <= w < |s.workers| ==> s.workers[w].term {
      QuietCarriesNone(c, s, f);
    } else {
      w :| 0 <= w < |s.workers| && !s.workers[w].term;
    }
  }

  lemma AloneQueued(s: State, f: nat)
    requires |s.workers| == 1 && s.timers == [] && OnWay(s, f) > 0
    requires s.workers[0].phase == Idle(NoTimers) || s.workers[0].phase == Idle(NoEvents)
    ensures s.tasks != []
  {
    GatherEmpty(s.workers, WorkerShare);
  }

  /** A single worker in the middle of stopping() will see the task that is queued. */
  lemma ReadsOn(c: Config, s: State, f: nat) returns (s': State)
    requires Lively(c, s) && S.Inv(c, s) && c.io && !c.atomic && S.Alone(c, s)
    requires f in c.solo && f in s.fibers && OnWay(s, f) > 0
    requires !s.workers[0].term && !Usable(s.workers[0])
    ensures Reaching(c, s, s', 0, f) && (Still(s, s', f) ==> Usable(s'.workers[0]))
  {
    assert S.Seen(s, s.workers[0].phase);
    AloneQueued(s, f);
    if s.workers[0].phase == Idle(NoTimers) {
      s' := WaitsLater(c, s, 0, f);
    } else {
      s' := IdleStep(c, s, 0, CheckStop, f);
    }
  }

  /** The worker that stays, past its reads if it is in the middle of them. */
  lemma BecomesUsable(c: Config, n: nat, s: State, f: nat) returns (s': State, w: nat)
    requires Lively(c, s) && S.Inv(c, s) && c.io && S.Trusted(c, n) && |s.workers| == n
    requires f in c.solo && f in s.fibers && OnWay(s, f) > 0
    ensures Reaching(c, s, s', w, f) && (Still(s, s', f) ==> Usable(s'.workers[w]))
  {
    w := SomeoneStays(c, s, f);
    if Usable(s.workers[w]) {
      PathStays(c, s, f);
      s' := s;
    } else {
      s' := ReadsOn(c, s, f);
    }
  }

  lemma IsWokenAnyhow(c: Config, n: nat, s: State, f: nat) returns (s': State)
    requires Lively(c, s) && S.Inv(c, s) && c.io && S.Trusted(c, n) && |s.workers| == n
    requires f in c.solo && f in s.fibers && OnWay(s, f) > 0 && s.fibers[f].log != [] && PositivePeriods(s.timers)
    ensures Path(c, s, s', f) && !Still(s, s', f)
  {
    var w;
    s', w := BecomesUsable(c, n, s, f);
    if Still(s, s', f) {
      var s1 := s';
      s' := IsWoken(c, s1, w, f);
      PathGoesOn(c, s, s1, s', f);
    }
  }

  /** Where stopping() can be trusted, nothing need be known of the workers: a sleeper is doomed to hang if
      and only if no resume of it is on its way. */
  lemma TrustedHangsIff(c: Config, n: nat, s: State, f: nat)
    requires n > 0 && c.io && S.Trusted(c, n) && Reachable(c, n, s)
    requires f in c.solo && f in s.fibers && s.fibers[f].log != [] && Awake(s, f) == 0 && PositivePeriods(s.timers)
    ensures HangsForever(c, s, f) <==> OnWay(s, f) == 0
  {
    ReachableLively(c, n, s);
    S.TrustedInv(c, n, s);
    if OnWay(s, f) == 0 {
      NoCreditHangs(c, s, f);
    } else {
      var s' := IsWokenAnyhow(c, n, s, f);
      PathEndsHang(c, s, s', f);
    }
  }

  lemma TrustedHangsIfLost(c: Config, n: nat, s1: State, s': State, f: nat, lost: bool)
    requires Lively(c, s') && S.Inv(c, s') && c.io && S.Trusted(c, n) && |s'.workers| == n
    requires f in c.solo && StillAsleep(s1, s', f) && SleepFate(c, s1, s', f, lost)
    ensures HangsForever(c, s', f) <==> lost
  {
    if !lost {
      var s2 := IsWokenAnyhow(c, n, s', f);
      PathEndsHang(c, s', s2, f);
    }
  }

  lemma TrustedAfterSleep(c: Config, n: nat, s: State, w: nat, ms: nat, f: nat, steps: seq<Step>)
    requires n > 0 && S.Trusted(c, n) && Reachable(c, n, s) && CanSleep(c, s, w, ms, f)
    requires Exec(c, NextCode(c, s, w, Sleep(ms)).value, steps).Some?
    ensures var s' := Exec(c, NextCode(c, s, w, Sleep(ms)).value, steps).value; S.Inv(c, s') && |s'.workers| == n
  {
    var s1 := NextCode(c, s, w, Sleep(ms)).value;
    S.TrustedInv(c, n, s);
    S.StepSound(c, s, Codes(w, Sleep(ms)));
    S.StepKeeps(c, s, Codes(w, Sleep(ms)));
    S.ExecSound(c, s1, steps);
    S.ExecKeeps(c, s1, steps);
  }

  /** Where stopping() can be trusted: of a sleep, whatever has happened since, no continuation resumes the
      fiber if and only if the deadline was taken or an erase has hit its timer while that was set. */
  lemma TrustedSleepHangsIff(c: Config, n: nat, s: State, w: nat, ms: nat, f: nat, steps: seq<Step>)
    requires n > 0 && S.Trusted(c, n) && Reachable(c, n, s) && f in c.solo && CanSleep(c, s, w, ms, f)
    requires Exec(c, NextCode(c, s, w, Sleep(ms)).value, steps).Some?
    requires var s1 := NextCode(c, s, w, Sleep(ms)).value; StillAsleep(s1, Exec(c, s1, steps).value, f)
    ensures var s1 := NextCode(c, s, w, Sleep(ms)).value;
      HangsForever(c, Exec(c, s1, steps).value, f) <==>
      (Occupied(s.timers, s.clock + ms * TICKS_PER_MS) || ErasedIn(c, s1, steps, f))
  {
    var s1 := NextCode(c, s, w, Sleep(ms)).value;
    SleepFateIff(c, n, s, w, ms, f, steps);
    AfterSleep(c, n, s, w, ms, f, steps);
    TrustedAfterSleep(c, n, s, w, ms, f, steps);
    TrustedHangsIfLost(c, n, s1, Exec(c, s1, steps).value, f,
                       Occupied(s.timers, s.clock + ms * TICKS_PER_MS) || ErasedIn(c, s1, steps, f));
  }
}
