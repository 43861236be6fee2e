/** What happens to the tasks over whole runs: each accepted task is taken once, in the order of its
    lane, by a thread it allows. */
module RuntimeTasks {
  import opened Options
  import opened Bags
  import opened Tasks
  import opened Runtime
  import opened RuntimeMoves
  import F = FiberModel
  import M = RuntimeMutex

  /** Counted active: from taking a task to being done with it. */
  predicate Busy(phase: Phase) {
    || phase.Took? || phase.Locked? || phase.Executing? || phase.Leaving?
    || phase.Ending? || phase.Switching? || phase.Back? || phase.Released?
  }

  /** The task a worker is counted active for. */
  function HandOf(x: Worker): multiset<Entry> {
    if Busy(x.phase) then multiset{x.phase.task} else multiset{}
  }

  function InHand(s: State): multiset<Entry> {
    Gather(s.workers, HandOf)
  }

  // ----- What a step does to the list -----

  const NO_JOB: (Job, int) := (Empty, ANY)

  function ActJob(s: State, act: Act): (Job, int) {
    match act
    case Submit(body, thread) => (body, thread)
    case Launch(f, thread) => (Resume(f), thread)
    case _ => NO_JOB
  }

  function CallJob(call: Call): (Job, int) {
    if call.Removing? && call.fire then (call.waiter, ANY) else NO_JOB
  }

  function CodeJob(s: State, phase: Phase, move: CodeMove): (Job, int) {
    match move
    case Acting(act) => ActJob(s, act)
    case Return => if phase.Executing? && phase.todo.InCall? then CallJob(phase.todo.call) else NO_JOB
    case RunWake => if phase.Executing? && phase.todo.Waking? then (Resume(phase.todo.f), ANY) else NO_JOB
    case _ => NO_JOB
  }

  function IdleJob(s: State, phase: Phase, move: IdleMove): (Job, int) {
    match move
    case Post =>
      if phase.Idle? && phase.at.Holding? && phase.at.cbs != [] then (JobOf(phase.at.cbs[0]), ANY) else NO_JOB
    case Report(i) => if i < |s.registered| then (s.registered[i], ANY) else NO_JOB
    case _ => NO_JOB
  }

  /** What a step hands to the scheduler. */
  function JobIn(s: State, step: Step): (Job, int) {
    match step
    case Codes(w, move) => if w < |s.workers| then CodeJob(s, s.workers[w].phase, move) else NO_JOB
    case Idles(w, move) => if w < |s.workers| then IdleJob(s, s.workers[w].phase, move) else NO_JOB
    case Outside(act) => ActJob(s, act)
    case OutsideReturn(k) => if k < |s.calls| then CallJob(s.calls[k]) else NO_JOB
    case _ => NO_JOB
  }

  predicate Handed(s: State, s': State, job: (Job, int)) {
    && s'.tasks == Submitted(s.tasks, job.0, job.1) && s'.accepted == Submitted(s.accepted, job.0, job.1)
    && s'.taken == s.taken && s'.takers == s.takers && s'.done == s.done && s'.active == s.active
  }

  /** Nobody but worker w has moved, and it has the task in hand that it had. */
  predicate SameHand(s: State, s': State, w: nat)
    requires w < |s.workers|
  {
    && |s'.workers| == |s.workers| && s'.workers == s.workers[w := s'.workers[w]]
    && Busy(s'.workers[w].phase) == Busy(s.workers[w].phase)
    && (Busy(s.workers[w].phase) ==> s'.workers[w].phase.task == s.workers[w].phase.task)
  }

  lemma ActHands(c: Config, s: State, act: Act)
    requires NextAct(c, s, act).Some?
    ensures var s' := NextAct(c, s, act).value; Handed(s, s', ActJob(s, act)) && s'.workers == s.workers
  {
  }

  lemma RanHands(s: State, s': State, w: nat, move: RunMove)
    requires Ran(s, s', w, move) && !move.Take? && !move.Finish?
    ensures Handed(s, s', NO_JOB) && SameHand(s, s', w)
  {
  }

  lemma ReturnHands(s: State, w: nat)
    requires w < |s.workers| && NextReturn(s, w).Some?
    ensures Handed(s, NextReturn(s, w).value, CallJob(s.workers[w].phase.todo.call))
  {
  }

  lemma RunWakeHands(s: State, w: nat)
    requires w < |s.workers| && NextRunWake(s, w).Some?
    ensures Handed(s, NextRunWake(s, w).value, CodeJob(s, s.workers[w].phase, RunWake))
  {
  }

  lemma CodedHand(s: State, s': State, w: nat, move: CodeMove)
    requires Coded(s, s', w, move)
    ensures SameHand(s, s', w)
    ensures move.Return? || move.RunWake? || Handed(s, s', CodeJob(s, s.workers[w].phase, move))
  {
  }

  lemma CodeHands(c: Config, s: State, w: nat, move: CodeMove)
    requires w < |s.workers| && NextCode(c, s, w, move).Some?
    ensures var s' := NextCode(c, s, w, move).value;
      Handed(s, s', CodeJob(s, s.workers[w].phase, move)) && SameHand(s, s', w)
  {
    if move.Acting? {
      ActHands(c, s, move.act);
    } else {
      CodeCoded(c, s, w, move);
      CodedHand(s, NextCode(c, s, w, move).value, w, move);
      if move.Return? {
        ReturnHands(s, w);
      } else if move.RunWake? {
        RunWakeHands(s, w);
      }
    }
  }

  lemma PostHands(s: State, w: nat)
    requires w < |s.workers| && NextPost(s, w).Some?
    ensures Handed(s, NextPost(s, w).value, IdleJob(s, s.workers[w].phase, Post))
  {
  }

  lemma ReportHands(s: State, w: nat, i: nat)
    requires w < |s.workers| && NextReport(s, w, i).Some?
    ensures Handed(s, NextReport(s, w, i).value, IdleJob(s, s.workers[w].phase, Report(i)))
  {
  }

  lemma IdledHand(c: Config, s: State, s': State, w: nat, move: IdleMove)
    requires Idled(c, s, s', w, move)
    ensures SameHand(s, s', w)
    ensures move.Post? || move.Report? || Handed(s, s', IdleJob(s, s.workers[w].phase, move))
  {
  }

  lemma IdleHands(c: Config, s: State, w: nat, move: IdleMove)
    requires w < |s.workers| && NextIdle(c, s, w, move).Some?
    ensures var s' := NextIdle(c, s, w, move).value;
      Handed(s, s', IdleJob(s, s.workers[w].phase, move)) && SameHand(s, s', w)
  {
    IdleIdled(c, s, w, move);
    IdledHand(c, s, NextIdle(c, s, w, move).value, w, move);
    if move.Post? {
      PostHands(s, w);
    } else if move.Report? {
      ReportHands(s, w, move.i);
    }
  }

  lemma BeginHands(c: Config, s: State, begin: Begin)
    requires Begun(c, s, begin).Some?
    ensures Handed(s, Counted(c, s, begin), NO_JOB) && Counted(c, s, begin).workers == s.workers
  {
  }

  lemma CompletedHands(s: State, call: Call)
    ensures Handed(s, Completed(s, call), CallJob(call)) && Completed(s, call).workers == s.workers
  {
  }

  lemma OutsideHands(c: Config, s: State, step: Step)
    requires Next(c, s, step).Some? && !step.Runs? && !step.Codes? && !step.Idles?
    ensures Handed(s, Next(c, s, step).value, JobIn(s, step)) && Next(c, s, step).value.workers == s.workers
  {
    match step
    case Outside(act) => ActHands(c, s, act);
    case OutsideCall(begin) => BeginHands(c, s, begin);
    case OutsideReturn(k) => CompletedHands(s.(calls := s.calls[..k] + s.calls[k + 1..]), s.calls[k]);
    case Stop =>
    case Tick(d) =>
  }

  lemma WorkerHands(c: Config, s: State, step: Step)
    requires Next(c, s, step).Some? && (step.Runs? || step.Codes? || step.Idles?)
    requires !(step.Runs? && (step.run.Take? || step.run.Finish?))
    ensures step.w < |s.workers|
    ensures Handed(s, Next(c, s, step).value, JobIn(s, step)) && SameHand(s, Next(c, s, step).value, step.w)
  {
    match step
    case Runs(w, move) => RunRan(s, w, move); RanHands(s, Next(c, s, step).value, w, move);
    case Codes(w, move) => CodeHands(c, s, w, move);
    case Idles(w, move) => IdleHands(c, s, w, move);
  }

  /** A step other than taking and finishing a task hands over at most one job and takes nothing. */
  lemma StepHands(c: Config, s: State, step: Step)
    requires Next(c, s, step).Some?
    requires !(step.Runs? && (step.run.Take? || step.run.Finish?))
    ensures var s' := Next(c, s, step).value; Handed(s, s', JobIn(s, step)) && InHand(s') == InHand(s)
  {
    if step.Runs? || step.Codes? || step.Idles? {
      WorkerHands(c, s, step);
      KeptInHand(s, Next(c, s, step).value, step.w);
    } else {
      OutsideHands(c, s, step);
    }
  }

  /** The step is one of worker w. */
  predicate MovedBy(step: Step, w: nat) {
    (step.Runs? || step.Codes? || step.Idles?) && step.w == w
  }

  lemma OthersStay(c: Config, s: State, step: Step, w: nat)
    requires Next(c, s, step).Some? && w < |s.workers| && !MovedBy(step, w)
    ensures var s' := Next(c, s, step).value; |s'.workers| == |s.workers| && s'.workers[w] == s.workers[w]
  {
    SameCrew(c, s, step);
    match step
    case Runs(v, move) => RunRan(s, v, move);
    case Codes(v, move) => CodeHands(c, s, v, move);
    case Idles(v, move) => IdleIdled(c, s, v, move);
    case Outside(act) => ActHands(c, s, act);
    case _ =>
  }

  lemma SameCrew(c: Config, s: State, step: Step)
    requires Next(c, s, step).Some?
    ensures |Next(c, s, step).value.workers| == |s.workers|
  {
    match step
    case Runs(w, move) => RunRan(s, w, move);
    case Codes(w, move) => CodeHands(c, s, w, move);
    case Idles(w, move) => IdleIdled(c, s, w, move);
    case Outside(act) => ActHands(c, s, act);
    case _ =>
  }

  lemma KeptInHand(s: State, s': State, w: nat)
    requires w < |s.workers| && SameHand(s, s', w)
    ensures InHand(s') == InHand(s)
  {
    GatherGains(s.workers, w, s'.workers[w], HandOf, multiset{});
  }

  lemma TakeHands(s: State, w: nat)
    requires w < |s.workers| && NextRun(s, w, Take).Some?
    ensures var s' := NextRun(s, w, Take).value; var i := FirstEligible(s.tasks, w);
      && i < |s.tasks| && s'.tasks == Without(s.tasks, i) && s'.taken == s.taken + [s.tasks[i]]
      && s'.takers == s.takers + [w] && s'.accepted == s.accepted && s'.done == s.done
      && s'.active == s.active + 1 && InHand(s') == InHand(s) + multiset{s.tasks[i]}
  {
    var i := FirstEligible(s.tasks, w);
    GatherGains(s.workers, w, s.workers[w].(phase := Took(s.tasks[i])), HandOf, multiset{s.tasks[i]});
  }

  lemma FinishHands(s: State, w: nat)
    requires w < |s.workers| && NextRun(s, w, Finish).Some?
    ensures var s' := NextRun(s, w, Finish).value;
      && s.workers[w].phase.Released? && s'.tasks == s.tasks && s'.accepted == s.accepted && s'.taken == s.taken
      && s'.takers == s.takers && s'.active == s.active - 1
      && s'.done == s.done + multiset{s.workers[w].phase.task}
      && InHand(s) == InHand(s') + multiset{s.workers[w].phase.task}
  {
    GatherLoses(s.workers, w, s.workers[w].(phase := Scanning), HandOf, multiset{s.workers[w].phase.task});
  }

  // ----- Exactly once -----

  /** Every accepted task is in the list or has been taken, and every taken one is in the hands of a
      worker or done. */
  ghost predicate Accounted(s: State) {
    && multiset(s.accepted) == multiset(s.tasks) + multiset(s.taken)
    && multiset(s.taken) == InHand(s) + s.done
    && s.active == |InHand(s)|
  }

  lemma TakenBags(accepted: multiset<Entry>, tasks: seq<Entry>, left: seq<Entry>, taken: seq<Entry>, t: Entry)
    requires accepted == multiset(tasks) + multiset(taken) && multiset(tasks) == multiset(left) + multiset{t}
    ensures accepted == multiset(left) + multiset(taken + [t])
    ensures multiset(taken + [t]) == multiset(taken) + multiset{t}
  {
  }

  lemma TakeAccounts(s: State, w: nat)
    requires Accounted(s) && w < |s.workers| && NextRun(s, w, Take).Some?
    ensures Accounted(NextRun(s, w, Take).value)
  {
    TakeHands(s, w);
    var s', t := NextRun(s, w, Take).value, s.tasks[FirstEligible(s.tasks, w)];
    WithoutBag(s.tasks, FirstEligible(s.tasks, w));
    TakenBags(multiset(s.accepted), s.tasks, s'.tasks, s.taken, t);
  }

  lemma FinishAccounts(s: State, w: nat)
    requires Accounted(s) && w < |s.workers| && NextRun(s, w, Finish).Some?
    ensures Accounted(NextRun(s, w, Finish).value)
  {
    FinishHands(s, w);
    assert |InHand(s)| == |InHand(NextRun(s, w, Finish).value)| + 1;
  }

  lemma StepAccounts(c: Config, s: State, step: Step)
    requires Accounted(s) && Next(c, s, step).Some?
    ensures Accounted(Next(c, s, step).value)
  {
    if step.Runs? && step.run.Take? {
      TakeAccounts(s, step.w);
    } else if step.Runs? && step.run.Finish? {
      FinishAccounts(s, step.w);
    } else {
      StepHands(c, s, step);
      SubmittedBags(s.accepted, s.tasks, multiset(s.taken), JobIn(s, step).0, JobIn(s, step).1);
    }
  }

  lemma SubmittedBags(accepted: seq<Entry>, tasks: seq<Entry>, taken: multiset<Entry>, body: Job, thread: int)
    requires multiset(accepted) == multiset(tasks) + taken
    ensures multiset(Submitted(accepted, body, thread)) == multiset(Submitted(tasks, body, thread)) + taken
  {
  }

  // ----- In order -----

  /** In every lane the tasks taken so far are the oldest of those accepted, and the rest waits in
      order. Whoever took a task was allowed to. */
  ghost predicate InOrder(s: State) {
    && |s.takers| == |s.taken|
    && (forall k :: 0 <= k < |s.taken| ==> Eligible(s.taken[k], s.takers[k]))
    && forall p :: InLane(s, p)
  }

  ghost predicate InLane(s: State, p: int) {
    Lane(s.accepted, p) == Lane(s.taken, p) + Lane(s.tasks, p)
  }

  lemma SubmittedLane(q: seq<Entry>, body: Job, thread: int, p: int)
    ensures Lane(Submitted(q, body, thread), p) == Lane(q, p) + Lane(Submitted([], body, thread), p)
  {
    if !body.Empty? {
      LaneConcat(q, [Task(body, thread)], p);
      assert Submitted([], body, thread) == [Task(body, thread)];
    }
  }

  lemma TakeInLane(s: State, w: nat, p: int)
    requires w < |s.workers| && NextRun(s, w, Take).Some? && InLane(s, p)
    ensures InLane(NextRun(s, w, Take).value, p)
  {
    TakeHands(s, w);
    TakesOldest(s.tasks, w, p);
    var t := s.tasks[FirstEligible(s.tasks, w)];
    LaneConcat(s.taken, [t], p);
    LaneOne(t, p);
  }

  lemma StepInLane(c: Config, s: State, step: Step, p: int)
    requires InLane(s, p) && Next(c, s, step).Some?
    ensures InLane(Next(c, s, step).value, p)
  {
    if step.Runs? && step.run.Take? {
      TakeInLane(s, step.w, p);
    } else if step.Runs? && step.run.Finish? {
      FinishHands(s, step.w);
    } else {
      StepHands(c, s, step);
      var job := JobIn(s, step);
      SubmittedLane(s.tasks, job.0, job.1, p);
      SubmittedLane(s.accepted, job.0, job.1, p);
    }
  }

  lemma StepInOrder(c: Config, s: State, step: Step)
    requires InOrder(s) && Next(c, s, step).Some?
    ensures InOrder(Next(c, s, step).value)
  {
    var s' := Next(c, s, step).value;
    if step.Runs? && step.run.Take? {
      TakeHands(s, step.w);
    } else if step.Runs? && step.run.Finish? {
      FinishHands(s, step.w);
    } else {
      StepHands(c, s, step);
    }
    forall p ensures InLane(s', p) {
      assert InLane(s, p);
      StepInLane(c, s, step, p);
    }
  }

  // ----- No empty task -----

  lemma StepNoneEmpty(c: Config, s: State, step: Step)
    requires NoneEmpty(s.tasks) && Next(c, s, step).Some?
    ensures NoneEmpty(Next(c, s, step).value.tasks)
  {
    if step.Runs? && step.run.Take? {
      TakeHands(s, step.w);
    } else if step.Runs? && step.run.Finish? {
      FinishHands(s, step.w);
    } else {
      StepHands(c, s, step);
    }
  }

  // ----- Runs -----

  ghost predicate Inv(s: State) {
    M.Inv(s) && NoneEmpty(s.tasks) && Accounted(s) && InOrder(s)
  }

  lemma StepKeeps(c: Config, s: State, step: Step)
    requires Inv(s) && Next(c, s, step).Some?
    ensures Inv(Next(c, s, step).value)
  {
    M.StepKeeps(c, s, step);
    StepNoneEmpty(c, s, step);
    StepAccounts(c, s, step);
    StepInOrder(c, s, step);
  }

  lemma {:induction false} ExecKeeps(c: Config, s: State, steps: seq<Step>)
    requires Inv(s) && Exec(c, s, steps).Some?
    ensures Inv(Exec(c, s, steps).value)
    decreases steps
  {
    if steps != [] {
      StepKeeps(c, s, steps[0]);
      ExecKeeps(c, Next(c, s, steps[0]).value, steps[1..]);
    }
  }

  lemma InitInv(n: nat, calls: seq<nat>, clock: int)
    ensures Inv(Init(n, calls, clock))
  {
    var s := Init(n, calls, clock);
    GatherEmpty(s.workers, HandOf);
    forall p ensures InLane(s, p) {
      assert Lane(s.taken, p) == [];
    }
  }

  lemma ReachableInv(c: Config, n: nat, s: State)
    requires Reachable(c, n, s)
    ensures Inv(s)
  {
    var calls, clock, steps :| Exec(c, Init(n, calls, clock), steps) == Some(s);
    InitInv(n, calls, clock);
    ExecKeeps(c, Init(n, calls, clock), steps);
  }

  /** In every run a fiber is in the hands of one worker at most, and it is running exactly when it is
      being executed, by a worker that holds its mutex. */
  lemma MutualExclusion(c: Config, n: nat, s: State, f: nat)
    requires Reachable(c, n, s)
    ensures forall v, w :: 0 <= v < w < |s.workers| && M.Owned(s.workers[v].phase) == Some(f) ==>
      M.Owned(s.workers[w].phase) != Some(f)
    ensures f in s.fibers ==>
      (s.fibers[f].state == F.Running <==>
        exists w :: 0 <= w < |s.workers| && s.fibers[f].holder == Some(w)
          && M.Executes(s.workers[w].phase) && s.workers[w].phase.f == f)
  {
    ReachableInv(c, n, s);
    assert forall w :: 0 <= w < |s.workers| ==> M.WorkerFits(s.workers[w].phase, w, s.fibers);
    if f in s.fibers {
      assert M.FiberFits(f, s.fibers[f], s.workers);
    }
  }

  /** In every run each accepted task is waiting, in hand or done, and only once; the active count is
      the number of tasks in hand; and lane by lane tasks are taken in the order in which they were
      accepted, by threads they allow. */
  lemma EachTaskOnce(c: Config, n: nat, s: State, p: int)
    requires Reachable(c, n, s)
    ensures multiset(s.accepted) == multiset(s.tasks) + InHand(s) + s.done
    ensures s.active == |InHand(s)|
    ensures Lane(s.accepted, p) == Lane(s.taken, p) + Lane(s.tasks, p) && multiset(s.taken) == InHand(s) + s.done
    ensures |s.takers| == |s.taken| && forall k :: 0 <= k < |s.taken| ==> Eligible(s.taken[k], s.takers[k])
  {
    ReachableInv(c, n, s);
    assert InLane(s, p);
  }
}
