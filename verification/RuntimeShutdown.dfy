/** What shutdown leaves behind: when the accepted tasks, the timers and the events are all dealt
    with before the last worker leaves, and when not. */
module RuntimeShutdown {
  import opened Options
  import opened Bags
  import opened Tasks
  import opened Runtime
  import opened RuntimeMoves
  import T = RuntimeTasks

  // ----- The pending counter -----

  /** Counted, while the bit is not set yet or not set any more. */
  predicate IsAhead(x: Worker) {
    || x.phase == Idle(Owing)
    || (x.phase.Executing? && x.phase.todo.InCall? && x.phase.todo.call.Adding?)
  }

  function AheadOf(x: Worker): multiset<bool> {
    if IsAhead(x) then multiset{true} else multiset{}
  }

  function CallAhead(call: Call): multiset<bool> {
    if call.Adding? then multiset{true} else multiset{}
  }

  function Ahead(s: State): nat {
    |Gather(s.workers, AheadOf)| + |Gather(s.calls, CallAhead)|
  }

  /** The counter is off from the registered waiters by what is in progress, and by the deletes of events
      that were not registered. */
  ghost predicate Balanced(s: State) {
    s.pending + s.strays == |s.registered| + Ahead(s)
  }

  lemma AheadTurns(s: State, w: nat, x: Worker)
    requires w < |s.workers|
    ensures |Gather(s.workers[w := x], AheadOf)| + One(IsAhead(s.workers[w]))
         == |Gather(s.workers, AheadOf)| + One(IsAhead(x))
  {
    GatherUpdate(s.workers, w, x, AheadOf);
    SumSize(Gather(s.workers[w := x], AheadOf), AheadOf(s.workers[w]), Gather(s.workers, AheadOf), AheadOf(x));
  }

  /** Worker w has moved; the counter makes up for the table and for its own progress. */
  ghost predicate Counts(s: State, s': State, w: nat) {
    && w < |s.workers| && |s'.workers| == |s.workers| && s'.workers == s.workers[w := s'.workers[w]]
    && s'.calls == s.calls && s'.strays == s.strays
    && s'.pending + |s.registered| + One(IsAhead(s.workers[w]))
       == s.pending + |s'.registered| + One(IsAhead(s'.workers[w]))
  }

  lemma CountsBalance(s: State, s': State, w: nat)
    requires Balanced(s) && Counts(s, s', w)
    ensures Balanced(s')
  {
    AheadTurns(s, w, s'.workers[w]);
  }

  lemma ActBalances(c: Config, s: State, act: Act)
    requires Balanced(s) && NextAct(c, s, act).Some?
    ensures Balanced(NextAct(c, s, act).value)
  {
    ActCounts(c, s, act);
  }

  lemma ActCounts(c: Config, s: State, act: Act)
    requires NextAct(c, s, act).Some?
    ensures var s' := NextAct(c, s, act).value;
      && s'.workers == s.workers && s'.calls == s.calls && s'.registered == s.registered
      && s'.pending + s'.strays == s.pending + s.strays
      && (c.guarded || s.registered == [] ==> s'.strays == s.strays)
  {
  }

  lemma RanCounts(s: State, s': State, w: nat, move: RunMove)
    requires Ran(s, s', w, move)
    ensures Counts(s, s', w)
  {
  }

  lemma CallingCounts(c: Config, s: State, w: nat, begin: Begin)
    requires w < |s.workers| && NextCalling(c, s, w, begin).Some?
    ensures Counts(s, NextCalling(c, s, w, begin).value, w)
  {
    var s1, phase := Counted(c, s, begin), s.workers[w].phase;
    BegunCounts(c, s, begin);
    CountedFrame(c, s, begin);
    assert NextCalling(c, s, w, begin).value == At(s1, w, phase.(todo := InCall(Begun(c, s, begin).value)));
  }

  lemma ReturnCounts(s: State, w: nat)
    requires w < |s.workers| && NextReturn(s, w).Some?
    ensures Counts(s, NextReturn(s, w).value, w)
  {
    var phase := s.workers[w].phase;
    CompletedCounts(At(s, w, phase.(todo := Nothing)), phase.todo.call);
  }

  lemma CodedCounts(s: State, s': State, w: nat, move: CodeMove)
    requires Coded(s, s', w, move) && !move.Calling? && !move.Return?
    ensures Counts(s, s', w)
  {
  }

  lemma CodeCounts(c: Config, s: State, w: nat, move: CodeMove)
    requires w < |s.workers| && NextCode(c, s, w, move).Some? && !move.Acting?
    ensures Counts(s, NextCode(c, s, w, move).value, w)
  {
    if move.Calling? {
      CallingCounts(c, s, w, move.begin);
    } else if move.Return? {
      ReturnCounts(s, w);
    } else {
      CodeCoded(c, s, w, move);
      CodedCounts(s, NextCode(c, s, w, move).value, w, move);
    }
  }

  lemma CodeBalances(c: Config, s: State, w: nat, move: CodeMove)
    requires Balanced(s) && w < |s.workers| && NextCode(c, s, w, move).Some?
    ensures Balanced(NextCode(c, s, w, move).value)
  {
    if move.Acting? {
      ActBalances(c, s, move.act);
    } else {
      CodeCounts(c, s, w, move);
      CountsBalance(s, NextCode(c, s, w, move).value, w);
    }
  }

  lemma ReportCounts(s: State, w: nat, i: nat)
    requires w < |s.workers| && NextReport(s, w, i).Some?
    ensures Counts(s, NextReport(s, w, i).value, w)
  {
  }

  lemma RepayCounts(s: State, w: nat)
    requires w < |s.workers| && NextRepay(s, w).Some?
    ensures Counts(s, NextRepay(s, w).value, w)
  {
  }

  lemma IdledCounts(c: Config, s: State, s': State, w: nat, move: IdleMove)
    requires Idled(c, s, s', w, move) && !move.Report? && !move.Repay?
    ensures Counts(s, s', w)
  {
  }

  lemma IdleCounts(c: Config, s: State, w: nat, move: IdleMove)
    requires w < |s.workers| && NextIdle(c, s, w, move).Some?
    ensures Counts(s, NextIdle(c, s, w, move).value, w)
  {
    match move
    case Report(i) => ReportCounts(s, w, i);
    case Repay => RepayCounts(s, w);
    case _ =>
      IdleIdled(c, s, w, move);
      IdledCounts(c, s, NextIdle(c, s, w, move).value, w, move);
  }

  lemma CallAppended(calls: seq<Call>, call: Call)
    ensures |Gather(calls + [call], CallAhead)| == |Gather(calls, CallAhead)| + One(call.Adding?)
  {
    GatherAppend(calls, call, CallAhead);
    SumSize(Gather(calls + [call], CallAhead), multiset{}, Gather(calls, CallAhead), CallAhead(call));
  }

  lemma CallRemoved(calls: seq<Call>, k: nat)
    requires k < |calls|
    ensures |Gather(calls, CallAhead)| == |Gather(calls[..k] + calls[k + 1..], CallAhead)| + One(calls[k].Adding?)
  {
    GatherSplit(calls, k, CallAhead);
    SumSize(Gather(calls, CallAhead), multiset{}, Gather(calls[..k] + calls[k + 1..], CallAhead), CallAhead(calls[k]));
  }

  lemma BegunCounts(c: Config, s: State, begin: Begin)
    requires Begun(c, s, begin).Some?
    ensures var s' := Counted(c, s, begin);
      && s'.workers == s.workers && s'.strays == s.strays
      && s'.pending + |s.registered| == s.pending + |s'.registered| + One(Begun(c, s, begin).value.Adding?)
  {
  }

  lemma CompletedCounts(s: State, call: Call)
    ensures var s' := Completed(s, call);
      && s'.workers == s.workers && s'.calls == s.calls && s'.pending == s.pending && s'.strays == s.strays
      && |s'.registered| == |s.registered| + One(call.Adding?)
  {
  }

  lemma OutsideCallBalances(c: Config, s: State, begin: Begin)
    requires Balanced(s) && Next(c, s, OutsideCall(begin)).Some?
    ensures Balanced(Next(c, s, OutsideCall(begin)).value)
  {
    BegunCounts(c, s, begin);
    CallAppended(s.calls, Begun(c, s, begin).value);
  }

  lemma OutsideReturnBalances(c: Config, s: State, k: nat)
    requires Balanced(s) && Next(c, s, OutsideReturn(k)).Some?
    ensures Balanced(Next(c, s, OutsideReturn(k)).value)
  {
    CompletedCounts(s.(calls := s.calls[..k] + s.calls[k + 1..]), s.calls[k]);
    CallRemoved(s.calls, k);
  }

  lemma StepBalances(c: Config, s: State, step: Step)
    requires Balanced(s) && Next(c, s, step).Some?
    ensures Balanced(Next(c, s, step).value)
  {
    match step
    case Runs(w, move) =>
      RunRan(s, w, move);
      RanCounts(s, Next(c, s, step).value, w, move);
      CountsBalance(s, Next(c, s, step).value, w);
    case Codes(w, move) => CodeBalances(c, s, w, move);
    case Idles(w, move) => IdleCounts(c, s, w, move); CountsBalance(s, Next(c, s, step).value, w);
    case Outside(act) => ActBalances(c, s, act);
    case OutsideCall(begin) => OutsideCallBalances(c, s, begin);
    case OutsideReturn(k) => OutsideReturnBalances(c, s, k);
    case Stop =>
    case Tick(d) =>
  }

  lemma StepStrays(c: Config, s: State, step: Step)
    requires Next(c, s, step).Some? && c.guarded
    ensures Next(c, s, step).value.strays == s.strays
  {
    match step
    case Runs(w, move) => RunRan(s, w, move);
    case Codes(w, move) =>
      if move.Acting? {
        ActCounts(c, s, move.act);
      } else {
        CodeCoded(c, s, w, move);
      }
    case Idles(w, move) => IdleIdled(c, s, w, move);
    case Outside(act) => ActCounts(c, s, act);
    case OutsideCall(begin) => BegunCounts(c, s, begin);
    case OutsideReturn(k) => CompletedCounts(s.(calls := s.calls[..k] + s.calls[k + 1..]), s.calls[k]);
    case _ =>
  }

  // ----- At rest -----

  /** When it is over: a plain scheduler as soon as one idle fiber has terminated, an IOManager when
      all have. */
  ghost predicate Over(c: Config, s: State) {
    if c.io then forall w :: 0 <= w < |s.workers| ==> s.workers[w].term
    else exists w :: 0 <= w < |s.workers| && s.workers[w].term
  }

  /** What stopping() is after. */
  predicate Quiet(s: State) {
    SchedulerStopping(s) && s.timers == [] && s.pending == 0
  }

  predicate NothingCollected(phase: Phase) {
    phase.Idle? ==> phase.at.Checking? || phase.at.Waiting?
  }

  /** A plain scheduler has no timers and no events. */
  ghost predicate Plain(s: State) {
    && s.timers == [] && s.registered == [] && s.calls == [] && s.pending == 0
    && forall w :: 0 <= w < |s.workers| ==> NothingCollected(s.workers[w].phase) && NotInCall(s.workers[w].phase)
  }

  predicate NotInCall(phase: Phase) {
    phase.Executing? ==> !phase.todo.InCall?
  }

  /** A terminated idle fiber is not resumed. */
  ghost predicate IdleFits(c: Config, s: State) {
    && (forall w :: 0 <= w < |s.workers| && s.workers[w].term ==> !s.workers[w].phase.Idle?)
    && (!c.io ==> Plain(s))
    && (!c.outsiders ==> s.calls == [] && !s.late)
  }

  /** What a single worker has seen in stopping() still holds if nobody else can call. */
  predicate Seen(s: State, phase: Phase) {
    phase.Idle? ==>
      && (phase.at.NoTimers? || phase.at.NoEvents? ==> s.timers == [])
      && (phase.at.NoEvents? ==> s.pending == 0)
  }

  predicate Alone(c: Config, s: State) {
    |s.workers| == 1 && !c.outsiders
  }

  ghost predicate SeenFits(c: Config, s: State) {
    if c.io && c.atomic then
      forall w :: 0 <= w < |s.workers| && s.workers[w].phase.Idle? ==>
        !s.workers[w].phase.at.NoTimers? && !s.workers[w].phase.at.NoEvents?
    else if c.io && Alone(c, s) then Seen(s, s.workers[0].phase)
    else true
  }

  /** The configurations in which stopping() can be trusted. */
  predicate Trusted(c: Config, n: nat) {
    !c.io || (c.guarded && !c.outsiders && (c.atomic || n == 1))
  }

  /** What holds in every configuration. */
  ghost predicate Sound(c: Config, s: State) {
    && T.Inv(s) && Balanced(s) && IdleFits(c, s) && (c.guarded ==> s.strays == 0)
    && (Over(c, s) && !s.late ==> SchedulerStopping(s))
  }

  ghost predicate Inv(c: Config, s: State) {
    Sound(c, s) && SeenFits(c, s) && (Over(c, s) && !s.late ==> Quiet(s))
  }

  lemma NobodyBusy(s: State)
    requires T.Accounted(s) && s.active == 0
    ensures T.InHand(s) == multiset{}
    ensures forall w :: 0 <= w < |s.workers| ==> !T.Busy(s.workers[w].phase)
  {
    GatherEmpty(s.workers, T.HandOf);
    forall w | 0 <= w < |s.workers| ensures !T.Busy(s.workers[w].phase) {
      assert T.HandOf(s.workers[w]) == multiset{};
    }
  }

  /** Once everything is at rest it stays so, unless a thread outside calls. */
  lemma QuietStays(c: Config, s: State, step: Step)
    requires SchedulerStopping(s) && Next(c, s, step).Some?
    requires forall w :: 0 <= w < |s.workers| ==> !T.Busy(s.workers[w].phase)
    requires forall w :: 0 <= w < |s.workers| && s.workers[w].phase.Idle? ==>
      !c.io && NothingCollected(s.workers[w].phase)
    ensures var s' := Next(c, s, step).value;
      s'.late || (SchedulerStopping(s') && (Quiet(s) ==> Quiet(s')))
  {
    match step
    case Runs(w, move) => assert !T.Busy(s.workers[w].phase);
    case Codes(w, move) =>
    case Idles(w, move) => assert !c.io && NothingCollected(s.workers[w].phase);
    case Outside(act) =>
    case _ => NobodyMoves(c, s, step);
  }

  /** Who moves in a step of a worker, and what becomes of its idle fiber. */
  ghost predicate WorkerMoves(c: Config, s: State, s': State, w: nat)
    requires w < |s.workers|
  {
    && |s'.workers| == |s.workers| && s'.workers == s.workers[w := s'.workers[w]]
    && (s'.workers[w].term ==> s.workers[w].term || s'.workers[w].phase.Scanning?)
    && (s'.workers[w].phase.Idle? ==>
          || s.workers[w].phase.Idle?
          || (s'.workers[w].phase == Idle(Checking) && !s.workers[w].term))
    && (!c.io && NothingCollected(s.workers[w].phase) ==> NothingCollected(s'.workers[w].phase))
    && s'.late == s.late && s'.calls == s.calls
  }

  lemma RanMoves(c: Config, s: State, s': State, w: nat, move: RunMove)
    requires Ran(s, s', w, move)
    ensures WorkerMoves(c, s, s', w) && NotInCall(s'.workers[w].phase)
  {
  }

  lemma RunMoves(c: Config, s: State, w: nat, move: RunMove)
    requires w < |s.workers| && NextRun(s, w, move).Some?
    ensures var s' := NextRun(s, w, move).value;
      && WorkerMoves(c, s, s', w) && s'.workers[w].term == s.workers[w].term && NotInCall(s'.workers[w].phase)
      && s'.timers == s.timers && s'.registered == s.registered && s'.pending == s.pending
  {
    RunRan(s, w, move);
    RanMoves(c, s, NextRun(s, w, move).value, w, move);
  }

  lemma ActNotLate(c: Config, s: State, act: Act)
    requires NextAct(c, s, act).Some?
    ensures NextAct(c, s, act).value.late == s.late
  {
  }

  lemma CodedMoves(c: Config, s: State, s': State, w: nat, move: CodeMove)
    requires Coded(s, s', w, move)
    ensures WorkerMoves(c, s, s', w) && s'.workers[w].term == s.workers[w].term
    ensures T.Busy(s.workers[w].phase) && T.Busy(s'.workers[w].phase)
  {
  }

  lemma CodeMoves(c: Config, s: State, w: nat, move: CodeMove)
    requires w < |s.workers| && NextCode(c, s, w, move).Some?
    ensures var s' := NextCode(c, s, w, move).value;
      && WorkerMoves(c, s, s', w) && s'.workers[w].term == s.workers[w].term
      && T.Busy(s.workers[w].phase) && T.Busy(s'.workers[w].phase)
  {
    if move.Acting? {
      T.ActHands(c, s, move.act);
      ActCounts(c, s, move.act);
      ActNotLate(c, s, move.act);
    } else {
      CodeCoded(c, s, w, move);
      CodedMoves(c, s, NextCode(c, s, w, move).value, w, move);
    }
  }

  lemma IdledMoves(c: Config, s: State, s': State, w: nat, move: IdleMove)
    requires Idled(c, s, s', w, move)
    ensures WorkerMoves(c, s, s', w)
  {
  }

  lemma IdleMoves(c: Config, s: State, w: nat, move: IdleMove)
    requires w < |s.workers| && NextIdle(c, s, w, move).Some?
    ensures WorkerMoves(c, s, NextIdle(c, s, w, move).value, w)
  {
    IdleIdled(c, s, w, move);
    IdledMoves(c, s, NextIdle(c, s, w, move).value, w, move);
  }

  lemma ActPlain(c: Config, s: State, act: Act)
    requires !c.io && Plain(s) && NextAct(c, s, act).Some?
    ensures Plain(NextAct(c, s, act).value)
  {
    T.ActHands(c, s, act);
    ActCounts(c, s, act);
    ActSetsNoTimer(c, s, act);
  }

  lemma ActSetsNoTimer(c: Config, s: State, act: Act)
    requires !c.io && s.timers == [] && NextAct(c, s, act).Some?
    ensures NextAct(c, s, act).value.timers == []
  {
  }

  lemma CallingNeedsIo(c: Config, s: State, w: nat, begin: Begin)
    requires !c.io && s.registered == [] && w < |s.workers|
    ensures NextCalling(c, s, w, begin).None?
  {
  }

  lemma SleepNeedsIo(c: Config, s: State, w: nat, ms: nat)
    requires !c.io && w < |s.workers|
    ensures NextSleep(c, s, w, ms).None?
  {
  }

  lemma OwnCodePlain(c: Config, s: State, w: nat, move: CodeMove)
    requires !c.io && Plain(s) && w < |s.workers| && NextCode(c, s, w, move).Some? && !move.Acting?
    ensures var s' := NextCode(c, s, w, move).value;
      s'.timers == [] && s'.registered == [] && s'.pending == 0 && w < |s'.workers| && NotInCall(s'.workers[w].phase)
  {
    assert NotInCall(s.workers[w].phase);
    CodeCoded(c, s, w, move);
    match move
    case Calling(begin) => CallingNeedsIo(c, s, w, begin);
    case Sleep(ms) => SleepNeedsIo(c, s, w, ms);
    case _ =>
  }

  lemma CodePlain(c: Config, s: State, w: nat, move: CodeMove)
    requires !c.io && Plain(s) && w < |s.workers| && NextCode(c, s, w, move).Some?
    ensures Plain(NextCode(c, s, w, move).value)
  {
    if move.Acting? {
      ActPlain(c, s, move.act);
    } else {
      CodeMoves(c, s, w, move);
      OwnCodePlain(c, s, w, move);
    }
  }

  lemma IdlePlain(c: Config, s: State, w: nat, move: IdleMove)
    requires !c.io && Plain(s) && w < |s.workers| && NextIdle(c, s, w, move).Some?
    ensures Plain(NextIdle(c, s, w, move).value)
  {
    assert NothingCollected(s.workers[w].phase);
    IdleIdled(c, s, w, move);
    IdledMoves(c, s, NextIdle(c, s, w, move).value, w, move);
  }

  lemma PlainStays(c: Config, s: State, step: Step)
    requires !c.io && Plain(s) && Next(c, s, step).Some?
    ensures Plain(Next(c, s, step).value)
  {
    match step
    case Runs(w, move) => RunMoves(c, s, w, move);
    case Codes(w, move) => CodePlain(c, s, w, move);
    case Idles(w, move) => IdlePlain(c, s, w, move);
    case Outside(act) => ActPlain(c, s, act);
    case _ => NobodyMoves(c, s, step);
  }

  lemma StepCalls(c: Config, s: State, step: Step)
    requires Next(c, s, step).Some? && !c.outsiders && s.calls == []
    ensures Next(c, s, step).value.calls == []
  {
    match step
    case Runs(w, move) => RunMoves(c, s, w, move);
    case Codes(w, move) => CodeMoves(c, s, w, move);
    case Idles(w, move) => IdleMoves(c, s, w, move);
    case _ =>
  }

  lemma StepIdleFits(c: Config, s: State, step: Step)
    requires IdleFits(c, s) && Next(c, s, step).Some?
    ensures IdleFits(c, Next(c, s, step).value)
  {
    if !c.io {
      PlainStays(c, s, step);
    }
    if !c.outsiders {
      StepCalls(c, s, step);
      StepLate(c, s, step);
    }
    match step
    case Runs(w, move) => RunMoves(c, s, w, move);
    case Codes(w, move) => CodeMoves(c, s, w, move);
    case Idles(w, move) => IdleMoves(c, s, w, move);
    case Outside(act) => T.ActHands(c, s, act);
    case _ => NobodyMoves(c, s, step);
  }

  lemma IdledSees(c: Config, s: State, s': State, w: nat, move: IdleMove)
    requires Idled(c, s, s', w, move) && Seen(s, s.workers[w].phase)
    ensures Seen(s', s'.workers[w].phase)
  {
  }

  lemma IdledAtomic(c: Config, s: State, s': State, w: nat, move: IdleMove)
    requires Idled(c, s, s', w, move) && c.atomic
    requires !s.workers[w].phase.at.NoTimers? && !s.workers[w].phase.at.NoEvents?
    ensures var phase := s'.workers[w].phase; phase.Idle? ==> !phase.at.NoTimers? && !phase.at.NoEvents?
  {
  }

  lemma IdleSeenFits(c: Config, s: State, w: nat, move: IdleMove)
    requires SeenFits(c, s) && w < |s.workers| && NextIdle(c, s, w, move).Some?
    ensures SeenFits(c, NextIdle(c, s, w, move).value)
  {
    var s' := NextIdle(c, s, w, move).value;
    IdleIdled(c, s, w, move);
    if c.io && c.atomic {
      IdledAtomic(c, s, s', w, move);
    } else if c.io && Alone(c, s) {
      IdledSees(c, s, s', w, move);
    }
  }

  lemma StepSeenFits(c: Config, s: State, step: Step)
    requires IdleFits(c, s) && SeenFits(c, s) && Next(c, s, step).Some?
    ensures SeenFits(c, Next(c, s, step).value)
  {
    match step
    case Runs(w, move) => RunMoves(c, s, w, move);
    case Codes(w, move) => CodeMoves(c, s, w, move);
    case Idles(w, move) => IdleSeenFits(c, s, w, move);
    case Outside(act) => T.ActHands(c, s, act);
    case _ => NobodyMoves(c, s, step);
  }

  lemma ConcludesStopping(c: Config, s: State, w: nat, move: IdleMove)
    requires w < |s.workers| && NextIdle(c, s, w, move).Some?
    requires var s' := NextIdle(c, s, w, move).value; w < |s'.workers| && s'.workers[w].term && !s.workers[w].term
    ensures SchedulerStopping(NextIdle(c, s, w, move).value)
  {
    assert move.CheckStop?;
  }

  /** The step in which an idle fiber terminates has found everything at rest. */
  lemma ConcludesQuiet(c: Config, s: State, w: nat, move: IdleMove)
    requires w < |s.workers| && NextIdle(c, s, w, move).Some? && IdleFits(c, s) && SeenFits(c, s)
    requires Trusted(c, |s.workers|)
    requires var s' := NextIdle(c, s, w, move).value; w < |s'.workers| && s'.workers[w].term && !s.workers[w].term
    ensures Quiet(NextIdle(c, s, w, move).value)
  {
    assert move.CheckStop?;
    assert !c.io ==> NothingCollected(s.workers[w].phase);
    if c.io && !c.atomic {
      assert w == 0 && Seen(s, s.workers[0].phase);
    }
  }

  lemma OverMonotone(c: Config, s: State, s': State)
    requires |s'.workers| == |s.workers| && Over(c, s')
    requires forall w :: 0 <= w < |s.workers| && s'.workers[w].term ==> s.workers[w].term
    ensures Over(c, s)
  {
  }

  lemma OverIsNew(c: Config, s: State, step: Step)
    requires Next(c, s, step).Some? && !Over(c, s) && Over(c, Next(c, s, step).value)
    ensures step.Idles? && step.w < |s.workers|
    ensures var s' := Next(c, s, step).value;
      step.w < |s'.workers| && s'.workers[step.w].term && !s.workers[step.w].term
  {
    var s' := Next(c, s, step).value;
    match step
    case Runs(w, move) => RunMoves(c, s, w, move); OverMonotone(c, s, s');
    case Codes(w, move) => CodeMoves(c, s, w, move); OverMonotone(c, s, s');
    case Idles(w, move) =>
      IdleMoves(c, s, w, move);
      if s'.workers[w].term ==> s.workers[w].term {
        OverMonotone(c, s, s');
      }
    case Outside(act) => T.ActHands(c, s, act);
    case _ => NobodyMoves(c, s, step);
  }

  lemma StepOver(c: Config, s: State, step: Step)
    requires Sound(c, s) && Next(c, s, step).Some?
    ensures var s' := Next(c, s, step).value; Over(c, s') && !s'.late ==> SchedulerStopping(s')
  {
    var s' := Next(c, s, step).value;
    if Over(c, s') && !s'.late {
      NeverLate(c, s, step);
      if Over(c, s) {
        NobodyBusy(s);
        QuietStays(c, s, step);
      } else {
        OverIsNew(c, s, step);
        ConcludesStopping(c, s, step.w, step.idle);
      }
    }
  }

  lemma StepQuiet(c: Config, s: State, step: Step)
    requires Inv(c, s) && Trusted(c, |s.workers|) && Next(c, s, step).Some?
    ensures var s' := Next(c, s, step).value; Over(c, s') && !s'.late ==> Quiet(s')
  {
    var s' := Next(c, s, step).value;
    if Over(c, s') && !s'.late {
      NeverLate(c, s, step);
      if Over(c, s) {
        NobodyBusy(s);
        QuietStays(c, s, step);
      } else {
        OverIsNew(c, s, step);
        ConcludesQuiet(c, s, step.w, step.idle);
      }
    }
  }

  lemma NeverLate(c: Config, s: State, step: Step)
    requires Next(c, s, step).Some? && !Next(c, s, step).value.late
    ensures !s.late
  {
    match step
    case Runs(w, move) => RunMoves(c, s, w, move);
    case Codes(w, move) => CodeMoves(c, s, w, move);
    case Idles(w, move) => IdleMoves(c, s, w, move);
    case Outside(act) =>
    case _ => NobodyMoves(c, s, step);
  }

  /** Without calls from outside nobody is late. */
  lemma StepLate(c: Config, s: State, step: Step)
    requires Next(c, s, step).Some? && !c.outsiders
    ensures Next(c, s, step).value.late == s.late
  {
    match step
    case Runs(w, move) => RunMoves(c, s, w, move);
    case Codes(w, move) => CodeMoves(c, s, w, move);
    case Idles(w, move) => IdleMoves(c, s, w, move);
    case _ =>
  }

  lemma StepSound(c: Config, s: State, step: Step)
    requires Sound(c, s) && Next(c, s, step).Some?
    ensures Sound(c, Next(c, s, step).value) && |Next(c, s, step).value.workers| == |s.workers|
  {
    T.StepKeeps(c, s, step);
    StepBalances(c, s, step);
    if c.guarded {
      StepStrays(c, s, step);
    }
    StepIdleFits(c, s, step);
    StepOver(c, s, step);
    T.SameCrew(c, s, step);
  }

  lemma StepKeeps(c: Config, s: State, step: Step)
    requires Inv(c, s) && Trusted(c, |s.workers|) && Next(c, s, step).Some?
    ensures Inv(c, Next(c, s, step).value)
  {
    StepSound(c, s, step);
    StepSeenFits(c, s, step);
    StepQuiet(c, s, step);
  }

  lemma {:induction false} ExecSound(c: Config, s: State, steps: seq<Step>)
    requires Sound(c, s) && Exec(c, s, steps).Some?
    ensures Sound(c, Exec(c, s, steps).value) && |Exec(c, s, steps).value.workers| == |s.workers|
    decreases steps
  {
    if steps != [] {
      StepSound(c, s, steps[0]);
      ExecSound(c, Next(c, s, steps[0]).value, steps[1..]);
    }
  }

  lemma {:induction false} ExecKeeps(c: Config, s: State, steps: seq<Step>)
    requires Inv(c, s) && Trusted(c, |s.workers|) && Exec(c, s, steps).Some?
    ensures Inv(c, Exec(c, s, steps).value)
    decreases steps
  {
    if steps != [] {
      StepSound(c, s, steps[0]);
      StepKeeps(c, s, steps[0]);
      ExecKeeps(c, Next(c, s, steps[0]).value, steps[1..]);
    }
  }

  lemma InitInv(c: Config, n: nat, calls: seq<nat>, clock: int)
    requires n > 0
    ensures Inv(c, Init(n, calls, clock))
  {
    var s := Init(n, calls, clock);
    T.InitInv(n, calls, clock);
    GatherEmpty(s.workers, AheadOf);
    assert !s.workers[0].term;
  }

  /** In every configuration and every run: when it is over, and no call from outside has begun or
      returned after stop(), every accepted task is done and the assertion in ~Scheduler holds. */
  lemma AcceptedTasksRun(c: Config, n: nat, s: State)
    requires n > 0 && Reachable(c, n, s)
    ensures Over(c, s) && !s.late ==>
      SchedulerStopping(s) && T.InHand(s) == multiset{} && multiset(s.accepted) == s.done
  {
    var calls, clock, steps :| Exec(c, Init(n, calls, clock), steps) == Some(s);
    InitInv(c, n, calls, clock);
    ExecSound(c, Init(n, calls, clock), steps);
    if Over(c, s) && !s.late {
      AllDone(s);
    }
  }

  /** In every configuration and every run the pending counter is the number of waiters that are registered
      and not about to be taken out, plus the calls and reports in progress that are counted, minus the
      deletes of events that were not registered. */
  lemma CounterInRuns(c: Config, n: nat, s: State)
    requires n > 0 && Reachable(c, n, s)
    ensures s.pending + s.strays == |s.registered| + Ahead(s) && (c.guarded ==> s.strays == 0)
  {
    var calls, clock, steps :| Exec(c, Init(n, calls, clock), steps) == Some(s);
    InitInv(c, n, calls, clock);
    ExecSound(c, Init(n, calls, clock), steps);
  }

  lemma AllDone(s: State)
    requires T.Accounted(s) && s.active == 0 && s.tasks == []
    ensures T.InHand(s) == multiset{} && multiset(s.accepted) == s.done
  {
    NobodyBusy(s);
    assert multiset(s.tasks) == multiset{};
    assert multiset(s.accepted) == s.done;
  }

  /** Nothing is left to do: every accepted task is done, no timer is set, no waiter is registered or in
      the hands of a call, and no callback is on its way from the timers to the scheduler. */
  ghost predicate AtRest(s: State) {
    && Quiet(s) && s.registered == [] && s.calls == [] && T.InHand(s) == multiset{} && multiset(s.accepted) == s.done
    && forall w :: 0 <= w < |s.workers| ==> NothingCollected(s.workers[w].phase)
  }

  /** Whatever the interleaving, when it is over everything is at rest; and as this is said of every
      state of every run, it stays so. Calls from outside that begin or return after stop() are not
      covered. */
  ghost predicate ShutdownSafe(c: Config, n: nat) {
    forall s :: Reachable(c, n, s) && Over(c, s) && !s.late ==> AtRest(s)
  }

  lemma OverAtRest(c: Config, s: State)
    requires Inv(c, s) && Trusted(c, |s.workers|) && Over(c, s) && !s.late
    ensures AtRest(s)
  {
    NobodyBusy(s);
    AllDone(s);
  }

  lemma TrustedInv(c: Config, n: nat, s: State)
    requires n > 0 && Trusted(c, n) && Reachable(c, n, s)
    ensures Inv(c, s) && |s.workers| == n
  {
    var calls, clock, steps :| Exec(c, Init(n, calls, clock), steps) == Some(s);
    InitInv(c, n, calls, clock);
    ExecSound(c, Init(n, calls, clock), steps);
    ExecKeeps(c, Init(n, calls, clock), steps);
  }

  lemma TrustedIsSafe(c: Config, n: nat)
    requires n > 0 && Trusted(c, n)
    ensures ShutdownSafe(c, n)
  {
    forall s | Reachable(c, n, s) && Over(c, s) && !s.late ensures AtRest(s) {
      TrustedInv(c, n, s);
      OverAtRest(c, s);
    }
  }
}
