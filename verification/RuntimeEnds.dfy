/** How it ends: the verdict of stopping(), and when all workers of a scheduler can still come to leave, so
    that stop() can be done joining them. */
module RuntimeEnds {
  import opened Options
  import opened Bags
  import opened Tasks
  import opened DeadlineSet
  import Drain
  import opened Runtime
  import opened RuntimeMoves
  import opened RuntimeJobs
  import opened RuntimeWakes
  import M = RuntimeMutex
  import S = RuntimeShutdown
  import T = RuntimeTasks

  // ----- The verdict of stopping() -----

  /** Nothing is left to wait for. */
  predicate Finished(c: Config, s: State) {
    s.stopping && s.tasks == [] && s.active == 0 && (c.io ==> s.timers == [] && s.pending == 0)
  }

  /** What a worker does at the top of its idle loop, as far as the loop lets it. */
  function Checks(c: Config, s: State, w: nat): seq<Step> {
    if !c.io || c.atomic then [Idles(w, CheckStop)]
    else if s.timers != [] then [Idles(w, CheckTimers)]
    else if s.pending != 0 then [Idles(w, CheckTimers), Idles(w, CheckEvents)]
    else [Idles(w, CheckTimers), Idles(w, CheckEvents), Idles(w, CheckStop)]
  }

  /** There it has no other move than the first of them. */
  lemma CheckIsNext(c: Config, s: State, w: nat, step: Step)
    requires w < |s.workers| && s.workers[w].phase == Idle(Checking) && T.MovedBy(step, w)
    ensures Next(c, s, step).Some? <==> step == Checks(c, s, w)[0]
  {
  }

  lemma OneCheck(c: Config, s: State, step: Step)
    requires Next(c, s, step).Some?
    ensures Exec(c, s, [step]) == Next(c, s, step)
  {
    assert Exec(c, Next(c, s, step).value, [step][1..]) == Next(c, s, step);
  }

  lemma MoreChecks(c: Config, s: State, step: Step, more: seq<Step>)
    requires Next(c, s, step).Some?
    ensures Exec(c, s, [step] + more) == Exec(c, Next(c, s, step).value, more)
  {
    assert ([step] + more)[1..] == more;
  }

  /** The verdict on worker w. */
  function Judged(s: State, w: nat, over: bool): State
    requires w < |s.workers|
  {
    s.(workers := s.workers[w := if over then Worker(Scanning, true) else s.workers[w].(phase := Idle(Waiting))])
  }

  /** If nobody comes in between, its idle fiber terminates exactly when stop() has been called, the list is
      empty and nobody is active, and for an IOManager no timer is set and no event is pending; otherwise it
      goes on to wait. Nothing else changes. */
  lemma VerdictIff(c: Config, s: State, w: nat)
    requires w < |s.workers| && s.workers[w].phase == Idle(Checking)
    ensures Exec(c, s, Checks(c, s, w)) == Some(Judged(s, w, Finished(c, s)))
  {
    if !c.io || c.atomic {
      OneCheck(c, s, Idles(w, CheckStop));
    } else if s.timers != [] {
      OneCheck(c, s, Idles(w, CheckTimers));
    } else {
      var s1, more := At(s, w, Idle(NoTimers)), Checks(c, s, w)[1..];
      MoreChecks(c, s, Idles(w, CheckTimers), more);
      assert Checks(c, s, w) == [Idles(w, CheckTimers)] + more;
      if s.pending != 0 {
        OneCheck(c, s1, Idles(w, CheckEvents));
        assert more == [Idles(w, CheckEvents)];
      } else {
        LastRead(c, s1, w);
        assert more == [Idles(w, CheckEvents)] + [Idles(w, CheckStop)];
      }
      JudgedOnce(s, w, NoTimers);
    }
  }

  lemma LastRead(c: Config, s: State, w: nat)
    requires w < |s.workers| && s.workers[w].phase == Idle(NoTimers) && s.pending == 0
    ensures Exec(c, s, [Idles(w, CheckEvents)] + [Idles(w, CheckStop)])
         == Some(Judged(s, w, s.stopping && s.tasks == [] && s.active == 0))
  {
    var s1 := At(s, w, Idle(NoEvents));
    MoreChecks(c, s, Idles(w, CheckEvents), [Idles(w, CheckStop)]);
    OneCheck(c, s1, Idles(w, CheckStop));
    JudgedOnce(s, w, NoEvents);
  }

  lemma JudgedOnce(s: State, w: nat, at: IdleAt)
    requires w < |s.workers|
    ensures forall over :: Judged(At(s, w, Idle(at)), w, over) == Judged(s, w, over)
  {
  }

  /** If others do come in between, each read sees what is there when it is made. */
  lemma ReadsIff(c: Config, s: State, w: nat)
    requires w < |s.workers|
    ensures s.workers[w].phase == Idle(Checking) && c.io && !c.atomic ==>
      Next(c, s, Idles(w, CheckTimers)) == Some(At(s, w, Idle(if s.timers == [] then NoTimers else Waiting)))
    ensures s.workers[w].phase == Idle(NoTimers) ==>
      Next(c, s, Idles(w, CheckEvents)) == Some(At(s, w, Idle(if s.pending == 0 then NoEvents else Waiting)))
    ensures s.workers[w].phase == Idle(NoEvents) ==>
      Next(c, s, Idles(w, CheckStop)) == Some(Judged(s, w, s.stopping && s.tasks == [] && s.active == 0))
  {
  }

  // ----- Going on -----

  /** What holds in every state of every run. */
  ghost predicate Fit(c: Config, s: State) {
    Lively(c, s) && S.Sound(c, s)
  }

  ghost predicate Onward(c: Config, s: State, s': State) {
    Reaches(c, s, s') && Fit(c, s')
  }

  lemma OnwardOn(c: Config, s: State, s1: State, s2: State)
    requires Onward(c, s, s1) && Onward(c, s1, s2)
    ensures Onward(c, s, s2)
  {
    GoesOn(c, s, s1, s2);
  }

  lemma Steps(c: Config, s: State, step: Step) returns (s': State)
    requires Fit(c, s) && Next(c, s, step).Some?
    ensures Next(c, s, step) == Some(s') && Onward(c, s, s')
  {
    s' := Goes(c, s, step);
    StepLively(c, s, step);
    S.StepSound(c, s, step);
  }

  lemma StepsOn(c: Config, s: State, steps: seq<Step>) returns (s': State)
    requires Fit(c, s) && Exec(c, s, steps).Some?
    ensures Exec(c, s, steps) == Some(s') && Onward(c, s, s')
  {
    s' := Exec(c, s, steps).value;
    ExecLively(c, s, steps);
    S.ExecSound(c, s, steps);
  }

  lemma StaysOn(c: Config, s: State)
    requires Fit(c, s)
    ensures Onward(c, s, s)
  {
    assert Exec(c, s, []) == Some(s);
  }

  ghost predicate SomeoneFor(workers: seq<Worker>, t: Entry) {
    exists w :: 0 <= w < |workers| && !workers[w].phase.Gone? && Eligible(t, w)
  }

  /** Every task that waits has a worker that may take it and has not left. */
  ghost predicate Served(s: State) {
    forall t :: t in s.tasks ==> SomeoneFor(s.workers, t)
  }

  ghost predicate AllTerminated(s: State) {
    forall w :: 0 <= w < |s.workers| ==> s.workers[w].term
  }

  ghost predicate AllGone(s: State) {
    forall w :: 0 <= w < |s.workers| ==> s.workers[w].phase.Gone? && s.workers[w].term
  }

  ghost predicate NoneRecurring(q: seq<Alarm>) {
    forall a :: a in q ==> !a.recurring
  }

  /** Nobody has left, nobody has been revived, no timer and no stray delete has come, and whatever task has
      come is for any thread. */
  ghost predicate Crew(s: State, s': State) {
    && |s'.workers| == |s.workers| && s'.strays == s.strays
    && (forall w :: 0 <= w < |s.workers| ==> (s'.workers[w].phase.Gone? <==> s.workers[w].phase.Gone?))
    && (forall w :: 0 <= w < |s.workers| && s.workers[w].term ==> s'.workers[w].term)
    && (forall t :: t in s'.tasks ==> t in s.tasks || t.thread == ANY)
    && AllFrom(s.timers, s'.timers)
  }

  lemma CrewOn(s: State, s1: State, s2: State)
    requires Crew(s, s1) && Crew(s1, s2)
    ensures Crew(s, s2)
  {
    AllFromOn(s.timers, s1.timers, s2.timers);
  }

  lemma CrewStays(s: State)
    ensures Crew(s, s)
  {
    AllFromSelf(s.timers);
  }

  lemma FromPositive(q: seq<Alarm>, q': seq<Alarm>)
    requires AllFrom(q, q') && PositivePeriods(q)
    ensures PositivePeriods(q')
  {
    forall a | a in q' && a.recurring ensures a.ms > 0 {
      var b :| b in q && SameTimer(a, b);
    }
  }

  lemma FromNothing(q: seq<Alarm>)
    requires AllFrom([], q)
    ensures q == []
  {
    if q != [] {
      FirstComes(q, []);
    }
  }

  lemma FirstComes(q: seq<Alarm>, r: seq<Alarm>)
    requires q != [] && AllFrom(r, q)
    ensures r != []
  {
    assert ComesFrom(q[0], r);
  }

  lemma ServedStays(s: State, s': State, u: nat)
    requires Crew(s, s') && Served(s) && u < |s.workers| && !s.workers[u].phase.Gone?
    ensures Served(s')
  {
    forall t | t in s'.tasks ensures SomeoneFor(s'.workers, t) {
      if t in s.tasks {
        var w :| 0 <= w < |s.workers| && !s.workers[w].phase.Gone? && Eligible(t, w);
        assert !s'.workers[w].phase.Gone?;
      } else {
        assert !s'.workers[u].phase.Gone? && Eligible(t, u);
      }
    }
  }

  // ----- Everybody back to the scan -----

  /** No worker is in the middle of an event call. */
  ghost predicate NoneCalling(s: State) {
    forall w :: 0 <= w < |s.workers| ==> S.NotInCall(s.workers[w].phase)
  }

  /** Nor is anybody outside; the table stays as it is. */
  ghost predicate Keeps(s: State, s': State) {
    && Crew(s, s') && s'.calls == s.calls
    && (NoneCalling(s) ==> NoneCalling(s') && s'.registered == s.registered)
  }

  lemma KeepsOn(s: State, s1: State, s2: State)
    requires Keeps(s, s1) && Keeps(s1, s2)
    ensures Keeps(s, s2)
  {
    CrewOn(s, s1, s2);
  }

  /** How many moves of its idle loop a worker is away from its scan. */
  function IdleRank(x: Worker): nat {
    match Settled(x.phase)
    case Idle(Checking) => 6
    case Idle(NoTimers) => 5
    case Idle(NoEvents) => 4
    case Idle(Waiting) => 3
    case Idle(Owing) => 2
    case Idle(Holding(_)) => 1
    case _ => 0
  }

  function Idling(s: State): nat {
    Sum(s.workers, IdleRank)
  }

  lemma KeepsOne(s: State, s': State, w: nat)
    requires Turned(s, s', w) && SameFrame(s, s')
    requires s'.workers[w].phase.Gone? <==> s.workers[w].phase.Gone?
    requires s.workers[w].term ==> s'.workers[w].term
    requires forall t :: t in s'.tasks ==> t in s.tasks || t.thread == ANY
    requires AllFrom(s.timers, s'.timers)
    requires S.NotInCall(s.workers[w].phase) ==> S.NotInCall(s'.workers[w].phase) && s'.registered == s.registered
    ensures Keeps(s, s')
  {
    if NoneCalling(s) {
      forall v | 0 <= v < |s'.workers| ensures S.NotInCall(s'.workers[v].phase) {
        assert S.NotInCall(s.workers[v].phase);
      }
    }
  }

  lemma AdvanceKeeps(s: State, s': State, w: nat)
    requires Advances(s, s', w) && SameFrame(s, s') && Laden(s.workers[w].phase)
    requires S.NotInCall(s.workers[w].phase) ==> S.NotInCall(s'.workers[w].phase) && s'.registered == s.registered
    ensures Keeps(s, s') && Idling(s') == Idling(s)
  {
    AllFromSelf(s.timers);
    KeepsOne(s, s', w);
    SumUpdate(s.workers, w, s'.workers[w], IdleRank);
  }

  lemma MoveFrame(c: Config, s: State, w: nat, g: nat)
    requires Movable(s, w) && Next(c, s, MoveOf(s, w, g)).Some?
    ensures var s' := Next(c, s, MoveOf(s, w, g)).value;
      && SameFrame(s, s') && w < |s'.workers|
      && (S.NotInCall(s.workers[w].phase) ==> S.NotInCall(s'.workers[w].phase) && s'.registered == s.registered)
  {
    match MoveOf(s, w, g)
    case Runs(v, move) => RunRan(s, v, move);
    case Codes(v, move) => CodeCoded(c, s, v, move);
    case Idles(v, move) => IdleIdled(c, s, v, move);
  }

  lemma MovesOn(c: Config, s: State, v: nat) returns (s': State)
    requires Fit(c, s) && v < |s.workers| && Laden(s.workers[v].phase)
    ensures Onward(c, s, s') && Keeps(s, s')
    ensures Idling(s') == Idling(s) && Load(s') <= Load(s) && Effort(s') < Effort(s)
  {
    var w := SomeoneMoves(c, s, v);
    var g := FreshFiber(s.fibers);
    s' := MovesWorker(c, s, w, g);
  }

  lemma MovesWorker(c: Config, s: State, w: nat, g: nat) returns (s': State)
    requires Fit(c, s) && Movable(s, w) && g !in s.fibers
    ensures Next(c, s, MoveOf(s, w, g)) == Some(s') && Onward(c, s, s') && Keeps(s, s')
    ensures Idling(s') == Idling(s) && Load(s') <= Load(s) && Effort(s') < Effort(s)
  {
    CanMove(c, s, w, g);
    s' := Steps(c, s, MoveOf(s, w, g));
    MoveAdvances(c, s, w, g);
    AdvanceCounts(s, s', w);
    MoveFrame(c, s, w, g);
    AdvanceKeeps(s, s', w);
  }

  lemma TakesOn(c: Config, s: State, v: nat) returns (s': State)
    requires Fit(c, s) && v < |s.workers| && NextTake(s, v).Some?
    ensures Next(c, s, Runs(v, Take)) == Some(s') && Onward(c, s, s') && Keeps(s, s')
    ensures Idling(s') == Idling(s) && Load(s') < Load(s)
  {
    s' := Steps(c, s, Runs(v, Take));
    TakeCounts(s, v);
    TakeKeeps(s, v);
  }

  lemma TakeKeeps(s: State, v: nat)
    requires v < |s.workers| && NextTake(s, v).Some?
    ensures Keeps(s, NextTake(s, v).value) && Idling(NextTake(s, v).value) == Idling(s)
  {
    var s' := NextTake(s, v).value;
    RunRan(s, v, Take);
    T.TakeHands(s, v);
    AllFromSelf(s.timers);
    KeepsOne(s, s', v);
    SumUpdate(s.workers, v, s'.workers[v], IdleRank);
  }

  /** The next move of an idle loop with nothing in hand. */
  function IdleMoveOf(c: Config, s: State, at: IdleAt): IdleMove {
    match at
    case Checking => if c.io && !c.atomic then CheckTimers else CheckStop
    case NoTimers => CheckEvents
    case NoEvents => CheckStop
    case Waiting => if c.io then Collect(s.clock) else Leave
    case Holding(_) => Leave
    case Owing => Repay
  }

  lemma CanIdle(c: Config, s: State, w: nat)
    requires w < |s.workers| && s.workers[w].phase.Idle? && !Laden(s.workers[w].phase)
    requires Ascending(s.timers) && PositivePeriods(s.timers)
    ensures NextIdle(c, s, w, IdleMoveOf(c, s, s.workers[w].phase.at)).Some?
  {
    Drain.UsualTermination(s.timers, s.clock, false);
    Drain.TerminatesIff(s.timers, s.clock, false);
  }

  lemma IdleTimers(c: Config, s: State, w: nat, move: IdleMove)
    requires w < |s.workers| && NextIdle(c, s, w, move).Some?
    ensures AllFrom(s.timers, NextIdle(c, s, w, move).value.timers)
  {
    if move.Collect? {
      DrainAllFrom(Drain.State(s.timers, [], []), move.now);
    } else {
      IdleIdled(c, s, w, move);
      AllFromSelf(s.timers);
    }
  }

  lemma RepayTable(s: State, w: nat)
    requires w < |s.workers| && NextRepay(s, w).Some?
    ensures NextRepay(s, w).value.registered == s.registered
  {
  }

  lemma IdlesOn(c: Config, s: State, w: nat) returns (s': State)
    requires Fit(c, s) && PositivePeriods(s.timers)
    requires w < |s.workers| && s.workers[w].phase.Idle? && !Laden(s.workers[w].phase)
    ensures Onward(c, s, s') && Keeps(s, s') && Idling(s') < Idling(s)
  {
    CanIdle(c, s, w);
    var move := IdleMoveOf(c, s, s.workers[w].phase.at);
    s' := Steps(c, s, Idles(w, move));
    IdleIdled(c, s, w, move);
    IdleTimers(c, s, w, move);
    if move.Repay? {
      RepayTable(s, w);
    }
    IdledKeeps(c, s, s', w);
  }

  lemma IdledRanks(c: Config, s: State, x: Worker, x': Worker)
    requires x.phase.Idle? && !Laden(x.phase) && IdleTurn(c, s, x, x', IdleMoveOf(c, s, x.phase.at))
    ensures IdleRank(x') < IdleRank(x) && !x'.phase.Gone? && (x.term ==> x'.term) && S.NotInCall(x'.phase)
  {
  }

  lemma IdledKeeps(c: Config, s: State, s': State, w: nat)
    requires w < |s.workers| && s.workers[w].phase.Idle? && !Laden(s.workers[w].phase)
    requires Idled(c, s, s', w, IdleMoveOf(c, s, s.workers[w].phase.at))
    requires AllFrom(s.timers, s'.timers) && s'.registered == s.registered
    ensures Keeps(s, s') && Idling(s') < Idling(s)
  {
    IdledRanks(c, s, s.workers[w], s'.workers[w]);
    KeepsOne(s, s', w);
    SumUpdate(s.workers, w, s'.workers[w], IdleRank);
  }

  /** Every worker scans in vain or has left. */
  ghost predicate Resting(s: State) {
    forall w :: 0 <= w < |s.workers| ==>
      s.workers[w].phase.Gone? || (s.workers[w].phase.Scanning? && FirstEligible(s.tasks, w) == |s.tasks|)
  }

  lemma CloserToRest(c: Config, s: State) returns (s': State)
    requires Fit(c, s) && PositivePeriods(s.timers) && !Resting(s)
    ensures Onward(c, s, s') && Keeps(s, s')
    ensures Idling(s') < Idling(s) || (Idling(s') == Idling(s)
      && (Load(s') < Load(s) || (Load(s') == Load(s) && Effort(s') < Effort(s))))
  {
    var w :| 0 <= w < |s.workers| && !s.workers[w].phase.Gone?
      && !(s.workers[w].phase.Scanning? && FirstEligible(s.tasks, w) == |s.tasks|);
    if Laden(s.workers[w].phase) {
      s' := MovesOn(c, s, w);
    } else if s.workers[w].phase.Scanning? {
      s' := TakesOn(c, s, w);
    } else {
      s' := IdlesOn(c, s, w);
    }
  }

  /** From any state the workers can get on with their work until all of them scan in vain. */
  lemma {:induction false} AllScan(c: Config, s: State) returns (s': State)
    requires Fit(c, s) && PositivePeriods(s.timers)
    ensures Onward(c, s, s') && Keeps(s, s') && Resting(s')
    decreases Idling(s), Load(s), Effort(s)
  {
    if Resting(s) {
      StaysOn(c, s);
      CrewStays(s);
      s' := s;
    } else {
      var s1 := CloserToRest(c, s);
      FromPositive(s.timers, s1.timers);
      s' := AllScan(c, s1);
      OnwardOn(c, s, s1, s');
      KeepsOn(s, s1, s');
    }
  }

  lemma NobodyFor(s: State, t: Entry)
    requires Resting(s) && t in s.tasks
    ensures !SomeoneFor(s.workers, t)
  {
    forall w | 0 <= w < |s.workers| && !s.workers[w].phase.Gone? ensures !Eligible(t, w) {
      assert FirstEligible(s.tasks, w) == |s.tasks|;
    }
  }

  lemma NothingWaits(s: State)
    requires Resting(s) && Served(s)
    ensures s.tasks == []
  {
    if s.tasks != [] {
      NobodyFor(s, s.tasks[0]);
    }
  }

  lemma NobodyActive(s: State)
    requires Resting(s) && T.Accounted(s)
    ensures s.active == 0
  {
    GatherEmpty(s.workers, T.HandOf);
  }

  // ----- Calls from outside return -----

  lemma ReturnsOn(c: Config, s: State) returns (s': State)
    requires Fit(c, s) && s.calls != []
    ensures Onward(c, s, s') && Crew(s, s') && |s'.calls| < |s.calls|
  {
    ReturnCrew(c, s);
    s' := Steps(c, s, OutsideReturn(0));
  }

  lemma ReturnCrew(c: Config, s: State)
    requires c.outsiders && s.calls != []
    ensures Next(c, s, OutsideReturn(0)).Some?
    ensures var s' := Next(c, s, OutsideReturn(0)).value; Crew(s, s') && |s'.calls| < |s.calls|
  {
    var s1 := s.(calls := s.calls[..0] + s.calls[0 + 1..]);
    CompletedFrame(s1, s.calls[0]);
    T.CompletedHands(s1, s.calls[0]);
    AllFromSelf(s.timers);
  }

  lemma {:induction false} AllReturn(c: Config, s: State) returns (s': State)
    requires Fit(c, s)
    ensures Onward(c, s, s') && Crew(s, s') && s'.calls == []
    decreases |s.calls|
  {
    if s.calls == [] {
      StaysOn(c, s);
      CrewStays(s);
      s' := s;
    } else {
      var s1 := ReturnsOn(c, s);
      s' := AllReturn(c, s1);
      OnwardOn(c, s, s1, s');
      CrewOn(s, s1, s');
    }
  }

  // ----- The timers and the events -----

  /** Worker w alone has moved, and waits, holds callbacks or owes the counter one. */
  ghost predicate Idler(s: State, s': State, w: nat, at: IdleAt) {
    && Crew(s, s') && w < |s.workers| && s'.workers == s.workers[w := Worker(Idle(at), false)] && s'.calls == s.calls
  }

  lemma IdlerOn(s: State, s1: State, s2: State, w: nat, at1: IdleAt, at2: IdleAt)
    requires Idler(s, s1, w, at1) && Idler(s1, s2, w, at2)
    ensures Idler(s, s2, w, at2)
  {
    CrewOn(s, s1, s2);
  }

  /** A worker that scans in vain, with a timer set or an event pending, goes on to wait. */
  lemma ScansToWait(c: Config, s: State, w: nat) returns (s': State)
    requires Fit(c, s) && c.io && (s.timers != [] || s.pending != 0)
    requires w < |s.workers| && s.workers[w] == Worker(Scanning, false) && FirstEligible(s.tasks, w) == |s.tasks|
    ensures Onward(c, s, s') && Idler(s, s', w, Waiting) && s'.timers == s.timers && s'.tasks == s.tasks
  {
    s' := RestsAndChecks(c, s, w);
    AllFromSelf(s.timers);
  }

  /** It rests, and stopping() comes to its verdict. */
  lemma RestsAndChecks(c: Config, s: State, w: nat) returns (s': State)
    requires Fit(c, s)
    requires w < |s.workers| && s.workers[w] == Worker(Scanning, false) && FirstEligible(s.tasks, w) == |s.tasks|
    ensures Onward(c, s, s')
    ensures s' == s.(workers := s.workers[w :=
      if Finished(c, s) then Worker(Scanning, true) else Worker(Idle(Waiting), false)])
  {
    RestJudged(c, s, w);
    var s1 := Steps(c, s, Runs(w, Rest));
    s' := StepsOn(c, s1, Checks(c, s1, w));
    OnwardOn(c, s, s1, s');
  }

  lemma RestJudged(c: Config, s: State, w: nat)
    requires w < |s.workers| && s.workers[w] == Worker(Scanning, false) && FirstEligible(s.tasks, w) == |s.tasks|
    ensures var s1 := At(s, w, Idle(Checking));
      && Next(c, s, Runs(w, Rest)) == Some(s1)
      && Exec(c, s1, Checks(c, s1, w)) == Some(s.(workers := s.workers[w :=
           if Finished(c, s) then Worker(Scanning, true) else Worker(Idle(Waiting), false)]))
  {
    RestAt(c, s, w);
    var s1 := At(s, w, Idle(Checking));
    VerdictIff(c, s1, w);
    JudgedOnce(s, w, Checking);
  }

  lemma RestAt(c: Config, s: State, w: nat)
    requires w < |s.workers| && s.workers[w].phase == Scanning && FirstEligible(s.tasks, w) == |s.tasks|
    ensures Next(c, s, Runs(w, Rest)) == Some(At(s, w, if s.workers[w].term then Gone else Idle(Checking)))
  {
  }

  /** It sleeps until the last deadline ... */
  lemma Sleeps(c: Config, s: State) returns (s': State)
    requires Fit(c, s)
    ensures Onward(c, s, s') && s' == s.(clock := s'.clock) && forall a :: a in s'.timers ==> a.next <= s'.clock
  {
    s' := Steps(c, s, Tick(Span(s.timers, s.clock)));
    AllExpired(s.timers, s.clock);
  }

  /** ... and collects everything; what is left recurs. */
  lemma CollectsAllAt(c: Config, s: State, w: nat) returns (cbs: seq<Option<Code>>, s': State)
    requires Ascending(s.timers) && c.io && PositivePeriods(s.timers) && forall a :: a in s.timers ==> a.next <= s.clock
    requires w < |s.workers| && s.workers[w] == Worker(Idle(Waiting), false)
    ensures Next(c, s, Idles(w, Collect(s.clock))) == Some(s') && Idler(s, s', w, Holding(cbs))
    ensures s' == At(s, w, Idle(Holding(cbs))).(timers := s'.timers)
    ensures NoneRecurring(s.timers) ==> s'.timers == []
    ensures s.timers != [] ==> cbs != [] && cbs[0] == s.timers[0].cb
  {
    Drain.UsualTermination(s.timers, s.clock, false);
    Drain.TerminatesIff(s.timers, s.clock, false);
    var r := Drain.Run(Drain.State(s.timers, [], []), s.clock, false);
    s', cbs := At(s, w, Idle(Holding(r.fired))).(timers := r.queue), r.fired;
    Drain.FiresTheDue(Drain.State(s.timers, [], []), s.clock, false);
    DrainAllFrom(Drain.State(s.timers, [], []), s.clock);
    if NoneRecurring(s.timers) {
      NothingLate(s.timers, r.queue, s.clock);
    }
    if s.timers != [] {
      assert s.timers[0] in s.timers;
    }
  }

  lemma NothingLate(q: seq<Alarm>, r: seq<Alarm>, now: int)
    requires NoneRecurring(q) && AllFrom(q, r) && (forall a :: a in q ==> a.next <= now)
    requires Ascending(r) && !Drain.More(r, now, false)
    ensures r == []
  {
    if r != [] {
      LeftIsLater(r, now, 0);
      NotLate(q, r[0], now);
    }
  }

  lemma NotLate(q: seq<Alarm>, a: Alarm, now: int)
    requires NoneRecurring(q) && ComesFrom(a, q) && forall b :: b in q ==> b.next <= now
    ensures a.next <= now
  {
    var b :| b in q && SameTimer(a, b);
  }

  lemma Empties(c: Config, s: State, w: nat) returns (s': State, cbs: seq<Option<Code>>)
    requires Fit(c, s) && c.io && PositivePeriods(s.timers)
    requires w < |s.workers| && s.workers[w] == Worker(Idle(Waiting), false)
    ensures Onward(c, s, s') && Idler(s, s', w, Holding(cbs)) && s'.tasks == s.tasks
    ensures NoneRecurring(s.timers) ==> s'.timers == []
    ensures s.timers != [] ==> cbs != [] && cbs[0] == s.timers[0].cb
  {
    var s1 := Sleeps(c, s);
    cbs, s' := CollectsAllAt(c, s1, w);
    s' := Steps(c, s1, Idles(w, Collect(s1.clock)));
    OnwardOn(c, s, s1, s');
  }

  lemma PostAt(c: Config, s: State, w: nat, cbs: seq<Option<Code>>)
    requires w < |s.workers| && s.workers[w] == Worker(Idle(Holding(cbs)), false) && cbs != []
    ensures Next(c, s, Idles(w, Post)).Some?
    ensures var s' := Next(c, s, Idles(w, Post)).value;
      && Idler(s, s', w, Holding(cbs[1..])) && s'.timers == s.timers
      && s'.tasks == Submitted(s.tasks, JobOf(cbs[0]), ANY)
  {
    AllFromSelf(s.timers);
  }

  lemma ReportAt(c: Config, s: State, w: nat)
    requires w < |s.workers| && s.workers[w] == Worker(Idle(Holding([])), false) && s.registered != []
    ensures Next(c, s, Idles(w, Report(0))).Some?
    ensures var s' := Next(c, s, Idles(w, Report(0))).value;
      Idler(s, s', w, Owing) && s'.timers == s.timers && s'.registered == s.registered[1..]
  {
    AllFromSelf(s.timers);
  }

  lemma RepayAt(c: Config, s: State, w: nat)
    requires w < |s.workers| && s.workers[w] == Worker(Idle(Owing), false)
    ensures Next(c, s, Idles(w, Repay)).Some?
    ensures var s' := Next(c, s, Idles(w, Repay)).value;
      Idler(s, s', w, Holding([])) && s'.timers == s.timers && s'.registered == s.registered
  {
    AllFromSelf(s.timers);
  }

  lemma PrefixOn(q: seq<Entry>, q1: seq<Entry>, q2: seq<Entry>)
    requires q <= q1 <= q2
    ensures q <= q2
  {
  }

  lemma {:induction false} PostsAll(c: Config, s: State, w: nat, cbs: seq<Option<Code>>) returns (s': State)
    requires Fit(c, s) && w < |s.workers| && s.workers[w] == Worker(Idle(Holding(cbs)), false)
    ensures Onward(c, s, s') && Idler(s, s', w, Holding([])) && s'.timers == s.timers && s.tasks <= s'.tasks
    decreases |cbs|
  {
    if cbs == [] {
      StaysOn(c, s);
      CrewStays(s);
      s' := s;
    } else {
      PostAt(c, s, w, cbs);
      var s1 := Steps(c, s, Idles(w, Post));
      s' := PostsAll(c, s1, w, cbs[1..]);
      PrefixOn(s.tasks, s1.tasks, s'.tasks);
      OnwardOn(c, s, s1, s');
      IdlerOn(s, s1, s', w, Holding(cbs[1..]), Holding([]));
    }
  }

  lemma ReportsOne(c: Config, s: State, w: nat) returns (s': State)
    requires Fit(c, s) && w < |s.workers| && s.workers[w] == Worker(Idle(Holding([])), false) && s.registered != []
    ensures Onward(c, s, s') && Idler(s, s', w, Holding([])) && s'.timers == s.timers
    ensures s'.registered == s.registered[1..]
  {
    ReportAt(c, s, w);
    var s1 := Steps(c, s, Idles(w, Report(0)));
    RepayAt(c, s1, w);
    s' := Steps(c, s1, Idles(w, Repay));
    OnwardOn(c, s, s1, s');
    IdlerOn(s, s1, s', w, Owing, Holding([]));
  }

  lemma {:induction false} ReportsAll(c: Config, s: State, w: nat) returns (s': State)
    requires Fit(c, s) && w < |s.workers| && s.workers[w] == Worker(Idle(Holding([])), false)
    ensures Onward(c, s, s') && Idler(s, s', w, Holding([])) && s'.timers == s.timers && s'.registered == []
    decreases |s.registered|
  {
    if s.registered == [] {
      StaysOn(c, s);
      CrewStays(s);
      s' := s;
    } else {
      var s1 := ReportsOne(c, s, w);
      s' := ReportsAll(c, s1, w);
      OnwardOn(c, s, s1, s');
      IdlerOn(s, s1, s', w, Holding([]), Holding([]));
    }
  }

  /** Worker w waits for everything that is set and registered, and hands it over. */
  lemma Serves(c: Config, s: State, w: nat) returns (s': State)
    requires Fit(c, s) && c.io && NoneRecurring(s.timers) && (s.timers != [] || s.pending != 0)
    requires w < |s.workers| && s.workers[w] == Worker(Scanning, false) && FirstEligible(s.tasks, w) == |s.tasks|
    ensures Onward(c, s, s') && Idler(s, s', w, Holding([])) && s'.timers == [] && s'.registered == []
  {
    var s1 := ScansToWait(c, s, w);
    var s2, cbs := Empties(c, s1, w);
    var s3 := PostsAll(c, s2, w, cbs);
    s' := ReportsAll(c, s3, w);
    OnwardOn(c, s, s1, s2);
    OnwardOn(c, s, s2, s3);
    OnwardOn(c, s, s3, s');
    IdlerOn(s, s1, s2, w, Waiting, Holding(cbs));
    IdlerOn(s, s2, s3, w, Holding(cbs), Holding([]));
    IdlerOn(s, s3, s', w, Holding([]), Holding([]));
  }

  // ----- Timers that recur -----

  lemma FirstCollected(c: Config, s: State, w: nat) returns (s': State, cbs: seq<Option<Code>>)
    requires Fit(c, s) && c.io && PositivePeriods(s.timers) && s.timers != []
    requires w < |s.workers| && s.workers[w] == Worker(Scanning, false) && FirstEligible(s.tasks, w) == |s.tasks|
    ensures Onward(c, s, s') && Idler(s, s', w, Holding(cbs)) && cbs != [] && cbs[0].Some? && s'.tasks == s.tasks
  {
    var s1 := ScansToWait(c, s, w);
    s', cbs := Empties(c, s1, w);
    OnwardOn(c, s, s1, s');
    IdlerOn(s, s1, s', w, Waiting, Holding(cbs));
    FirstKnown(s.fibers, s.timers);
  }

  lemma FirstKnown(fibers: map<nat, Fib>, q: seq<Alarm>)
    requires TimersKnown(fibers, q) && q != []
    ensures q[0].cb.Some?
  {
    assert q[0] in q;
  }

  lemma FirstPosted(cb: Option<Code>, q: seq<Entry>, r: seq<Entry>)
    requires cb.Some? && q == Submitted([], JobOf(cb), ANY) && q <= r
    ensures [Task(JobOf(cb), ANY)] <= r
  {
  }

  lemma PostsFirst(c: Config, s: State, w: nat, cbs: seq<Option<Code>>) returns (s': State)
    requires Fit(c, s) && w < |s.workers| && s.workers[w] == Worker(Idle(Holding(cbs)), false)
    requires cbs != [] && cbs[0].Some? && s.tasks == []
    ensures Onward(c, s, s') && Idler(s, s', w, Holding([])) && [Task(JobOf(cbs[0]), ANY)] <= s'.tasks
  {
    PostAt(c, s, w, cbs);
    var s1 := Steps(c, s, Idles(w, Post));
    s' := PostsAll(c, s1, w, cbs[1..]);
    FirstPosted(cbs[0], s1.tasks, s'.tasks);
    OnwardOn(c, s, s1, s');
    IdlerOn(s, s1, s', w, Holding(cbs[1..]), Holding([]));
  }

  lemma LeaveAt(c: Config, s: State, w: nat)
    requires w < |s.workers| && s.workers[w] == Worker(Idle(Holding([])), false)
    ensures Next(c, s, Idles(w, Leave)) == Some(At(s, w, Scanning)) && Keeps(s, At(s, w, Scanning))
  {
    CrewStays(s);
    KeepsOne(s, At(s, w, Scanning), w);
  }

  /** Worker w is back from its idle loop, and the callback of the first timer is the first task. */
  lemma FirstFires(c: Config, s: State, w: nat) returns (s': State)
    requires Fit(c, s) && c.io && PositivePeriods(s.timers) && s.timers != [] && s.tasks == []
    requires w < |s.workers| && s.workers[w] == Worker(Scanning, false)
    ensures Onward(c, s, s') && Crew(s, s') && s'.calls == s.calls
    ensures w < |s'.workers| && s'.workers[w].phase.Scanning?
    ensures s'.tasks != [] && s'.tasks[0].body.Call? && s'.tasks[0].thread == ANY
  {
    var s1, cbs := FirstCollected(c, s, w);
    var s2 := PostsFirst(c, s1, w, cbs);
    OnwardOn(c, s, s1, s2);
    IdlerOn(s, s1, s2, w, Holding(cbs), Holding([]));
    LeaveAt(c, s2, w);
    s' := Steps(c, s2, Idles(w, Leave));
    OnwardOn(c, s, s2, s');
    CrewOn(s, s2, s');
  }

  /** Worker w takes that task and comes to the code of its fiber. */
  lemma Executes(c: Config, s: State, w: nat) returns (s': State)
    requires Fit(c, s) && w < |s.workers| && s.workers[w].phase.Scanning?
    requires s.tasks != [] && s.tasks[0].body.Call? && s.tasks[0].thread == ANY
    ensures Onward(c, s, s') && Crew(s, s') && s'.calls == s.calls
    ensures w < |s'.workers| && InCode(s', s'.workers[w].phase)
  {
    FirstEligibleIs(s.tasks, w, 0);
    var s1 := TakesOn(c, s, w);
    var s2 := Begins(c, s1, w);
    OnwardOn(c, s, s1, s2);
    KeepsOn(s, s1, s2);
    s' := ReachesCode(c, s2, w);
    OnwardOn(c, s, s2, s');
    KeepsOn(s, s2, s');
  }

  lemma Begins(c: Config, s: State, w: nat) returns (s': State)
    requires Fit(c, s) && w < |s.workers| && s.workers[w].phase.Took? && s.workers[w].phase.task.body.Call?
    ensures Onward(c, s, s') && Keeps(s, s')
    ensures w < |s'.workers| && s'.workers[w].phase.Executing? && !s'.workers[w].phase.todo.InCall?
  {
    var g := FreshFiber(s.fibers);
    var s1 := MovesWorker(c, s, w, g);
    MakeAt(c, s, w, g);
    s' := Dispatches(c, s1, w);
    OnwardOn(c, s, s1, s');
    KeepsOn(s, s1, s');
  }

  lemma MakeAt(c: Config, s: State, w: nat, g: nat)
    requires Movable(s, w) && s.workers[w].phase.Took? && s.workers[w].phase.task.body.Call?
    requires Next(c, s, MoveOf(s, w, g)).Some?
    ensures var x := Next(c, s, MoveOf(s, w, g)).value.workers;
      w < |x| && x[w].phase.Locked? && x[w].phase.task.body.Call?
  {
    MakeRan(s, w, g);
  }

  lemma Dispatches(c: Config, s: State, w: nat) returns (s': State)
    requires Fit(c, s) && w < |s.workers| && s.workers[w].phase.Locked? && s.workers[w].phase.task.body.Call?
    ensures Onward(c, s, s') && Keeps(s, s')
    ensures w < |s'.workers| && s'.workers[w].phase.Executing? && !s'.workers[w].phase.todo.InCall?
  {
    var g := FreshFiber(s.fibers);
    s' := MovesWorker(c, s, w, g);
    DispatchAt(c, s, w, g);
  }

  lemma DispatchAt(c: Config, s: State, w: nat, g: nat)
    requires Movable(s, w) && s.workers[w].phase.Locked? && s.workers[w].phase.task.body.Call?
    requires Next(c, s, MoveOf(s, w, g)).Some?
    ensures var x := Next(c, s, MoveOf(s, w, g)).value.workers;
      w < |x| && x[w].phase.Executing? && !x[w].phase.todo.InCall?
  {
    DispatchRan(s, w);
  }

  lemma WakeAt(c: Config, s: State, w: nat, g: nat)
    requires Movable(s, w) && s.workers[w].phase.Executing? && s.workers[w].phase.todo.Waking?
    requires Next(c, s, MoveOf(s, w, g)).Some? && s.workers[w].phase.f in s.fibers
    ensures var s' := Next(c, s, MoveOf(s, w, g)).value; w < |s'.workers| && InCode(s', s'.workers[w].phase)
  {
  }

  lemma ReachesCode(c: Config, s: State, w: nat) returns (s': State)
    requires Fit(c, s) && w < |s.workers| && s.workers[w].phase.Executing? && !s.workers[w].phase.todo.InCall?
    ensures Onward(c, s, s') && Keeps(s, s')
    ensures w < |s'.workers| && InCode(s', s'.workers[w].phase)
  {
    assert M.WorkerFits(s.workers[w].phase, w, s.fibers);
    if s.workers[w].phase.todo.Nothing? {
      StaysOn(c, s);
      CrewStays(s);
      s' := s;
    } else {
      var g := FreshFiber(s.fibers);
      s' := MovesWorker(c, s, w, g);
      WakeAt(c, s, w, g);
    }
  }

  /** Its code cancels all timers. */
  lemma {:induction false} ErasesAll(c: Config, s: State, w: nat) returns (s': State)
    requires Fit(c, s) && w < |s.workers| && InCode(s, s.workers[w].phase)
    ensures Onward(c, s, s') && s' == s.(timers := [])
    decreases |s.timers|
  {
    if s.timers == [] {
      StaysOn(c, s);
      s' := s;
    } else {
      EraseFirst(c, s, w);
      var s1 := Steps(c, s, Codes(w, Acting(EraseTimer(s.timers[0].next))));
      s' := ErasesAll(c, s1, w);
      OnwardOn(c, s, s1, s');
    }
  }

  lemma EraseFirst(c: Config, s: State, w: nat)
    requires Ascending(s.timers) && w < |s.workers| && InCode(s, s.workers[w].phase) && s.timers != []
    ensures Next(c, s, Codes(w, Acting(EraseTimer(s.timers[0].next)))) == Some(s.(timers := s.timers[1..]))
  {
    FoundItself(s.timers, 0);
    assert s.timers[..0] + s.timers[1..] == s.timers[1..];
  }

  lemma CrewErased(s: State)
    ensures Crew(s, s.(timers := []))
  {
  }

  /** Timers that recur are cancelled by the code of the first callback, after all have fired. */
  lemma DropsRecurring(c: Config, s: State, w: nat) returns (s': State)
    requires Fit(c, s) && c.io && PositivePeriods(s.timers) && s.timers != [] && s.tasks == []
    requires w < |s.workers| && s.workers[w] == Worker(Scanning, false)
    ensures Onward(c, s, s') && Crew(s, s') && s'.calls == s.calls && s'.timers == []
  {
    var s1 := FirstFires(c, s, w);
    var s2 := Executes(c, s1, w);
    OnwardOn(c, s, s1, s2);
    CrewOn(s, s1, s2);
    s' := ErasesAll(c, s2, w);
    OnwardOn(c, s, s2, s');
    CrewErased(s2);
    CrewOn(s, s2, s');
  }

  // ----- Events -----

  lemma RestingCallsNone(s: State)
    requires Resting(s)
    ensures NoneCalling(s) && Gather(s.workers, S.AheadOf) == multiset{}
  {
    GatherEmpty(s.workers, S.AheadOf);
  }

  lemma NothingPending(s: State)
    requires Resting(s) && S.Balanced(s) && s.strays == 0 && s.registered == [] && s.calls == []
    ensures s.pending == 0
  {
    RestingCallsNone(s);
  }

  // ----- Everybody leaves -----

  function StillHere(x: Worker): nat {
    (if x.term then 0 else 1) + (if x.phase.Gone? then 0 else 1)
  }

  lemma OneLeaves(s: State, s': State, w: nat)
    requires Resting(s) && AllTerminated(s) && w < |s.workers| && !s.workers[w].phase.Gone? && s' == At(s, w, Gone)
    ensures Resting(s') && AllTerminated(s') && Sum(s'.workers, StillHere) < Sum(s.workers, StillHere)
  {
    SumUpdate(s.workers, w, Worker(Gone, true), StillHere);
  }

  lemma OneTerminates(s: State, s': State, w: nat)
    requires Resting(s) && w < |s.workers| && s.workers[w] == Worker(Scanning, false)
    requires s' == s.(workers := s.workers[w := Worker(Scanning, true)])
    ensures Resting(s') && Sum(s'.workers, StillHere) < Sum(s.workers, StillHere)
  {
    SumUpdate(s.workers, w, Worker(Scanning, true), StillHere);
  }

  lemma {:induction false} AllLeave(c: Config, s: State) returns (s': State)
    requires Fit(c, s) && Resting(s) && AllTerminated(s)
    ensures Onward(c, s, s') && AllGone(s')
    decreases Sum(s.workers, StillHere)
  {
    if AllGone(s) {
      StaysOn(c, s);
      s' := s;
    } else {
      var w :| 0 <= w < |s.workers| && !s.workers[w].phase.Gone?;
      RestAt(c, s, w);
      var s1 := Steps(c, s, Runs(w, Rest));
      OneLeaves(s, s1, w);
      s' := AllLeave(c, s1);
      OnwardOn(c, s, s1, s');
    }
  }

  lemma {:induction false} AllTerminate(c: Config, s: State) returns (s': State)
    requires Fit(c, s) && Resting(s) && Finished(c, s)
    ensures Onward(c, s, s') && Resting(s') && AllTerminated(s')
    decreases Sum(s.workers, StillHere)
  {
    if AllTerminated(s) {
      StaysOn(c, s);
      s' := s;
    } else {
      var w :| 0 <= w < |s.workers| && !s.workers[w].term;
      var s1 := RestsAndChecks(c, s, w);
      OneTerminates(s, s1, w);
      s' := AllTerminate(c, s1);
      OnwardOn(c, s, s1, s');
    }
  }

  lemma EndsFinished(c: Config, s: State) returns (s': State)
    requires Fit(c, s) && Resting(s) && s.tasks == [] && (c.io ==> s.timers == [] && s.pending == 0)
    ensures Onward(c, s, s') && AllGone(s')
  {
    NobodyActive(s);
    var s1 := Steps(c, s, Stop);
    var s2 := AllTerminate(c, s1);
    s' := AllLeave(c, s2);
    OnwardOn(c, s, s1, s2);
    OnwardOn(c, s, s2, s');
  }

  // ----- Together -----

  /** Nobody calls, every worker scans in vain, and every task has been taken. */
  ghost predicate Rested(c: Config, s: State) {
    Fit(c, s) && Resting(s) && s.calls == [] && s.tasks == [] && (c.io ==> s.strays == 0)
  }

  /** Worker u has seen to something; all scan again. */
  lemma ScansAgain(c: Config, s: State, s1: State, u: nat) returns (s': State)
    requires Served(s) && Crew(s, s1) && u < |s.workers| && !s.workers[u].phase.Gone?
    requires Onward(c, s, s1) && s1.timers == [] && s1.calls == [] && (c.io ==> s.strays == 0)
    ensures Onward(c, s, s') && Keeps(s1, s') && Rested(c, s') && s'.timers == []
  {
    s' := AllScan(c, s1);
    OnwardOn(c, s, s1, s');
    CrewOn(s, s1, s');
    ServedStays(s, s', u);
    NothingWaits(s');
    FromNothing(s'.timers);
  }

  /** All timers and events are dealt with, and what they have brought. */
  lemma RunsDry(c: Config, s: State, u: nat) returns (s': State)
    requires Rested(c, s) && (c.io ==> NoneRecurring(s.timers))
    requires u < |s.workers| && !s.workers[u].term
    ensures Onward(c, s, s') && Rested(c, s') && (c.io ==> s'.timers == [] && s'.pending == 0)
  {
    if c.io && (s.timers != [] || s.pending != 0) {
      var s1 := Serves(c, s, u);
      s' := ScansAgain(c, s, s1, u);
      RestingCallsNone(s);
      StillNoneCalling(s, s1, u);
      NothingPending(s');
    } else {
      StaysOn(c, s);
      s' := s;
    }
  }

  lemma StillNoneCalling(s: State, s': State, u: nat)
    requires NoneCalling(s) && Idler(s, s', u, Holding([]))
    ensures NoneCalling(s')
  {
    forall v | 0 <= v < |s'.workers| ensures S.NotInCall(s'.workers[v].phase) {
      assert S.NotInCall(s.workers[v].phase);
    }
  }

  lemma EndsRested(c: Config, s: State) returns (s': State)
    requires Rested(c, s) && (c.io ==> NoneRecurring(s.timers))
    ensures Onward(c, s, s') && AllGone(s')
  {
    if AllTerminated(s) {
      s' := AllLeave(c, s);
    } else {
      var u :| 0 <= u < |s.workers| && !s.workers[u].term;
      var s1 := RunsDry(c, s, u);
      s' := EndsFinished(c, s1);
      OnwardOn(c, s, s1, s');
    }
  }

  lemma RestsWithoutRecurring(c: Config, s: State, u: nat) returns (s': State)
    requires Rested(c, s) && (c.io ==> PositivePeriods(s.timers)) && u < |s.workers| && !s.workers[u].term
    ensures Onward(c, s, s') && Rested(c, s') && (c.io ==> NoneRecurring(s'.timers))
  {
    if c.io && s.timers != [] {
      var s1 := DropsRecurring(c, s, u);
      s' := ScansAgain(c, s, s1, u);
    } else {
      StaysOn(c, s);
      s' := s;
    }
  }

  lemma ComesToRested(c: Config, s: State) returns (s': State)
    requires Fit(c, s) && PositivePeriods(s.timers) && (c.io ==> s.strays == 0)
    ensures Onward(c, s, s') && Crew(s, s') && Resting(s') && s'.calls == [] && PositivePeriods(s'.timers)
  {
    var s1 := AllReturn(c, s);
    FromPositive(s.timers, s1.timers);
    s' := AllScan(c, s1);
    FromPositive(s1.timers, s'.timers);
    OnwardOn(c, s, s1, s');
    CrewOn(s, s1, s');
  }

  lemma CanEnd(c: Config, s: State) returns (s': State)
    requires Fit(c, s) && PositivePeriods(s.timers) && (c.io ==> s.strays == 0) && (AllTerminated(s) || Served(s))
    ensures Onward(c, s, s') && AllGone(s')
  {
    var s1 := ComesToRested(c, s);
    if AllTerminated(s1) {
      s' := AllLeave(c, s1);
    } else {
      var u :| 0 <= u < |s1.workers| && !s1.workers[u].term;
      ServedStays(s, s1, u);
      NothingWaits(s1);
      var s2 := RestsWithoutRecurring(c, s1, u);
      s' := EndsRested(c, s2);
      OnwardOn(c, s1, s2, s');
    }
    OnwardOn(c, s, s1, s');
  }

  // ----- Stranded tasks -----

  /** Worker u has not terminated, and a task waits for threads that do not exist or have left. */
  ghost predicate Stranded(s: State, u: nat, t: Entry) {
    && u < |s.workers| && !s.workers[u].term && t in s.tasks && !SomeoneFor(s.workers, t)
  }

  lemma GoneStays(c: Config, s: State, step: Step, w: nat)
    requires Next(c, s, step).Some? && w < |s.workers| && s.workers[w].phase.Gone?
    ensures w < |Next(c, s, step).value.workers| && Next(c, s, step).value.workers[w].phase.Gone?
  {
    if !T.MovedBy(step, w) {
      T.OthersStay(c, s, step, w);
    }
  }

  lemma NobodyComes(c: Config, s: State, step: Step, t: Entry)
    requires Next(c, s, step).Some? && !SomeoneFor(s.workers, t)
    ensures !SomeoneFor(Next(c, s, step).value.workers, t)
  {
    var s' := Next(c, s, step).value;
    T.SameCrew(c, s, step);
    forall w | 0 <= w < |s'.workers| && !s'.workers[w].phase.Gone? ensures !Eligible(t, w) {
      if s.workers[w].phase.Gone? {
        GoneStays(c, s, step, w);
      }
    }
  }

  lemma OthersAreLeft(q: seq<Entry>, i: nat, t: Entry)
    requires i < |q| && t in q && t != q[i]
    ensures t in Without(q, i)
  {
    assert q == q[..i] + [q[i]] + q[i + 1..];
  }

  lemma StrandedTaskStays(c: Config, s: State, step: Step, t: Entry)
    requires Next(c, s, step).Some? && t in s.tasks && !SomeoneFor(s.workers, t)
    ensures t in Next(c, s, step).value.tasks
  {
    if step.Runs? && step.run.Take? {
      T.TakeHands(s, step.w);
      OthersAreLeft(s.tasks, FirstEligible(s.tasks, step.w), t);
    } else if step.Runs? && step.run.Finish? {
      T.FinishHands(s, step.w);
    } else {
      T.StepHands(c, s, step);
    }
  }

  lemma WaitsOn(c: Config, s: State, w: nat)
    requires w < |s.workers| && s.tasks != [] && NextCheckStop(c, s, w).Some?
    ensures NextCheckStop(c, s, w) == Some(At(s, w, Idle(Waiting)))
  {
  }

  /** With a task in the list no idle fiber terminates. */
  lemma GoesOnIdling(c: Config, s: State, step: Step, u: nat)
    requires Next(c, s, step).Some? && u < |s.workers| && !s.workers[u].term && s.tasks != []
    ensures u < |Next(c, s, step).value.workers| && !Next(c, s, step).value.workers[u].term
  {
    match step
    case Runs(w, move) => RunRan(s, w, move);
    case Codes(w, move) =>
      if move.Acting? {
        T.ActHands(c, s, move.act);
      } else {
        CodeCoded(c, s, w, move);
      }
    case Idles(w, move) =>
      IdleIdled(c, s, w, move);
      if move.CheckStop? {
        WaitsOn(c, s, w);
      }
    case Outside(act) => T.ActHands(c, s, act);
    case _ => NobodyMoves(c, s, step);
  }

  lemma {:induction false} StrandedForever(c: Config, s: State, steps: seq<Step>, u: nat, t: Entry)
    requires Stranded(s, u, t) && Exec(c, s, steps).Some?
    ensures Stranded(Exec(c, s, steps).value, u, t)
    decreases steps
  {
    if steps != [] {
      NobodyComes(c, s, steps[0], t);
      StrandedTaskStays(c, s, steps[0], t);
      GoesOnIdling(c, s, steps[0], u);
      StrandedForever(c, Next(c, s, steps[0]).value, steps[1..], u, t);
    }
  }

  /** Some continuation brings all workers to leave, and so stop() to the end of its joins. */
  ghost predicate CanJoin(c: Config, s: State) {
    exists s' :: Reaches(c, s, s') && AllGone(s')
  }

  lemma StrandedNeverEnds(c: Config, s: State, u: nat, t: Entry)
    requires Stranded(s, u, t)
    ensures !CanJoin(c, s)
  {
    forall s' | Reaches(c, s, s') ensures !AllGone(s') {
      var steps :| Exec(c, s, steps) == Some(s');
      StrandedForever(c, s, steps, u, t);
    }
  }

  lemma ReachableFit(c: Config, n: nat, s: State)
    requires n > 0 && Reachable(c, n, s)
    ensures Fit(c, s)
  {
    ReachableLively(c, n, s);
    var calls, clock, steps :| Exec(c, Init(n, calls, clock), steps) == Some(s);
    S.InitInv(c, n, calls, clock);
    S.ExecSound(c, Init(n, calls, clock), steps);
  }

  /** From any state of any run of a plain scheduler all workers can still come to leave if and only if their
      idle fibers have terminated already, or every task that waits has a worker that may take it and has not
      left. The same holds of an IOManager, as long as no recurring timer has period zero and no event has
      been deleted that was not registered. */
  lemma CanJoinIff(c: Config, n: nat, s: State)
    requires n > 0 && Reachable(c, n, s) && (c.io ==> s.strays == 0 && PositivePeriods(s.timers))
    ensures CanJoin(c, s) <==> AllTerminated(s) || Served(s)
  {
    ReachableFit(c, n, s);
    if AllTerminated(s) || Served(s) {
      var s' := CanEnd(c, s);
    } else {
      var u :| 0 <= u < |s.workers| && !s.workers[u].term;
      var t :| t in s.tasks && !SomeoneFor(s.workers, t);
      StrandedNeverEnds(c, s, u, t);
    }
  }

  /** A thread outside pins a task to a thread that no worker runs, and calls stop(), which never returns. */
  lemma PinnedToNobody(c: Config) returns (s: State)
    requires c == Config(false, false, true, true, {})
    ensures Reachable(c, 1, s) && s.stopping && s.active == 0 && !CanJoin(c, s)
  {
    var s0, t := Init(1, [], 0), Task(Call(User(1)), 7);
    var s1 := Goes(c, s0, Outside(Submit(t.body, t.thread)));
    s := Goes(c, s1, Stop);
    GoesOn(c, s0, s1, s);
    assert s.tasks == [t] && s.workers == [Worker(Scanning, false)];
    StrandedNeverEnds(c, s, 0, t);
  }
}
