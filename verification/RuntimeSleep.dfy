/** The hooked sleeps end to end, over whole runs: a sleep is ended once, in time and on a saved
    execution; and when it is not ended at all. */
module RuntimeSleep {
  import opened Options
  import opened DeadlineSet
  import opened Runtime
  import opened RuntimeCredits

  /** In every run, a fiber that nobody schedules but its creator and its own sleeps is resumed, after
      its first resume, at most once for each sleep, not before the deadline of that sleep, and not
      before the yield of that sleep has been completed. */
  lemma SleepIsRight(c: Config, n: nat, s: State, f: nat)
    requires Reachable(c, n, s) && f in c.solo && f in s.fibers
    ensures SleepsProperly(s.fibers[f].log)
  {
    ReachableInv(c, n, s);
    assert SleeperFits(s, f);
  }

  /** At most one resume of it is on its way at a time, and none while it executes. */
  lemma OneWakeAtATime(c: Config, n: nat, s: State, f: nat)
    requires Reachable(c, n, s) && f in c.solo
    ensures Timed(s, f) + Coming(s, f) + Awake(s, f) <= 1
  {
    ReachableInv(c, n, s);
    assert SleeperFits(s, f);
  }

  // ----- Continuations -----

  /** The fiber has not been resumed between the two logs. */
  ghost predicate NotResumedSince(log: seq<Event>, log': seq<Event>) {
    log <= log' && forall i :: |log| <= i < |log'| ==> !log'[i].Resumed?
  }

  /** No continuation of the run resumes f. */
  ghost predicate HangsForever(c: Config, s: State, f: nat) {
    f in s.fibers && forall steps :: Exec(c, s, steps).Some? ==>
      var s' := Exec(c, s, steps).value; f in s'.fibers && NotResumedSince(s.fibers[f].log, s'.fibers[f].log)
  }

  /** Some step of the run erases the timer that wakes f while it is set. */
  ghost predicate ErasedIn(c: Config, s: State, steps: seq<Step>, f: nat)
    requires Exec(c, s, steps).Some?
    decreases steps
  {
    steps != [] && (Erases(s, steps[0], f) || ErasedIn(c, Next(c, s, steps[0]).value, steps[1..], f))
  }

  lemma {:induction false} LogGrows(c: Config, s: State, steps: seq<Step>, f: nat)
    requires Inv(c, s) && f in c.solo && f in s.fibers && Exec(c, s, steps).Some?
    ensures var s' := Exec(c, s, steps).value; f in s'.fibers && s.fibers[f].log <= s'.fibers[f].log
    decreases steps
  {
    if steps != [] {
      StepKeeps(c, s, steps[0]);
      StepSleeps(c, s, steps[0], f);
      LogGrows(c, Next(c, s, steps[0]).value, steps[1..], f);
    }
  }

  /** Without a credit a fiber is not resumed any more, whatever happens. */
  lemma {:induction false} NeverResumed(c: Config, s: State, steps: seq<Step>, f: nat)
    requires Inv(c, s) && f in c.solo && f in s.fibers && Total(s, f) == 0 && Exec(c, s, steps).Some?
    ensures var s' := Exec(c, s, steps).value;
      f in s'.fibers && NotResumedSince(s.fibers[f].log, s'.fibers[f].log) && Total(s', f) == 0
    decreases steps
  {
    if steps != [] {
      StepKeeps(c, s, steps[0]);
      StepSleeps(c, s, steps[0], f);
      NeverResumed(c, Next(c, s, steps[0]).value, steps[1..], f);
    }
  }

  lemma NoCreditHangs(c: Config, s: State, f: nat)
    requires Inv(c, s) && f in c.solo && f in s.fibers && Total(s, f) == 0
    ensures HangsForever(c, s, f)
  {
    forall steps | Exec(c, s, steps).Some?
      ensures f in Exec(c, s, steps).value.fibers
        && NotResumedSince(s.fibers[f].log, Exec(c, s, steps).value.fibers[f].log)
    {
      NeverResumed(c, s, steps, f);
    }
  }

  /** Where the resume of a sleeper is at the end of a run in which it has not been made: on its way still,
      or gone for good with its timer. */
  ghost predicate Fate(s: State, s': State, f: nat, erased: bool) {
    && f in s.fibers && f in s'.fibers
    && (NotResumedSince(s.fibers[f].log, s'.fibers[f].log) ==>
          && (OnWay(s', f) > 0 <==> !erased)
          && (erased ==> Total(s', f) == 0))
  }

  lemma LogsCompose(log: seq<Event>, log1: seq<Event>, log': seq<Event>)
    requires log <= log1 <= log' && NotResumedSince(log, log')
    ensures NotResumedSince(log1, log') && (forall at :: log1 != log + [Resumed(at)])
  {
    assert |log| < |log1| ==> log'[|log|] == log1[|log|];
  }

  lemma FateComposes(s: State, s1: State, s': State, f: nat, now: bool, later: bool)
    requires f in s.fibers && f in s1.fibers && f in s'.fibers
    requires Conserved(s, s1, f) && s1.fibers[f].log <= s'.fibers[f].log
    requires if now then Total(s', f) == 0
             else (OnWay(s1, f) == 0 && ResumedBy(s, s1, f)) || Fate(s1, s', f, later)
    ensures Fate(s, s', f, now || later)
  {
    if NotResumedSince(s.fibers[f].log, s'.fibers[f].log) {
      LogsCompose(s.fibers[f].log, s1.fibers[f].log, s'.fibers[f].log);
    }
  }

  /** A resume that is on its way stays set, collected, queued or in hand until it is made, unless an erase
      hits its timer while that is set. */
  lemma {:induction false} FateOf(c: Config, s: State, steps: seq<Step>, f: nat)
    requires Inv(c, s) && f in c.solo && f in s.fibers && OnWay(s, f) > 0 && Exec(c, s, steps).Some?
    ensures Fate(s, Exec(c, s, steps).value, f, ErasedIn(c, s, steps, f))
    decreases steps
  {
    if steps != [] {
      var s1, rest := Next(c, s, steps[0]).value, steps[1..];
      StepKeeps(c, s, steps[0]);
      StepSleeps(c, s, steps[0], f);
      LogGrows(c, s1, rest, f);
      if Erases(s, steps[0], f) {
        NeverResumed(c, s1, rest, f);
      } else if OnWay(s1, f) > 0 {
        FateOf(c, s1, rest, f);
      }
      FateComposes(s, s1, Exec(c, s, steps).value, f, Erases(s, steps[0], f), ErasedIn(c, s1, rest, f));
    }
  }

  // ----- The end of a sleep -----

  /** The deadline of a sleep is taken: its timer is dropped, and no credit is left. */
  lemma SleepDropped(s: State, s': State, w: nat, e: Alarm, f: nat)
    requires SleeperFits(s, f) && Ascending(s.timers) && Dozed(s, s', w, e, f) && Occupied(s.timers, e.next)
    ensures Total(s', f) == 0
  {
    InsertMembers(s.timers, e);
    DozedCounts(s, s', w, e, f, f);
    AwakeIfExecuting(s, w, f);
  }

  lemma SleepKept(s: State, s': State, w: nat, e: Alarm, f: nat)
    requires Ascending(s.timers) && Dozed(s, s', w, e, f) && !Occupied(s.timers, e.next)
    ensures WakesIn(s'.timers, f, e.next) && OnWay(s', f) > 0
  {
    InsertMembers(s.timers, e);
    assert e in s'.timers;
    TimedIfSet(s', f, e);
  }

  /** What has become of the sleep of f from s1 on: f hangs for good exactly when it has lost its timer. */
  ghost predicate SleepFate(c: Config, s1: State, s': State, f: nat, lost: bool) {
    && f in s1.fibers && f in s'.fibers
    && (NotResumedSince(s1.fibers[f].log, s'.fibers[f].log) ==>
          && (OnWay(s', f) > 0 <==> !lost)
          && (lost ==> HangsForever(c, s', f)))
  }

  lemma FromFate(c: Config, s1: State, s': State, f: nat, lost: bool)
    requires Inv(c, s') && f in c.solo && Fate(s1, s', f, lost)
    ensures SleepFate(c, s1, s', f, lost)
  {
    if NotResumedSince(s1.fibers[f].log, s'.fibers[f].log) && lost {
      NoCreditHangs(c, s', f);
    }
  }

  lemma DroppedFate(c: Config, s1: State, steps: seq<Step>, f: nat)
    requires Inv(c, s1) && f in c.solo && f in s1.fibers && Total(s1, f) == 0 && Exec(c, s1, steps).Some?
    ensures Fate(s1, Exec(c, s1, steps).value, f, true)
  {
    NeverResumed(c, s1, steps, f);
  }

  /** Whether the sleep has set its timer. */
  lemma SleepBegins(c: Config, s: State, w: nat, ms: nat, f: nat)
    requires Inv(c, s) && f in c.solo && CanSleep(c, s, w, ms, f)
    ensures var s1 := NextCode(c, s, w, Sleep(ms)).value;
      && Inv(c, s1) && f in s1.fibers
      && if Occupied(s.timers, s.clock + ms * TICKS_PER_MS) then Total(s1, f) == 0 else OnWay(s1, f) > 0
  {
    var s1 := NextCode(c, s, w, Sleep(ms)).value;
    var e := Timer((), s.clock + ms * TICKS_PER_MS, ms, false, Some(Wake(f)));
    assert SleeperFits(s, f);
    SleepDozes(c, s, w, ms, f);
    StepKeeps(c, s, Codes(w, Sleep(ms)));
    if Occupied(s.timers, e.next) {
      SleepDropped(s, s1, w, e, f);
    } else {
      SleepKept(s, s1, w, e, f);
    }
  }

  lemma SleepEnds(c: Config, s: State, w: nat, ms: nat, f: nat, steps: seq<Step>)
    requires Inv(c, s) && f in c.solo && CanSleep(c, s, w, ms, f)
    requires Exec(c, NextCode(c, s, w, Sleep(ms)).value, steps).Some?
    ensures var s1 := NextCode(c, s, w, Sleep(ms)).value;
      Fate(s1, Exec(c, s1, steps).value, f,
           Occupied(s.timers, s.clock + ms * TICKS_PER_MS) || ErasedIn(c, s1, steps, f))
  {
    var s1 := NextCode(c, s, w, Sleep(ms)).value;
    SleepBegins(c, s, w, ms, f);
    if Occupied(s.timers, s.clock + ms * TICKS_PER_MS) {
      DroppedFate(c, s1, steps, f);
    } else {
      FateOf(c, s1, steps, f);
    }
  }

  /** A fiber goes to sleep, and the run goes on in any way. As long as it has not been resumed, its resume
      is on its way, set, collected, queued or in hand, if and only if the deadline of the sleep was free
      and no erase has hit its timer while that was set; otherwise the fiber is never resumed again. */
  lemma SleepFateIff(c: Config, n: nat, s: State, w: nat, ms: nat, f: nat, steps: seq<Step>)
    requires Reachable(c, n, s) && f in c.solo && CanSleep(c, s, w, ms, f)
    requires Exec(c, NextCode(c, s, w, Sleep(ms)).value, steps).Some?
    ensures var s1 := NextCode(c, s, w, Sleep(ms)).value;
      SleepFate(c, s1, Exec(c, s1, steps).value, f,
                Occupied(s.timers, s.clock + ms * TICKS_PER_MS) || ErasedIn(c, s1, steps, f))
  {
    ReachableInv(c, n, s);
    var s1 := NextCode(c, s, w, Sleep(ms)).value;
    StepKeeps(c, s, Codes(w, Sleep(ms)));
    ExecKeeps(c, s1, steps);
    SleepEnds(c, s, w, ms, f, steps);
    FromFate(c, s1, Exec(c, s1, steps).value, f,
             Occupied(s.timers, s.clock + ms * TICKS_PER_MS) || ErasedIn(c, s1, steps, f));
  }
}
