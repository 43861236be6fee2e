/** Control transfer on one thread: its fibers, the three thread-local pointers, and whose code is
    executing. A context holds the execution that was saved in it; swapcontext saves the executing
    code in one context and continues what the other holds. F identifies fibers. */
module FiberModel {

  datatype FiberState = Ready | Running | Term

  datatype Fiber<F> = Fiber(state: FiberState, inScheduler: bool, ctx: F)

  /** current is t_fiber, main is t_thread_fiber, sched is t_scheduler_fiber. */
  datatype Thread<F(==)> = Thread(fibers: map<F, Fiber<F>>, current: F, main: F, sched: F, running: F)

  ghost predicate Known<F>(t: Thread<F>) {
    && t.current in t.fibers && t.main in t.fibers && t.sched in t.fibers && t.running in t.fibers
  }

  function SetState<F(==)>(t: Thread<F>, f: F, state: FiberState): Thread<F>
    requires f in t.fibers
  {
    t.(fibers := t.fibers[f := t.fibers[f].(state := state)])
  }

  function SwapContext<F(==)>(t: Thread<F>, from: F, to: F): Thread<F>
    requires from in t.fibers && to in t.fibers
  {
    var fibers := t.fibers[from := t.fibers[from].(ctx := t.running)];
    t.(fibers := fibers, running := fibers[to].ctx)
  }

  /** The fiber whose context a resume saves into and a yield returns to. */
  function Carrier<F(==)>(t: Thread<F>, f: F): F
    requires f in t.fibers
  {
    if t.fibers[f].inScheduler then t.sched else t.main
  }

  function Resume<F(==)>(t: Thread<F>, f: F): Thread<F>
    requires Known(t) && f in t.fibers
  {
    SwapContext(SetState(t, f, Running).(current := f), Carrier(t, f), f)
  }

  /** yield() of the fiber that t_fiber names. */
  function Yield<F(==)>(t: Thread<F>): Thread<F>
    requires Known(t)
  {
    var f := t.current;
    var state := if t.fibers[f].state == Term then Term else Ready;
    SwapContext(SetState(t, f, state).(current := Carrier(t, f)), f, Carrier(t, f))
  }

  /** The end of MainFunc. */
  function Finish<F(==)>(t: Thread<F>): Thread<F>
    requires Known(t)
  {
    Yield(SetState(t, t.current, Term))
  }

  function Reset<F(==)>(t: Thread<F>, f: F): Thread<F>
    requires f in t.fibers
  {
    t.(fibers := t.fibers[f := t.fibers[f].(state := Ready, ctx := f)])
  }

  // ----- Discipline -----

  /** The fibers that have been resumed and have not yielded: main, then the scheduler fiber if a
      scheduled fiber executes, then the executing one. */
  function Chain<F(==)>(t: Thread<F>): set<F>
    requires t.current in t.fibers
  {
    {t.main, t.current} + if t.current != t.main && t.fibers[t.current].inScheduler then {t.sched} else {}
  }

  /** t_fiber is the executing fiber, exactly the chain is running, and every context holds its own
      fiber's execution. The scheduler fiber is main or is itself resumed from main. */
  ghost predicate Disciplined<F>(t: Thread<F>) {
    && Known(t)
    && t.running == t.current
    && (t.sched == t.main || !t.fibers[t.sched].inScheduler)
    && (forall f :: f in t.fibers ==> t.fibers[f].ctx == f)
    && (forall f :: f in t.fibers ==> (t.fibers[f].state == Running <==> f in Chain(t)))
  }

  datatype Step<F> =
    | Resuming(f: F)
    | Yielding
    | Finishing
    | Resetting(f: F)
    | Arriving(f: F, state: FiberState, inScheduler: bool)  // a new fiber, or one last run elsewhere
    | Departing(f: F)                                       // to be run by another thread
    | SettingScheduler(f: F)

  /** What the code asserts, and what a fiber can be asked from outside. The main fiber never
      yields; the scheduler fiber is chosen once, before any other fiber runs. */
  ghost predicate Enabled<F>(t: Thread<F>, step: Step<F>)
    requires Known(t)
  {
    match step
    case Resuming(f) => f in t.fibers && t.fibers[f].state == Ready
    case Yielding => t.current != t.main
    case Finishing => t.current != t.main
    case Resetting(f) => f in t.fibers && t.fibers[f].state == Term && f !in Chain(t)
    case Arriving(f, state, inScheduler) => f !in t.fibers && state != Running
    case Departing(f) => f in t.fibers && f !in Chain(t) && f != t.sched
    case SettingScheduler(f) =>
      t.current == t.main && f in t.fibers && (f == t.main || (t.fibers[f].state == Ready && !t.fibers[f].inScheduler))
  }

  function Apply<F(==)>(t: Thread<F>, step: Step<F>): Thread<F>
    requires Known(t) && Enabled(t, step)
  {
    match step
    case Resuming(f) => Resume(t, f)
    case Yielding => Yield(t)
    case Finishing => Finish(t)
    case Resetting(f) => Reset(t, f)
    case Arriving(f, state, inScheduler) => t.(fibers := t.fibers[f := Fiber(state, inScheduler, f)])
    case Departing(f) => t.(fibers := t.fibers - {f})
    case SettingScheduler(f) => t.(sched := f)
  }

  /** The rule of the scheduler: scheduled fibers are resumed from the scheduler fiber only, the
      others from the main fiber only. */
  ghost predicate FromCarrier<F>(t: Thread<F>, step: Step<F>)
    requires Known(t) && Enabled(t, step)
  {
    step.Resuming? ==> t.current == Carrier(t, step.f)
  }

  // ----- Laws -----

  /** A disciplined thread stays so exactly when fibers are resumed from their carrier. */
  lemma DisciplineIff<F>(t: Thread<F>, step: Step<F>)
    requires Disciplined(t) && Enabled(t, step)
    ensures Known(Apply(t, step))
    ensures Disciplined(Apply(t, step)) <==> FromCarrier(t, step)
  {
    var t' := Apply(t, step);
    match step
    case Resuming(f) =>
      var c := Carrier(t, f);
      assert f !in Chain(t) && c != f;
      if t.current != c {
        assert t'.fibers[c].ctx == t.current;
      } else {
        assert Chain(t') == Chain(t) + {f};
      }
    case Yielding => YieldReturns(t);
    case Finishing => YieldReturns(t);
    case Resetting(f) => assert Chain(t') == Chain(t);
    case Arriving(f, state, inScheduler) => assert Chain(t') == Chain(t);
    case Departing(f) => assert Chain(t') == Chain(t);
    case SettingScheduler(f) => assert Chain(t') == Chain(t);
  }

  /** A yield, or the end of the fiber, gives control back to the fiber that resumed it, which
      takes up its own execution; nothing but the state of the yielding fiber changes. */
  lemma YieldReturns<F>(t: Thread<F>)
    requires Disciplined(t) && t.current != t.main
    ensures var c := Carrier(t, t.current);
      && Yield(t) == SetState(t, t.current, Ready).(current := c, running := c)
      && Finish(t) == SetState(t, t.current, Term).(current := c, running := c)
      && Chain(Yield(t)) == Chain(t) - {t.current} && Chain(Finish(t)) == Chain(t) - {t.current}
  {
    var f, c := t.current, Carrier(t, t.current);
    assert f != c;
  }

  // ----- What a step does -----

  /** Nothing of the thread has changed but fiber f, which has kept its kind and its own execution. */
  ghost predicate OnlyFiber<F>(t: Thread<F>, t': Thread<F>, f: F) {
    && t'.main == t.main && t'.sched == t.sched && t'.fibers.Keys == t.fibers.Keys && f in t.fibers
    && (forall g :: g in t.fibers && g != f ==> t'.fibers[g] == t.fibers[g])
    && t'.fibers[f].inScheduler == t.fibers[f].inScheduler && t'.fibers[f].ctx == f
  }

  /** Whose code executes, and who is named by t_fiber. */
  predicate Executes<F(==)>(t: Thread<F>, f: F) {
    t.running == f && t.current == f
  }

  /** A resume from the scheduler fiber, or from main for a fiber that is not scheduled, makes f run; nothing
      else changes. */
  lemma ResumeTransfers<F>(t: Thread<F>, f: F)
    requires Disciplined(t) && f in t.fibers && t.fibers[f].state == Ready
    requires t.current == (if t.fibers[f].inScheduler then t.sched else t.main)
    ensures Enabled(t, Resuming(f))
    ensures var t' := Apply(t, Resuming(f));
      Executes(t', f) && t'.fibers[f].state == Running && OnlyFiber(t, t', f)
  {
    assert f !in Chain(t);
  }

  /** A fiber that yields becomes ready, one that finishes terminates; the scheduler fiber goes on, or main
      for a fiber that is not scheduled; nothing else changes. */
  lemma YieldTransfers<F>(t: Thread<F>)
    requires Disciplined(t) && t.current != t.main
    ensures Enabled(t, Yielding) && Enabled(t, Finishing)
    ensures var f, t1, t2 := t.current, Apply(t, Yielding), Apply(t, Finishing);
      var c := if t.fibers[f].inScheduler then t.sched else t.main;
      && Executes(t1, c) && t1.fibers[f].state == Ready && OnlyFiber(t, t1, f)
      && Executes(t2, c) && t2.fibers[f].state == Term && OnlyFiber(t, t2, f)
  {
    YieldReturns(t);
  }

  /** A terminated fiber that is reset is ready: it can be resumed, and then runs. The reset changes nothing
      else. */
  lemma ResetRevives<F>(t: Thread<F>, f: F)
    requires Disciplined(t) && f in t.fibers && t.fibers[f].state == Term
    ensures Enabled(t, Resetting(f))
    ensures var t' := Apply(t, Resetting(f));
      && OnlyFiber(t, t', f) && Executes(t', t.current) && Known(t') && Enabled(t', Resuming(f))
      && ((t.current == if t.fibers[f].inScheduler then t.sched else t.main) ==>
            Executes(Apply(t', Resuming(f)), f) && OnlyFiber(t, Apply(t', Resuming(f)), f))
  {
    var t' := Apply(t, Resetting(f));
    assert f !in Chain(t);
    DisciplineIff(t, Resetting(f));
    if t.current == if t.fibers[f].inScheduler then t.sched else t.main {
      ResumeTransfers(t', f);
    }
  }

  /** A new fiber joins the thread in the given state, and can be resumed if that is ready; choosing the
      scheduler fiber changes nothing else; and a fiber that leaves again leaves everything as it was. */
  lemma ArrivalJoins<F>(t: Thread<F>, f: F, state: FiberState, inScheduler: bool)
    requires Disciplined(t) && f !in t.fibers && state != Running
    ensures Enabled(t, Arriving(f, state, inScheduler))
    ensures var t' := Apply(t, Arriving(f, state, inScheduler));
      && t'.fibers == t.fibers[f := Fiber(state, inScheduler, f)] && t' == t.(fibers := t'.fibers)
      && Known(t') && (Enabled(t', Resuming(f)) <==> state == Ready)
      && (t.current == t.main && state == Ready && !inScheduler ==>
            Enabled(t', SettingScheduler(f)) && Apply(t', SettingScheduler(f)) == t'.(sched := f))
      && Enabled(t', Departing(f)) && Apply(t', Departing(f)) == t
  {
    assert t.fibers[f := Fiber(state, inScheduler, f)] - {f} == t.fibers;
  }

  /** A thread at the first call of GetThis: its main fiber is running and is the scheduler too. */
  function Start<F(==)>(main: F): Thread<F> {
    Thread(map[main := Fiber(Running, false, main)], main, main, main, main)
  }

  /** A run of steps, all of them enabled and obeying the rule. */
  ghost predicate Ruled<F>(t: Thread<F>, steps: seq<Step<F>>)
    decreases steps
  {
    steps == [] || (
      && Known(t) && Enabled(t, steps[0]) && FromCarrier(t, steps[0])
      && Ruled(Apply(t, steps[0]), steps[1..]))
  }

  function After<F(==)>(t: Thread<F>, steps: seq<Step<F>>): Thread<F>
    requires Ruled(t, steps)
    decreases steps
  {
    if steps == [] then t else After(Apply(t, steps[0]), steps[1..])
  }

  /** Over every ruled run t_fiber is the executing fiber, and at most main, the scheduler fiber
      and one more are nested. */
  lemma {:induction false} RunDisciplined<F>(t: Thread<F>, steps: seq<Step<F>>)
    requires Disciplined(t) && Ruled(t, steps)
    ensures var t' := After(t, steps);
      Disciplined(t') && t'.running == t'.current && |Chain(t')| <= 3
    decreases steps
  {
    if steps == [] {
      assert Chain(t) <= {t.main, t.sched, t.current};
      SizeOfThree(Chain(t), t.main, t.sched, t.current);
    } else {
      DisciplineIff(t, steps[0]);
      RunDisciplined(Apply(t, steps[0]), steps[1..]);
    }
  }

  lemma SizeOfThree<F>(s: set<F>, a: F, b: F, c: F)
    requires s <= {a, b, c}
    ensures |s| <= 3
  {
    assert s == s - {a, b, c} + s * {a, b, c};
    assert |s - {a}| >= |s| - 1;
    assert |s - {a} - {b}| >= |s| - 2;
    assert s - {a} - {b} <= {c};
    assert |s - {a} - {b} - {c}| >= |s| - 3;
    assert s - {a} - {b} - {c} == {};
  }

  lemma StartDisciplined<F>(main: F)
    ensures Disciplined(Start(main))
  {
  }

  /** Resuming a fiber that yields at once changes nothing. */
  lemma ResumeYield<F>(t: Thread<F>, f: F)
    requires Disciplined(t) && Enabled(t, Resuming(f)) && FromCarrier(t, Resuming(f))
    ensures Known(Resume(t, f)) && Yield(Resume(t, f)) == t
  {
    DisciplineIff(t, Resuming(f));
    YieldReturns(Resume(t, f));
    assert SetState(Resume(t, f), f, Ready).fibers == t.fibers;
  }

  /** f stays on the chain throughout. */
  ghost predicate OnChain<F>(t: Thread<F>, steps: seq<Step<F>>, f: F)
    requires Ruled(t, steps)
    decreases steps
  {
    && t.current in t.fibers && f in Chain(t)
    && (steps == [] || OnChain(Apply(t, steps[0]), steps[1..], f))
  }

  lemma {:induction false} CarrierStays<F>(t: Thread<F>, steps: seq<Step<F>>, f: F)
    requires Disciplined(t) && Ruled(t, steps) && OnChain(t, steps, f) && f != t.main
    ensures var t' := After(t, steps);
      f in t.fibers && f in t'.fibers && Carrier(t', f) == Carrier(t, f) && t'.main == t.main
    decreases steps
  {
    if steps != [] {
      DisciplineIff(t, steps[0]);
      CarrierStays(Apply(t, steps[0]), steps[1..], f);
    }
  }

  /** Whatever a resumed fiber does in between, as long as it has not yielded: when it yields or
      finishes, the fiber that resumed it executes again. */
  lemma YieldReturnsToResumer<F>(t: Thread<F>, f: F, steps: seq<Step<F>>)
    requires Disciplined(t) && Enabled(t, Resuming(f)) && FromCarrier(t, Resuming(f))
    requires Ruled(Resume(t, f), steps) && OnChain(Resume(t, f), steps, f) && After(Resume(t, f), steps).current == f
    ensures var t' := After(Resume(t, f), steps);
      Known(t') && Yield(t').running == t.current && Finish(t').running == t.current
  {
    DisciplineIff(t, Resuming(f));
    CarrierStays(Resume(t, f), steps, f);
    RunDisciplined(Resume(t, f), steps);
    YieldReturns(After(Resume(t, f), steps));
  }

  /** A finished fiber runs again only after a reset. */
  lemma {:induction false} TermUntilReset<F>(t: Thread<F>, steps: seq<Step<F>>, f: F)
    requires Disciplined(t) && Ruled(t, steps) && f in t.fibers && t.fibers[f].state == Term
    requires forall i :: 0 <= i < |steps| ==> steps[i] != Resetting(f) && steps[i] != Departing(f)
    ensures var t' := After(t, steps); f in t'.fibers && t'.fibers[f].state == Term && t'.running != f
    decreases steps
  {
    if steps != [] {
      DisciplineIff(t, steps[0]);
      TermUntilReset(Apply(t, steps[0]), steps[1..], f);
    }
  }

  /** A task 1 that resumes another task 2 directly breaks the rule: when 2 yields, t_fiber names
      the scheduler fiber 0 and the code of task 1 executes. */
  lemma ResumeFromTaskGoesAstray()
    ensures var t := Apply(Apply(Start(0), Arriving(1, Ready, true)), Arriving(2, Ready, true));
      Known(t) && Known(Resume(t, 1)) && Known(Resume(Resume(t, 1), 2))
      && Yield(Resume(Resume(t, 1), 2)).current == 0 && Yield(Resume(Resume(t, 1), 2)).running == 1
  {
    var t := Apply(Apply(Start(0), Arriving(1, Ready, true)), Arriving(2, Ready, true));
    assert t.fibers[0].ctx == 0 && t.fibers[1] == Fiber(Ready, true, 1) && t.fibers[2] == Fiber(Ready, true, 2);
    var t1 := Resume(t, 1);
    assert t1.running == 1 && t1.fibers[0].ctx == 0;
    var t2 := Resume(t1, 2);
    assert t2.running == 2 && t2.fibers[0].ctx == 1;
  }
}
