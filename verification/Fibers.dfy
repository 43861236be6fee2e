/** The class Fiber and the three fiber pointers of a thread, updated in place, against the model of
    control transfer. C is the type of callbacks. */
module Fibers {
  import opened Options
  import M = FiberModel

  class Fiber<C> {
    var state: M.FiberState
    var cb: Option<C>
    const runInScheduler: bool
    var ctx: Fiber<C>  // whose execution the context holds

    /** The fiber of a thread's own stack. */
    constructor Main()
      ensures Value() == M.Fiber(M.Running, false, this) && cb == None
    {
      state, cb, runInScheduler, ctx := M.Running, None, false, this;
    }

    constructor (cb: C, runInScheduler: bool)
      ensures Value() == M.Fiber(M.Ready, runInScheduler, this) && this.cb == Some(cb)
    {
      state, this.cb, this.runInScheduler, ctx := M.Ready, Some(cb), runInScheduler, this;
    }

    ghost function Value(): M.Fiber<Fiber<C>>
      reads this
    {
      M.Fiber(state, runInScheduler, ctx)
    }

    method SetState(t: Thread<C>, state: M.FiberState)
      requires t.Valid() && this in t.fibers
      modifies this`state
      ensures t.Valid() && this.state == state && t.Model() == M.SetState(old(t.Model()), this, state)
    {
      this.state := state;
      t.Wrote(this);
    }

    method Reset(t: Thread<C>, cb: C)
      requires t.Valid() && this in t.fibers
      requires state == M.Term
      modifies this
      ensures t.Valid() && t.Model() == M.Reset(old(t.Model()), this) && this.cb == Some(cb)
    {
      state, this.cb, ctx := M.Ready, Some(cb), this;
    }

    method Resume(t: Thread<C>)
      requires t.Valid() && this in t.fibers && t.running in t.fibers
      requires state == M.Ready
      modifies this`state, t`current, t`running, M.Carrier(t.Model(), this)`ctx
      ensures t.Valid() && t.Model() == M.Resume(old(t.Model()), this)
      ensures cb == old(cb)
    {
      SetState(t, M.Running);
      t.current := this;
      if runInScheduler {
        t.SwapContext(t.sched, this);
      } else {
        t.SwapContext(t.main, this);
      }
    }

    method Yield(t: Thread<C>)
      requires t.Valid() && t.current == this && t.running in t.fibers
      requires state == M.Running || state == M.Term
      modifies this`state, this`ctx, t`current, t`running
      ensures t.Valid() && t.Model() == M.Yield(old(t.Model()))
      ensures cb == old(cb)
    {
      ghost var t0, s := t.Model(), if state == M.Term then M.Term else M.Ready;
      if state != M.Term {
        SetState(t, M.Ready);
      }
      ghost var t1 := t.Model();
      assert t1 == M.SetState(t0, this, s);
      var carrier := if runInScheduler then t.sched else t.main;
      t.current := carrier;
      assert t.Model() == t1.(current := carrier);
      t.SwapContext(this, carrier);
    }

    /** What MainFunc does once the callback has returned. */
    method Finish(t: Thread<C>)
      requires t.Valid() && t.current == this && t.running in t.fibers
      modifies this, t`current, t`running
      ensures t.Valid() && t.Model() == M.Finish(old(t.Model()))
      ensures cb == None
    {
      cb := None;
      state := M.Term;
      ghost var mid := t.Model();
      assert mid == M.SetState(old(t.Model()), this, M.Term);
      Yield(t);
    }
  }

  /** t_fiber, t_thread_fiber and t_scheduler_fiber; running is the fiber whose code executes. */
  class Thread<C> {
    var current: Fiber?<C>
    var main: Fiber?<C>
    var sched: Fiber?<C>
    var running: Fiber?<C>
    ghost var fibers: set<Fiber<C>>

    ghost predicate Valid()
      reads this
    {
      current in fibers && main in fibers && sched in fibers && running != null
    }

    static ghost function Values(fibers: set<Fiber<C>>): (m: map<Fiber<C>, M.Fiber<Fiber<C>>>)
      reads fibers
      ensures m.Keys == fibers && forall f :: f in fibers ==> m[f] == f.Value()
    {
      map f | f in fibers :: f.Value()
    }

    ghost function Model(): (m: M.Thread<Fiber<C>>)
      requires Valid()
      reads this, fibers
      ensures m.fibers.Keys == fibers
    {
      M.Thread(Values(fibers), current, main, sched, running)
    }

    /** Only f has changed since the old state. */
    twostate lemma Wrote(f: Fiber<C>)
      requires f in fibers && fibers == old(fibers)
      requires forall g :: g in fibers && g != f ==> g.Value() == old(g.Value())
      ensures Values(fibers) == old(Values(fibers))[f := f.Value()]
    {
    }

    constructor ()
      ensures current == null && fibers == {}
    {
      current, main, sched, running, fibers := null, null, null, null, {};
    }

    /** The first call on a thread makes its main fiber. */
    method GetThis() returns (f: Fiber<C>)
      requires current == null || Valid()
      modifies this
      ensures Valid() && f == current
      ensures old(current) == null ==> fresh(f) && Model() == M.Start(f)
      ensures old(current) != null ==> f == old(current) && unchanged(this)
    {
      if current != null {
        return current;
      }
      f := new Fiber.Main();
      current, main, sched, running, fibers := f, f, f, f, {f};
    }

    method SetSchedulerFiber(f: Fiber<C>)
      requires Valid() && f in fibers
      modifies this`sched
      ensures Valid() && Model() == old(Model()).(sched := f)
    {
      sched := f;
    }

    /** swapcontext: saves the executing code in one context and goes on with the other's. */
    method SwapContext(from: Fiber<C>, to: Fiber<C>)
      requires Valid() && from in fibers && to in fibers
      modifies this`running, from`ctx
      ensures Valid() && Model() == M.SwapContext(old(Model()), from, to)
    {
      from.ctx := running;
      Wrote(from);
      running := to.ctx;
    }
  }
}
