/** The classes FdContext and IOManager, updated in place, against the fd table model. Each method
    is what runs under the context's mutex. queue is what the scheduler has been handed. */
module IoManager {
  import opened Options
  import opened M = FdModel
  import L = FdLaws

  class Context {
    const fd: int
    var events: set<Event>
    var read: EventContext
    var write: EventContext

    constructor (fd: int)
      ensures Value() == FreshContext(fd)
    {
      this.fd, events, read, write := fd, {}, NO_CONTEXT, NO_CONTEXT;
    }

    ghost function Value(): FdContext
      reads this
    {
      FdContext(fd, events, read, write)
    }

    function EventContextOf(ev: Event): (ctx: EventContext)
      reads this
      ensures ctx == Value().Context(ev)
    {
      match ev case Read => read case Write => write
    }

    method SetEventContext(ev: Event, ctx: EventContext)
      modifies this`read, this`write
      ensures Value() == old(Value()).With(ev, ctx)
    {
      match ev
      case Read => read := ctx;
      case Write => write := ctx;
    }

    /** aborted tells that the assertion failed, or that there was no scheduler to hand over to. */
    method TriggerEvent(ev: Event) returns (aborted: bool, w: Waiter)
      modifies this
      ensures aborted <==> M.Trigger(old(Value()), ev).None?
      ensures !aborted ==> M.Trigger(old(Value()), ev) == Some((Value(), w))
    {
      w := ResumeFiber(0);
      var ctx := EventContextOf(ev);
      if ev !in events || !ctx.Armed() {
        return true, w;
      }
      events := events - {ev};
      if ctx.cb.Some? {
        w := RunCallback(ctx.cb.value);
      } else {
        w := ResumeFiber(ctx.fiber.value);
      }
      SetEventContext(ev, NO_CONTEXT);
      aborted := false;
    }
  }

  class IOManager {
    var fdContexts: seq<Context>
    var epoll: map<int, set<Event>>
    var pendingEventCount: nat
    var queue: seq<Waiter>

    ghost function Model(): Io
      reads this, fdContexts
    {
      Io(Values(fdContexts), epoll, pendingEventCount, queue)
    }

    static ghost function Values(s: seq<Context>): (q: seq<FdContext>)
      reads s
      ensures |q| == |s| && forall i :: 0 <= i < |s| ==> q[i] == s[i].Value()
    {
      seq(|s|, i requires 0 <= i < |s| reads s => s[i].Value())
    }

    /** Slot i holds the context of descriptor i, so no two slots share one. */
    ghost predicate Valid()
      reads this
    {
      forall i :: 0 <= i < |fdContexts| ==> fdContexts[i].fd == i
    }

    constructor ()
      ensures Valid() && Model() == Io(Resized([], 32), map[], 0, [])
    {
      fdContexts, epoll, pendingEventCount, queue := [], map[], 0, [];
      new;
      ContextResize(32);
      assert Values(fdContexts) == Resized([], 32);
    }

    method ContextResize(size: nat)
      requires Valid() && |fdContexts| <= size
      modifies this`fdContexts
      ensures Valid() && |fdContexts| == size && old(fdContexts) <= fdContexts
      ensures fresh(fdContexts[|old(fdContexts)|..])
      ensures Values(fdContexts) == Resized(old(Values(fdContexts)), size)
    {
      while |fdContexts| < size
        invariant Valid() && old(fdContexts) <= fdContexts && |fdContexts| <= size
        invariant forall i :: |old(fdContexts)| <= i < |fdContexts| ==>
          fresh(fdContexts[i]) && fdContexts[i].Value() == FreshContext(i)
        decreases size - |fdContexts|
      {
        var ctx := new Context(|fdContexts|);
        fdContexts := fdContexts + [ctx];
      }
      assert forall i :: 0 <= i < |old(fdContexts)| ==> fdContexts[i] == old(fdContexts)[i];
    }

    /** What changing one context in place does to the table. */
    twostate lemma Touched(fd: nat)
      requires Valid() && fdContexts == old(fdContexts) && fd < |fdContexts|
      requires forall i :: 0 <= i < |fdContexts| && i != fd ==> fdContexts[i].Value() == old(fdContexts[i].Value())
      ensures Values(fdContexts) == old(Values(fdContexts))[fd := fdContexts[fd].Value()]
    {
    }

    method EpollCtl(op: CtlOp, fd: nat, mask: set<Event>) returns (failed: bool)
      modifies this`epoll
      ensures var r := Ctl(old(epoll), op, fd, mask);
        failed == r.None? && epoll == (if failed then old(epoll) else r.value)
    {
      match Ctl(epoll, op, fd, mask)
      case None => failed := true;
      case Some(e) => failed, epoll := false, e;
    }

    /** Finds the context of fd, growing the table if there is none. */
    method AddEvent(fd: nat, ev: Event, scheduler: nat, self: Fiber, cb: Option<Callback>)
      returns (aborted: bool, ret: int)
      requires Valid()
      modifies this, fdContexts
      ensures Valid() && old(fdContexts) <= fdContexts
      ensures var o := M.AddEvent(old(Model()), fd, ev, scheduler, self, cb);
        if aborted then o.Aborted? else o == Done(Model(), ret)
    {
      if fd >= |fdContexts| {
        ContextResize(GrownSize(fd));
        if fd >= |fdContexts| {
          return true, -1;
        }
        assert fdContexts[fd] == fdContexts[|old(fdContexts)|..][fd - |old(fdContexts)|];
      }
      assert Grown(Values(fdContexts), fd) == Values(fdContexts) == Grown(old(Values(fdContexts)), fd);
      aborted, ret := Register(fd, ev, scheduler, self, cb);
    }

    /** The rest of addEvent, under the mutex of the context. */
    method Register(fd: nat, ev: Event, scheduler: nat, self: Fiber, cb: Option<Callback>)
      returns (aborted: bool, ret: int)
      requires Valid() && fd < |fdContexts|
      modifies this`epoll, this`pendingEventCount, fdContexts[fd]
      ensures Valid()
      ensures var o := M.AddEvent(old(Model()), fd, ev, scheduler, self, cb);
        if aborted then o.Aborted? else o == Done(Model(), ret)
    {
      var ctx := fdContexts[fd];
      if ev in ctx.events {
        return false, -1;
      }
      var op := if ctx.events != {} then Mod else Add;
      var failed := EpollCtl(op, fd, ctx.events + {ev});
      if failed {
        return false, -1;
      }
      pendingEventCount := pendingEventCount + 1;
      if !ctx.EventContextOf(ev).Empty() {
        return true, -1;
      }
      ctx.events := ctx.events + {ev};
      ctx.SetEventContext(ev, EventContext(Some(scheduler), if cb.Some? then None else Some(self), cb));
      Touched(fd);
      aborted, ret := false, 0;
    }

    /** The int is the bool of the source: 1 also where it says "return -1". */
    method DelEvent(fd: nat, ev: Event) returns (ret: int)
      requires Valid()
      modifies this`epoll, this`pendingEventCount, fdContexts
      ensures Valid() && M.DelEvent(old(Model()), fd, ev) == Done(Model(), ret)
    {
      if fd >= |fdContexts| {
        return 0;
      }
      var ctx := fdContexts[fd];
      if GuardRefuses(ctx.events, ev) {
        return 0;
      }
      var left := ctx.events - {ev};
      var failed := EpollCtl(if left != {} then Mod else Del, fd, left);
      if failed {
        return 1;
      }
      pendingEventCount := Decremented(pendingEventCount);
      ctx.events := left;
      ctx.SetEventContext(ev, NO_CONTEXT);
      Touched(fd);
      ret := 1;
    }

    method CancelEvent(fd: nat, ev: Event) returns (aborted: bool, ret: int)
      requires Valid()
      modifies this`epoll, this`pendingEventCount, this`queue, fdContexts
      ensures Valid()
      ensures var o := M.CancelEvent(old(Model()), fd, ev); if aborted then o.Aborted? else o == Done(Model(), ret)
    {
      if fd >= |fdContexts| {
        return false, 0;
      }
      var ctx := fdContexts[fd];
      if GuardRefuses(ctx.events, ev) {
        return false, 0;
      }
      var left := ctx.events - {ev};
      var failed := EpollCtl(if left != {} then Mod else Del, fd, left);
      if failed {
        return false, 1;
      }
      pendingEventCount := Decremented(pendingEventCount);
      var w;
      aborted, w := ctx.TriggerEvent(ev);
      ret := 1;
      if !aborted {
        queue := queue + [w];
        Touched(fd);
      }
    }

    /** if (events & ev) trigger, count down: a branch of cancelAll and of the idle loop. */
    method Fire(fd: nat, ev: Event, wanted: bool) returns (aborted: bool)
      requires Valid() && fd < |fdContexts|
      modifies this`pendingEventCount, this`queue, fdContexts[fd]
      ensures Valid()
      ensures var o := M.Fire(old(Model()), fd, ev, wanted); if aborted then o.None? else o == Some(Model())
    {
      aborted := false;
      if wanted {
        var w;
        aborted, w := fdContexts[fd].TriggerEvent(ev);
        if !aborted {
          queue := queue + [w];
          pendingEventCount := Decremented(pendingEventCount);
          Touched(fd);
        }
      }
    }

    method CancelAll(fd: nat) returns (aborted: bool, ret: int)
      requires Valid()
      modifies this`epoll, this`pendingEventCount, this`queue, fdContexts
      ensures Valid()
      ensures var o := M.CancelAll(old(Model()), fd); if aborted then o.Aborted? else o == Done(Model(), ret)
    {
      if fd >= |fdContexts| || fdContexts[fd].events == {} {
        return false, 0;
      }
      var events := fdContexts[fd].events;
      var failed := EpollCtl(Del, fd, {});
      if failed {
        return false, 1;
      }
      aborted := Fire(fd, Read, Read in events);
      if !aborted {
        aborted := Fire(fd, Write, Write in events);
      }
      if !aborted && fdContexts[fd].events != {} {
        aborted := true;
      }
      ret := 1;
    }

    /** One turn of the loop over what epoll_wait returned. */
    method HandleReport(r: Report) returns (aborted: bool)
      requires Valid()
      modifies this`epoll, this`pendingEventCount, this`queue, fdContexts
      ensures Valid()
      ensures var o := M.HandleReport(old(Model()), r); if aborted then o.Aborted? else o == Done(Model(), 0)
    {
      if r.fd >= |fdContexts| {
        return true;
      }
      var ctx := fdContexts[r.fd];
      var readable := r.readable || (r.failed && Read in ctx.events);
      var writable := r.writable || (r.failed && Write in ctx.events);
      var happened := (if readable then {Read} else {}) + (if writable then {Write} else {});
      if ctx.events * happened == {} {
        return false;
      }
      var left := ctx.events - happened;
      var failed := EpollCtl(if left != {} then Mod else Del, r.fd, left);
      if failed {
        return false;
      }
      aborted := Fire(r.fd, Read, Read in happened);
      if !aborted {
        aborted := Fire(r.fd, Write, Write in happened);
      }
    }

    method HandleNext(batch: seq<Report>, i: nat, ghost start: L.Ledger, ghost l: L.Ledger) returns (ghost l': L.Ledger)
      requires Valid() && i < |batch| && Model() == l.io && L.MidBatch(start, l, batch, i)
      modifies this`epoll, this`pendingEventCount, this`queue, fdContexts
      ensures Valid() && Model() == l'.io && L.MidBatch(start, l', batch, i + 1)
    {
      L.BatchTurn(start, l, batch, i);
      var aborted := HandleReport(batch[i]);
      l' := L.Entered(l, Reporting(batch[i]));
    }

    /** The loop over one batch. It runs through, as a safe run of reports. */
    method HandleBatch(batch: seq<Report>) returns (ghost l: L.Ledger)
      requires Valid() && L.Consistent(Model())
      requires forall i, j :: 0 <= i < j < |batch| ==> batch[i].fd != batch[j].fd
      requires forall i :: 0 <= i < |batch| ==> L.StillRegistered(Model(), batch[i])
      modifies this`epoll, this`pendingEventCount, this`queue, fdContexts
      ensures Valid() && L.SafeRun(old(Model()), L.AsOps(batch))
      ensures Model() == L.After(L.Ledger(old(Model()), multiset{}, multiset{}), L.AsOps(batch)).io
      ensures L.Consistent(Model())
    {
      ghost var start := L.Ledger(Model(), multiset{}, multiset{});
      L.BatchSafe(Model(), batch);
      L.BatchStarts(start, batch);
      l := start;
      for i := 0 to |batch|
        invariant Valid() && fdContexts == old(fdContexts) && Model() == l.io
        invariant L.MidBatch(start, l, batch, i)
      {
        l := HandleNext(batch, i, start, l);
      }
      L.BatchEnds(start, l, batch);
    }
  }
}
