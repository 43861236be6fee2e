/** What each operation does to every event and to the one who waits for it: which events are registered
    afterwards, for whom, who is handed to the scheduler and in which order, and what the caller is told. */
module FdEffects {
  import opened Options
  import opened FdModel
  import opened FdLaws
  import opened FdBatches

  /** Event ev of descriptor fd is registered, and w is who waits for it: the callback if there is one,
      otherwise the fiber. */
  ghost predicate Awaits(io: Io, fd: nat, ev: Event, w: Waiter) {
    && ev in EventsAt(io, fd)
    && var ctx := match ev case Read => io.table[fd].read case Write => io.table[fd].write;
       match w
       case RunCallback(c) => ctx.cb == Some(c) && ctx.fiber == None
       case ResumeFiber(f) => ctx.fiber == Some(f) && ctx.cb == None
  }

  /** The scheduler that the waiter goes back to. */
  function Home(io: Io, fd: nat, ev: Event): Option<nat>
    requires fd < |io.table|
  {
    match ev case Read => io.table[fd].read.scheduler case Write => io.table[fd].write.scheduler
  }

  /** Event ev of descriptor fd is registered for whom it was, or not registered as before. */
  ghost predicate Stays(io: Io, io': Io, fd: nat, ev: Event) {
    && (ev in EventsAt(io', fd) <==> ev in EventsAt(io, fd))
    && forall w :: Awaits(io', fd, ev, w) <==> Awaits(io, fd, ev, w)
  }

  /** Only the given events of descriptor fd have changed. */
  ghost predicate OnlyAt(io: Io, io': Io, fd: nat, events: set<Event>) {
    forall g: nat, ev: Event :: g != fd || ev !in events ==> Stays(io, io', g, ev)
  }

  // ----- Contexts -----

  lemma SomeoneAwaits(io: Io, fd: nat, ev: Event)
    requires TableOk(io.table) && ev in EventsAt(io, fd)
    ensures io.table[fd].Context(ev).Armed() && Awaits(io, fd, ev, io.table[fd].Context(ev).Waiter())
    ensures forall w :: Awaits(io, fd, ev, w) ==> w == io.table[fd].Context(ev).Waiter()
  {
    var ctx := io.table[fd];
    assert ContextOk(ctx);
    match ev
    case Read => assert ctx.Context(Read) == ctx.read;
    case Write => assert ctx.Context(Write) == ctx.write;
  }

  lemma ContextStays(io: Io, io': Io, fd: nat, ev: Event)
    requires fd < |io.table| && fd < |io'.table|
    requires ev in io'.table[fd].events <==> ev in io.table[fd].events
    requires io'.table[fd].Context(ev) == io.table[fd].Context(ev)
    ensures Stays(io, io', fd, ev)
  {
    match ev case Read => case Write =>
  }

  /** The table after a change of one context. */
  lemma SlotChanges(io: Io, io': Io, fd: nat, ctx: FdContext, events: set<Event>)
    requires fd < |io.table| && io'.table == io.table[fd := ctx]
    requires forall ev: Event :: ev !in events ==>
      (ev in ctx.events <==> ev in io.table[fd].events) && ctx.Context(ev) == io.table[fd].Context(ev)
    ensures OnlyAt(io, io', fd, events)
  {
    forall g: nat, ev: Event | g != fd || ev !in events ensures Stays(io, io', g, ev) {
      if g < |io.table| {
        ContextStays(io, io', g, ev);
      }
    }
  }

  lemma ClearedIs(ctx: FdContext, ev: Event)
    ensures Cleared(ctx, ev).events == ctx.events - {ev}
    ensures forall e: Event :: e != ev ==> Cleared(ctx, ev).Context(e) == ctx.Context(e)
  {
    match ev case Read => case Write =>
  }

  lemma ClearedBothIs(ctx: FdContext, fired: set<Event>)
    ensures var c2 := ClearedBoth(ctx, Read in fired, Write in fired);
      c2.events == ctx.events - fired && forall e: Event :: e !in fired ==> c2.Context(e) == ctx.Context(e)
  {
    BothCleared(ctx, fired);
    ClearedIs(ctx, Read);
    ClearedIs(ctx, Write);
    ClearedIs(Cleared(ctx, Read), Write);
  }

  // ----- addEvent -----

  /** Growing makes the table one and a half times the descriptor, truncated, and empties nothing. */
  lemma GrownEffect(io: Io, fd: nat)
    requires TableOk(io.table)
    ensures var io1 := io.(table := Grown(io.table, fd));
      && |io1.table| == (if fd < |io.table| then |io.table| else fd + fd / 2) && fd < |io1.table|
      && OnlyAt(io, io1, fd, {})
  {
    var io1 := io.(table := Grown(io.table, fd));
    GrowthWorks(io.table, fd);
    forall g: nat, ev: Event ensures Stays(io, io1, g, ev) {
      if g < |io.table| {
        assert io1.table[..|io.table|][g] == io1.table[g];
        ContextStays(io, io1, g, ev);
      }
    }
  }

  /** addEvent refuses an event that is registered and changes nothing about any event. Any other event is
      registered for the callback, or without one for the calling fiber, under the caller's scheduler, and
      counted; no other event changes, and nobody is handed over. */
  lemma AddEffect(io: Io, fd: nat, ev: Event, scheduler: nat, self: Fiber, cb: Option<Callback>)
    requires Consistent(io)
    ensures var o := AddEvent(io, fd, ev, scheduler, self, cb);
      && o.Done? && o.io.queue == io.queue
      && |o.io.table| == (if fd < |io.table| then |io.table| else fd + fd / 2)
      && if ev in EventsAt(io, fd) then o.ret == -1 && OnlyAt(io, o.io, fd, {}) && o.io.pending == io.pending
         else
           && o.ret == 0 && OnlyAt(io, o.io, fd, {ev}) && o.io.pending == io.pending + 1
           && Awaits(o.io, fd, ev, match cb case Some(c) => RunCallback(c) case None => ResumeFiber(self))
           && fd < |o.io.table| && Home(o.io, fd, ev) == Some(scheduler)
  {
    var io1 := io.(table := Grown(io.table, fd));
    GrownEffect(io, fd);
    GrowthKeeps(io, fd);
    AddAfterGrowth(io, fd, ev, scheduler, self, cb);
    assert Stays(io, io1, fd, ev);
    if ev !in EventsAt(io, fd) {
      AddHereEffect(io1, fd, ev, scheduler, self, cb);
      OnlyAtTwice(io, io1, AddEvent(io, fd, ev, scheduler, self, cb).io, fd, {ev});
    }
  }

  lemma OnlyAtTwice(io: Io, io1: Io, io2: Io, fd: nat, events: set<Event>)
    requires OnlyAt(io, io1, fd, {}) && OnlyAt(io1, io2, fd, events)
    ensures OnlyAt(io, io2, fd, events)
  {
    forall g: nat, ev: Event | g != fd || ev !in events ensures Stays(io, io2, g, ev) {
      assert Stays(io, io1, g, ev) && Stays(io1, io2, g, ev);
    }
  }

  lemma ArmedIs(ctx: FdContext, ev: Event, armed: EventContext)
    ensures Armed(ctx, ev, armed).events == ctx.events + {ev} && Armed(ctx, ev, armed).Context(ev) == armed
    ensures forall e: Event :: e != ev ==> Armed(ctx, ev, armed).Context(e) == ctx.Context(e)
  {
    match ev case Read => case Write =>
  }

  lemma AddHereEffect(io: Io, fd: nat, ev: Event, scheduler: nat, self: Fiber, cb: Option<Callback>)
    requires Consistent(io) && fd < |io.table| && ev !in EventsAt(io, fd)
    ensures var o := AddEvent(io, fd, ev, scheduler, self, cb);
      && o.Done? && o.ret == 0 && o.io.queue == io.queue && o.io.pending == io.pending + 1
      && |o.io.table| == |io.table| && OnlyAt(io, o.io, fd, {ev})
      && Awaits(o.io, fd, ev, match cb case Some(c) => RunCallback(c) case None => ResumeFiber(self))
      && Home(o.io, fd, ev) == Some(scheduler)
  {
    var ctx, armed := io.table[fd], EventContext(Some(scheduler), if cb.Some? then None else Some(self), cb);
    AddsOne(io, io.table, fd, ev, armed);
    var epoll := Ctl(io.epoll, if ctx.events != {} then Mod else Add, fd, ctx.events + {ev}).value;
    AddEvaluates(io, fd, ev, scheduler, self, cb, epoll);
    ArmedEffect(io, AddEvent(io, fd, ev, scheduler, self, cb).io, fd, ev, armed);
  }

  lemma ArmedEffect(io: Io, io': Io, fd: nat, ev: Event, armed: EventContext)
    requires fd < |io.table| && io'.table == io.table[fd := Armed(io.table[fd], ev, armed)] && armed.Armed()
    ensures OnlyAt(io, io', fd, {ev}) && Home(io', fd, ev) == armed.scheduler
    ensures Awaits(io', fd, ev,
                   match armed.cb case Some(c) => RunCallback(c) case None => ResumeFiber(armed.fiber.value))
  {
    ArmedIs(io.table[fd], ev, armed);
    SlotChanges(io, io', fd, Armed(io.table[fd], ev, armed), {ev});
    match ev case Read => case Write =>
  }

  // ----- delEvent and cancelEvent -----

  lemma TakeEffect(io: Io, io': Io, fd: nat, ev: Event)
    requires fd < |io.table| && io'.table == io.table[fd := Cleared(io.table[fd], ev)]
    ensures ev !in EventsAt(io', fd) && OnlyAt(io, io', fd, {ev})
  {
    ClearedIs(io.table[fd], ev);
    SlotChanges(io, io', fd, Cleared(io.table[fd], ev), {ev});
  }

  /** What delEvent and cancelEvent answer about a descriptor that has no event: true for WRITE inside the
      table, as their "return -1" is, and false otherwise; and nothing happens. */
  lemma NothingToTake(io: Io, fd: nat, ev: Event)
    requires Consistent(io) && EventsAt(io, fd) == {}
    ensures var ret := if fd < |io.table| && ev == Write then 1 else 0;
      DelEvent(io, fd, ev) == Done(io, ret) && CancelEvent(io, fd, ev) == Done(io, ret)
  {
  }

  /** delEvent unregisters a registered event and hands over nobody. With no event at all nothing happens;
      with another one only, the counter is lowered and true returned. */
  lemma DelEffect(io: Io, fd: nat, ev: Event)
    requires Consistent(io)
    ensures var o := DelEvent(io, fd, ev);
      && o.Done? && o.io.queue == io.queue
      && if ev in EventsAt(io, fd) then
           o.ret == 1 && ev !in EventsAt(o.io, fd) && OnlyAt(io, o.io, fd, {ev}) && o.io.pending + 1 == io.pending
         else if EventsAt(io, fd) == {} then
           o.io == io && o.ret == if fd < |io.table| && ev == Write then 1 else 0
         else
           o.ret == 1 && OnlyAt(io, o.io, fd, {}) && o.io.pending + 1 == io.pending
  {
    if ev in EventsAt(io, fd) {
      TakesOne(io, fd, ev);
      TakeEvaluates(io, fd, ev);
      SomeRegistered(io, fd);
      TakeEffect(io, DelEvent(io, fd, ev).io, fd, ev);
    } else if EventsAt(io, fd) == {} {
      NothingToTake(io, fd, ev);
    } else {
      DelOtherEffect(io, fd, ev);
    }
  }

  lemma DelOtherEffect(io: Io, fd: nat, ev: Event)
    requires Consistent(io) && ev !in EventsAt(io, fd) && EventsAt(io, fd) != {}
    ensures var o := DelEvent(io, fd, ev);
      o.Done? && o.io.queue == io.queue && o.ret == 1 && OnlyAt(io, o.io, fd, {}) && o.io.pending + 1 == io.pending
  {
    var ctx := io.table[fd];
    SomeRegistered(io, fd);
    UnarmedWaiters(ctx, ev);
    CtlWorks(io.table, io.epoll, fd, ctx);
    assert ctx.events - {ev} == ctx.events;
    DelOfOther(io, fd, ev);
    SlotChanges(io, DelEvent(io, fd, ev).io, fd, ctx, {});
  }

  /** With one event registered in all, deleting the other one of its descriptor and then the event itself takes
      the counter, which has no sign, below zero. */
  lemma CounterWraps(io: Io, fd: nat, ev: Event, other: Event)
    requires Consistent(io) && io.pending == 1 && ev in EventsAt(io, fd) && other !in EventsAt(io, fd)
    ensures var o := DelEvent(io, fd, other);
      && o.Done? && o.io.pending == 0 && DelEvent(o.io, fd, ev).Done?
      && DelEvent(o.io, fd, ev).io.pending == 0xFFFF_FFFF_FFFF_FFFF
  {
    var ctx := io.table[fd];
    DelOtherEffect(io, fd, other);
    UnarmedWaiters(ctx, other);
    CtlWorks(io.table, io.epoll, fd, ctx);
    assert ctx.events - {other} == ctx.events;
  }

  /** cancelEvent unregisters a registered event and hands its waiter over, last in the queue. With no event
      at all nothing happens; with another one only, its assertion fails. */
  lemma CancelEffect(io: Io, fd: nat, ev: Event)
    requires Consistent(io)
    ensures var o := CancelEvent(io, fd, ev);
      if ev in EventsAt(io, fd) then
        && o.Done? && o.ret == 1 && ev !in EventsAt(o.io, fd) && OnlyAt(io, o.io, fd, {ev})
        && o.io.pending + 1 == io.pending
        && forall w :: Awaits(io, fd, ev, w) ==> o.io.queue == io.queue + [w]
      else if EventsAt(io, fd) == {} then
        o == Done(io, if fd < |io.table| && ev == Write then 1 else 0)
      else o.Aborted?
  {
    CancelKeeps(io, fd, ev);
    if ev in EventsAt(io, fd) {
      TakesOne(io, fd, ev);
      TakeEvaluates(io, fd, ev);
      SomeRegistered(io, fd);
      SomeoneAwaits(io, fd, ev);
      TakeEffect(io, CancelEvent(io, fd, ev).io, fd, ev);
    } else if EventsAt(io, fd) == {} {
      NothingToTake(io, fd, ev);
    }
  }

  // ----- cancelAll and the reports -----

  /** The waiters of the given registered events, that of READ first. */
  ghost predicate AreWaiters(io: Io, fd: nat, events: set<Event>, ws: seq<Waiter>) {
    && |ws| == (if Read in events then 1 else 0) + (if Write in events then 1 else 0)
    && (Read in events ==> Awaits(io, fd, Read, ws[0]))
    && (Write in events ==> Awaits(io, fd, Write, ws[|ws| - 1]))
  }

  /** The given events are unregistered and their waiters handed over; nothing else changes. */
  ghost predicate Fires(io: Io, io': Io, fd: nat, events: set<Event>) {
    && EventsAt(io', fd) == EventsAt(io, fd) - events && OnlyAt(io, io', fd, events)
    && io.queue <= io'.queue && AreWaiters(io, fd, events, io'.queue[|io.queue|..])
    && io'.pending + |io'.queue| == io.pending + |io.queue|
  }

  lemma FiresAre(io: Io, fd: nat, events: set<Event>)
    requires TableOk(io.table) && fd < |io.table| && events <= io.table[fd].events
    ensures (Read in events ==> io.table[fd].read.Armed()) && (Write in events ==> io.table[fd].write.Armed())
    ensures AreWaiters(io, fd, events, FiredFor(io.table[fd], Read in events, Write in events))
  {
    if Read in events {
      SomeoneAwaits(io, fd, Read);
    }
    if Write in events {
      SomeoneAwaits(io, fd, Write);
    }
  }

  lemma HandedFires(io: Io, io1: Io, io': Io, fd: nat, events: set<Event>)
    requires TableOk(io.table) && fd < |io.table| && events <= io.table[fd].events
    requires io1 == io.(epoll := io1.epoll)
    requires (Read in events ==> io.table[fd].read.Armed()) && (Write in events ==> io.table[fd].write.Armed())
    requires Handed(io1, io', fd, ClearedBoth(io.table[fd], Read in events, Write in events),
                    FiredFor(io.table[fd], Read in events, Write in events))
    ensures Fires(io, io', fd, events)
  {
    var c2 := ClearedBoth(io.table[fd], Read in events, Write in events);
    var fired := FiredFor(io.table[fd], Read in events, Write in events);
    FiresAre(io, fd, events);
    ClearedBothIs(io.table[fd], events);
    SlotChanges(io, io', fd, c2, events);
    assert io'.queue[|io.queue|..] == fired;
  }

  /** cancelAll unregisters whatever the descriptor has and hands the waiters over. */
  lemma CancelAllEffect(io: Io, fd: nat)
    requires Consistent(io)
    ensures var o := CancelAll(io, fd);
      if EventsAt(io, fd) == {} then o == Done(io, 0)
      else o.Done? && o.ret == 1 && EventsAt(o.io, fd) == {} && Fires(io, o.io, fd, EventsAt(io, fd))
  {
    CancelAllKeeps(io, fd);
    if EventsAt(io, fd) != {} {
      var events := io.table[fd].events;
      var io1 := io.(epoll := io.epoll - {fd});
      FireBothWorks(io1, fd, Read in events, Write in events);
      CancelAllIs(io, fd);
      HandedFires(io, io1, CancelAll(io, fd).io, fd, events);
    }
  }

  lemma CancelAllIs(io: Io, fd: nat)
    requires Consistent(io) && EventsAt(io, fd) != {} && CancelAll(io, fd).Done?
    ensures FireBoth(io.(epoll := io.epoll - {fd}), fd, Read in io.table[fd].events, Write in io.table[fd].events)
      == Some(CancelAll(io, fd).io)
  {
  }

  /** The events that a report fires: those registered that it names, or all with an error. */
  function Due(io: Io, r: Report): set<Event> {
    set ev: Event | ev in EventsAt(io, r.fd) && (Names(r, ev) || r.failed)
  }

  lemma DueIs(io: Io, r: Report)
    requires r.fd < |io.table|
    ensures RealEvents(io.table[r.fd], r) * io.table[r.fd].events == Due(io, r)
  {
    forall ev: Event ensures ev in RealEvents(io.table[r.fd], r) * io.table[r.fd].events <==> ev in Due(io, r) {
      match ev case Read => case Write =>
    }
  }

  /** A report that is handled without a failed assertion fires exactly the registered events that it names,
      or all of them if it is an error: each is unregistered and counted down, and its waiter handed over,
      that of READ first. Nothing else changes. */
  lemma ReportEffect(io: Io, r: Report)
    requires Consistent(io) && r.fd < |io.table| && HandleReport(io, r).Done?
    ensures Fires(io, HandleReport(io, r).io, r.fd, Due(io, r))
  {
    var happened := RealEvents(io.table[r.fd], r);
    DueIs(io, r);
    ReportKeeps(io, r);
    if happened !! io.table[r.fd].events {
      FiresNothing(io, r.fd);
    } else {
      ReportFiresDue(io, r);
    }
  }

  lemma FiresNothing(io: Io, fd: nat)
    requires fd < |io.table|
    ensures Fires(io, io, fd, {})
  {
    SlotChanges(io, io, fd, io.table[fd], {});
  }

  lemma ReportFiresDue(io: Io, r: Report)
    requires Consistent(io) && r.fd < |io.table|
    requires var happened := RealEvents(io.table[r.fd], r); happened <= io.table[r.fd].events && happened != {}
    ensures HandleReport(io, r).Done? && Fires(io, HandleReport(io, r).io, r.fd, RealEvents(io.table[r.fd], r))
  {
    var ctx, happened := io.table[r.fd], RealEvents(io.table[r.fd], r);
    var left := ctx.events - happened;
    ReportCtl(io, r);
    var io1 := io.(epoll := Ctl(io.epoll, if left != {} then Mod else Del, r.fd, left).value);
    FireBothWorks(io1, r.fd, Read in happened, Write in happened);
    HandedFires(io, io1, HandleReport(io, r).io, r.fd, happened);
  }
}
