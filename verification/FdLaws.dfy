/** What every operation on the fd table keeps, and when. */
module FdLaws {
  import opened Options
  import opened Bags
  import opened FdModel

  function WaiterAt(ctx: FdContext, ev: Event): multiset<Waiter> {
    if ev in ctx.events && ctx.Context(ev).Armed() then multiset{ctx.Context(ev).Waiter()} else multiset{}
  }

  /** The waiters armed in one context. */
  function WaitersOf(ctx: FdContext): multiset<Waiter> {
    WaiterAt(ctx, Read) + WaiterAt(ctx, Write)
  }

  function Registered(io: Io): multiset<Waiter> {
    Gather(io.table, WaitersOf)
  }

  /** An event context is armed exactly when its bit is set. */
  ghost predicate ContextOk(ctx: FdContext) {
    forall ev: Event :: if ev in ctx.events then ctx.Context(ev).Armed() else ctx.Context(ev).Empty()
  }

  /** The table: never smaller than it started, slot i for descriptor i. */
  ghost predicate TableOk(table: seq<FdContext>) {
    && |table| >= 32
    && forall i :: 0 <= i < |table| ==> table[i].fd == i && ContextOk(table[i])
  }

  /** The interest set of epoll is the table's masks; an empty mask is absent. */
  ghost predicate EpollAgrees(table: seq<FdContext>, epoll: map<int, set<Event>>) {
    && (forall fd :: fd in epoll ==> 0 <= fd < |table|)
    && forall i :: 0 <= i < |table| ==>
         (i in epoll <==> table[i].events != {}) && (i in epoll ==> epoll[i] == table[i].events)
  }

  ghost predicate Consistent(io: Io) {
    && TableOk(io.table) && EpollAgrees(io.table, io.epoll)
    && io.pending == |Registered(io)|
  }

  // ----- One context -----

  lemma FreshTail(tail: seq<FdContext>, from: nat)
    requires forall i :: 0 <= i < |tail| ==> tail[i] == FreshContext(from + i)
    ensures Gather(tail, WaitersOf) == multiset{}
  {
    GatherEmpty(tail, WaitersOf);
  }

  lemma FreshRegistersNothing(table: seq<FdContext>, size: nat)
    requires |table| <= size
    ensures Gather(Resized(table, size), WaitersOf) == Gather(table, WaitersOf)
  {
    var tail := Resized(table, size)[|table|..];
    assert Resized(table, size) == table + tail;
    FreshTail(tail, |table|);
    GatherConcat(table, tail, WaitersOf);
  }

  lemma GrowthShape(table: seq<FdContext>, fd: nat)
    requires TableOk(table)
    ensures var r := Grown(table, fd);
      && TableOk(r) && fd < |r| && |table| <= |r| && r[..|table|] == table
      && forall i :: |table| <= i < |r| ==> r[i] == FreshContext(i)
  {
  }

  lemma GrowthRegistersNothing(table: seq<FdContext>, fd: nat)
    requires TableOk(table)
    ensures Gather(Grown(table, fd), WaitersOf) == Gather(table, WaitersOf)
  {
    if fd >= |table| {
      FreshRegistersNothing(table, GrownSize(fd));
    }
  }

  /** With a table of at least 32 slots, growing for fd makes room for fd and shrinks nothing. */
  lemma GrowthWorks(table: seq<FdContext>, fd: nat)
    requires TableOk(table)
    ensures var r := Grown(table, fd);
      && TableOk(r) && fd < |r| && |table| <= |r| && r[..|table|] == table
      && Gather(r, WaitersOf) == Gather(table, WaitersOf)
      && forall i :: |table| <= i < |r| ==> r[i] == FreshContext(i)
  {
    GrowthShape(table, fd);
    GrowthRegistersNothing(table, fd);
  }

  lemma GrownAgrees(table: seq<FdContext>, epoll: map<int, set<Event>>, fd: nat)
    requires TableOk(table) && EpollAgrees(table, epoll)
    ensures EpollAgrees(Grown(table, fd), epoll)
  {
    GrowthWorks(table, fd);
    var r := Grown(table, fd);
    assert forall i :: 0 <= i < |table| ==> r[i] == r[..|table|][i];
  }

  lemma SlotOk(table: seq<FdContext>, fd: nat, ctx: FdContext)
    requires TableOk(table) && fd < |table| && ctx.fd == fd && ContextOk(ctx)
    ensures TableOk(table[fd := ctx])
  {
  }

  /** The epoll_ctl each operation chooses is valid, and leaves the interest set in agreement. */
  lemma CtlWorks(table: seq<FdContext>, epoll: map<int, set<Event>>, fd: nat, ctx: FdContext)
    requires TableOk(table) && EpollAgrees(table, epoll) && fd < |table|
    ensures ctx.events != {} ==>
      var op := if table[fd].events != {} then Mod else Add;
      Ctl(epoll, op, fd, ctx.events).Some? && EpollAgrees(table[fd := ctx], Ctl(epoll, op, fd, ctx.events).value)
    ensures table[fd].events != {} ==>
      var op := if ctx.events != {} then Mod else Del;
      Ctl(epoll, op, fd, ctx.events).Some? && EpollAgrees(table[fd := ctx], Ctl(epoll, op, fd, ctx.events).value)
  {
  }

  /** What a context becomes when an event is taken out. */
  function Cleared(ctx: FdContext, ev: Event): FdContext {
    ctx.(events := ctx.events - {ev}).With(ev, NO_CONTEXT)
  }

  /** Clearing one registered event of a context. */
  lemma ClearWorks(ctx: FdContext, ev: Event)
    requires ContextOk(ctx) && ev in ctx.events
    ensures var ctx' := Cleared(ctx, ev);
      && ContextOk(ctx') && WaitersOf(ctx) == WaitersOf(ctx') + multiset{ctx.Context(ev).Waiter()}
      && Trigger(ctx, ev) == Some((ctx', ctx.Context(ev).Waiter()))
  {
    var other := if ev == Read then Write else Read;
    var ctx' := Cleared(ctx, ev);
    assert ctx'.Context(other) == ctx.Context(other) && (other in ctx'.events <==> other in ctx.events);
    assert WaiterAt(ctx', other) == WaiterAt(ctx, other);
    assert WaiterAt(ctx', ev) == multiset{};
    assert WaiterAt(ctx, ev) == multiset{ctx.Context(ev).Waiter()};
    forall e: Event ensures if e in ctx'.events then ctx'.Context(e).Armed() else ctx'.Context(e).Empty() {
      assert e == ev || e == other;
    }
  }

  lemma ArmWorks(ctx: FdContext, ev: Event, armed: EventContext)
    requires ContextOk(ctx) && ev !in ctx.events && armed.Armed()
    ensures var ctx' := ctx.(events := ctx.events + {ev}).With(ev, armed);
      ctx.Context(ev).Empty() && ContextOk(ctx') && WaitersOf(ctx') == WaitersOf(ctx) + multiset{armed.Waiter()}
  {
    var other := if ev == Read then Write else Read;
    var ctx' := ctx.(events := ctx.events + {ev}).With(ev, armed);
    assert WaiterAt(ctx', other) == WaiterAt(ctx, other);
    forall e: Event ensures if e in ctx'.events then ctx'.Context(e).Armed() else ctx'.Context(e).Empty() {
      assert e == ev || e == other;
    }
  }

  /** An event that is not registered has no waiter. */
  lemma UnarmedWaiters(ctx: FdContext, ev: Event)
    requires ContextOk(ctx) && ev !in ctx.events
    ensures Cleared(ctx, ev) == ctx && WaiterAt(ctx, ev) == multiset{}
  {
    assert ctx.events - {ev} == ctx.events;
  }

  // ----- The operations -----

  /** The slot an operation is about, when it has one. */
  function EventsAt(io: Io, fd: nat): set<Event> {
    if fd < |io.table| then io.table[fd].events else {}
  }

  /** When an operation neither aborts nor puts counter, table and interest set out of step:
      del and cancel are for a registered event or an empty context, and what is reported about a
      context is registered in full or not at all. A report is about a context that exists. */
  ghost predicate Safe(io: Io, op: Op) {
    match op
    case Adding(fd, ev, scheduler, self, cb) => true
    case Deleting(fd, ev) => EventsAt(io, fd) == {} || ev in EventsAt(io, fd)
    case Cancelling(fd, ev) => EventsAt(io, fd) == {} || ev in EventsAt(io, fd)
    case CancellingAll(fd) => true
    case Reporting(r) =>
      && r.fd < |io.table|
      && (RealEvents(io.table[r.fd], r) <= io.table[r.fd].events
          || RealEvents(io.table[r.fd], r) !! io.table[r.fd].events)
  }

  /** The waiters an operation takes in, hands to the scheduler and throws away. */
  datatype Traffic = Traffic(taken: multiset<Waiter>, fired: seq<Waiter>, deleted: multiset<Waiter>)

  const NO_TRAFFIC := Traffic(multiset{}, [], multiset{})

  function FiredAt(ctx: FdContext, happened: set<Event>): seq<Waiter> {
    (if Read in happened * ctx.events && ctx.read.Armed() then [ctx.read.Waiter()] else [])
    + (if Write in happened * ctx.events && ctx.write.Armed() then [ctx.write.Waiter()] else [])
  }

  function TrafficOf(io: Io, op: Op): Traffic {
    match op
    case Adding(fd, ev, scheduler, self, cb) =>
      if ev in EventsAt(io, fd) then NO_TRAFFIC
      else NO_TRAFFIC.(taken := multiset{if cb.Some? then RunCallback(cb.value) else ResumeFiber(self)})
    case Deleting(fd, ev) =>
      if fd < |io.table| then NO_TRAFFIC.(deleted := WaiterAt(io.table[fd], ev)) else NO_TRAFFIC
    case Cancelling(fd, ev) =>
      if fd < |io.table| then NO_TRAFFIC.(fired := FiredAt(io.table[fd], {ev})) else NO_TRAFFIC
    case CancellingAll(fd) =>
      if fd < |io.table| then NO_TRAFFIC.(fired := FiredAt(io.table[fd], {Read, Write})) else NO_TRAFFIC
    case Reporting(r) =>
      if r.fd < |io.table| then NO_TRAFFIC.(fired := FiredAt(io.table[r.fd], RealEvents(io.table[r.fd], r)))
      else NO_TRAFFIC
  }

  /** What a completed operation keeps: the table, the counter and the interest set agree, and
      every waiter is accounted for. */
  ghost predicate Keeps(io: Io, io': Io, t: Traffic) {
    && Consistent(io')
    && io'.queue == io.queue + t.fired
    && Registered(io') + multiset(t.fired) + t.deleted == Registered(io) + t.taken
  }

  lemma NothingKept(io: Io, table: seq<FdContext>)
    requires Consistent(io) && TableOk(table) && EpollAgrees(table, io.epoll)
    requires Gather(table, WaitersOf) == Registered(io)
    ensures Keeps(io, io.(table := table), NO_TRAFFIC)
  {
    assert io.queue + [] == io.queue;
  }

  lemma GrowthKeeps(io: Io, fd: nat)
    requires Consistent(io)
    ensures var io1 := io.(table := Grown(io.table, fd));
      && Consistent(io1) && fd < |io1.table| && Registered(io1) == Registered(io)
      && EventsAt(io1, fd) == EventsAt(io, fd) && Grown(io1.table, fd) == io1.table
  {
    GrowthWorks(io.table, fd);
    GrownAgrees(io.table, io.epoll, fd);
    if fd < |io.table| {
      assert Grown(io.table, fd)[fd] == Grown(io.table, fd)[..|io.table|][fd];
    }
  }

  /** What a context becomes when an event is added. */
  function Armed(ctx: FdContext, ev: Event, armed: EventContext): FdContext {
    ctx.(events := ctx.events + {ev}).With(ev, armed)
  }

  lemma AddEvaluates(io: Io, fd: nat, ev: Event, scheduler: nat, self: Fiber, cb: Option<Callback>,
                     epoll: map<int, set<Event>>)
    requires fd < |io.table| && ev !in io.table[fd].events && io.table[fd].Context(ev).Empty()
    requires
      Ctl(io.epoll, if io.table[fd].events != {} then Mod else Add, fd, io.table[fd].events + {ev}) == Some(epoll)
    ensures var armed := EventContext(Some(scheduler), if cb.Some? then None else Some(self), cb);
      AddEvent(io, fd, ev, scheduler, self, cb) ==
      Done(io.(table := io.table[fd := Armed(io.table[fd], ev, armed)], epoll := epoll, pending := io.pending + 1), 0)
  {
  }

  lemma AddHere(io: Io, fd: nat, ev: Event, scheduler: nat, self: Fiber, cb: Option<Callback>)
    requires Consistent(io) && fd < |io.table| && ev !in io.table[fd].events
    ensures var o := AddEvent(io, fd, ev, scheduler, self, cb);
      var w := if cb.Some? then RunCallback(cb.value) else ResumeFiber(self);
      o.Done? && o.ret == 0 && Keeps(io, o.io, Traffic(multiset{w}, [], multiset{}))
  {
    var armed := EventContext(Some(scheduler), if cb.Some? then None else Some(self), cb);
    AddsOne(io, io.table, fd, ev, armed);
    var epoll := Ctl(io.epoll, if io.table[fd].events != {} then Mod else Add, fd, io.table[fd].events + {ev}).value;
    AddEvaluates(io, fd, ev, scheduler, self, cb, epoll);
    AddKept(io, AddEvent(io, fd, ev, scheduler, self, cb).io, armed.Waiter());
  }

  lemma AddAfterGrowth(io: Io, fd: nat, ev: Event, scheduler: nat, self: Fiber, cb: Option<Callback>)
    ensures AddEvent(io, fd, ev, scheduler, self, cb)
      == AddEvent(io.(table := Grown(io.table, fd)), fd, ev, scheduler, self, cb) || fd >= |Grown(io.table, fd)|
  {
  }

  lemma AddKeeps(io: Io, fd: nat, ev: Event, scheduler: nat, self: Fiber, cb: Option<Callback>)
    requires Consistent(io)
    ensures var o := AddEvent(io, fd, ev, scheduler, self, cb);
      var w := if cb.Some? then RunCallback(cb.value) else ResumeFiber(self);
      && o.Done? && o.ret == (if ev in EventsAt(io, fd) then -1 else 0)
      && Keeps(io, o.io, if ev in EventsAt(io, fd) then NO_TRAFFIC else Traffic(multiset{w}, [], multiset{}))
  {
    var io1 := io.(table := Grown(io.table, fd));
    GrowthKeeps(io, fd);
    AddAfterGrowth(io, fd, ev, scheduler, self, cb);
    if ev in EventsAt(io, fd) {
      NothingKept(io, io1.table);
    } else {
      AddHere(io1, fd, ev, scheduler, self, cb);
    }
  }

  lemma AddKept(io: Io, io': Io, w: Waiter)
    requires io.pending == |Registered(io)| && io'.pending == io.pending + 1 && io'.queue == io.queue
    requires TableOk(io'.table) && EpollAgrees(io'.table, io'.epoll)
    requires Registered(io') == Registered(io) + multiset{w}
    ensures Keeps(io, io', Traffic(multiset{w}, [], multiset{}))
  {
    assert io.queue + [] == io.queue;
  }

  /** One waiter is gone from the table: thrown away, or handed over. */
  lemma TakeKept(io: Io, io': Io, w: Waiter)
    requires io.pending == |Registered(io)| && io'.pending == Decremented(io.pending)
    requires TableOk(io'.table) && EpollAgrees(io'.table, io'.epoll)
    requires Registered(io) == Registered(io') + multiset{w}
    ensures io'.queue == io.queue ==> Keeps(io, io', Traffic(multiset{}, [], multiset{w}))
    ensures io'.queue == io.queue + [w] ==> Keeps(io, io', Traffic(multiset{}, [w], multiset{}))
  {
    assert io.queue + [] == io.queue;
    assert multiset([w]) == multiset{w};
  }

  lemma AddsOne(io: Io, table: seq<FdContext>, fd: nat, ev: Event, armed: EventContext)
    requires TableOk(table) && EpollAgrees(table, io.epoll) && fd < |table| && ev !in table[fd].events && armed.Armed()
    ensures var ctx' := Armed(table[fd], ev, armed);
      var epoll := Ctl(io.epoll, if table[fd].events != {} then Mod else Add, fd, table[fd].events + {ev});
      && table[fd].Context(ev).Empty()
      && TableOk(table[fd := ctx']) && epoll.Some? && EpollAgrees(table[fd := ctx'], epoll.value)
      && Gather(table[fd := ctx'], WaitersOf) == Gather(table, WaitersOf) + multiset{armed.Waiter()}
  {
    var ctx := table[fd];
    var ctx' := Armed(ctx, ev, armed);
    ArmWorks(ctx, ev, armed);
    CtlWorks(table, io.epoll, fd, ctx');
    SlotOk(table, fd, ctx');
    GatherGains(table, fd, ctx', WaitersOf, multiset{armed.Waiter()});
  }

  /** Taking one registered event out of a context, by delete, cancel or report. */
  lemma TakesOne(io: Io, fd: nat, ev: Event)
    requires TableOk(io.table) && EpollAgrees(io.table, io.epoll) && fd < |io.table| && ev in io.table[fd].events
    ensures var ctx, ctx' := io.table[fd], Cleared(io.table[fd], ev);
      var epoll := Ctl(io.epoll, if ctx.events - {ev} != {} then Mod else Del, fd, ctx.events - {ev});
      && ctx.Context(ev).Armed() && Trigger(ctx, ev) == Some((ctx', ctx.Context(ev).Waiter()))
      && TableOk(io.table[fd := ctx']) && epoll.Some? && EpollAgrees(io.table[fd := ctx'], epoll.value)
      && Registered(io) == Gather(io.table[fd := ctx'], WaitersOf) + multiset{ctx.Context(ev).Waiter()}
  {
    var ctx := io.table[fd];
    var ctx' := Cleared(ctx, ev);
    ClearWorks(ctx, ev);
    CtlWorks(io.table, io.epoll, fd, ctx');
    SlotOk(io.table, fd, ctx');
    GatherLoses(io.table, fd, ctx', WaitersOf, multiset{ctx.Context(ev).Waiter()});
  }

  lemma TakeEvaluates(io: Io, fd: nat, ev: Event)
    requires fd < |io.table| && ev in io.table[fd].events && io.table[fd].Context(ev).Armed()
    requires Ctl(io.epoll, if io.table[fd].events - {ev} != {} then Mod else Del, fd, io.table[fd].events - {ev}).Some?
    ensures var w := io.table[fd].Context(ev).Waiter();
      var left := io.table[fd].events - {ev};
      var epoll := Ctl(io.epoll, if left != {} then Mod else Del, fd, left).value;
      var table := io.table[fd := Cleared(io.table[fd], ev)];
      var io' := io.(table := table, epoll := epoll, pending := Decremented(io.pending));
      DelEvent(io, fd, ev) == Done(io', 1) && CancelEvent(io, fd, ev) == Done(io'.(queue := io.queue + [w]), 1)
  {
  }

  lemma DelKeeps(io: Io, fd: nat, ev: Event)
    requires Consistent(io)
    ensures var o := DelEvent(io, fd, ev);
      && o.Done?
      && (if ev in EventsAt(io, fd) then
            Keeps(io, o.io, Traffic(multiset{}, [], multiset{io.table[fd].Context(ev).Waiter()})) && o.ret == 1
          else if EventsAt(io, fd) == {} then o.io == io
          else !Consistent(o.io))
  {
    if ev in EventsAt(io, fd) {
      TakesOne(io, fd, ev);
      TakeEvaluates(io, fd, ev);
      TakeKept(io, DelEvent(io, fd, ev).io, io.table[fd].Context(ev).Waiter());
    } else if EventsAt(io, fd) != {} {
      DelOfOther(io, fd, ev);
    }
  }

  lemma CancelKeeps(io: Io, fd: nat, ev: Event)
    requires Consistent(io)
    ensures var o := CancelEvent(io, fd, ev);
      if ev in EventsAt(io, fd) then
        o.Done? && Keeps(io, o.io, Traffic(multiset{}, [io.table[fd].Context(ev).Waiter()], multiset{})) && o.ret == 1
      else if EventsAt(io, fd) == {} then o.Done? && o.io == io
      else o.Aborted?
  {
    if ev in EventsAt(io, fd) {
      TakesOne(io, fd, ev);
      TakeEvaluates(io, fd, ev);
      TakeKept(io, CancelEvent(io, fd, ev).io, io.table[fd].Context(ev).Waiter());
    } else if EventsAt(io, fd) != {} {
      CtlWorks(io.table, io.epoll, fd, io.table[fd]);
      assert io.table[fd].events - {ev} == io.table[fd].events;
    }
  }

  /** Deleting WRITE while only READ is registered, or the other way about, counts down without
      taking anything out. */
  lemma DelOfOther(io: Io, fd: nat, ev: Event)
    requires Consistent(io) && fd < |io.table| && io.table[fd].events != {} && ev !in io.table[fd].events
    ensures var o := DelEvent(io, fd, ev); o.Done? && o.ret == 1 && o.io.table == io.table && !Consistent(o.io)
  {
    var ctx := io.table[fd];
    UnarmedWaiters(ctx, ev);
    assert io.table[fd := ctx] == io.table;
    SomeRegistered(io, fd);
    CtlWorks(io.table, io.epoll, fd, ctx);
    assert ctx.events - {ev} == ctx.events;
  }

  lemma SomeRegistered(io: Io, fd: nat)
    requires TableOk(io.table) && fd < |io.table| && io.table[fd].events != {}
    ensures |Registered(io)| > 0
  {
    GatherMember(io.table, fd, WaitersOf);
    var ctx := io.table[fd];
    var ev :| ev in ctx.events;
    assert ctx.Context(ev).Waiter() in WaitersOf(ctx);
  }

  // ----- cancelAll and the idle loop -----

  /** One context is replaced, and the waiters taken out of it are handed to the scheduler. */
  ghost predicate Handed(io: Io, io': Io, fd: nat, ctx: FdContext, fired: seq<Waiter>)
    requires fd < |io.table|
  {
    && io'.table == io.table[fd := ctx] && io'.queue == io.queue + fired && io'.epoll == io.epoll
    && io'.pending + |fired| == io.pending
    && TableOk(io'.table) && Registered(io) == Registered(io') + multiset(fired)
  }

  lemma HandedCounts(io: Io, io': Io, fd: nat, ctx: FdContext, fired: seq<Waiter>)
    requires fd < |io.table| && io.pending == |Registered(io)| && Handed(io, io', fd, ctx, fired)
    ensures io'.pending == |Registered(io')|
  {
    assert |Registered(io') + multiset(fired)| == |Registered(io')| + |fired|;
  }

  lemma FireWorks(io: Io, fd: nat, ev: Event)
    requires TableOk(io.table) && fd < |io.table| && io.pending == |Registered(io)| && ev in io.table[fd].events
    ensures io.table[fd].Context(ev).Armed()
    ensures var ctx, w := io.table[fd], io.table[fd].Context(ev).Waiter();
      Fire(io, fd, ev, true).Some? && Handed(io, Fire(io, fd, ev, true).value, fd, Cleared(ctx, ev), [w])
  {
    var ctx := io.table[fd];
    ClearWorks(ctx, ev);
    SlotOk(io.table, fd, Cleared(ctx, ev));
    GatherLoses(io.table, fd, Cleared(ctx, ev), WaitersOf, multiset{ctx.Context(ev).Waiter()});
    SomeRegistered(io, fd);
    assert multiset([ctx.Context(ev).Waiter()]) == multiset{ctx.Context(ev).Waiter()};
  }

  /** The context after both branches. */
  function ClearedBoth(ctx: FdContext, read: bool, write: bool): FdContext {
    var c := if read then Cleared(ctx, Read) else ctx;
    if write then Cleared(c, Write) else c
  }

  function FiredFor(ctx: FdContext, read: bool, write: bool): seq<Waiter>
    requires (read ==> ctx.read.Armed()) && (write ==> ctx.write.Armed())
  {
    (if read then [ctx.read.Waiter()] else []) + (if write then [ctx.write.Waiter()] else [])
  }

  lemma HandedTwice(io: Io, io1: Io, io2: Io, fd: nat, c1: FdContext, c2: FdContext, f1: seq<Waiter>, f2: seq<Waiter>)
    requires fd < |io.table| && Handed(io, io1, fd, c1, f1) && Handed(io1, io2, fd, c2, f2)
    ensures Handed(io, io2, fd, c2, f1 + f2)
  {
    AppendTwice(io.queue, f1, f2);
    UpdateTwice(io.table, fd, c1, c2);
    BagsTwice(Registered(io), Registered(io1), Registered(io2), f1, f2);
  }

  lemma AppendTwice(q: seq<Waiter>, f1: seq<Waiter>, f2: seq<Waiter>)
    ensures q + f1 + f2 == q + (f1 + f2)
  {
  }

  lemma UpdateTwice(table: seq<FdContext>, fd: nat, c1: FdContext, c2: FdContext)
    requires fd < |table|
    ensures table[fd := c1][fd := c2] == table[fd := c2]
  {
  }

  lemma BagsTwice(a: multiset<Waiter>, b: multiset<Waiter>, c: multiset<Waiter>, f1: seq<Waiter>, f2: seq<Waiter>)
    requires a == b + multiset(f1) && b == c + multiset(f2)
    ensures a == c + multiset(f1 + f2)
  {
    assert multiset(f1 + f2) == multiset(f1) + multiset(f2);
  }

  lemma FireBothWorks(io: Io, fd: nat, read: bool, write: bool)
    requires TableOk(io.table) && fd < |io.table| && io.pending == |Registered(io)|
    requires (read ==> Read in io.table[fd].events) && (write ==> Write in io.table[fd].events)
    ensures (read ==> io.table[fd].read.Armed()) && (write ==> io.table[fd].write.Armed())
    ensures var o := FireBoth(io, fd, read, write); var ctx := io.table[fd];
      o.Some? && Handed(io, o.value, fd, ClearedBoth(ctx, read, write), FiredFor(ctx, read, write))
  {
    var ctx := io.table[fd];
    if read {
      FireWorks(io, fd, Read);
      var io1 := Fire(io, fd, Read, true).value;
      HandedCounts(io, io1, fd, Cleared(ctx, Read), [ctx.read.Waiter()]);
      if write {
        FireWorks(io1, fd, Write);
        HandedTwice(io, io1, Fire(io1, fd, Write, true).value, fd, Cleared(ctx, Read), ClearedBoth(ctx, true, true),
                    [ctx.read.Waiter()], [ctx.write.Waiter()]);
      } else {
        assert FiredFor(ctx, true, false) == [ctx.read.Waiter()];
      }
    } else if write {
      FireWorks(io, fd, Write);
      assert FiredFor(ctx, false, true) == [ctx.write.Waiter()];
    } else {
      assert io.table[fd := ctx] == io.table && io.queue + [] == io.queue;
    }
  }

  lemma FireAborts(io: Io, fd: nat, read: bool, write: bool)
    requires fd < |io.table|
    requires (read && Read !in io.table[fd].events) || (write && Write !in io.table[fd].events)
    ensures FireBoth(io, fd, read, write) == None
  {
  }

  /** After the branches have run, the interest set, changed beforehand, agrees again. */
  lemma HandedKeeps(io: Io, epoll: map<int, set<Event>>, io': Io, fd: nat, ctx: FdContext, fired: seq<Waiter>)
    requires Consistent(io) && fd < |io.table| && Handed(io.(epoll := epoll), io', fd, ctx, fired)
    requires EpollAgrees(io.table[fd := ctx], epoll)
    ensures Keeps(io, io', Traffic(multiset{}, fired, multiset{}))
  {
    HandedCounts(io.(epoll := epoll), io', fd, ctx, fired);
  }

  lemma ReportCtl(io: Io, r: Report)
    requires Consistent(io) && r.fd < |io.table| && !(RealEvents(io.table[r.fd], r) !! io.table[r.fd].events)
    ensures var ctx, happened := io.table[r.fd], RealEvents(io.table[r.fd], r);
      var epoll := Ctl(io.epoll, if ctx.events - happened != {} then Mod else Del, r.fd, ctx.events - happened);
      && epoll.Some?
      && EpollAgrees(io.table[r.fd := ClearedBoth(ctx, Read in happened, Write in happened)], epoll.value)
      && HandleReport(io, r) == match FireBoth(io.(epoll := epoll.value), r.fd, Read in happened, Write in happened)
          case None => Aborted
          case Some(io2) => Done(io2, 0)
  {
    var ctx, happened := io.table[r.fd], RealEvents(io.table[r.fd], r);
    var c2 := ClearedBoth(ctx, Read in happened, Write in happened);
    BothCleared(ctx, happened);
    CtlWorks(io.table, io.epoll, r.fd, c2);
    ReportEvaluates(io, r);
  }

  lemma BothCleared(ctx: FdContext, happened: set<Event>)
    ensures ClearedBoth(ctx, Read in happened, Write in happened).events == ctx.events - happened
    ensures ClearedBoth(ctx, Read in happened, Write in happened).fd == ctx.fd
  {
    forall ev: Event
      ensures ev in ClearedBoth(ctx, Read in happened, Write in happened).events <==> ev in ctx.events - happened
    {
      match ev
      case Read =>
      case Write =>
    }
  }

  lemma ReportEvaluates(io: Io, r: Report)
    requires r.fd < |io.table| && !(RealEvents(io.table[r.fd], r) !! io.table[r.fd].events)
    ensures var ctx, happened := io.table[r.fd], RealEvents(io.table[r.fd], r);
      var epoll := Ctl(io.epoll, if ctx.events - happened != {} then Mod else Del, r.fd, ctx.events - happened);
      epoll.Some? ==>
        HandleReport(io, r) == match FireBoth(io.(epoll := epoll.value), r.fd, Read in happened, Write in happened)
          case None => Aborted
          case Some(io2) => Done(io2, 0)
  {
  }

  lemma ReportFires(io: Io, r: Report)
    requires Consistent(io) && r.fd < |io.table|
    requires var happened := RealEvents(io.table[r.fd], r); happened <= io.table[r.fd].events && happened != {}
    ensures var o, ctx, happened := HandleReport(io, r), io.table[r.fd], RealEvents(io.table[r.fd], r);
        && (Read in happened ==> ctx.read.Armed()) && (Write in happened ==> ctx.write.Armed())
        && o.Done?
        && Keeps(io, o.io, Traffic(multiset{}, FiredFor(ctx, Read in happened, Write in happened), multiset{}))
  {
    var ctx, happened := io.table[r.fd], RealEvents(io.table[r.fd], r);
    ReportCtl(io, r);
    var c2 := ClearedBoth(ctx, Read in happened, Write in happened);
    var epoll := Ctl(io.epoll, if ctx.events - happened != {} then Mod else Del, r.fd, ctx.events - happened).value;
    FireBothWorks(io.(epoll := epoll), r.fd, Read in happened, Write in happened);
    HandedKeeps(io, epoll, HandleReport(io, r).io, r.fd, c2, FiredFor(ctx, Read in happened, Write in happened));
  }

  lemma ReportKeeps(io: Io, r: Report)
    requires Consistent(io) && r.fd < |io.table|
    ensures var o, ctx, happened := HandleReport(io, r), io.table[r.fd], RealEvents(io.table[r.fd], r);
      if happened !! ctx.events then o == Done(io, 0)
      else if happened <= ctx.events then
        && (Read in happened ==> ctx.read.Armed()) && (Write in happened ==> ctx.write.Armed())
        && o.Done?
        && Keeps(io, o.io, Traffic(multiset{}, FiredFor(ctx, Read in happened, Write in happened), multiset{}))
      else o.Aborted?
  {
    var ctx, happened := io.table[r.fd], RealEvents(io.table[r.fd], r);
    if happened !! ctx.events {
      assert ctx.events * happened == {};
    } else if happened <= ctx.events {
      ReportFires(io, r);
    } else {
      ReportCtl(io, r);
      var ev :| ev in happened && ev !in ctx.events;
      var epoll := Ctl(io.epoll, if ctx.events - happened != {} then Mod else Del, r.fd, ctx.events - happened).value;
      FireAborts(io.(epoll := epoll), r.fd, Read in happened, Write in happened);
    }
  }

  lemma CancelAllKeeps(io: Io, fd: nat)
    requires Consistent(io)
    ensures var o := CancelAll(io, fd);
      if EventsAt(io, fd) == {} then o == Done(io, 0)
      else
        var ctx := io.table[fd];
        && (Read in ctx.events ==> ctx.read.Armed()) && (Write in ctx.events ==> ctx.write.Armed())
        && o.Done? && o.ret == 1
        && Keeps(io, o.io, Traffic(multiset{}, FiredFor(ctx, Read in ctx.events, Write in ctx.events), multiset{}))
  {
    if EventsAt(io, fd) != {} {
      var ctx := io.table[fd];
      var c2 := ClearedBoth(ctx, Read in ctx.events, Write in ctx.events);
      assert c2.events == {} by {
        forall ev: Event ensures ev !in c2.events {
        }
      }
      CtlWorks(io.table, io.epoll, fd, c2);
      var epoll := Ctl(io.epoll, Del, fd, {}).value;
      FireBothWorks(io.(epoll := epoll), fd, Read in ctx.events, Write in ctx.events);
      HandedKeeps(io, epoll, CancelAll(io, fd).io, fd, c2, FiredFor(ctx, Read in ctx.events, Write in ctx.events));
    }
  }

  lemma FiredAtIs(ctx: FdContext, happened: set<Event>)
    requires ContextOk(ctx) && happened <= ctx.events
    ensures FiredAt(ctx, happened) ==
      (if Read in happened then [ctx.read.Waiter()] else []) + (if Write in happened then [ctx.write.Waiter()] else [])
    ensures forall ev: Event :: ev in ctx.events ==> FiredAt(ctx, {ev}) == [ctx.Context(ev).Waiter()]
  {
  }

  lemma FiredAtNothing(ctx: FdContext, happened: set<Event>)
    requires happened !! ctx.events
    ensures FiredAt(ctx, happened) == []
  {
  }

  lemma ReportApplies(io: Io, r: Report)
    requires Consistent(io)
    ensures var o := HandleReport(io, r);
      && (o.Done? && Consistent(o.io) <==> Safe(io, Reporting(r)))
      && (Safe(io, Reporting(r)) ==> Keeps(io, o.io, TrafficOf(io, Reporting(r))))
  {
    NothingKept(io, io.table);
    if r.fd < |io.table| {
      ReportKeeps(io, r);
      var ctx, happened := io.table[r.fd], RealEvents(io.table[r.fd], r);
      if happened <= ctx.events {
        FiredAtIs(ctx, happened);
      } else if happened !! ctx.events {
        FiredAtNothing(ctx, happened);
      }
    }
  }

  lemma DelApplies(io: Io, fd: nat, ev: Event)
    requires Consistent(io)
    ensures var o, op := DelEvent(io, fd, ev), Deleting(fd, ev);
      && (o.Done? && Consistent(o.io) <==> Safe(io, op)) && (Safe(io, op) ==> Keeps(io, o.io, TrafficOf(io, op)))
  {
    NothingKept(io, io.table);
    DelKeeps(io, fd, ev);
    if fd < |io.table| && ev !in io.table[fd].events {
      UnarmedWaiters(io.table[fd], ev);
    }
  }

  lemma CancelApplies(io: Io, fd: nat, ev: Event)
    requires Consistent(io)
    ensures var o, op := CancelEvent(io, fd, ev), Cancelling(fd, ev);
      && (o.Done? && Consistent(o.io) <==> Safe(io, op)) && (Safe(io, op) ==> Keeps(io, o.io, TrafficOf(io, op)))
  {
    NothingKept(io, io.table);
    CancelKeeps(io, fd, ev);
    if fd < |io.table| {
      SingleFired(io.table[fd], ev);
    }
  }

  lemma CancelAllApplies(io: Io, fd: nat)
    requires Consistent(io)
    ensures var o, op := CancelAll(io, fd), CancellingAll(fd);
      o.Done? && Consistent(o.io) && Keeps(io, o.io, TrafficOf(io, op))
  {
    NothingKept(io, io.table);
    CancelAllKeeps(io, fd);
    if fd < |io.table| {
      AllFired(io.table[fd]);
    }
  }

  lemma ApplyKeeps(io: Io, op: Op)
    requires Consistent(io)
    ensures var o := Apply(io, op);
      && (o.Done? && Consistent(o.io) <==> Safe(io, op))
      && (Safe(io, op) ==> Keeps(io, o.io, TrafficOf(io, op)))
  {
    match op
    case Adding(fd, ev, scheduler, self, cb) => AddKeeps(io, fd, ev, scheduler, self, cb);
    case Deleting(fd, ev) => DelApplies(io, fd, ev);
    case Cancelling(fd, ev) => CancelApplies(io, fd, ev);
    case CancellingAll(fd) => CancelAllApplies(io, fd);
    case Reporting(r) => ReportApplies(io, r);
  }

  /** Every operation on a consistent table completes and leaves it consistent exactly when it is
      safe. */
  lemma ApplyIff(io: Io, op: Op)
    requires Consistent(io)
    ensures Apply(io, op).Done? && Consistent(Apply(io, op).io) <==> Safe(io, op)
  {
    ApplyKeeps(io, op);
  }

  lemma SingleFired(ctx: FdContext, ev: Event)
    requires ContextOk(ctx)
    ensures FiredAt(ctx, {ev}) == if ev in ctx.events then [ctx.Context(ev).Waiter()] else []
  {
  }

  lemma AllFired(ctx: FdContext)
    requires ContextOk(ctx)
    ensures FiredAt(ctx, {Read, Write}) ==
      (if Read in ctx.events then [ctx.read.Waiter()] else [])
      + (if Write in ctx.events then [ctx.write.Waiter()] else [])
  {
  }

  // ----- Runs -----

  const INIT := Io(Resized([], 32), map[], 0, [])

  /** The table with the waiters taken in and thrown away so far. */
  datatype Ledger = Ledger(io: Io, taken: multiset<Waiter>, deleted: multiset<Waiter>)

  /** Each waiter taken in is still registered, or was handed to the scheduler once, or was
      deleted. */
  ghost predicate Balanced(l: Ledger) {
    && Consistent(l.io)
    && Registered(l.io) + multiset(l.io.queue) + l.deleted == l.taken
  }

  function Entered(l: Ledger, op: Op): Ledger
    requires Apply(l.io, op).Done?
  {
    var t := TrafficOf(l.io, op);
    Ledger(Apply(l.io, op).io, l.taken + t.taken, l.deleted + t.deleted)
  }

  ghost predicate SafeRun(io: Io, ops: seq<Op>)
    decreases ops
  {
    ops == [] || (Safe(io, ops[0]) && Apply(io, ops[0]).Done? && SafeRun(Apply(io, ops[0]).io, ops[1..]))
  }

  function After(l: Ledger, ops: seq<Op>): Ledger
    requires SafeRun(l.io, ops)
    decreases ops
  {
    if ops == [] then l else After(Entered(l, ops[0]), ops[1..])
  }

  lemma FreshConsistent(size: nat)
    requires size >= 32
    ensures var io := Io(Resized([], size), map[], 0, []); Consistent(io) && Registered(io) == multiset{}
  {
    GatherEmpty(Resized([], size), WaitersOf);
  }

  lemma InitConsistent()
    ensures Consistent(INIT) && Registered(INIT) == multiset{}
  {
    FreshConsistent(32);
  }

  lemma StepBalances(l: Ledger, op: Op)
    requires Balanced(l) && Safe(l.io, op)
    ensures Apply(l.io, op).Done? && Balanced(Entered(l, op)) && l.io.queue <= Entered(l, op).io.queue
  {
    ApplyKeeps(l.io, op);
    var o, t := Apply(l.io, op), TrafficOf(l.io, op);
    assert multiset(o.io.queue) == multiset(l.io.queue) + multiset(t.fired);
    BalanceMoves(Registered(l.io), Registered(o.io), multiset(l.io.queue), multiset(t.fired),
                 l.deleted, t.deleted, l.taken, t.taken);
  }

  lemma BalanceMoves(r: multiset<Waiter>, r': multiset<Waiter>, q: multiset<Waiter>, f: multiset<Waiter>,
                     d: multiset<Waiter>, d': multiset<Waiter>, t: multiset<Waiter>, t': multiset<Waiter>)
    requires r + q + d == t && r' + f + d' == r + t'
    ensures r' + (q + f) + (d + d') == t + t'
  {
    assert r' + (q + f) + (d + d') == (r' + f + d') + q + d;
    assert (r + t') + q + d == (r + q + d) + t';
  }

  /** Over every safe run, the waiters are conserved, the counter equals the number of registered
      events, and the interest set equals the table. */
  lemma {:induction false} WaitersConserved(l: Ledger, ops: seq<Op>)
    requires Balanced(l) && SafeRun(l.io, ops)
    ensures Balanced(After(l, ops)) && l.io.queue <= After(l, ops).io.queue
    decreases ops
  {
    if ops != [] {
      StepBalances(l, ops[0]);
      WaitersConserved(Entered(l, ops[0]), ops[1..]);
    }
  }

  /** l is reached from the constructed table by a safe run. */
  ghost predicate Reached(l: Ledger) {
    exists ops :: SafeRun(INIT, ops) && l == After(Ledger(INIT, multiset{}, multiset{}), ops)
  }

  /** Each waiter ever added is registered still, or was handed over once, or was deleted. */
  lemma EachWaiterOnce(l: Ledger)
    requires Reached(l)
    ensures Registered(l.io) + multiset(l.io.queue) + l.deleted == l.taken
  {
    var start := Ledger(INIT, multiset{}, multiset{});
    var ops :| SafeRun(INIT, ops) && l == After(start, ops);
    InitConsistent();
    WaitersConserved(start, ops);
  }

  function FdOf(op: Op): nat {
    if op.Reporting? then op.r.fd else op.fd
  }

  /** The operations by which a registered waiter leaves the table. */
  ghost predicate TakesOut(io: Io, op: Op, fd: nat, ev: Event)
    requires fd < |io.table|
  {
    || op == Deleting(fd, ev) || op == Cancelling(fd, ev) || op == CancellingAll(fd)
    || (op.Reporting? && op.r.fd == fd && ev in RealEvents(io.table[fd], op.r))
  }

  /** The table never shrinks, other contexts are untouched, and a registered waiter stays where
      it is until one of the operations above takes it out. */
  ghost predicate Framed(io: Io, op: Op, table': seq<FdContext>) {
    var table := io.table;
    && |table| <= |table'|
    && (forall i :: 0 <= i < |table| && i != FdOf(op) ==> table'[i] == table[i])
    && (forall i :: |table| <= i < |table'| && i != FdOf(op) ==> table'[i] == FreshContext(i))
    && (FdOf(op) < |table'| ==> table'[FdOf(op)].fd == FdOf(op))
    && (FdOf(op) < |table| ==> forall ev :: ev in table[FdOf(op)].events && !TakesOut(io, op, FdOf(op), ev) ==>
          ev in table'[FdOf(op)].events && table'[FdOf(op)].Context(ev) == table[FdOf(op)].Context(ev))
  }

  lemma Frame(io: Io, op: Op)
    requires TableOk(io.table) && Apply(io, op).Done?
    ensures Framed(io, op, Apply(io, op).io.table)
  {
    match op
    case Adding(fd, ev, scheduler, self, cb) => FrameAdd(io, op);
    case Deleting(fd, ev) => FrameTake(io, op);
    case Cancelling(fd, ev) => FrameTake(io, op);
    case CancellingAll(fd) =>
      if fd < |io.table| && io.table[fd].events != {} && fd in io.epoll {
        FrameFire(io.(epoll := io.epoll - {fd}), fd, Read in io.table[fd].events, Write in io.table[fd].events);
      }
    case Reporting(r) => FrameReport(io, r);
  }

  /** Adding keeps in the context what was registered. */
  predicate KeepsEvents(ctx: FdContext, ctx': FdContext) {
    ctx'.fd == ctx.fd && forall ev :: ev in ctx.events ==> ev in ctx'.events && ctx'.Context(ev) == ctx.Context(ev)
  }

  lemma AddTable(io: Io, op: Op)
    requires op.Adding? && Apply(io, op).Done?
    ensures var t, t' := Grown(io.table, op.fd), Apply(io, op).io.table;
      op.fd < |t| && |t'| == |t| && t' == t[op.fd := t'[op.fd]] && KeepsEvents(t[op.fd], t'[op.fd])
  {
  }

  lemma FrameAdd(io: Io, op: Op)
    requires TableOk(io.table) && op.Adding? && Apply(io, op).Done?
    ensures Framed(io, op, Apply(io, op).io.table)
  {
    AddTable(io, op);
    GrowthWorks(io.table, op.fd);
    FrameGrown(io, op, Grown(io.table, op.fd), Apply(io, op).io.table);
  }

  lemma FrameGrown(io: Io, op: Op, t: seq<FdContext>, t': seq<FdContext>)
    requires op.Adding? && |io.table| <= |t| && t[..|io.table|] == io.table && TableOk(t)
    requires forall i :: |io.table| <= i < |t| ==> t[i] == FreshContext(i)
    requires op.fd < |t| && |t'| == |t| && t' == t[op.fd := t'[op.fd]] && KeepsEvents(t[op.fd], t'[op.fd])
    ensures Framed(io, op, t')
  {
    assert forall i :: 0 <= i < |io.table| ==> t[i] == io.table[i];
  }

  lemma FrameTake(io: Io, op: Op)
    requires TableOk(io.table) && (op.Deleting? || op.Cancelling?) && Apply(io, op).Done?
    ensures Framed(io, op, Apply(io, op).io.table)
  {
  }

  /** The branches touch one context, and in it only the events they are for. */
  lemma FrameFire(io: Io, fd: nat, read: bool, write: bool)
    requires fd < |io.table| && FireBoth(io, fd, read, write).Some?
    ensures var table', ctx := FireBoth(io, fd, read, write).value.table, io.table[fd];
      && table' == io.table[fd := table'[fd]] && table'[fd].fd == ctx.fd
      && (!read && Read in ctx.events ==> Read in table'[fd].events && table'[fd].read == ctx.read)
      && (!write && Write in ctx.events ==> Write in table'[fd].events && table'[fd].write == ctx.write)
  {
    var io1 := Fire(io, fd, Read, read).value;
    assert io1.table == io.table[fd := io1.table[fd]];
  }

  lemma FrameReport(io: Io, r: Report)
    requires TableOk(io.table) && HandleReport(io, r).Done?
    ensures Framed(io, Reporting(r), HandleReport(io, r).io.table)
  {
    var ctx, happened := io.table[r.fd], RealEvents(io.table[r.fd], r);
    var left := ctx.events - happened;
    if ctx.events * happened != {} {
      match Ctl(io.epoll, if left != {} then Mod else Del, r.fd, left)
      case None =>
      case Some(epoll) => FrameFire(io.(epoll := epoll), r.fd, Read in happened, Write in happened);
    }
  }

  /** What epoll_wait reports in one batch is about different descriptors. If it is all still
      registered when the batch starts, the batch runs through. */
  lemma {:induction false} BatchSafe(io: Io, batch: seq<Report>)
    requires Consistent(io)
    requires forall i, j :: 0 <= i < j < |batch| ==> batch[i].fd != batch[j].fd
    requires forall i :: 0 <= i < |batch| ==> StillRegistered(io, batch[i])
    ensures SafeRun(io, AsOps(batch))
    decreases batch
  {
    if batch != [] {
      var op := AsOps(batch)[0];
      ApplyIff(io, op);
      var io1 := Apply(io, op).io;
      Frame(io, op);
      forall i | 0 <= i < |batch[1..]| ensures StillRegistered(io1, batch[1..][i]) {
        assert batch[1..][i] == batch[i + 1];
        assert StillRegistered(io, batch[i + 1]) && batch[i + 1].fd != batch[0].fd;
      }
      BatchSafe(io1, batch[1..]);
    }
  }

  predicate StillRegistered(io: Io, r: Report) {
    && r.fd < |io.table|
    && (r.readable ==> Read in io.table[r.fd].events) && (r.writable ==> Write in io.table[r.fd].events)
  }

  function AsOps(batch: seq<Report>): (ops: seq<Op>)
    ensures |ops| == |batch|
  {
    if batch == [] then [] else [Reporting(batch[0])] + AsOps(batch[1..])
  }

  /** Where the loop over a batch stands after i reports: what is left leads where all of it led. */
  ghost predicate MidBatch(start: Ledger, l: Ledger, batch: seq<Report>, i: nat)
    requires i <= |batch|
  {
    && Consistent(l.io) && SafeRun(l.io, AsOps(batch[i..])) && SafeRun(start.io, AsOps(batch))
    && After(l, AsOps(batch[i..])) == After(start, AsOps(batch))
  }

  lemma BatchStarts(l: Ledger, batch: seq<Report>)
    requires Consistent(l.io) && SafeRun(l.io, AsOps(batch))
    ensures MidBatch(l, l, batch, 0)
  {
    assert batch[0..] == batch;
  }

  lemma BatchEnds(start: Ledger, l: Ledger, batch: seq<Report>)
    requires MidBatch(start, l, batch, |batch|)
    ensures Consistent(l.io) && l == After(start, AsOps(batch))
  {
    assert batch[|batch|..] == [];
  }

  /** One turn of the loop over a batch. */
  lemma BatchTurn(start: Ledger, l: Ledger, batch: seq<Report>, i: nat)
    requires i < |batch| && MidBatch(start, l, batch, i)
    ensures Apply(l.io, Reporting(batch[i])).Done? && MidBatch(start, Entered(l, Reporting(batch[i])), batch, i + 1)
  {
    var ops := AsOps(batch[i..]);
    assert batch[i..][1..] == batch[i + 1..];
    assert ops[0] == Reporting(batch[i]) && ops[1..] == AsOps(batch[i + 1..]);
    ApplyIff(l.io, ops[0]);
  }

  /** delEvent says true exactly for registered events only where its guard, read as C++ reads it,
      means what it was written for. */
  lemma DelVerdictIff(io: Io, fd: nat, ev: Event)
    requires Consistent(io)
    ensures DelEvent(io, fd, ev).Done?
    ensures (DelEvent(io, fd, ev).ret == 1 <==> ev in EventsAt(io, fd)) <==>
      (fd >= |io.table| || ev in io.table[fd].events || (io.table[fd].events == {} && ev == Read))
  {
    DelKeeps(io, fd, ev);
    if EventsAt(io, fd) != {} && ev !in EventsAt(io, fd) {
      DelOfOther(io, fd, ev);
    }
  }
}
