/** The fd table of IOManager as a value: the fd contexts, the interest set of epoll, the pending
    counter and the waiters handed to the scheduler. */
module FdModel {
  import opened Options

  /** A mask of events. READ is EPOLLIN and WRITE is EPOLLOUT; EPOLLET is always set besides. */
  datatype Event = Read | Write

  function Code(ev: Event): nat {
    match ev case Read => 1 case Write => 4
  }

  type Fiber = nat
  type Callback = nat

  /** What is scheduled when an event fires. */
  datatype Waiter = ResumeFiber(f: Fiber) | RunCallback(c: Callback)

  datatype EventContext = EventContext(scheduler: Option<nat>, fiber: Option<Fiber>, cb: Option<Callback>) {
    predicate Empty() {
      scheduler.None? && fiber.None? && cb.None?
    }

    /** Armed with exactly one of fiber and callback. */
    predicate Armed() {
      scheduler.Some? && fiber.Some? != cb.Some?
    }

    /** What triggerEvent hands to the scheduler. */
    function Waiter(): Waiter
      requires Armed()
    {
      if cb.Some? then RunCallback(cb.value) else ResumeFiber(fiber.value)
    }
  }

  const NO_CONTEXT := EventContext(None, None, None)

  datatype FdContext = FdContext(fd: int, events: set<Event>, read: EventContext, write: EventContext) {
    function Context(ev: Event): EventContext {
      match ev case Read => read case Write => write
    }

    function With(ev: Event, ctx: EventContext): FdContext {
      match ev case Read => this.(read := ctx) case Write => this.(write := ctx)
    }
  }

  function FreshContext(fd: int): FdContext {
    FdContext(fd, {}, NO_CONTEXT, NO_CONTEXT)
  }

  datatype Io = Io(
    table: seq<FdContext>, epoll: map<int, set<Event>>, pending: nat, queue: seq<Waiter>)

  datatype CtlOp = Add | Mod | Del

  /** epoll_ctl fails on an ADD of a descriptor it has and on a MOD or DEL of one it has not. */
  function Ctl(epoll: map<int, set<Event>>, op: CtlOp, fd: int, mask: set<Event>): Option<map<int, set<Event>>> {
    match op
    case Add => if fd in epoll then None else Some(epoll[fd := mask])
    case Mod => if fd in epoll then Some(epoll[fd := mask]) else None
    case Del => if fd in epoll then Some(epoll - {fd}) else None
  }

  const SIZE_LIMIT: nat := 0x1_0000_0000_0000_0000

  /** The counter is a size_t. */
  function Decremented(n: nat): nat {
    if n == 0 then SIZE_LIMIT - 1 else n - 1
  }

  /** contextResize: vector::resize, then a context for every empty slot. */
  function Resized(table: seq<FdContext>, size: nat): (r: seq<FdContext>)
    ensures |r| == size
    ensures forall i :: 0 <= i < size ==> r[i] == if i < |table| then table[i] else FreshContext(i)
  {
    seq(size, i requires 0 <= i < size => if i < |table| then table[i] else FreshContext(i))
  }

  /** fd * 1.5, truncated. */
  function GrownSize(fd: nat): nat {
    3 * fd / 2
  }

  function Grown(table: seq<FdContext>, fd: nat): seq<FdContext> {
    if fd < |table| then table else Resized(table, GrownSize(fd))
  }

  /** Aborted stands for a failed assertion or an access out of bounds. */
  datatype Outcome = Done(io: Io, ret: int) | Aborted

  /** triggerEvent on a context; None when its assertion fails. */
  function Trigger(ctx: FdContext, ev: Event): Option<(FdContext, Waiter)> {
    if ev in ctx.events && ctx.Context(ev).Armed() then
      Some((ctx.(events := ctx.events - {ev}).With(ev, NO_CONTEXT), ctx.Context(ev).Waiter()))
    else None
  }

  /** addEvent by a fiber running under a scheduler; cb is empty to wait in the fiber itself. */
  function AddEvent(io: Io, fd: nat, ev: Event, scheduler: nat, self: Fiber, cb: Option<Callback>): Outcome {
    var table := Grown(io.table, fd);
    if fd >= |table| then Aborted
    else
      var ctx, io1 := table[fd], io.(table := table);
      if ev in ctx.events then Done(io1, -1)
      else
        var op := if ctx.events != {} then Mod else Add;
        match Ctl(io.epoll, op, fd, ctx.events + {ev})
        case None => Done(io1, -1)
        case Some(epoll) =>
          if !ctx.Context(ev).Empty() then Aborted
          else
            var armed := EventContext(Some(scheduler), if cb.Some? then None else Some(self), cb);
            var ctx' := ctx.(events := ctx.events + {ev}).With(ev, armed);
            Done(io1.(table := table[fd := ctx'], epoll := epoll, pending := io.pending + 1), 0)
  }

  /** The guard of delEvent and cancelEvent as C++ reads it: the mask is negated to 0 or 1 before
      it is and-ed with the event, so only READ on an empty context is refused. */
  function GuardRefuses(events: set<Event>, ev: Event): bool {
    (if events == {} then 1 else 0) == 1 && Code(ev) % 2 == 1
  }

  /** Both functions return bool, so their "return -1" is true. */
  function DelEvent(io: Io, fd: nat, ev: Event): Outcome {
    if fd >= |io.table| then Done(io, 0)
    else
      var ctx := io.table[fd];
      if GuardRefuses(ctx.events, ev) then Done(io, 0)
      else
        var left := ctx.events - {ev};
        match Ctl(io.epoll, if left != {} then Mod else Del, fd, left)
        case None => Done(io, 1)
        case Some(epoll) =>
          var ctx' := ctx.(events := left).With(ev, NO_CONTEXT);
          Done(io.(table := io.table[fd := ctx'], epoll := epoll, pending := Decremented(io.pending)), 1)
  }

  function CancelEvent(io: Io, fd: nat, ev: Event): Outcome {
    if fd >= |io.table| then Done(io, 0)
    else
      var ctx := io.table[fd];
      if GuardRefuses(ctx.events, ev) then Done(io, 0)
      else
        var left := ctx.events - {ev};
        match Ctl(io.epoll, if left != {} then Mod else Del, fd, left)
        case None => Done(io, 1)
        case Some(epoll) =>
          match Trigger(ctx, ev)
          case None => Aborted
          case Some((ctx', w)) =>
            Done(io.(table := io.table[fd := ctx'], epoll := epoll, pending := Decremented(io.pending),
                     queue := io.queue + [w]), 1)
  }

  /** Trigger the event and count it down, if asked to. */
  function Fire(io: Io, fd: nat, ev: Event, wanted: bool): Option<Io>
    requires fd < |io.table|
  {
    if !wanted then Some(io)
    else match Trigger(io.table[fd], ev)
      case None => None
      case Some((ctx, w)) =>
        Some(io.(table := io.table[fd := ctx], queue := io.queue + [w], pending := Decremented(io.pending)))
  }

  /** The READ branch and then the WRITE branch of cancelAll and of the idle loop. */
  function FireBoth(io: Io, fd: nat, read: bool, write: bool): Option<Io>
    requires fd < |io.table|
  {
    match Fire(io, fd, Read, read)
    case None => None
    case Some(io1) => Fire(io1, fd, Write, write)
  }

  function CancelAll(io: Io, fd: nat): Outcome {
    if fd >= |io.table| || io.table[fd].events == {} then Done(io, 0)
    else
      var events := io.table[fd].events;
      match Ctl(io.epoll, Del, fd, {})
      case None => Done(io, 1)
      case Some(epoll) =>
        match FireBoth(io.(epoll := epoll), fd, Read in events, Write in events)
        case None => Aborted
        case Some(io2) => if io2.table[fd].events == {} then Done(io2, 1) else Aborted
  }

  /** One entry of what epoll_wait returns. */
  datatype Report = Report(fd: nat, readable: bool, writable: bool, failed: bool)

  /** The events the idle loop takes to have happened: an error stands for all registered ones. */
  function RealEvents(ctx: FdContext, r: Report): set<Event> {
    (if r.readable || (r.failed && Read in ctx.events) then {Read} else {})
    + (if r.writable || (r.failed && Write in ctx.events) then {Write} else {})
  }

  function HandleReport(io: Io, r: Report): Outcome {
    if r.fd >= |io.table| then Aborted
    else
      var ctx := io.table[r.fd];
      var happened := RealEvents(ctx, r);
      if ctx.events * happened == {} then Done(io, 0)
      else
        var left := ctx.events - happened;
        match Ctl(io.epoll, if left != {} then Mod else Del, r.fd, left)
        case None => Done(io, 0)
        case Some(epoll) =>
          match FireBoth(io.(epoll := epoll), r.fd, Read in happened, Write in happened)
          case None => Aborted
          case Some(io2) => Done(io2, 0)
  }

  datatype Op =
    | Adding(fd: nat, ev: Event, scheduler: nat, self: Fiber, cb: Option<Callback>)
    | Deleting(fd: nat, ev: Event)
    | Cancelling(fd: nat, ev: Event)
    | CancellingAll(fd: nat)
    | Reporting(r: Report)

  function Apply(io: Io, op: Op): Outcome {
    match op
    case Adding(fd, ev, scheduler, self, cb) => AddEvent(io, fd, ev, scheduler, self, cb)
    case Deleting(fd, ev) => DelEvent(io, fd, ev)
    case Cancelling(fd, ev) => CancelEvent(io, fd, ev)
    case CancellingAll(fd) => CancelAll(io, fd)
    case Reporting(r) => HandleReport(io, r)
  }
}
