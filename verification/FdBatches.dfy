/** A batch of reports while other threads go on operating: the idle loop locks each descriptor on its own,
    so operations can come between what epoll_wait has said and the report being handled. */
module FdBatches {
  import opened Options
  import opened FdModel
  import opened FdLaws

  /** The report says so itself, without what an error adds. */
  predicate Names(r: Report, ev: Event) {
    match ev case Read => r.readable case Write => r.writable
  }

  function Other(ev: Event): Event {
    match ev case Read => Write case Write => Read
  }

  /** The operation takes one event of the report out and leaves another one for it to fire. */
  ghost predicate SplitsReport(io: Io, op: Op, r: Report) {
    && (op.Deleting? || op.Cancelling?) && op.fd == r.fd && Names(r, op.ev)
    && Other(op.ev) in EventsAt(io, r.fd) && (Names(r, Other(op.ev)) || r.failed)
  }

  lemma ClearedEvents(io: Io, fd: nat, ev: Event, io': Io)
    requires fd < |io.table| && io'.table == io.table[fd := Cleared(io.table[fd], ev)]
    ensures EventsAt(io', fd) == EventsAt(io, fd) - {ev}
  {
  }

  lemma TakesRegistered(io: Io, op: Op)
    requires Consistent(io) && (op.Deleting? || op.Cancelling?) && op.ev in EventsAt(io, op.fd)
    ensures Apply(io, op).Done?
    ensures EventsAt(Apply(io, op).io, op.fd) == EventsAt(io, op.fd) - {op.ev}
  {
    TakesOne(io, op.fd, op.ev);
    TakeEvaluates(io, op.fd, op.ev);
    ClearedEvents(io, op.fd, op.ev, Apply(io, op).io);
  }

  lemma TakesItOut(io: Io, op: Op)
    requires Consistent(io) && Safe(io, op) && (op.Deleting? || op.Cancelling?) && op.fd < |io.table|
    ensures Apply(io, op).Done?
    ensures EventsAt(Apply(io, op).io, op.fd) == EventsAt(io, op.fd) - {op.ev}
  {
    if op.ev in EventsAt(io, op.fd) {
      TakesRegistered(io, op);
    } else if op.Deleting? {
      DelKeeps(io, op.fd, op.ev);
    } else {
      CancelKeeps(io, op.fd, op.ev);
    }
  }

  lemma TakesAllOut(io: Io, fd: nat)
    requires Consistent(io) && fd < |io.table|
    ensures CancelAll(io, fd).Done? && EventsAt(CancelAll(io, fd).io, fd) == {}
  {
    CancelAllKeeps(io, fd);
  }

  lemma AddLeaves(io: Io, op: Op)
    requires op.Adding? && op.fd < |io.table| && Apply(io, op).Done?
    requires Apply(io, op).ret == (if op.ev in EventsAt(io, op.fd) then -1 else 0)
    ensures EventsAt(Apply(io, op).io, op.fd) == EventsAt(io, op.fd) + {op.ev}
  {
  }

  lemma PutsItIn(io: Io, op: Op)
    requires Consistent(io) && op.Adding? && op.fd < |io.table|
    ensures Apply(io, op).Done?
    ensures EventsAt(Apply(io, op).io, op.fd) == EventsAt(io, op.fd) + {op.ev}
  {
    AddKeeps(io, op.fd, op.ev, op.scheduler, op.self, op.cb);
    AddLeaves(io, op);
  }

  /** What is registered at a descriptor after another operation. */
  function EventsLeft(events: set<Event>, op: Op, fd: nat): set<Event>
    requires !op.Reporting?
  {
    if FdOf(op) != fd then events
    else match op
      case Adding(_, ev, _, _, _) => events + {ev}
      case Deleting(_, ev) => events - {ev}
      case Cancelling(_, ev) => events - {ev}
      case CancellingAll(_) => {}
  }

  lemma EventsAfter(io: Io, op: Op, fd: nat)
    requires Consistent(io) && Safe(io, op) && fd < |io.table| && !op.Reporting?
    ensures Apply(io, op).Done? && fd < |Apply(io, op).io.table|
    ensures EventsAt(Apply(io, op).io, fd) == EventsLeft(EventsAt(io, fd), op, fd)
  {
    ApplyIff(io, op);
    Frame(io, op);
    if FdOf(op) == fd {
      if op.Adding? {
        PutsItIn(io, op);
      } else if op.CancellingAll? {
        TakesAllOut(io, fd);
      } else {
        TakesItOut(io, op);
      }
    }
  }

  /** The report names an event that is gone, next to one that it fires. */
  ghost predicate PartlyGone(events: set<Event>, r: Report) {
    exists ev :: Names(r, ev) && ev !in events && Other(ev) in events && (Names(r, Other(ev)) || r.failed)
  }

  lemma PartlyGoneIs(ctx: FdContext, r: Report)
    ensures PartlyGone(ctx.events, r) <==>
      !(RealEvents(ctx, r) !! ctx.events) && !(RealEvents(ctx, r) <= ctx.events)
  {
    var events, happened := ctx.events, RealEvents(ctx, r);
    forall ev: Event ensures ev in happened <==> Names(r, ev) || (r.failed && ev in events) {
      match ev case Read => case Write =>
    }
    if PartlyGone(events, r) {
      var ev :| Names(r, ev) && ev !in events && Other(ev) in events && (Names(r, Other(ev)) || r.failed);
      assert ev in happened && Other(ev) in happened;
    }
    if !(happened !! events) && !(happened <= events) {
      var gone :| gone in happened && gone !in events;
      var fires :| fires in happened && fires in events;
      assert Names(r, gone) && fires == Other(gone);
    }
  }

  /** A report is about an event that nobody waits for, next to one that fires: the assertion of
      triggerEvent fails in this case and in no other. */
  lemma ReportAbortsIff(io: Io, r: Report)
    requires Consistent(io) && r.fd < |io.table|
    ensures HandleReport(io, r).Aborted? <==> PartlyGone(EventsAt(io, r.fd), r)
  {
    PartlyGoneIs(io.table[r.fd], r);
    ReportKeeps(io, r);
  }

  /** Which operation makes a report about registered events partly go. */
  lemma SplitIs(io: Io, op: Op, r: Report)
    requires StillRegistered(io, r) && !op.Reporting?
    ensures PartlyGone(EventsLeft(EventsAt(io, r.fd), op, r.fd), r) <==> SplitsReport(io, op, r)
  {
    var events, left := EventsAt(io, r.fd), EventsLeft(EventsAt(io, r.fd), op, r.fd);
    forall ev | Names(r, ev) ensures ev in events {
      match ev case Read => case Write =>
    }
    if SplitsReport(io, op, r) {
      assert op.ev !in left && Other(op.ev) in left;
    }
  }

  /** A report about registered events, and a safe operation of another thread that gets the descriptor
      first: afterwards the assertion of triggerEvent fails if and only if the operation has taken one
      event of the report out and left another one for it to fire. */
  lemma InterleavedIff(io: Io, op: Op, r: Report)
    requires Consistent(io) && StillRegistered(io, r) && Safe(io, op) && !op.Reporting?
    ensures Apply(io, op).Done? && (HandleReport(Apply(io, op).io, r).Aborted? <==> SplitsReport(io, op, r))
  {
    EventsAfter(io, op, r.fd);
    ApplyIff(io, op);
    ReportAbortsIff(Apply(io, op).io, r);
    SplitIs(io, op, r);
  }

  lemma Adds(io: Io, op: Op) returns (io': Io)
    requires Consistent(io) && op.Adding? && op.fd < |io.table| && op.ev !in EventsAt(io, op.fd)
    ensures Apply(io, op) == Done(io', 0) && Consistent(io') && |io'.table| >= |io.table|
    ensures EventsAt(io', op.fd) == EventsAt(io, op.fd) + {op.ev}
  {
    AddKeeps(io, op.fd, op.ev, op.scheduler, op.self, op.cb);
    PutsItIn(io, op);
    Frame(io, op);
    io' := Apply(io, op).io;
  }

  ghost predicate BothRegistered(io: Io, fd: nat) {
    Consistent(io) && EventsAt(io, fd) == {Read, Write}
  }

  lemma CancelSplits(io: Io, fd: nat, r: Report)
    requires BothRegistered(io, fd) && r.fd == fd && r.readable && r.writable
    ensures HandleReport(io, r).Done? && CancelEvent(io, fd, Read).Done?
    ensures HandleReport(CancelEvent(io, fd, Read).io, r).Aborted?
  {
    var op := Cancelling(fd, Read);
    ReportAbortsIff(io, r);
    assert SplitsReport(io, op, r);
    InterleavedIff(io, op, r);
    assert Apply(io, op) == CancelEvent(io, fd, Read);
  }

  /** READ and WRITE are added and both reported; another thread cancels READ before the report is
      handled, and its READ branch fails. */
  lemma CancelledInBetween() returns (io1: Io, io2: Io)
    ensures Apply(INIT, Adding(5, Read, 0, 1, None)) == Done(io1, 0)
    ensures Apply(io1, Adding(5, Write, 0, 2, None)) == Done(io2, 0)
    ensures var r := Report(5, true, true, false);
      && HandleReport(io2, r).Done? && CancelEvent(io2, 5, Read).Done?
      && HandleReport(CancelEvent(io2, 5, Read).io, r).Aborted?
  {
    InitConsistent();
    io1 := Adds(INIT, Adding(5, Read, 0, 1, None));
    io2 := Adds(io1, Adding(5, Write, 0, 2, None));
    CancelSplits(io2, 5, Report(5, true, true, false));
  }

  // ----- Whole batches -----

  function ReportsOf(ops: seq<Op>): seq<Report> {
    if ops == [] then [] else (if ops[0].Reporting? then [ops[0].r] else []) + ReportsOf(ops[1..])
  }

  /** The operation takes out nothing that a report to come names; reports are about different
      descriptors. */
  ghost predicate Spares(op: Op, later: seq<Report>) {
    forall i :: 0 <= i < |later| && later[i].fd == FdOf(op) ==>
      match op
      case Adding(_, _, _, _, _) => true
      case Deleting(_, ev) => !Names(later[i], ev)
      case Cancelling(_, ev) => !Names(later[i], ev)
      case CancellingAll(_) => false
      case Reporting(_) => false
  }

  ghost predicate AllSpare(ops: seq<Op>)
    decreases ops
  {
    ops == [] || (Spares(ops[0], ReportsOf(ops[1..])) && AllSpare(ops[1..]))
  }

  /** The operations between the reports are safe when they are made. */
  ghost predicate OthersSafe(io: Io, ops: seq<Op>)
    decreases ops
  {
    ops == [] || (
      && (!ops[0].Reporting? ==> Safe(io, ops[0]))
      && (Apply(io, ops[0]).Done? ==> OthersSafe(Apply(io, ops[0]).io, ops[1..])))
  }

  ghost predicate AllRegistered(io: Io, batch: seq<Report>) {
    forall i :: 0 <= i < |batch| ==> StillRegistered(io, batch[i])
  }

  lemma SparedStays(io: Io, op: Op, later: seq<Report>)
    requires Consistent(io) && Safe(io, op) && Spares(op, later) && AllRegistered(io, later)
    ensures Apply(io, op).Done? && AllRegistered(Apply(io, op).io, later)
  {
    ApplyIff(io, op);
    Frame(io, op);
    forall i | 0 <= i < |later| ensures StillRegistered(Apply(io, op).io, later[i]) {
      assert StillRegistered(io, later[i]);
      if later[i].fd == FdOf(op) {
        EventsAfter(io, op, later[i].fd);
      }
    }
  }

  /** A batch about different descriptors, all registered when it starts, runs through with any operations
      of other threads between its reports that are safe and take out nothing it still has to report. */
  lemma {:induction false} MixedBatchSafe(io: Io, ops: seq<Op>)
    requires Consistent(io) && AllRegistered(io, ReportsOf(ops)) && AllSpare(ops) && OthersSafe(io, ops)
    ensures SafeRun(io, ops)
    decreases ops
  {
    if ops != [] {
      var later := ReportsOf(ops[1..]);
      if ops[0].Reporting? {
        assert ReportsOf(ops)[0] == ops[0].r && StillRegistered(io, ReportsOf(ops)[0]);
      }
      assert AllRegistered(io, later) by {
        assert forall i :: 0 <= i < |later| ==> later[i] in ReportsOf(ops);
      }
      SparedStays(io, ops[0], later);
      ApplyIff(io, ops[0]);
      MixedBatchSafe(Apply(io, ops[0]).io, ops[1..]);
    }
  }
}
