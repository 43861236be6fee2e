/** The pending counter between the instructions of the operations, for any number of threads. The
    counter is atomic; everything else about a descriptor happens under its mutex. */
module PendingCount {
  import opened Options
  import opened Bags
  import opened FdModel

  type Bit = (nat, Event)

  /** Where a thread is inside an operation. */
  datatype Pc =
    | Outside
    | Adding(bit: Bit)                // addEvent: counted, bit not set yet
    | Removing(bit: Bit, fire: bool)  // delEvent or cancelEvent: counted down, bit still set
    | Firing(fd: nat)                 // cancelAll or the idle loop, under the mutex
    | Owing(bit: Bit)                 // ... with the waiter queued and the count still to be lowered

  /** added, handed and deleted are the history: bits that were set, those whose waiter was handed to the
      scheduler, and those that delEvent took out. */
  datatype State = State(
    bits: set<Bit>, pending: int, threads: seq<Pc>,
    added: multiset<Bit>, handed: multiset<Bit>, deleted: multiset<Bit>)

  datatype Step =
    | BeginAdd(bit: Bit)
    | EndAdd
    | BeginRemove(bit: Bit, fire: bool)
    | EndRemove
    | BeginFire(fd: nat)
    | Fire(ev: Event)
    | Repay
    | EndFire

  function Locked(pc: Pc): Option<nat> {
    match pc
    case Outside => None
    case Adding(bit) => Some(bit.0)
    case Removing(bit, _) => Some(bit.0)
    case Firing(fd) => Some(fd)
    case Owing(bit) => Some(bit.0)
  }

  predicate Free(s: State, fd: nat) {
    forall t :: 0 <= t < |s.threads| ==> Locked(s.threads[t]) != Some(fd)
  }

  function Next(s: State, t: nat, step: Step): Option<State>
    requires t < |s.threads|
  {
    var pc := s.threads[t];
    match step
    case BeginAdd(bit) =>
      if pc.Outside? && Free(s, bit.0) && bit !in s.bits then
        Some(s.(pending := s.pending + 1, threads := s.threads[t := Pc.Adding(bit)]))
      else None
    case EndAdd =>
      if pc.Adding? then
        Some(s.(bits := s.bits + {pc.bit}, added := s.added + multiset{pc.bit}, threads := s.threads[t := Outside]))
      else None
    case BeginRemove(bit, fire) =>
      if pc.Outside? && Free(s, bit.0) && bit in s.bits then
        Some(s.(pending := s.pending - 1, threads := s.threads[t := Removing(bit, fire)]))
      else None
    case EndRemove =>
      if pc.Removing? then
        Some(s.(bits := s.bits - {pc.bit}, threads := s.threads[t := Outside],
                handed := if pc.fire then s.handed + multiset{pc.bit} else s.handed,
                deleted := if pc.fire then s.deleted else s.deleted + multiset{pc.bit}))
      else None
    case BeginFire(fd) =>
      if pc.Outside? && Free(s, fd) then Some(s.(threads := s.threads[t := Firing(fd)])) else None
    case Fire(ev) =>
      if pc.Firing? && (pc.fd, ev) in s.bits then
        Some(s.(bits := s.bits - {(pc.fd, ev)}, handed := s.handed + multiset{(pc.fd, ev)},
                threads := s.threads[t := Owing((pc.fd, ev))]))
      else None
    case Repay =>
      if pc.Owing? then Some(s.(pending := s.pending - 1, threads := s.threads[t := Firing(pc.bit.0)])) else None
    case EndFire =>
      if pc.Firing? then Some(s.(threads := s.threads[t := Outside])) else None
  }

  /** Bits a thread has counted that are not set, and bits that are set and no longer counted. */
  function Ahead(pc: Pc): multiset<Bit> {
    if pc.Adding? || pc.Owing? then multiset{pc.bit} else multiset{}
  }

  function Behind(pc: Pc): multiset<Bit> {
    if pc.Removing? then multiset{pc.bit} else multiset{}
  }

  /** The counter is off from the set bits by what the threads are in the middle of. */
  ghost predicate Counted(s: State) {
    s.pending + |Gather(s.threads, Behind)| == |s.bits| + |Gather(s.threads, Ahead)|
  }

  /** A descriptor's mutex is held by one thread at a time. */
  ghost predicate Exclusive(s: State) {
    forall t, u :: 0 <= t < u < |s.threads| && Locked(s.threads[t]).Some? ==>
      Locked(s.threads[t]) != Locked(s.threads[u])
  }

  ghost predicate Inv(s: State) {
    && Counted(s) && Exclusive(s)
    && Gather(s.threads, Behind) <= multiset(s.bits)
    && (forall t :: 0 <= t < |s.threads| && s.threads[t].Adding? ==> s.threads[t].bit !in s.bits)
  }

  lemma MoveCounts(s: State, t: nat, pc: Pc)
    requires t < |s.threads|
    ensures var n := s.threads[t := pc];
      && Gather(n, Behind) + Behind(s.threads[t]) == Gather(s.threads, Behind) + Behind(pc)
      && |Gather(n, Ahead)| + One(s.threads[t].Adding? || s.threads[t].Owing?)
           == |Gather(s.threads, Ahead)| + One(pc.Adding? || pc.Owing?)
      && |Gather(n, Behind)| + One(s.threads[t].Removing?) == |Gather(s.threads, Behind)| + One(pc.Removing?)
  {
    GatherUpdate(s.threads, t, pc, Ahead);
    GatherUpdate(s.threads, t, pc, Behind);
    SumSize(Gather(s.threads[t := pc], Ahead), Ahead(s.threads[t]), Gather(s.threads, Ahead), Ahead(pc));
    SumSize(Gather(s.threads[t := pc], Behind), Behind(s.threads[t]), Gather(s.threads, Behind), Behind(pc));
  }

  /** A bit some thread is about to clear belongs to a descriptor that thread has locked. */
  lemma BehindIsLocked(s: State, bit: Bit)
    requires Free(s, bit.0)
    ensures bit !in Gather(s.threads, Behind)
  {
    if bit in Gather(s.threads, Behind) {
      var t := GatherWhere(s.threads, Behind, bit);
    }
  }

  lemma StepExclusive(s: State, t: nat, step: Step)
    requires Exclusive(s) && t < |s.threads| && Next(s, t, step).Some?
    ensures Exclusive(Next(s, t, step).value)
  {
    var s' := Next(s, t, step).value;
    forall u | 0 <= u < |s.threads| && u != t && Locked(s'.threads[t]).Some?
      ensures Locked(s'.threads[u]) != Locked(s'.threads[t])
    {
      if Locked(s.threads[t]).Some? {
        assert Locked(s'.threads[t]) == Locked(s.threads[t]);
      }
    }
  }

  lemma StepAdding(s: State, t: nat, step: Step)
    requires Exclusive(s) && t < |s.threads| && Next(s, t, step).Some?
    requires forall u :: 0 <= u < |s.threads| && s.threads[u].Adding? ==> s.threads[u].bit !in s.bits
    ensures var s' := Next(s, t, step).value;
      forall u :: 0 <= u < |s'.threads| && s'.threads[u].Adding? ==> s'.threads[u].bit !in s'.bits
  {
    var s' := Next(s, t, step).value;
    forall u | 0 <= u < |s'.threads| && s'.threads[u].Adding? ensures s'.threads[u].bit !in s'.bits {
      if u != t && step.EndAdd? {
        assert Locked(s.threads[u]) != Locked(s.threads[t]);
      }
    }
  }

  lemma BehindIsSet(s: State, t: nat)
    requires Inv(s) && t < |s.threads| && s.threads[t].Removing?
    ensures s.threads[t].bit in s.bits
  {
    GatherMember(s.threads, t, Behind);
    assert s.threads[t].bit in Behind(s.threads[t]);
    assert s.threads[t].bit in multiset(s.bits);
  }

  lemma BitsSize(s: State, t: nat, step: Step)
    requires Inv(s) && t < |s.threads| && Next(s, t, step).Some?
    ensures |Next(s, t, step).value.bits| == |s.bits| + One(step.EndAdd?) - One(step.EndRemove? || step.Fire?)
  {
    if step.EndRemove? {
      BehindIsSet(s, t);
    }
  }

  /** What a step does to the counter makes up for what it does to the bits and to its own progress. */
  lemma StepNumbers(s: State, t: nat, step: Step)
    requires t < |s.threads| && Next(s, t, step).Some?
    ensures var s' := Next(s, t, step).value;
      && |s'.threads| == |s.threads| && s'.threads == s.threads[t := s'.threads[t]]
      && var pc, pc' := s.threads[t], s'.threads[t];
         s'.pending - s.pending + One(pc'.Removing?) - One(pc.Removing?)
           == One(step.EndAdd?) - One(step.EndRemove? || step.Fire?)
              + One(pc'.Adding? || pc'.Owing?) - One(pc.Adding? || pc.Owing?)
  {
  }

  lemma StepCounted(s: State, t: nat, step: Step)
    requires Inv(s) && t < |s.threads| && Next(s, t, step).Some?
    ensures Counted(Next(s, t, step).value)
  {
    StepNumbers(s, t, step);
    MoveCounts(s, t, Next(s, t, step).value.threads[t]);
    BitsSize(s, t, step);
  }

  lemma StepBehind(s: State, t: nat, step: Step)
    requires Inv(s) && t < |s.threads| && Next(s, t, step).Some?
    ensures var s' := Next(s, t, step).value; Gather(s'.threads, Behind) <= multiset(s'.bits)
  {
    match step
    case BeginRemove(bit, fire) => BeginBehind(s, t, bit, fire);
    case EndRemove => EndBehind(s, t);
    case Fire(ev) => FireBehind(s, t, ev);
    case EndAdd =>
      BehindSame(s, t, step);
      MoreBits(Gather(s.threads, Behind), s.bits, s.threads[t].bit);
    case _ => BehindSame(s, t, step);
  }

  lemma FireBehind(s: State, t: nat, ev: Event)
    requires Inv(s) && t < |s.threads| && Next(s, t, Fire(ev)).Some?
    ensures var s' := Next(s, t, Fire(ev)).value; Gather(s'.threads, Behind) <= multiset(s'.bits)
  {
    BehindSame(s, t, Fire(ev));
    FiredNotBehind(s, t, ev);
    NoneLess(Gather(s.threads, Behind), (s.threads[t].fd, ev), s.bits);
  }

  lemma MoreBits(g: multiset<Bit>, bits: set<Bit>, bit: Bit)
    requires g <= multiset(bits)
    ensures g <= multiset(bits + {bit})
  {
  }

  lemma BeginBehind(s: State, t: nat, bit: Bit, fire: bool)
    requires Inv(s) && t < |s.threads| && Next(s, t, BeginRemove(bit, fire)).Some?
    ensures var s' := Next(s, t, BeginRemove(bit, fire)).value; Gather(s'.threads, Behind) <= multiset(s'.bits)
  {
    BehindIsLocked(s, bit);
    GatherGains(s.threads, t, Removing(bit, fire), Behind, multiset{bit});
    OneMore(Gather(s.threads, Behind), bit, s.bits);
  }

  lemma EndBehind(s: State, t: nat)
    requires Inv(s) && t < |s.threads| && Next(s, t, EndRemove).Some?
    ensures var s' := Next(s, t, EndRemove).value; Gather(s'.threads, Behind) <= multiset(s'.bits)
  {
    GatherLoses(s.threads, t, Outside, Behind, multiset{s.threads[t].bit});
    OneLess(Gather(s.threads[t := Outside], Behind), s.threads[t].bit, s.bits);
  }

  lemma BehindSame(s: State, t: nat, step: Step)
    requires t < |s.threads| && Next(s, t, step).Some? && !step.BeginRemove? && !step.EndRemove?
    ensures Gather(Next(s, t, step).value.threads, Behind) == Gather(s.threads, Behind)
  {
    StepNumbers(s, t, step);
    var pc' := Next(s, t, step).value.threads[t];
    assert !s.threads[t].Removing? && !pc'.Removing?;
    GatherGains(s.threads, t, pc', Behind, multiset{});
  }

  lemma OneMore(g: multiset<Bit>, bit: Bit, bits: set<Bit>)
    requires g <= multiset(bits) && bit in bits && bit !in g
    ensures g + multiset{bit} <= multiset(bits)
  {
  }

  lemma OneLess(g: multiset<Bit>, bit: Bit, bits: set<Bit>)
    requires g + multiset{bit} <= multiset(bits)
    ensures g <= multiset(bits - {bit})
  {
    forall b ensures g[b] <= multiset(bits - {bit})[b] {
      assert (g + multiset{bit})[b] <= multiset(bits)[b];
    }
  }

  lemma NoneLess(g: multiset<Bit>, bit: Bit, bits: set<Bit>)
    requires g <= multiset(bits) && bit !in g
    ensures g <= multiset(bits - {bit})
  {
  }

  lemma FiredNotBehind(s: State, t: nat, ev: Event)
    requires Exclusive(s) && t < |s.threads| && s.threads[t].Firing?
    ensures (s.threads[t].fd, ev) !in Gather(s.threads, Behind)
  {
    var bit := (s.threads[t].fd, ev);
    if bit in Gather(s.threads, Behind) {
      var u := GatherWhere(s.threads, Behind, bit);
      OneLocker(s, t, u, bit.0);
    }
  }

  lemma OneLocker(s: State, t: nat, u: nat, fd: nat)
    requires Exclusive(s) && t < |s.threads| && u < |s.threads|
    requires Locked(s.threads[t]) == Some(fd) && Locked(s.threads[u]) == Some(fd)
    ensures t == u
  {
  }

  lemma StepKeeps(s: State, t: nat, step: Step)
    requires Inv(s) && t < |s.threads| && Next(s, t, step).Some?
    ensures Inv(Next(s, t, step).value)
  {
    StepExclusive(s, t, step);
    StepAdding(s, t, step);
    StepCounted(s, t, step);
    StepBehind(s, t, step);
  }

  function Exec(s: State, steps: seq<(nat, Step)>): Option<State>
    decreases steps
  {
    if steps == [] then Some(s)
    else if steps[0].0 >= |s.threads| || Next(s, steps[0].0, steps[0].1).None? then None
    else Exec(Next(s, steps[0].0, steps[0].1).value, steps[1..])
  }

  lemma {:induction false} RunKeeps(s: State, steps: seq<(nat, Step)>)
    requires Inv(s) && Exec(s, steps).Some?
    ensures Inv(Exec(s, steps).value)
    decreases steps
  {
    if steps != [] {
      StepKeeps(s, steps[0].0, steps[0].1);
      RunKeeps(Next(s, steps[0].0, steps[0].1).value, steps[1..]);
    }
  }

  // ----- Each bit once -----

  type Bag = multiset<Bit>

  ghost predicate Adds(added: Bag, bits: set<Bit>, handed: Bag, deleted: Bag) {
    added == multiset(bits) + handed + deleted
  }

  ghost predicate Accounted(s: State) {
    Adds(s.added, s.bits, s.handed, s.deleted)
  }

  lemma BitSet(added: Bag, bits: set<Bit>, handed: Bag, deleted: Bag, bit: Bit)
    requires Adds(added, bits, handed, deleted) && bit !in bits
    ensures Adds(added + multiset{bit}, bits + {bit}, handed, deleted)
  {
    assert multiset(bits + {bit}) == multiset(bits) + multiset{bit};
  }

  lemma BitCleared(added: Bag, bits: set<Bit>, handed: Bag, deleted: Bag, bit: Bit)
    requires Adds(added, bits, handed, deleted) && bit in bits
    ensures Adds(added, bits - {bit}, handed + multiset{bit}, deleted)
    ensures Adds(added, bits - {bit}, handed, deleted + multiset{bit})
  {
    assert multiset(bits) == multiset(bits - {bit}) + multiset{bit};
  }

  lemma StepAccounts(s: State, t: nat, step: Step)
    requires Inv(s) && Accounted(s) && t < |s.threads| && Next(s, t, step).Some?
    ensures Accounted(Next(s, t, step).value)
  {
    match step
    case EndAdd => BitSet(s.added, s.bits, s.handed, s.deleted, s.threads[t].bit);
    case EndRemove =>
      BehindIsSet(s, t);
      BitCleared(s.added, s.bits, s.handed, s.deleted, s.threads[t].bit);
    case Fire(ev) => BitCleared(s.added, s.bits, s.handed, s.deleted, (s.threads[t].fd, ev));
    case _ =>
  }

  lemma {:induction false} RunAccounts(s: State, steps: seq<(nat, Step)>)
    requires Inv(s) && Accounted(s) && Exec(s, steps).Some?
    ensures Accounted(Exec(s, steps).value)
    decreases steps
  {
    if steps != [] {
      StepKeeps(s, steps[0].0, steps[0].1);
      StepAccounts(s, steps[0].0, steps[0].1);
      RunAccounts(Next(s, steps[0].0, steps[0].1).value, steps[1..]);
    }
  }

  function Start(n: nat): State {
    State({}, 0, seq(n, i => Outside), multiset{}, multiset{}, multiset{})
  }

  lemma StartInv(n: nat)
    ensures Inv(Start(n))
  {
    var threads := Start(n).threads;
    assert Gather(threads, Ahead) == multiset{} by { GatherEmpty(threads, Ahead); }
    assert Gather(threads, Behind) == multiset{} by { GatherEmpty(threads, Behind); }
  }

  lemma RunInv(n: nat, steps: seq<(nat, Step)>)
    requires Exec(Start(n), steps).Some?
    ensures Inv(Exec(Start(n), steps).value)
  {
    StartInv(n);
    RunKeeps(Start(n), steps);
  }

  /** However the instructions of the threads interleave, a bit that was set is set still, or its waiter was
      handed over once, or it was deleted: firing loses no waiter and hands none over twice. */
  lemma EachBitOnce(n: nat, steps: seq<(nat, Step)>)
    requires Exec(Start(n), steps).Some?
    ensures var s := Exec(Start(n), steps).value; s.added == multiset(s.bits) + s.handed + s.deleted
  {
    StartInv(n);
    RunAccounts(Start(n), steps);
  }

  /** However the instructions of the threads interleave, the counter never wraps. */
  lemma CounterNeverWraps(n: nat, steps: seq<(nat, Step)>)
    requires Exec(Start(n), steps).Some?
    ensures Exec(Start(n), steps).value.pending >= |Gather(Exec(Start(n), steps).value.threads, Ahead)|
  {
    RunInv(n, steps);
    CounterAt(Exec(Start(n), steps).value);
  }

  /** It falls below the number of set bits only by deletes and cancels under way, so not at all
      inside cancelAll and the idle batch. */
  lemma CounterNeverLow(n: nat, steps: seq<(nat, Step)>)
    requires Exec(Start(n), steps).Some?
    ensures var s := Exec(Start(n), steps).value;
      && s.pending >= |s.bits| - |Gather(s.threads, Behind)|
      && ((forall t :: 0 <= t < |s.threads| ==> !s.threads[t].Removing?) ==> s.pending >= |s.bits|)
  {
    RunInv(n, steps);
    CounterAt(Exec(Start(n), steps).value);
  }

  /** It is exact between operations. */
  lemma CounterExact(n: nat, steps: seq<(nat, Step)>)
    requires Exec(Start(n), steps).Some?
    ensures var s := Exec(Start(n), steps).value;
      (forall t :: 0 <= t < |s.threads| ==> s.threads[t].Outside? || s.threads[t].Firing?) ==> s.pending == |s.bits|
  {
    RunInv(n, steps);
    CounterAt(Exec(Start(n), steps).value);
  }

  lemma CounterAt(s: State)
    requires Inv(s)
    ensures s.pending >= |Gather(s.threads, Ahead)|
    ensures (forall t :: 0 <= t < |s.threads| ==> !s.threads[t].Removing?) ==> |Gather(s.threads, Behind)| == 0
    ensures (forall t :: 0 <= t < |s.threads| ==> s.threads[t].Outside? || s.threads[t].Firing?) ==>
      |Gather(s.threads, Ahead)| == 0
  {
    GatherEmpty(s.threads, Ahead);
    GatherEmpty(s.threads, Behind);
    SubSize(Gather(s.threads, Behind), multiset(s.bits));
    assert |multiset(s.bits)| == |s.bits|;
  }

  lemma SubSize(a: multiset<Bit>, b: multiset<Bit>)
    requires a <= b
    ensures |a| <= |b|
  {
    assert b == a + (b - a);
  }

  /** What stopping() may conclude from a zero: with no delete or cancel under way nothing is
      registered and no count is owed; the waiter of a cancel under way can still be on its way. */
  lemma ZeroMeansNothing(s: State)
    requires Inv(s) && s.pending == 0 && forall t :: 0 <= t < |s.threads| ==> !s.threads[t].Removing?
    ensures s.bits == {} && forall t :: 0 <= t < |s.threads| ==> s.threads[t].Outside? || s.threads[t].Firing?
  {
    GatherEmpty(s.threads, Behind);
    GatherEmpty(s.threads, Ahead);
  }

  lemma ZeroDuringCancel(bit: Bit)
    ensures var s := Exec(State({}, 0, [Outside], multiset{}, multiset{}, multiset{}),
                          [(0, BeginAdd(bit)), (0, EndAdd), (0, BeginRemove(bit, true))]);
      s.Some? && s.value.pending == 0 && s.value.bits == {bit} && s.value.handed == multiset{}
  {
    var s0 := State({}, 0, [Outside], multiset{}, multiset{}, multiset{});
    var s1 := Next(s0, 0, BeginAdd(bit)).value;
    var s2 := Next(s1, 0, EndAdd).value;
    var s3 := Next(s2, 0, BeginRemove(bit, true)).value;
    assert Exec(s2, [(0, BeginRemove(bit, true))]) == Exec(s3, []);
    assert [(0, BeginAdd(bit)), (0, EndAdd), (0, BeginRemove(bit, true))][1..]
      == [(0, EndAdd), (0, BeginRemove(bit, true))];
    assert [(0, EndAdd), (0, BeginRemove(bit, true))][1..] == [(0, BeginRemove(bit, true))];
  }

  // ----- The operations, each run by one thread -----

  lemma BothRun(s: State, t: nat, a: Step, b: Step)
    requires t < |s.threads| && Next(s, t, a).Some? && Next(Next(s, t, a).value, t, b).Some?
    ensures Exec(s, [(t, a), (t, b)]) == Next(Next(s, t, a).value, t, b)
  {
    var s1 := Next(s, t, a).value;
    var s2 := Next(s1, t, b).value;
    assert [(t, a), (t, b)][1..] == [(t, b)];
    assert Exec(s2, [(t, b)][1..]) == Some(s2);
  }

  lemma ThreadBack(s: State, t: nat, pc: Pc)
    requires t < |s.threads|
    ensures s.threads[t := pc][t := s.threads[t]] == s.threads
  {
  }

  /** addEvent of a bit that is not set, while nobody holds its descriptor: set and counted. */
  lemma AddRuns(s: State, t: nat, bit: Bit)
    requires t < |s.threads| && s.threads[t] == Pc.Outside && Free(s, bit.0) && bit !in s.bits
    ensures Exec(s, [(t, BeginAdd(bit)), (t, EndAdd)])
         == Some(s.(bits := s.bits + {bit}, pending := s.pending + 1, added := s.added + multiset{bit}))
  {
    BothRun(s, t, BeginAdd(bit), EndAdd);
    ThreadBack(s, t, Pc.Adding(bit));
  }

  /** delEvent or cancelEvent of a bit that is set: cleared and counted down, and its waiter handed over by the
      cancel only. */
  lemma RemoveRuns(s: State, t: nat, bit: Bit, fire: bool)
    requires t < |s.threads| && s.threads[t] == Pc.Outside && Free(s, bit.0) && bit in s.bits
    ensures Exec(s, [(t, BeginRemove(bit, fire)), (t, EndRemove)])
         == Some(s.(bits := s.bits - {bit}, pending := s.pending - 1,
                    handed := if fire then s.handed + multiset{bit} else s.handed,
                    deleted := if fire then s.deleted else s.deleted + multiset{bit}))
  {
    BothRun(s, t, BeginRemove(bit, fire), EndRemove);
    ThreadBack(s, t, Pc.Removing(bit, fire));
  }

  /** One waiter fired by cancelAll or the idle loop: handed over, cleared and counted down. */
  lemma FireRuns(s: State, t: nat, fd: nat, ev: Event)
    requires t < |s.threads| && s.threads[t] == Firing(fd) && (fd, ev) in s.bits
    ensures Exec(s, [(t, Fire(ev)), (t, Repay)])
         == Some(s.(bits := s.bits - {(fd, ev)}, pending := s.pending - 1, handed := s.handed + multiset{(fd, ev)}))
  {
    BothRun(s, t, Fire(ev), Repay);
    ThreadBack(s, t, Owing((fd, ev)));
  }

  /** They are entered when nobody holds the descriptor, and left at will. */
  lemma FiringOpens(s: State, t: nat, fd: nat)
    requires t < |s.threads| && s.threads[t] == Pc.Outside
    ensures Next(s, t, BeginFire(fd)).Some? <==> Free(s, fd)
    ensures Free(s, fd) ==>
      && Next(s, t, BeginFire(fd)) == Some(s.(threads := s.threads[t := Firing(fd)]))
      && Exec(s, [(t, BeginFire(fd)), (t, EndFire)]) == Some(s)
  {
    if Free(s, fd) {
      BothRun(s, t, BeginFire(fd), EndFire);
      ThreadBack(s, t, Firing(fd));
    }
  }
}
