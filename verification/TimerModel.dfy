/** TimerManager as a value: the timers in the ordered set, the timers that are not in it, the
    tickle flag and the last clock reading. T identifies timers, C is the type of callbacks. */
module TimerModel {
  import opened Options
  import opened DeadlineSet
  import Drain

  /** What getNextTimer returns when there is no timer: all 64 bits set. */
  const NO_TIMER: nat := 0xFFFF_FFFF_FFFF_FFFF
  const ROLLOVER_WINDOW: int := 60 * 60 * 1000 * TICKS_PER_MS

  datatype Manager<T(==), C> = Manager(
    queue: seq<Timer<T, C>>, others: map<T, Timer<T, C>>, tickled: bool, previous: int)

  /** What a call hands back: its verdict, whether the front hook runs, the callbacks collected. */
  datatype Outcome<T(==), C> = Outcome(m: Manager<T, C>, ok: bool, front: bool, fired: seq<Option<C>>)

  function Silent<T(==), C>(m: Manager<T, C>, ok: bool): Outcome<T, C> {
    Outcome(m, ok, false, [])
  }

  ghost predicate Valid<T, C>(m: Manager<T, C>) {
    && Ascending(m.queue) && DistinctIds(m.queue)
    && (forall x :: x in m.queue ==> x.id !in m.others)
    && (forall t :: t in m.others ==> m.others[t].id == t)
  }

  function IndexOf<T(==), C>(q: seq<Timer<T, C>>, t: T): (i: nat)
    ensures i <= |q| && (i < |q| ==> q[i].id == t) && (Holds(q, t) ==> i < |q|)
  {
    if q == [] || q[0].id == t then 0
    else
      assert Holds(q, t) ==> Holds(q[1..], t) by {
        assert forall i :: 0 < i < |q| ==> q[i] == q[1..][i - 1];
      }
      1 + IndexOf(q[1..], t)
  }

  ghost predicate Known<T, C>(m: Manager<T, C>, t: T) {
    Holds(m.queue, t) || t in m.others
  }

  function Lookup<T(==), C>(m: Manager<T, C>, t: T): Timer<T, C>
    requires Known(m, t)
  {
    var i := IndexOf(m.queue, t);
    if i < |m.queue| then m.queue[i] else m.others[t]
  }

  /** m_timers.erase(m_timers.find(...)): the element found at deadline d leaves the set. */
  function DetachAt<T(==), C>(m: Manager<T, C>, d: int): Manager<T, C> {
    if Found(m.queue, d) then
      var x := m.queue[LowerBound(m.queue, d)];
      m.(queue := Erase(m.queue, d), others := m.others[x.id := x])
    else m
  }

  /** m_timers.insert(e): e stays outside when its deadline is taken. */
  function Attach<T(==), C>(m: Manager<T, C>, e: Timer<T, C>): Manager<T, C> {
    if Found(m.queue, e.next) then m.(others := m.others[e.id := e])
    else m.(queue := Insert(m.queue, e), others := m.others - {e.id})
  }

  /** addTimer(shared_ptr): only the first insertion at the front since the last getNextTimer
      runs the hook. */
  function AddTimer<T(==), C>(m: Manager<T, C>, e: Timer<T, C>): Outcome<T, C> {
    var front := LowerBound(m.queue, e.next) == 0 && !m.tickled;
    Outcome(Attach(m, e).(tickled := m.tickled || front), true, front, [])
  }

  function Cancel<T(==), C>(m: Manager<T, C>, t: T): Outcome<T, C>
    requires Known(m, t)
  {
    var e := Lookup(m, t);
    if e.cb.None? then Silent(m, false)
    else
      var m' := DetachAt(m, e.next);
      Silent(m'.(others := m'.others[t := e.(cb := None)]), true)
  }

  function Refresh<T(==), C>(m: Manager<T, C>, t: T, now: int): Outcome<T, C>
    requires Known(m, t)
  {
    var e := Lookup(m, t);
    if e.cb.None? || !Found(m.queue, e.next) then Silent(m, false)
    else Silent(Attach(DetachAt(m, e.next), e.Armed(now)), true)
  }

  /** The timer after a reset: counted from now, or from where its period began. */
  function Restarted<T, C>(e: Timer<T, C>, ms: nat, fromNow: bool, now: int): Timer<T, C> {
    var start := if fromNow then now else e.next - e.ms * TICKS_PER_MS;
    e.(ms := ms, next := start + ms * TICKS_PER_MS)
  }

  function Reset<T(==), C>(m: Manager<T, C>, t: T, ms: nat, fromNow: bool, now: int): Outcome<T, C>
    requires Known(m, t)
  {
    var e := Lookup(m, t);
    if ms == e.ms && !fromNow then Silent(m, true)
    else if e.cb.None? || !Found(m.queue, e.next) then Silent(m, false)
    else AddTimer(DetachAt(m, e.next), Restarted(e, ms, fromNow, now))
  }

  /** getNextTimer: milliseconds until the earliest deadline, rounded down. */
  function NextTimeout<T, C>(q: seq<Timer<T, C>>, now: int): nat {
    if q == [] then NO_TIMER
    else if q[0].next <= now then 0
    else (q[0].next - now) / TICKS_PER_MS
  }

  function RolledOver<T(==), C>(m: Manager<T, C>, checked: int): bool {
    checked < m.previous - ROLLOVER_WINDOW
  }

  function Absorb<T(==), C>(others: map<T, Timer<T, C>>, gone: seq<Timer<T, C>>): map<T, Timer<T, C>>
    decreases gone
  {
    if gone == [] then others else Absorb(others[gone[0].id := gone[0]], gone[1..])
  }

  /** listExpiredCb, which reads the clock twice: now, and once more to look for a rollover. */
  function Collect<T(==), C>(m: Manager<T, C>, now: int, checked: int): Outcome<T, C>
    requires Ascending(m.queue) && Drain.TrapFree(m.queue, now, RolledOver(m, checked))
  {
    var r := Drain.Run(Drain.State(m.queue, [], []), now, RolledOver(m, checked));
    Outcome(Manager(r.queue, Absorb(m.others, r.gone), m.tickled, checked), true, false, r.fired)
  }

  /** One call on the manager or on one of its timers. Create carries the time at which the
      constructor read the clock; until it is inserted nobody else knows the timer. Collecting carries
      the reading that listExpiredCb makes before it takes the lock. */
  datatype Op<T, C> =
    | Create(t: T, made: int, ms: nat, code: C, recurring: bool)
    | Cancelling(t: T)
    | Refreshing(t: T)
    | Resetting(t: T, ms: nat, fromNow: bool)
    | Peeking
    | Collecting(read: int, checked: int)

  ghost predicate Allowed<T, C>(m: Manager<T, C>, op: Op<T, C>, now: int) {
    match op
    case Create(t, made, ms, code, recurring) => !Known(m, t) && made <= now
    case Cancelling(t) => Known(m, t)
    case Refreshing(t) => Known(m, t)
    case Resetting(t, ms, fromNow) => Known(m, t)
    case Peeking => true
    case Collecting(read, checked) =>
      read <= now && Ascending(m.queue) && Drain.TrapFree(m.queue, read, RolledOver(m, checked))
  }

  function Fresh<T, C>(t: T, made: int, ms: nat, code: C, recurring: bool): Timer<T, C> {
    Timer(t, made + ms * TICKS_PER_MS, ms, recurring, Some(code))
  }

  function Apply<T(==), C>(m: Manager<T, C>, op: Op<T, C>, now: int): Outcome<T, C>
    requires Allowed(m, op, now)
  {
    match op
    case Create(t, made, ms, code, recurring) => AddTimer(m, Fresh(t, made, ms, code, recurring))
    case Cancelling(t) => Cancel(m, t)
    case Refreshing(t) => Refresh(m, t, now)
    case Resetting(t, ms, fromNow) => Reset(m, t, ms, fromNow, now)
    case Peeking => Silent(m.(tickled := false), true)
    case Collecting(read, checked) => Collect(m, read, checked)
  }
}
