/** How long the hooked sleeps ask the timers to wait: the conversions to milliseconds and to a deadline,
    with the widths of the C types. */
module Hooks {
  import opened DeadlineSet

  const TWO_TO_THE_32: int := 0x1_0000_0000
  const TWO_TO_THE_64: int := 0x1_0000_0000_0000_0000

  /** sleep: the product is an unsigned int. */
  function SleepMs(seconds: nat): nat
    requires seconds < TWO_TO_THE_32
  {
    seconds * 1000 % TWO_TO_THE_32
  }

  /** usleep: the quotient is rounded down. */
  function UsleepMs(usec: nat): nat
    requires usec < TWO_TO_THE_32
  {
    usec / 1000
  }

  /** Division as in C, towards zero. */
  function Quotient(a: int, b: int): int
    requires b > 0
  {
    if a >= 0 then a / b else -(-a / b)
  }

  /** Conversion to int, which keeps the low 32 bits. */
  function ToInt32(x: int): int {
    var low := x % TWO_TO_THE_32;
    if low < TWO_TO_THE_32 / 2 then low else low - TWO_TO_THE_32
  }

  function ToUint64(x: int): nat {
    x % TWO_TO_THE_64
  }

  /** nanosleep: the sum is stored in an int and passed on as 64 bits without sign. */
  function NanosleepMs(sec: int, nsec: int): nat {
    ToUint64(ToInt32(sec * 1000 + Quotient(Quotient(nsec, 1000), 1000)))
  }

  /** The period a timer is made with becomes a signed number of milliseconds. */
  function Signed(ms: nat): int
    requires ms < TWO_TO_THE_64
  {
    if ms < TWO_TO_THE_64 / 2 then ms else ms - TWO_TO_THE_64
  }

  /** The deadline of a timer made at the given reading of the clock. */
  function Deadline(now: int, ms: nat): int
    requires ms < TWO_TO_THE_64
  {
    now + Signed(ms) * TICKS_PER_MS
  }

  /** sleep waits the full time exactly up to 4294967 seconds. Beyond, it is short by a whole multiple of 2^32
      milliseconds, and waits for less than one; its deadline never lies in the past. */
  lemma SleepExactIff(seconds: nat, now: int)
    requires seconds < TWO_TO_THE_32
    ensures Deadline(now, SleepMs(seconds)) == now + seconds * 1000 * TICKS_PER_MS <==> seconds <= 4294967
    ensures now <= Deadline(now, SleepMs(seconds)) <= now + seconds * 1000 * TICKS_PER_MS
    ensures Signed(SleepMs(seconds)) < 0x1_0000_0000
    ensures (seconds * 1000 - Signed(SleepMs(seconds))) % 0x1_0000_0000 == 0
  {
    assert SleepMs(seconds) <= seconds * 1000;
  }

  /** usleep falls short by less than a millisecond, and not at all exactly for whole milliseconds. */
  lemma UsleepExactIff(usec: nat)
    requires usec < TWO_TO_THE_32
    ensures usec - 1000 < Signed(UsleepMs(usec)) * 1000 <= usec
    ensures Signed(UsleepMs(usec)) * 1000 == usec <==> usec % 1000 == 0
  {
  }

  lemma NanosleepSigned(sec: nat, nsec: nat)
    requires nsec < 1_000_000_000
    ensures Signed(NanosleepMs(sec, nsec)) == ToInt32(sec * 1000 + nsec / 1_000_000)
  {
    assert Quotient(Quotient(nsec, 1000), 1000) == nsec / 1_000_000;
    var n := ToInt32(sec * 1000 + nsec / 1_000_000);
    assert ToUint64(n) == if n < 0 then n + TWO_TO_THE_64 else n;
  }

  /** nanosleep rounds down to milliseconds exactly when they fit an int. Beyond that the deadline lies in
      the past for the upper half of every span of 2^32 milliseconds, so the sleeper is due at once, and
      before the time for the lower half. The sum itself has to fit 64 bits. */
  lemma NanosleepExactIff(sec: nat, nsec: nat, now: int)
    requires nsec < 1_000_000_000 && sec * 1000 + nsec / 1_000_000 < TWO_TO_THE_64 / 2
    ensures var ms, at := sec * 1000 + nsec / 1_000_000, Deadline(now, NanosleepMs(sec, nsec));
      && (at == now + ms * TICKS_PER_MS <==> ms < TWO_TO_THE_32 / 2)
      && (at < now <==> ms % TWO_TO_THE_32 >= TWO_TO_THE_32 / 2)
      && at <= now + ms * TICKS_PER_MS
    ensures var n := Signed(NanosleepMs(sec, nsec));
      -0x8000_0000 <= n < 0x8000_0000 && (sec * 1000 + nsec / 1_000_000 - n) % 0x1_0000_0000 == 0
  {
    NanosleepSigned(sec, nsec);
    assert ToInt32(sec * 1000 + nsec / 1_000_000) <= sec * 1000 + nsec / 1_000_000;
  }
}
