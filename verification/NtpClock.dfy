/**
 The 32-bit wrapping clock in 1/65536 s that SCReAM runs on. Both the interceptor and the feedback inferer
 compute it from a start instant t0, in the same way. Instants are in microseconds, the precision kept.
 */
module NtpClock {

  const TICKS_PER_SECOND: int := 65536
  const SECOND: int := 1_000_000
  const WRAP: int := 0x1_0000_0000

  /** Ticks since t0, rounded down, before truncation to 32 bits. */
  function Ticks(t0: int, t: int): nat
    requires t0 <= t
  {
    (t - t0) * TICKS_PER_SECOND / SECOND
  }

  function Ntp(t0: int, t: int): nat
    requires t0 <= t
  {
    Ticks(t0, t) % WRAP
  }

  lemma Reading(t0: int, t: int, ticks: nat)
    requires t0 <= t && ticks * SECOND <= (t - t0) * TICKS_PER_SECOND < (ticks + 1) * SECOND
    ensures Ntp(t0, t) == ticks % WRAP
  {
  }

  /** The 32-bit difference of two readings, as the congestion controller takes it. */
  function Since(t0: int, a: int, b: int): nat
    requires t0 <= a && t0 <= b
  {
    (Ntp(t0, b) - Ntp(t0, a)) % WRAP
  }

  /** The difference is within one tick of the exact time between a and b. */
  predicate Accurate(t0: int, a: int, b: int)
    requires t0 <= a && t0 <= b
  {
    -SECOND < Since(t0, a, b) * SECOND - (b - a) * TICKS_PER_SECOND < SECOND
  }

  lemma TicksBetween(t0: int, a: int, b: int)
    requires t0 <= a <= b
    ensures Ticks(t0, a) <= Ticks(t0, b)
    ensures -SECOND < (Ticks(t0, b) - Ticks(t0, a)) * SECOND - (b - a) * TICKS_PER_SECOND < SECOND
  {
  }

  lemma ModDifference(x: nat, y: nat)
    requires x <= y <= x + WRAP
    ensures (y % WRAP - x % WRAP) % WRAP == if y == x + WRAP then 0 else y - x
  {
  }

  /** For instants less than 65536 s apart, the difference is accurate, across the wrap too, exactly unless
      the readings lie a whole turn of the clock apart. */
  lemma AccurateIff(t0: int, a: int, b: int)
    requires t0 <= a <= b && b - a < 65536 * SECOND
    ensures Accurate(t0, a, b) <==> Ticks(t0, b) - Ticks(t0, a) < WRAP
  {
    TicksBetween(t0, a, b);
    ModDifference(Ticks(t0, a), Ticks(t0, b));
  }

  predicate AccurateOver(t0: int, a: int, span: nat) {
    t0 <= a ==> Accurate(t0, a, a + span)
  }

  /** Started just before a tick, an unsafe span runs through a whole turn and reads as zero. */
  lemma UnsafeStart(span: nat)
    requires (WRAP - 1) * SECOND < span * TICKS_PER_SECOND < WRAP * SECOND
    ensures !Accurate(0, 4776, 4776 + span)
  {
    AccurateIff(0, 4776, 4776 + span);
  }

  /** Exactly which spans are safe wherever they start: those of at most 2^32 - 1 ticks. The last 15
      microseconds below 65536 s are not. */
  lemma SafeSpans(span: nat)
    requires span < 65536 * SECOND
    ensures (forall t0, a :: AccurateOver(t0, a, span)) <==> span * TICKS_PER_SECOND <= (WRAP - 1) * SECOND
    ensures span * TICKS_PER_SECOND <= (WRAP - 1) * SECOND <==> span <= 65536 * SECOND - 16
  {
    if span * TICKS_PER_SECOND <= (WRAP - 1) * SECOND {
      forall t0: int, a: int
        ensures AccurateOver(t0, a, span)
      {
        if t0 <= a {
          TicksBetween(t0, a, a + span);
          AccurateIff(t0, a, a + span);
        }
      }
    } else {
      UnsafeStart(span);
      assert !AccurateOver(0, 4776, span);
    }
  }

  /** Between two wraps the clock does not go back. */
  lemma MonotoneBetweenWraps(t0: int, a: int, b: int)
    requires t0 <= a <= b && Ticks(t0, a) / WRAP == Ticks(t0, b) / WRAP
    ensures Ntp(t0, a) <= Ntp(t0, b)
  {
    TicksBetween(t0, a, b);
  }
}
