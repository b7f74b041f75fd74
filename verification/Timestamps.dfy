/** Modification times: seconds and nanoseconds around the Unix epoch. */
module Timestamps {
  import opened Tree

  const I64_MAX: int := 0x7FFF_FFFF_FFFF_FFFF
  const I64_MIN: int := -0x8000_0000_0000_0000
  const SECOND: int := 1_000_000_000

  /** A time as its distance from the epoch. */
  datatype SystemTime = After(secs: nat, nanos: nat) | Before(secs: nat, nanos: nat)

  /** The subsecond part is one; a time before the epoch is not the epoch itself. */
  predicate TimeOk(time: SystemTime) {
    time.nanos < SECOND && (time.Before? ==> time.secs > 0 || time.nanos > 0)
  }

  function Saturated(secs: nat): int {
    if secs <= I64_MAX then secs else I64_MAX
  }

  function FromSystemTime(time: SystemTime): Timestamp
    requires TimeOk(time)
  {
    match time
    case After(secs, nanos) => Timestamp(Saturated(secs), nanos)
    case Before(secs, nanos) =>
      if nanos == 0 then Timestamp(-Saturated(secs), 0)
      else Timestamp(if -Saturated(secs) - 1 < I64_MIN then I64_MIN else -Saturated(secs) - 1, 1_000_000_000 - nanos)
  }

  /** Nanoseconds since the epoch. */
  function Instant(time: SystemTime): int {
    if time.After? then time.secs * SECOND + time.nanos else -(time.secs * SECOND + time.nanos)
  }

  function Meaning(t: Timestamp): int {
    t.secs * SECOND + t.nanos
  }

  /** The conversion is exact for every time at most `I64_MAX` seconds from the epoch, and for no other. */
  lemma ExactWithinReach(time: SystemTime)
    requires TimeOk(time)
    ensures var t := FromSystemTime(time);
            && I64_MIN <= t.secs <= I64_MAX && 0 <= t.nanos < SECOND
            && (Meaning(t) == Instant(time) <==> time.secs <= I64_MAX)
  {
  }

  /** Earlier in the fields, seconds first. */
  predicate Earlier(a: Timestamp, b: Timestamp) {
    a.secs < b.secs || (a.secs == b.secs && a.nanos < b.nanos)
  }

  /** Within reach the order of times is the order of their fields. */
  lemma OrderIsKept(a: SystemTime, b: SystemTime)
    requires TimeOk(a) && TimeOk(b) && a.secs <= I64_MAX && b.secs <= I64_MAX
    ensures Earlier(FromSystemTime(a), FromSystemTime(b)) <==> Instant(a) < Instant(b)
  {
    ExactWithinReach(a);
    ExactWithinReach(b);
    var s, t := FromSystemTime(a), FromSystemTime(b);
    assert s.secs < t.secs ==> s.secs + 1 <= t.secs;
    assert Earlier(s, t) <==> Meaning(s) < Meaning(t);
  }

  /** The time that a Unix system holds as signed seconds since the epoch and the nanoseconds after them. */
  function UnixTime(secs: int, nanos: nat): SystemTime
    requires nanos < SECOND
  {
    if secs >= 0 then After(secs, nanos)
    else if nanos == 0 then Before(-secs, 0)
    else Before(-secs - 1, 1_000_000_000 - nanos)
  }

  /** Of the times a Unix system can hold, all but the very first come out as they are held. */
  lemma OneUnixTimeIsOutOfReach(secs: int, nanos: nat)
    requires I64_MIN <= secs <= I64_MAX && nanos < SECOND
    ensures TimeOk(UnixTime(secs, nanos))
    ensures FromSystemTime(UnixTime(secs, nanos)) == Timestamp(secs, nanos) <==> !(secs == I64_MIN && nanos == 0)
  {
  }

  /** That one time comes out later than the one a nanosecond after it. */
  lemma OrderIsLostAtTheFirstTime()
    ensures var a, b := UnixTime(I64_MIN, 0), UnixTime(I64_MIN, 1);
            TimeOk(a) && TimeOk(b) && Instant(b) == Instant(a) + 1 && Earlier(FromSystemTime(b), FromSystemTime(a))
  {
  }
}
