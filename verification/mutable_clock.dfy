/**
 * The settable test clock that supplies "now" to the token service.
 * An instant is a count of nanoseconds since the epoch (the resolution of
 * java.time.Instant); a duration is a signed count of nanoseconds.
 */
module Clocks {

  /** A time-zone identifier, treated as an opaque value. */
  datatype ZoneId = ZoneId(id: string)

  class MutableClock {
    var instant: int
    const zone: ZoneId

    constructor (fixedInstant: int, zone: ZoneId)
      ensures instant == fixedInstant && this.zone == zone
    {
      instant := fixedInstant;
      this.zone := zone;
    }

    /** The zone given at construction; no operation of the clock changes it. */
    function GetZone(): (z: ZoneId)
      ensures z == zone
    {
      zone
    }

    /** A fresh clock standing at the same instant in zone `z`; the receiver is untouched. */
    method WithZone(z: ZoneId) returns (c: MutableClock)
      ensures fresh(c)
      ensures c.Instant() == Instant() && c.GetZone() == z
    {
      c := new MutableClock(instant, z);
    }

    /** The instant currently stored, exactly. */
    function Instant(): (t: int)
      reads this
      ensures t == instant
    {
      instant
    }

    /** Moves the clock by `duration` (backwards when it is negative). */
    method Add(duration: int)
      modifies this`instant
      ensures Instant() == old(Instant()) + duration
    {
      instant := instant + duration;
    }

    /** Moves the clock back by `duration`. */
    method Subtract(duration: int)
      modifies this`instant
      ensures Instant() == old(Instant()) - duration
    {
      instant := instant - duration;
    }

    /** Makes the clock stand at `newInstant`, whatever it showed before. */
    method Set(newInstant: int)
      modifies this`instant
      ensures Instant() == newInstant
    {
      instant := newInstant;
    }
  }

  /** Adding a duration and then subtracting it puts the clock back where it was. */
  method AddThenSubtract(clock: MutableClock, duration: int)
    modifies clock
    ensures clock.Instant() == old(clock.Instant())
  {
    clock.Add(duration);
    clock.Subtract(duration);
  }

  /** Setting the same instant twice leaves the clock as setting it once does. */
  method SetTwice(clock: MutableClock, newInstant: int)
    modifies clock
    ensures clock.Instant() == newInstant
  {
    clock.Set(newInstant);
    ghost var once := clock.Instant();
    clock.Set(newInstant);
    assert clock.Instant() == once;
  }
}
