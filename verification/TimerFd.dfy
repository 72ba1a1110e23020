/** Arming the timerfd (zdq_timer.cpp): from an expiration to the relative time handed to timerfd_settime. */
module TimerFd {
  const MICROS_PER_SECOND: int := 1_000_000
  const LEAST_DELAY: int := 100

  datatype Timespec = Timespec(sec: int, nsec: int)

  function Max(a: int, b: int): int { if a < b then b else a }

  /** howMuchTimeFromNow, with the current time as a parameter. */
  function HowMuchTimeFromNow(when: int, now: int): (ts: Timespec)
    ensures (if when - now < 100 then 100_000 else 1000 * (when - now)) == ts.sec * 1_000_000_000 + ts.nsec
    ensures 0 <= ts.sec && 0 <= ts.nsec < 1_000_000_000
  {
    var micros := when - now;
    var micros := if micros < LEAST_DELAY then LEAST_DELAY else micros;
    Timespec(micros / MICROS_PER_SECOND, (micros % MICROS_PER_SECOND) * 1000)
  }

  /** A timerfd: never armed (or disarmed), armed to expire at a time, or expired and not read since. */
  datatype Fd = Disarmed | Armed(at: int) | Ready

  /** timerfd_settime with a relative time: a zero time disarms; any other re-arms and forgets past expirations. */
  function SetTime(ts: Timespec, now: int): Fd {
    if ts == Timespec(0, 0) then Disarmed else Armed(now + ts.sec * MICROS_PER_SECOND + ts.nsec / 1000)
  }

  /** Armed to expire at a time, or 100 microseconds from now if that is later. */
  function ArmedFor(expiration: int, now: int): Fd {
    Armed(Max(expiration, now + LEAST_DELAY))
  }

  /** resetTimerfd. */
  function ResetTimerFd(expiration: int, now: int): Fd {
    SetTime(HowMuchTimeFromNow(expiration, now), now)
  }

  /**
   * Arming never disarms by accident and never loses time to rounding: the fd expires at the expiration, or 100
   * microseconds from now if that is later.
   */
  lemma ResetArms(expiration: int, now: int)
    ensures ResetTimerFd(expiration, now) == ArmedFor(expiration, now)
    ensures ResetTimerFd(expiration, now) == Armed(if expiration < now + 100 then now + 100 else expiration)
  {
    var ts := HowMuchTimeFromNow(expiration, now);
    var micros := Max(expiration - now, LEAST_DELAY);
    assert ts.nsec == (micros % MICROS_PER_SECOND) * 1000 && ts.sec == micros / MICROS_PER_SECOND;
  }
}
