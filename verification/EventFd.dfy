/** The eventfd behind `wakeupFd_` (zdq_timer.cpp): a counter that a write adds to and a read resets. */
module EventFd {

  // Largest value an eventfd counter can hold: a write that would pass it fails with EAGAIN.
  const COUNTER_MAX: nat := 0xffff_ffff_ffff_fffe

  /** `weakFd`: adds one to the counter; at the maximum the write fails and only a message is printed. */
  function WeakFd(counter: nat): (r: nat)
    ensures r > 0
    ensures counter <= COUNTER_MAX ==> counter <= r <= COUNTER_MAX
  {
    if counter < COUNTER_MAX then counter + 1 else counter
  }

  /** `handleRead`: reads the counter, which resets it; an empty counter gives EAGAIN and stays empty. */
  function HandleRead(counter: nat): (r: nat)
    ensures r == 0
  {
    0
  }

  function Min(a: nat, b: nat): nat { if a < b then a else b }

  /** What a counter holds after some writes since it was last read: their number, up to the maximum. */
  lemma OneMoreWrite(writes: nat)
    ensures WeakFd(Min(writes, 0xffff_ffff_ffff_fffe)) == Min(writes + 1, 0xffff_ffff_ffff_fffe)
  {
  }
}
