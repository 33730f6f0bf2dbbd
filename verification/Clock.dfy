/** Times in seconds. */
module Clock {
  /** `now - t`, not below zero. */
  function Elapsed(now: nat, t: nat): nat {
    if now < t then 0 else now - t
  }
}
