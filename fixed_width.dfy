/** Fixed-width unsigned integers of the target boards (ESP32/ESP8266, where
    `unsigned long` is 32 bits) and the wrap-around arithmetic the interval
    timer relies on. */
module FixedWidth {

  const U32_MOD: int := 0x1_0000_0000

  /** `byte` of the Arduino core. */
  newtype byte = x: int | 0 <= x < 0x100

  /** `uint16_t`. */
  type u16 = x: int | 0 <= x < 0x1_0000

  /** `unsigned long`, the type of `millis()`. */
  type u32 = x: int | 0 <= x < 0x1_0000_0000

  /** `a - b` on two `unsigned long` values: the difference modulo 2^32. */
  function WrapSub(a: u32, b: u32): (r: u32)
    ensures (b + r) % U32_MOD == a
    ensures a >= b ==> r == a - b
    ensures a < b ==> r == a - b + U32_MOD
  {
    (a - b) % U32_MOD
  }

  /** The gate of `timerDone()`: at least `interval` milliseconds have passed
      since `start`, measured by the wrapping difference of two clock readings. */
  function Elapsed(start: u32, now: u32, interval: u32): (r: bool)
    ensures now >= start ==> (r <==> now - start >= interval)
    ensures now < start ==> (r <==> now + U32_MOD - start >= interval)
  {
    WrapSub(now, start) >= interval
  }

  /** `millis()` is the true time in milliseconds modulo 2^32. As long as less
      than 2^32 ms (about 49.7 days) separate the two true times, the wrapping
      difference of the two readings is the true elapsed time, also when the
      clock wrapped in between; so the gate opens exactly when the true elapsed
      time reaches the interval. */
  lemma ElapsedAcrossWrap(t0: nat, t1: nat, interval: u32)
    requires t0 <= t1 < t0 + U32_MOD
    ensures WrapSub(t1 % U32_MOD, t0 % U32_MOD) == t1 - t0
    ensures Elapsed(t0 % U32_MOD, t1 % U32_MOD, interval) <==> t1 - t0 >= interval
  {
  }
}
