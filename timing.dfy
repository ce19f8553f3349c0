/** 32-bit `unsigned long` arithmetic as the ESP32 firmware performs it on
    `millis()` timestamps: every subtraction and addition wraps modulo 2^32. */
module Timing {

  const WRAP: int := 0x1_0000_0000

  /** An `unsigned long` (or `uint32_t`) on the ESP32. */
  type U32 = x: int | 0 <= x < 0x1_0000_0000

  /** `a - b` on `unsigned long`: the time elapsed from `since` to `now`,
      correct across one wrap-around of the millisecond counter. */
  function Elapsed(now: U32, since: U32): (d: U32)
    ensures since <= now ==> d == now - since
    ensures now < since ==> d == now - since + WRAP
  {
    (now - since) % WRAP
  }

  /** `a + b` on `unsigned long`. */
  function AddWrap(a: U32, b: U32): (r: U32)
    ensures a + b < WRAP ==> r == a + b
    ensures a + b >= WRAP ==> r == a + b - WRAP
  {
    (a + b) % WRAP
  }

  /** `t -= d` on `unsigned long`: the same wrapping subtraction as
      `Elapsed`, read as moving a timestamp back by `d`, so that exactly
      `d` has elapsed from the result to `t` and adding `d` returns to `t`. */
  function Rewind(t: U32, d: U32): (r: U32)
    ensures Elapsed(t, r) == d
    ensures AddWrap(r, d) == t
  {
    Elapsed(t, d)
  }

  /** Rewinding a timestamp by `d` makes exactly `d` more milliseconds appear
      to have elapsed since it (modulo 2^32). */
  lemma {:induction false} ElapsedAfterRewind(now: U32, t: U32, d: U32)
    ensures Elapsed(now, Rewind(t, d)) == AddWrap(Elapsed(now, t), d)
  {
    var e := Elapsed(now, t);
    var r := Rewind(t, d);
    assert e == now - t || e == now - t + WRAP;
    assert r == t - d || r == t - d + WRAP;
    assert Elapsed(now, r) == now - r || Elapsed(now, r) == now - r + WRAP;
  }

  /** Elapsed time undoes a wrapping addition. */
  lemma ElapsedAfterAdd(t: U32, d: U32)
    ensures Elapsed(AddWrap(t, d), t) == d
  {
  }
}
