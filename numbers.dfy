/** Absolute values, shared by the dial's physics and the tuner. */
module Numbers {
  /** `Math.abs` on a number. */
  function Abs(x: real): real { if x < 0.0 then -x else x }

  /** `Math.abs` on an integer. */
  function IntAbs(x: int): nat { if x < 0 then -x else x }
}
