/**
 * One poll of the input devices, standing in for Unity's `Input.GetKey`,
 * `Input.GetMouseButton` and `Input.GetAxis` calls of a frame.
 */
module Inputs {

  datatype InputSample = InputSample(
    w: bool, s: bool, a: bool, d: bool,
    space: bool, leftShift: bool, leftControl: bool,
    q: bool, e: bool,
    mouseButton0: bool,
    mouseX: real, mouseY: real)

  /**
   * The signal of a key pair read as `pos ? 1 : neg ? -1 : 0`: the positive
   * key wins when both are held.
   */
  function AxisSignal(pos: bool, neg: bool): (r: real)
    ensures r == 1.0 || r == 0.0 || r == -1.0
    ensures r > 0.0 <==> pos
    ensures r < 0.0 <==> neg && !pos
  {
    if pos then 1.0 else if neg then -1.0 else 0.0
  }

  /** `1` when the key is held, else `0`. */
  function Held(k: bool): real {
    if k then 1.0 else 0.0
  }
}
