/** Small value types shared by every part of the model. */
module Basics {
  /** A JavaScript value that may be `undefined`/`null`. */
  datatype Option<T> = None | Some(value: T)

  /** A three.js `Vector3`, or any `{x, y, z}` object literal. */
  datatype Vec3 = Vec3(x: real, y: real, z: real)

  /** `Math.max(lo, Math.min(hi, v))`, the clamp the source writes out inline. */
  function Clamp(v: real, lo: real, hi: real): (r: real)
    requires lo <= hi
    ensures lo <= r <= hi
    ensures lo <= v <= hi ==> r == v
    ensures v < lo ==> r == lo
    ensures hi < v ==> r == hi
  {
    if v < lo then lo else if hi < v then hi else v
  }
}
