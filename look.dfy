/** The pitch part of mouse look, identical in both controllers: the vertical
    look rotation accumulates the mouse's vertical delta times the sensitivity
    and is clamped to [-90, 90] degrees. Body yaw is a transform rotation and
    is not modelled. */
module Look {

  const MinPitch: real := -90.0
  const MaxPitch: real := 90.0

  function Distance(x: real, y: real): real
  {
    if x <= y then y - x else x - y
  }

  /** Mathf.Clamp: the point of [lo, hi] nearest to v. */
  function Clamp(v: real, lo: real, hi: real): (r: real)
    requires lo <= hi
    ensures lo <= r <= hi
    ensures lo <= v <= hi ==> r == v
    ensures forall x :: lo <= x <= hi ==> Distance(r, v) <= Distance(x, v)
  {
    if v < lo then lo else if v > hi then hi else v
  }

  /** The vertical look rotation after one frame's mouse delta. */
  function Pitch(rotation: real, mouseY: real, sensitivity: real): (r: real)
    ensures MinPitch <= r <= MaxPitch
    ensures MinPitch <= rotation + mouseY * sensitivity <= MaxPitch ==> r == rotation + mouseY * sensitivity
    ensures rotation + mouseY * sensitivity >= MaxPitch ==> r == MaxPitch
    ensures rotation + mouseY * sensitivity <= MinPitch ==> r == MinPitch
  {
    Clamp(rotation + mouseY * sensitivity, MinPitch, MaxPitch)
  }
}
