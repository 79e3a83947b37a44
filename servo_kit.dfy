/** The simulated PWM hat: `ServoKitStub` with one `ServoStub` (an angle) and one
    `ContinuousServoStub` (a throttle) per output slot, held here as two arrays. */
module ServoKit {
  import opened Common

  const InitialAngle: real := 90.0
  const InitialThrottle: real := 0.0

  /** The value the `ServoStub.angle` setter keeps. */
  function ClampAngle(v: real): (r: real)
    ensures 0.0 <= r <= 180.0
    ensures 0.0 <= v <= 180.0 ==> r == v
  {
    Clamp(0.0, 180.0, v)
  }

  /** The value the `ContinuousServoStub.throttle` setter keeps. */
  function ClampThrottle(v: real): (r: real)
    ensures -1.0 <= r <= 1.0
    ensures -1.0 <= v <= 1.0 ==> r == v
  {
    Clamp(-1.0, 1.0, v)
  }

  class ServoKitStub {
    const channels: nat
    /** `servo[i].angle` */
    const angles: array<real>
    /** `continuous_servo[i].throttle` */
    const throttles: array<real>

    ghost predicate Valid()
      reads this
    {
      angles.Length == channels && throttles.Length == channels && angles != throttles
    }

    constructor (channels: nat)
      ensures Valid() && this.channels == channels
      ensures fresh(angles) && fresh(throttles)
      ensures forall i :: 0 <= i < channels ==> angles[i] == InitialAngle && throttles[i] == InitialThrottle
    {
      this.channels := channels;
      angles := new real[channels](_ => InitialAngle);
      throttles := new real[channels](_ => InitialThrottle);
    }

    /** `servo[slot].angle = v`: the stub keeps `max(0, min(180, v))`. */
    method SetAngle(slot: nat, v: real)
      requires Valid() && slot < channels
      modifies angles
      ensures angles[..] == old(angles[..])[slot := ClampAngle(v)]
    {
      angles[slot] := ClampAngle(v);
    }

    /** `continuous_servo[slot].throttle = v`: the stub keeps `max(-1, min(1, v))`. */
    method SetThrottle(slot: nat, v: real)
      requires Valid() && slot < channels
      modifies throttles
      ensures throttles[..] == old(throttles[..])[slot := ClampThrottle(v)]
    {
      throttles[slot] := ClampThrottle(v);
    }
  }
}
