/** The unit conversion between the tether side (force, reeling speed) and
    the generator side (torque, angular speed) through the drum and gearbox. */
module Units {
  import opened Numeric

  /** Drum radius in metres, fixed in every entry point of the program. */
  const DrumRadius: real := 0.2

  /** `force * drum_radius / gearbox_ratio`. */
  function Torque(force: real, gearboxRatio: real): (t: real)
    requires gearboxRatio != 0.0
    ensures t * gearboxRatio == force * DrumRadius
  {
    force * DrumRadius / gearboxRatio
  }

  /** `(speed / drum_radius) * gearbox_ratio`, in rad/s. */
  function Omega(reelingSpeed: real, gearboxRatio: real): (w: real)
    ensures w * DrumRadius == reelingSpeed * gearboxRatio
  {
    (reelingSpeed / DrumRadius) * gearboxRatio
  }

  /** `omega * 60 / (2 * np.pi)`. */
  function Rpm(omega: real): (r: real)
    ensures r * 2.0 * Pi == omega * 60.0
  {
    omega * 60.0 / (2.0 * Pi)
  }

  /** The conversion conserves mechanical power: torque times angular speed
      equals tether force times reeling speed, whatever the gearbox ratio. */
  lemma PowerConserved(force: real, speed: real, gearboxRatio: real)
    requires gearboxRatio != 0.0
    ensures Torque(force, gearboxRatio) * Omega(speed, gearboxRatio) == force * speed
  {
    var t := Torque(force, gearboxRatio);
    var w := Omega(speed, gearboxRatio);
    assert t == force * DrumRadius / gearboxRatio;
    assert w == speed * gearboxRatio / DrumRadius;
    calc {
      t * w;
      (force * DrumRadius / gearboxRatio) * (speed * gearboxRatio / DrumRadius);
      { assert (DrumRadius / gearboxRatio) * (gearboxRatio / DrumRadius) == 1.0; }
      force * speed;
    }
  }

  /** The inverse relations recover the tether-side quantities. */
  lemma ConversionRoundTrip(force: real, speed: real, gearboxRatio: real)
    requires gearboxRatio != 0.0
    ensures Torque(force, gearboxRatio) * gearboxRatio / DrumRadius == force
    ensures Omega(speed, gearboxRatio) * DrumRadius / gearboxRatio == speed
  {
  }
}
