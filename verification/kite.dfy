/** The kite system properties `initiate` and `sweep_data` hand to the engine:
    projected area and mass follow two straight-line fits through the kite
    manufacturer's 5 m2 and 19 m2 data points; the rest are fixed constants. */
module Kite {

  /** Slope and intercept of the projected-area fit through (5, 3.7) and (19, 13.9). */
  const AreaSlope: real := (13.9 - 3.7) / (19.0 - 5.0)
  const AreaIntercept: real := 13.9 - AreaSlope * 19.0

  /** Slope and intercept of the mass fit through (5, 2.2) and (19, 4.7). */
  const MassSlope: real := (4.7 - 2.2) / (19.0 - 5.0)
  const MassIntercept: real := 4.7 - MassSlope * 19.0

  /** Mass added for the on-board electronics, in kg. */
  const ElectronicsMass: real := 0.5

  datatype SystemProperties = SystemProperties(
    kiteProjectedArea: real,
    kiteMass: real,
    tetherDensity: real,
    tetherDiameter: real,
    liftCoefficientPowered: real,
    dragCoefficientPowered: real,
    liftCoefficientDepowered: real,
    dragCoefficientDepowered: real,
    tetherDragCoefficient: real,
    reelingSpeedMinLimit: real,
    reelingSpeedMaxLimit: real,
    tetherForceMinLimit: real,
    tetherForceMaxLimit: real)

  /** Projected area from nominal area: the line through (5, 3.7) and (19, 13.9). */
  function ProjectedArea(kiteArea: real): (r: real)
    ensures r - 3.7 == (kiteArea - 5.0) * (10.2 / 14.0)
    ensures kiteArea == 5.0 ==> r == 3.7
    ensures kiteArea == 19.0 ==> r == 13.9
  {
    kiteArea * AreaSlope + AreaIntercept
  }

  /** Kite mass from nominal area: the line through (5, 2.2) and (19, 4.7),
      plus the electronics. */
  function KiteMass(kiteArea: real): (r: real)
    ensures r - ElectronicsMass - 2.2 == (kiteArea - 5.0) * (2.5 / 14.0)
    ensures kiteArea == 5.0 ==> r == 2.7
    ensures kiteArea == 19.0 ==> r == 5.2
  {
    kiteArea * MassSlope + MassIntercept + ElectronicsMass
  }

  /** The fits are increasing: a larger kite is heavier and catches more wind. */
  lemma FitsIncreasing(a: real, b: real)
    requires a < b
    ensures ProjectedArea(a) < ProjectedArea(b)
    ensures KiteMass(a) < KiteMass(b)
  {
  }

  /** The system properties built from a kite area. */
  function Initiate(kiteArea: real): (sp: SystemProperties)
    ensures sp.kiteProjectedArea == ProjectedArea(kiteArea)
    ensures sp.kiteMass == KiteMass(kiteArea)
    ensures sp.reelingSpeedMinLimit < sp.reelingSpeedMaxLimit
    ensures sp.tetherForceMinLimit < sp.tetherForceMaxLimit
  {
    SystemProperties(
      ProjectedArea(kiteArea),
      KiteMass(kiteArea),
      724.0,
      0.002,
      0.69,
      0.69 / 3.6,
      0.17,
      0.17 / 3.5,
      2.0 * 1.1,
      0.0,
      10.0,
      500.0,
      50000.0)
  }
}
