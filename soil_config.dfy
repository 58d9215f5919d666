// Calibration and band-breakpoint constants of the soil-moisture driver
// (include/HMS_SoilSensor_Config.h), with the facts about them that the
// measurement pipeline relies on.
module SoilSensorConfig {

  /** Largest raw ADC value the classifier accepts (a 12-bit converter). */
  const MaxValue: int := 4095
  /** Raw ADC value measured in fully dry soil: 0 % moisture. */
  const DryValue: int := 4000
  /** Raw ADC value measured in fully wet soil: 100 % moisture. */
  const WetValue: int := 1800

  /** Inclusive upper bounds of the wetness bands, in raw ADC units. */
  const VeryWetMax: real := 1000.0
  const WetMax: real := 2000.0
  const MediumMax: real := 3000.0
  const DryMax: real := 4095.0

  /** Scale factor from the interpolation fraction to a percentage. */
  const Percentage: real := 100.0

  /** The four band breakpoints are strictly ascending. */
  lemma BreakpointsAscending()
    ensures 0.0 < VeryWetMax < WetMax < MediumMax < DryMax
  {
  }

  /** The topmost breakpoint is the largest valid ADC value, so no valid
      reading lies above it: the "very dry" band is empty. */
  lemma DryMaxIsMaxValue()
    ensures DryMax == MaxValue as real
  {
  }

  /** The dry point lies above the wet point, so the interpolation
      denominator is positive. */
  lemma CalibrationOrdered()
    ensures DryValue > WetValue
    ensures DryValue - WetValue == 2200
  {
  }

  /** Both calibration points are valid ADC readings. */
  lemma CalibrationPointsInRange()
    ensures 0 <= WetValue <= MaxValue
    ensures 0 <= DryValue <= MaxValue
  {
  }
}
