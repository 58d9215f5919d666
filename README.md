# Soil-moisture sensor driver: measurement pipeline

A Dafny model of the measurement pipeline of the `HMS_SoilSensor` driver for
resistive (YL-69 style) soil-moisture sensors. The driver does four things:

- It averages `retries` raw ADC samples.
- It converts the mean to a voltage with `mean * vref / (2^bits - 1)`.
- It classifies a raw reading into a wetness band (Invalid, Wet, Medium, Dry
  or VeryDry).
- It interpolates a moisture percentage linearly between the compile-time
  dry point (4000, 0 %) and wet point (1800, 100 %), clamped to [0, 100].

Files:

- `soil_config.dfy` (module `SoilSensorConfig`) holds the constants of
  `include/HMS_SoilSensor_Config.h` and lemmas about how they relate.
- `soil_sensor.dfy` (module `SoilSensorDriver`) holds the rest:
  - the band classifier `CalculateAdcRange`, a pure function;
  - a reference table of band intervals (`BandTable`, `Lookup`), with lemmas
    that the table tiles [0, 4095] and agrees with the classifier;
  - the moisture and voltage functions, with their lemmas;
  - the class `SoilSensor`, whose methods update the driver's fields in place,
    as the C++ member functions do.

Modelling choices:

- `float` is modelled as `real`. No IEEE rounding, infinity or NaN is modelled.
- The hardware converter is a parameter `samples: seq<int>`. The i-th
  conversion of a read cycle yields `samples[i]`.
- The source classifies readings in [0, 1000] as Medium, because they fail the
  Wet test and then pass the Medium test. There is no VeryWet band. The model
  keeps this behaviour.
- VeryDry is kept as a band. It is never returned, because the Dry bound
  (4095) equals the largest valid reading.
- The moisture formula uses the compile-time calibration points. It does not
  use the per-instance `dry`/`wet` fields, so `CalculateMoisture`'s contract
  mentions neither field.
- The configuration defines `HMS_SOIL_ADC_VERY_WET_MAX` (1000), but the
  classifier uses it only as the Wet band's lower bound and never returns a
  very-wet band.
- `getADC()` is not part of this model. It is assumed to return the `adc`
  field (`SoilSensor.GetAdc`). So `ReadSensor` classifies the last sample the
  loop read, not the mean.
- `setDryThreshold`/`setWetThreshold` are not part of this model. They are
  assumed to store their argument in `dry`/`wet`. `setDefaultValues` calls
  them with the values those fields already hold, so the calls change nothing.

## Model

| member | source | states |
|---|---|---|
| `SoilSensorConfig.BreakpointsAscending` | include/HMS_SoilSensor_Config.h:60-63 | the band breakpoints are strictly ascending: 0 < 1000 < 2000 < 3000 < 4095 |
| `SoilSensorConfig.DryMaxIsMaxValue` | include/HMS_SoilSensor_Config.h:50-63 | the Dry band's upper bound equals the largest valid ADC value, 4095 |
| `SoilSensorConfig.CalibrationOrdered` | include/HMS_SoilSensor_Config.h:51-52 | the dry point is above the wet point; the interpolation denominator is 2200 > 0 |
| `SoilSensorConfig.CalibrationPointsInRange` | include/HMS_SoilSensor_Config.h:50-52 | both calibration points are valid ADC values in [0, 4095] |
| `SoilSensorDriver.CalculateAdcRange` | src/HMS_SoilSensor_DRIVER.cpp:150-169 | the band is Invalid exactly when the reading is below 0 or above 4095, and it is never VeryDry |
| `SoilSensorDriver.ClassifyMatchesBandTable` | src/HMS_SoilSensor_DRIVER.cpp:150-169 | for every reading, the classifier's branch chain gives the same band as the first slot of the reference table ([0,1000] Medium, (1000,2000] Wet, (2000,3000] Medium, (3000,4095] Dry) that holds the reading; Invalid when no slot holds it |
| `SoilSensorDriver.BandsPartition` | src/HMS_SoilSensor_DRIVER.cpp:151-168 | each reading in [0, 4095] lies in exactly one band interval (no gap, no overlap); a reading outside it lies in none |
| `SoilSensorDriver.ClassifyBySlot` | src/HMS_SoilSensor_DRIVER.cpp:157-168 | the band of a reading is the band of the one interval that holds it |
| `SoilSensorDriver.BandIntervals` | src/HMS_SoilSensor_DRIVER.cpp:157-165 | Wet iff 1000 < x <= 2000; Medium iff 0 <= x <= 1000 or 2000 < x <= 3000; Dry iff 3000 < x <= 4095 |
| `SoilSensorDriver.CalibrationPointBands` | include/HMS_SoilSensor_Config.h:50-63 | the wet point (1800) is classified Wet and the dry point (4000) Dry |
| `SoilSensorDriver.Clamp` | src/HMS_SoilSensor_DRIVER.cpp:133 | std::clamp: below lo gives lo, above hi gives hi, and a value already in [lo, hi] is returned unchanged |
| `SoilSensorDriver.MoisturePercent` | src/HMS_SoilSensor_DRIVER.cpp:132-133 | the moisture percentage always lies in [0, 100] |
| `SoilSensorDriver.InterpolationSpansClamp` | include/HMS_SoilSensor_Config.h:51-67 | the unclamped interpolation maps the wet point to 100 (the scale factor) and the dry point to 0, so the clamp bounds are exactly its range |
| `SoilSensorDriver.MoistureMonotone` | src/HMS_SoilSensor_DRIVER.cpp:132-133 | moisture is non-increasing in the ADC reading |
| `SoilSensorDriver.MoistureShape` | src/HMS_SoilSensor_DRIVER.cpp:132-133 | moisture is 0 for readings >= 4000, 100 for readings <= 1800, and (4000 - x) / 2200 * 100 in between |
| `SoilSensorDriver.MidpointScenario` | src/HMS_SoilSensor_DRIVER.cpp:128-133 | a reading of 2900 gives 50 % moisture and band Medium |
| `SoilSensorDriver.Pow2` | src/HMS_SoilSensor_DRIVER.cpp:89 | 2^bits is at least 2 for a converter of one bit or more, so the denominator 2^bits - 1 is positive |
| `SoilSensorDriver.ToVoltage` | src/HMS_SoilSensor_DRIVER.cpp:89-94 | a raw value in [0, 2^bits - 1] converts to a voltage in [0, vref]; 0 maps to 0 V and full scale to vref |
| `SoilSensorDriver.SumBounds` | src/HMS_SoilSensor_DRIVER.cpp:43-83 | the accumulated sum of n samples in [lo, hi] lies in [n*lo, n*hi] |
| `SoilSensorDriver.MeanBounds` | src/HMS_SoilSensor_DRIVER.cpp:43-89 | the mean of samples in [lo, hi] lies in [lo, hi] |
| `SoilSensorDriver.ReadVoltageInRange` | src/HMS_SoilSensor_DRIVER.cpp:43-89 | when every sample lies in [0, 2^bits - 1], the averaged voltage lies in [0, vref] |
| `SoilSensorDriver.ConstantReadMatchesInjected` | src/HMS_SoilSensor_DRIVER.cpp:89-94 | averaging n equal samples gives that sample, so the live read of a constant signal gives the same voltage as injecting it |
| `SoilSensorDriver.SoilSensor.constructor` | src/HMS_SoilSensor_DRIVER.cpp:15-23 | stores the sensor type; the resolution starts at 12 bits and the reference at 3.3 V (the STM32 field initialisers of include/HMS_SoilSensor_DRIVER.h); dry/wet become 4000/1800 for the YL69 tag, through SetDefaultValues |
| `SoilSensorDriver.SoilSensor.SetDefaultValues` | src/HMS_SoilSensor_DRIVER.cpp:117-124 | for the YL69 tag, dry becomes 4000 and wet 1800; for any other tag both keep their values; no other field changes |
| `SoilSensorDriver.SoilSensor.GetVoltage` | src/HMS_SoilSensor_DRIVER.cpp:39-105 | read has priority. Read mode: returns and stores ToVoltage(mean of the first `retries` samples), and `adc` ends on the last sample. Injected mode: returns and stores ToVoltage(value), `adc` unchanged. Cached mode: returns the stored voltage and changes nothing |
| `SoilSensorDriver.SoilSensor.CalculateMoisture` | src/HMS_SoilSensor_DRIVER.cpp:126-149 | stores the band of the reading. If the band is Invalid, returns -1 and keeps the old percentage. Otherwise returns and stores MoisturePercent(reading), using only the compile-time calibration points |
| `SoilSensorDriver.SoilSensor.ReadSensor` | src/HMS_SoilSensor_DRIVER.cpp:32-38 | after one cycle, the voltage is that of the averaged samples, `adc` is the last sample, and the band and moisture are those of that last sample (the percentage is kept on Invalid) |
| `SoilSensorDriver.SoilSensor.Init` | src/HMS_SoilSensor_DRIVER.cpp:27-30 | runs one ReadSensor cycle and always returns Ok, whatever the reading |

## Left out

- Platform ADC calls are left out: `analogRead`, `HAL_ADC_Start`/`PollForConversion`/`GetValue`/`Stop`, and the ESP-IDF/Zephyr placeholder value 2048. They are foreign hardware calls. The abstract `samples` sequence replaces them.
- The STM32 early `return 0.0` on a failed HAL call is left out. It is compiled in only when logging is enabled, and logging is off by default.
- `soilDelay` and the pause between samples are left out: they sleep and change no state.
- Debug logging (ChronoLogger) and the `rangeText` switch are left out. They only feed the log.
- The Arduino, ESP-IDF and Zephyr constructors are left out: they are empty. Only the STM32 constructor is modelled, without its null-handle check, which only logs.
- The `isnan` test of the classifier is left out, because reals have no NaN.
- IEEE rounding of the float arithmetic is left out, and so is the behaviour of `pow` beyond exact powers of two.
- The percent, voltage and clean-air-ratio thresholds of the configuration are left out. No modelled code reads them.
- The calibration routine and the Rs/R0 fields are not part of this model.
- The voltage, raw value, percentage, band and dry/wet fields are not declared in the header, so their initial values are unknown. The constructor starts them at 0 or Invalid.
- SoilSensorDriver.SoilSensor.constructor: `retries` and `retryInterval` are not declared in the header either, so they are constructor parameters. No default value for them is modelled.
- SoilSensorDriver.SoilSensor.GetVoltage: read mode requires `retries > 0`. With `retries == 0` the C++ divides 0.0 by 0 and gets NaN. With a negative count it gets -0.0. Reals cannot express either.
- SoilSensorDriver.SoilSensor.GetVoltage: read and injected modes require `adcBitResolution >= 1`. With 0 bits the C++ divides by 2^0 - 1 = 0. Every platform uses 10 or 12 bits.
- SoilSensorDriver.SoilSensor.ReadSensor: has the same `retries` and resolution requirements as GetVoltage's read mode.
- SoilSensorDriver.SoilSensor.Init: has the same `retries` and resolution requirements as GetVoltage's read mode.
