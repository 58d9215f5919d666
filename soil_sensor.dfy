// The measurement pipeline of the soil-moisture driver
// (src/HMS_SoilSensor_DRIVER.cpp): averaged ADC acquisition, conversion to
// a voltage, classification of the raw reading into a wetness band and
// linear interpolation of a moisture percentage.
//
// Floating-point values of the driver are modelled as reals. The hardware
// converter is modelled as a sequence of raw samples: `samples[i]` is the
// value the i-th conversion of a read cycle delivers.
module SoilSensorDriver {
  import opened SoilSensorConfig

  /** Wetness band of a raw ADC reading. */
  datatype AdcRange = Invalid | Wet | Medium | Dry | VeryDry

  /** Status reported by `init` (HMS_SOIL_SENSOR_OK / HMS_SOIL_SENSOR_ERROR). */
  datatype Status = Ok | Error

  /** Tag of the one known sensor variant (HMS_SOIL_SENSOR_TYPE_YL69). The
      tag is an integer, as the C enum is, so other values can be passed. */
  const SensorTypeYL69: int := 0

  /** Converter width and reference voltage the STM32 build initialises its
      fields with. */
  const Stm32AdcBits: nat := 12
  const DefaultVoltageResolution: real := 3.3

  // ---------------------------------------------------------------------
  // Band classification
  // ---------------------------------------------------------------------

  /** Classifies a raw ADC reading. Readings in [0, 1000] fail the Wet test
      and land in Medium; VeryDry is never produced, since the Dry bound
      equals the largest valid reading. */
  function CalculateAdcRange(adcValue: real): (r: AdcRange)
    ensures r == Invalid <==> adcValue < 0.0 || adcValue > MaxValue as real
    ensures r != VeryDry
  {
    if adcValue < 0.0 || adcValue > MaxValue as real then Invalid
    else if adcValue <= WetMax && adcValue > VeryWetMax then Wet
    else if adcValue <= MediumMax then Medium
    else if adcValue <= DryMax then Dry
    else VeryDry
  }

  /** One interval of the band table: (lo, hi] or [lo, hi], and its band. */
  datatype BandSlot = BandSlot(lo: real, loClosed: bool, hi: real, band: AdcRange)

  predicate Above(x: real, lo: real, closed: bool) {
    if closed then lo <= x else lo < x
  }

  predicate InSlot(s: BandSlot, x: real) {
    Above(x, s.lo, s.loClosed) && x <= s.hi
  }

  /** Reference description of the classifier: the valid readings as a
      table of consecutive intervals, lowest first. */
  const BandTable: seq<BandSlot> := [
    BandSlot(0.0, true, VeryWetMax, Medium),
    BandSlot(VeryWetMax, false, WetMax, Wet),
    BandSlot(WetMax, false, MediumMax, Medium),
    BandSlot(MediumMax, false, DryMax, Dry)
  ]

  /** The band of the first slot holding `x`, Invalid when none does. */
  function Lookup(table: seq<BandSlot>, x: real): AdcRange
  {
    if table == [] then Invalid
    else if InSlot(table[0], x) then table[0].band
    else Lookup(table[1..], x)
  }

  /** `table` covers the interval from `lo` (closed or open) to `hi`
      (closed) with consecutive, non-empty slots. */
  ghost predicate Tiles(table: seq<BandSlot>, lo: real, closed: bool, hi: real)
    decreases |table|
  {
    |table| > 0 && table[0].lo == lo && table[0].loClosed == closed && lo < table[0].hi &&
    if |table| == 1 then table[0].hi == hi
    else Tiles(table[1..], table[0].hi, false, hi)
  }

  lemma {:induction false} TilesSpan(table: seq<BandSlot>, lo: real, closed: bool, hi: real)
    requires Tiles(table, lo, closed, hi)
    ensures lo < hi
    ensures table[0].hi <= hi
    decreases |table|
  {
    if |table| > 1 {
      TilesSpan(table[1..], table[0].hi, false, hi);
    }
  }

  /** Every reading a slot of a tiling holds lies in the tiled interval. */
  lemma {:induction false} TilesBound(table: seq<BandSlot>, lo: real, closed: bool, hi: real, j: nat, x: real)
    requires Tiles(table, lo, closed, hi)
    requires j < |table| && InSlot(table[j], x)
    ensures Above(x, lo, closed) && x <= hi
    decreases |table|
  {
    TilesSpan(table, lo, closed, hi);
    if j > 0 {
      TilesBound(table[1..], table[0].hi, false, hi, j - 1, x);
    }
  }

  /** No gap: every reading of the tiled interval is in some slot. */
  lemma {:induction false} TilesCover(table: seq<BandSlot>, lo: real, closed: bool, hi: real, x: real)
    requires Tiles(table, lo, closed, hi)
    requires Above(x, lo, closed) && x <= hi
    ensures exists i :: 0 <= i < |table| && InSlot(table[i], x)
    decreases |table|
  {
    if !InSlot(table[0], x) {
      assert |table| > 1;
      TilesCover(table[1..], table[0].hi, false, hi, x);
      var i :| 0 <= i < |table[1..]| && InSlot(table[1..][i], x);
      assert InSlot(table[i + 1], x);
    }
  }

  /** No overlap: a reading is in at most one slot of a tiling. */
  lemma {:induction false} TilesDisjoint(table: seq<BandSlot>, lo: real, closed: bool, hi: real, i: nat, j: nat, x: real)
    requires Tiles(table, lo, closed, hi)
    requires i < j < |table| && InSlot(table[i], x)
    ensures !InSlot(table[j], x)
    decreases |table|
  {
    if i == 0 {
      if InSlot(table[j], x) {
        TilesBound(table[1..], table[0].hi, false, hi, j - 1, x);
      }
    } else {
      TilesDisjoint(table[1..], table[0].hi, false, hi, i - 1, j - 1, x);
    }
  }

  /** The band table tiles the valid readings [0, MaxValue]. */
  lemma BandTableTiles()
    ensures Tiles(BandTable, 0.0, true, MaxValue as real)
  {
    var t := BandTable;
    assert t[1..][1..][1..] == [t[3]];
    assert Tiles(t[1..][1..][1..], MediumMax, false, MaxValue as real);
    assert t[1..][1..] == [t[2], t[3]];
    assert Tiles(t[1..][1..], WetMax, false, MaxValue as real);
    assert t[1..] == [t[1], t[2], t[3]];
    assert Tiles(t[1..], VeryWetMax, false, MaxValue as real);
  }

  /** The bands partition [0, 4095]: each valid reading lies in exactly
      one slot of the table, and an invalid one in none. */
  lemma BandsPartition(x: real)
    ensures 0.0 <= x <= MaxValue as real ==>
      exists i :: 0 <= i < |BandTable| && InSlot(BandTable[i], x) &&
        forall j :: 0 <= j < |BandTable| && j != i ==> !InSlot(BandTable[j], x)
    ensures !(0.0 <= x <= MaxValue as real) ==>
      forall i :: 0 <= i < |BandTable| ==> !InSlot(BandTable[i], x)
  {
    BandTableTiles();
    if 0.0 <= x <= MaxValue as real {
      TilesCover(BandTable, 0.0, true, MaxValue as real, x);
      var i :| 0 <= i < |BandTable| && InSlot(BandTable[i], x);
      forall j | 0 <= j < |BandTable| && j != i
        ensures !InSlot(BandTable[j], x)
      {
        if i < j {
          TilesDisjoint(BandTable, 0.0, true, MaxValue as real, i, j, x);
        } else if InSlot(BandTable[j], x) {
          TilesDisjoint(BandTable, 0.0, true, MaxValue as real, j, i, x);
        }
      }
    } else {
      forall i | 0 <= i < |BandTable|
        ensures !InSlot(BandTable[i], x)
      {
        if InSlot(BandTable[i], x) {
          TilesBound(BandTable, 0.0, true, MaxValue as real, i, x);
        }
      }
    }
  }

  /** The branch chain of the classifier agrees with the band table on
      every input. */
  lemma ClassifyMatchesBandTable(x: real)
    ensures CalculateAdcRange(x) == Lookup(BandTable, x)
  {
    var t := BandTable;
    assert t[1..][1..][1..][1..] == [];
    assert Lookup(t[1..][1..][1..], x) == if InSlot(t[3], x) then Dry else Invalid;
    assert Lookup(t[1..][1..], x) == if InSlot(t[2], x) then Medium else Lookup(t[1..][1..][1..], x);
    assert Lookup(t[1..], x) == if InSlot(t[1], x) then Wet else Lookup(t[1..][1..], x);
  }

  /** The band of a valid reading is the band of the one slot holding it. */
  lemma ClassifyBySlot(x: real, i: nat)
    requires i < |BandTable| && InSlot(BandTable[i], x)
    ensures CalculateAdcRange(x) == BandTable[i].band
  {
  }

  /** Band by band: (1000, 2000] is Wet, [0, 1000] and (2000, 3000] are
      Medium, (3000, 4095] is Dry. */
  lemma BandIntervals(x: real)
    ensures CalculateAdcRange(x) == Wet <==> VeryWetMax < x <= WetMax
    ensures CalculateAdcRange(x) == Medium <==> 0.0 <= x <= VeryWetMax || WetMax < x <= MediumMax
    ensures CalculateAdcRange(x) == Dry <==> MediumMax < x <= MaxValue as real
  {
  }

  /** The wet calibration point reads as Wet, the dry one as Dry. */
  lemma CalibrationPointBands()
    ensures CalculateAdcRange(WetValue as real) == Wet
    ensures CalculateAdcRange(DryValue as real) == Dry
  {
  }

  // ---------------------------------------------------------------------
  // Moisture percentage
  // ---------------------------------------------------------------------

  /** std::clamp on reals. */
  function Clamp(v: real, lo: real, hi: real): (r: real)
    requires lo <= hi
    ensures lo <= r <= hi
    ensures lo <= v <= hi ==> r == v
    ensures v < lo ==> r == lo
    ensures hi < v ==> r == hi
  {
    if v < lo then lo else if hi < v then hi else v
  }

  /** Unclamped linear interpolation between the compile-time dry point
      (0 %) and wet point (100 %). */
  function Interpolate(adcValue: real): real
  {
    (DryValue as real - adcValue) / (DryValue - WetValue) as real * Percentage
  }

  /** Moisture percentage of a raw reading with a valid band. */
  function MoisturePercent(adcValue: real): (r: real)
    ensures 0.0 <= r <= 100.0
  {
    Clamp(Interpolate(adcValue), 0.0, 100.0)
  }

  /** The interpolation maps the wet point to the scale factor and the dry
      point to zero, so the clamp bounds [0, 100] are exactly its range. */
  lemma InterpolationSpansClamp()
    ensures Interpolate(WetValue as real) == Percentage == 100.0
    ensures Interpolate(DryValue as real) == 0.0
  {
  }

  /** Wetter soil gives a lower reading: moisture never rises as the
      reading rises. */
  lemma MoistureMonotone(x1: real, x2: real)
    requires x1 <= x2
    ensures MoisturePercent(x2) <= MoisturePercent(x1)
  {
  }

  /** Saturation at both calibration points, linear in between. */
  lemma MoistureShape(x: real)
    ensures x >= DryValue as real ==> MoisturePercent(x) == 0.0
    ensures x <= WetValue as real ==> MoisturePercent(x) == 100.0
    ensures WetValue as real <= x <= DryValue as real ==>
      MoisturePercent(x) == (4000.0 - x) / 2200.0 * 100.0
  {
  }

  /** A reading of 2900 is halfway: 50 % and band Medium. */
  lemma MidpointScenario()
    ensures MoisturePercent(2900.0) == 50.0
    ensures CalculateAdcRange(2900.0) == Medium
  {
  }

  // ---------------------------------------------------------------------
  // Voltage conversion and averaging
  // ---------------------------------------------------------------------

  function Pow2(n: nat): (r: nat)
    ensures r >= 1
    ensures n >= 1 ==> r >= 2
  {
    if n == 0 then 1 else 2 * Pow2(n - 1)
  }

  /** Largest raw value of a converter of `bits` bits: 2^bits - 1. */
  function FullScale(bits: nat): real
  {
    (Pow2(bits) - 1) as real
  }

  /** Raw ADC units to volts: raw * vref / (2^bits - 1). */
  function ToVoltage(raw: real, vref: real, bits: nat): (v: real)
    requires bits >= 1
    ensures 0.0 <= raw <= FullScale(bits) && 0.0 <= vref ==> 0.0 <= v <= vref
    ensures raw == 0.0 ==> v == 0.0
    ensures raw == FullScale(bits) ==> v == vref
  {
    var full := FullScale(bits);
    ScaleBounds(raw, vref, full);
    raw * vref / full
  }

  lemma ScaleBounds(raw: real, vref: real, full: real)
    requires full > 0.0
    ensures 0.0 <= raw <= full && 0.0 <= vref ==> 0.0 <= raw * vref / full <= vref
    ensures raw == full ==> raw * vref / full == vref
  {
    var q := raw * vref / full;
    assert q * full == raw * vref;
    if 0.0 <= raw <= full && 0.0 <= vref {
      assert raw * vref <= full * vref;
    }
  }

  /** Sum of samples in acquisition order. */
  function Sum(s: seq<int>): int
  {
    if s == [] then 0 else Sum(s[..|s| - 1]) + s[|s| - 1]
  }

  /** Arithmetic mean of a non-empty run of samples. */
  function Mean(s: seq<int>): real
    requires |s| > 0
  {
    Sum(s) as real / |s| as real
  }

  lemma {:induction false} SumBounds(s: seq<int>, lo: int, hi: int)
    requires forall i :: 0 <= i < |s| ==> lo <= s[i] <= hi
    ensures lo * |s| <= Sum(s) <= hi * |s|
  {
    if s != [] {
      SumBounds(s[..|s| - 1], lo, hi);
    }
  }

  /** The mean lies between the smallest and largest possible sample. */
  lemma MeanBounds(s: seq<int>, lo: int, hi: int)
    requires |s| > 0
    requires forall i :: 0 <= i < |s| ==> lo <= s[i] <= hi
    ensures lo as real <= Mean(s) <= hi as real
  {
    SumBounds(s, lo, hi);
    var n := |s| as real;
    assert lo as real * n <= Sum(s) as real <= hi as real * n;
  }

  lemma {:induction false} SumConstant(c: int, n: nat)
    ensures Sum(seq(n, _ => c)) == n * c
  {
    if n > 0 {
      assert seq(n, _ => c)[..n - 1] == seq(n - 1, _ => c);
      SumConstant(c, n - 1);
    }
  }

  /** With every sample in [0, 2^bits - 1], the averaged voltage is in
      [0, vref]. */
  lemma ReadVoltageInRange(samples: seq<int>, vref: real, bits: nat)
    requires |samples| > 0 && bits >= 1 && vref >= 0.0
    requires forall i :: 0 <= i < |samples| ==> 0 <= samples[i] <= Pow2(bits) - 1
    ensures 0.0 <= ToVoltage(Mean(samples), vref, bits) <= vref
  {
    MeanBounds(samples, 0, Pow2(bits) - 1);
  }

  /** Averaging a constant signal gives the same voltage as injecting that
      constant: the live and injected modes share one conversion. */
  lemma ConstantReadMatchesInjected(value: int, n: nat, vref: real, bits: nat)
    requires n > 0 && bits >= 1
    ensures Mean(seq(n, _ => value)) == value as real
    ensures ToVoltage(Mean(seq(n, _ => value)), vref, bits) == ToVoltage(value as real, vref, bits)
  {
    SumConstant(value, n);
    assert (n * value) as real == n as real * value as real;
  }

  // ---------------------------------------------------------------------
  // The driver object
  // ---------------------------------------------------------------------

  class SoilSensor {
    var sensorType: int
    var adcBitResolution: nat
    var voltageResolution: real
    var retries: int
    var retryInterval: nat
    /** Last converted voltage. */
    var sensorVolt: real
    /** Last raw sample written by the acquisition loop. */
    var adc: int
    /** Last classified band. */
    var adcRange: AdcRange
    /** Last computed moisture percentage. */
    var moisturePercentage: real
    /** Per-instance calibration thresholds (not read by the computation). */
    var dry: int
    var wet: int

    /** The STM32 constructor: stores the sensor type, starts from the
        STM32 field initialisers (12 bits, 3.3 V) and installs the default
        calibration thresholds. The retry count and interval are parameters. */
    constructor (sensorType: int, retries: int, retryInterval: nat)
      ensures this.sensorType == sensorType
      ensures adcBitResolution == Stm32AdcBits && voltageResolution == DefaultVoltageResolution
      ensures this.retries == retries && this.retryInterval == retryInterval
      ensures sensorVolt == 0.0 && adc == 0 && adcRange == Invalid && moisturePercentage == 0.0
      ensures sensorType == SensorTypeYL69 ==> dry == DryValue && wet == WetValue
      ensures sensorType != SensorTypeYL69 ==> dry == 0 && wet == 0
    {
      this.sensorType := sensorType;
      adcBitResolution := Stm32AdcBits;
      voltageResolution := DefaultVoltageResolution;
      this.retries := retries;
      this.retryInterval := retryInterval;
      sensorVolt, adc, adcRange, moisturePercentage := 0.0, 0, Invalid, 0.0;
      dry, wet := 0, 0;
      new;
      SetDefaultValues();
    }

    /** Installs the compile-time calibration points for the YL69 variant
        and leaves the thresholds alone for any other tag. */
    method SetDefaultValues()
      modifies this`dry, this`wet
      ensures sensorType == SensorTypeYL69 ==> dry == DryValue && wet == WetValue
      ensures sensorType != SensorTypeYL69 ==> dry == old(dry) && wet == old(wet)
    {
      if sensorType == SensorTypeYL69 {
        dry := DryValue;
        wet := WetValue;
      } else {
        return;
      }
      // setDryThreshold(dry) / setWetThreshold(wet) store the value the
      // fields already hold.
    }

    /** Accessor for the last raw sample. */
    function GetAdc(): int
      reads this
    {
      adc
    }

    /** Three modes, in priority order: live read (average `retries`
        samples), injected raw value, or the cached voltage. */
    method GetVoltage(read: bool, injected: bool, value: int, samples: seq<int>) returns (voltage: real)
      requires read ==> 0 < retries <= |samples|
      requires read || injected ==> adcBitResolution >= 1
      modifies this`adc, this`sensorVolt
      ensures read ==> voltage == ToVoltage(Mean(samples[..retries]), voltageResolution, adcBitResolution)
      ensures read ==> adc == samples[retries - 1]
      ensures !read && injected ==> voltage == ToVoltage(value as real, voltageResolution, adcBitResolution)
      ensures !read && !injected ==> voltage == old(sensorVolt)
      ensures !read ==> adc == old(adc)
      ensures sensorVolt == voltage
    {
      if read {
        var avg: real := 0.0;
        var i := 0;
        while i < retries
          invariant 0 <= i <= retries
          invariant avg == Sum(samples[..i]) as real
          invariant i > 0 ==> adc == samples[i - 1]
        {
          adc := samples[i];
          avg := avg + adc as real;
          assert samples[..i + 1][..i] == samples[..i];
          i := i + 1;
        }
        voltage := ToVoltage(avg / retries as real, voltageResolution, adcBitResolution);
        sensorVolt := voltage;
      } else if injected {
        voltage := ToVoltage(value as real, voltageResolution, adcBitResolution);
        sensorVolt := voltage;
      } else {
        voltage := sensorVolt;
      }
    }

    /** Classifies `adcValue`; on a valid band stores and returns the clamped
        moisture, otherwise returns -1 and keeps the previous percentage.
        `volt` only feeds the debug log. */
    method CalculateMoisture(volt: real, adcValue: real) returns (moisture: real)
      modifies this`adcRange, this`moisturePercentage
      ensures adcRange == CalculateAdcRange(adcValue)
      ensures adcRange == Invalid ==> moisture == -1.0 && moisturePercentage == old(moisturePercentage)
      ensures adcRange != Invalid ==> moisture == moisturePercentage == MoisturePercent(adcValue)
    {
      adcRange := CalculateAdcRange(adcValue);
      if adcRange == Invalid {
        return -1.0;
      }
      moisturePercentage := Interpolate(adcValue);
      moisturePercentage := Clamp(moisturePercentage, 0.0, 100.0);
      moisture := moisturePercentage;
    }

    /** One refresh cycle: live read, then classification and moisture of
        the last raw sample. */
    method ReadSensor(samples: seq<int>)
      requires 0 < retries <= |samples|
      requires adcBitResolution >= 1
      modifies this`adc, this`sensorVolt, this`adcRange, this`moisturePercentage
      ensures sensorVolt == ToVoltage(Mean(samples[..retries]), voltageResolution, adcBitResolution)
      ensures adc == samples[retries - 1]
      ensures adcRange == CalculateAdcRange(adc as real)
      ensures adcRange == Invalid ==> moisturePercentage == old(moisturePercentage)
      ensures adcRange != Invalid ==> moisturePercentage == MoisturePercent(adc as real)
    {
      sensorVolt := GetVoltage(true, false, 0, samples);
      adc := GetAdc();
      var _ := CalculateMoisture(sensorVolt, adc as real);
    }

    /** Runs one refresh cycle and reports OK whatever it produced. */
    method Init(samples: seq<int>) returns (status: Status)
      requires 0 < retries <= |samples|
      requires adcBitResolution >= 1
      modifies this`adc, this`sensorVolt, this`adcRange, this`moisturePercentage
      ensures status == Ok
      ensures sensorVolt == ToVoltage(Mean(samples[..retries]), voltageResolution, adcBitResolution)
      ensures adc == samples[retries - 1]
      ensures adcRange == CalculateAdcRange(adc as real)
      ensures adcRange == Invalid ==> moisturePercentage == old(moisturePercentage)
      ensures adcRange != Invalid ==> moisturePercentage == MoisturePercent(adc as real)
    {
      ReadSensor(samples);
      return Ok;
    }
  }
}
