/**
 * Temperature settings: the `String` conversion extension, the integer
 * arithmetic behind the Celsius labels, and the settings screen's handlers
 * that update the app-wide temperature settings and persist them.
 */
module Temperature {
  import opened Wrappers
  import opened SwiftText

  /** U+02DA RING ABOVE, the degree glyph of the `String` conversion extension. */
  const DegreeRing: char := '\U{02DA}'
  /** U+00B0 DEGREE SIGN, the degree glyph of the threshold slider's label. */
  const DegreeSign: char := '\U{00B0}'

  // ---------------------------------------------------------------------------
  // Integer conversions (Swift `Int` arithmetic, `/` truncating toward zero)

  /** `(f - 32) * 5 / 9`. */
  function CelsiusOf(f: int): int {
    Quot((f - 32) * 5, 9)
  }

  /** `c * 9 / 5 + 32`. */
  function FahrenheitOf(c: int): int {
    Quot(c * 9, 5) + 32
  }

  /** Converting an `Int` from Fahrenheit to Celsius never leaves `Int`'s range. */
  lemma CelsiusOfInRange(f: int)
    requires InIntRange(f)
    ensures InIntRange(CelsiusOf(f))
  {
  }

  /** The number in front of a two-character unit suffix such as "˚C". */
  function Number(display: string): string {
    if |display| >= 2 then display[..|display| - 2] else display
  }

  /** `String.farenheitToCelsius()`: "invalid" unless the text is an `Int`. */
  function FahrenheitToCelsius(s: string): (r: string)
    ensures ParseInt(s).None? <==> r == "invalid"
    ensures ParseInt(s).Some? ==>
      && |r| > 2 && r[|r| - 2..] == [DegreeRing, 'C']
      && Number(r) == IntToString(CelsiusOf(ParseInt(s).value))
      && ParseInt(Number(r)) == Some(CelsiusOf(ParseInt(s).value))
  {
    match ParseInt(s)
    case None => "invalid"
    case Some(t) =>
      var c := CelsiusOf(t);
      var r := IntToString(c) + [DegreeRing, 'C'];
      CelsiusOfInRange(t);
      ParseIntToString(c);
      assert Number(r) == IntToString(c);
      assert r[|r| - 1] != "invalid"[6];
      r
  }

  /** `String.celsiusToFarenheit()`: "invalid" unless the text is an `Int`. */
  function CelsiusToFahrenheit(s: string): (r: string)
    ensures ParseInt(s).None? <==> r == "invalid"
    ensures ParseInt(s).Some? ==> |r| > 2 && r[|r| - 2..] == [DegreeRing, 'F']
    ensures ParseInt(s).Some? ==> Number(r) == IntToString(FahrenheitOf(ParseInt(s).value))
    ensures ParseInt(s).Some? && InIntRange(FahrenheitOf(ParseInt(s).value)) ==>
      ParseInt(Number(r)) == Some(FahrenheitOf(ParseInt(s).value))
  {
    match ParseInt(s)
    case None => "invalid"
    case Some(t) =>
      var f := FahrenheitOf(t);
      var r := IntToString(f) + [DegreeRing, 'F'];
      assert InIntRange(f) ==> ParseInt(IntToString(f)) == Some(f) by {
        if InIntRange(f) {
          ParseIntToString(f);
        }
      }
      assert Number(r) == IntToString(f);
      assert r[|r| - 1] != "invalid"[6];
      r
  }

  /** Fahrenheit to Celsius and back loses at most one degree, toward zero. */
  lemma CelsiusRoundTrip(c: int)
    ensures var back := CelsiusOf(FahrenheitOf(c));
      && (c >= 0 ==> c - 1 <= back <= c)
      && (c < 0 ==> c <= back <= c + 1)
  {
    var q := Quot(c * 9, 5);
    assert FahrenheitOf(c) - 32 == q;
    var back := Quot(q * 5, 9);
    if c >= 0 {
      assert 9 * back <= 5 * q <= 9 * c;
      assert 9 * c - 5 < 5 * q < 9 * back + 9;
    } else {
      assert 9 * c <= 5 * q <= 9 * back;
      assert 9 * back - 9 < 5 * q < 9 * c + 5;
    }
  }

  /**
   * The same round trip on the displayed strings: the number that
   * `celsiusToFarenheit` shows, fed to `farenheitToCelsius`, shows the
   * original Celsius value or one degree closer to zero.
   */
  lemma DisplayRoundTrip(c: int)
    requires -1_000_000_000 <= c <= 1_000_000_000
    ensures var there := CelsiusToFahrenheit(IntToString(c));
      var back := FahrenheitToCelsius(Number(there));
      && back != "invalid"
      && ParseInt(Number(back)) == Some(CelsiusOf(FahrenheitOf(c)))
  {
    ParseIntToString(c);
    CelsiusRoundTrip(c);
  }

  /** Swift truncates: 0 degrees Fahrenheit shows as -17 Celsius, not the floored -18. */
  lemma FreezingPointExample()
    ensures FahrenheitToCelsius("0") == "-17" + [DegreeRing, 'C']
  {
    assert ParseInt("0") == Some(0) by {
      assert DigitsValue("0") == 10 * DigitsValue("") + DigitValue('0');
    }
    assert NatToDigits(17) == NatToDigits(1) + ['7'];
  }

  // ---------------------------------------------------------------------------
  // The max-temperature slider

  const SliderMin: int := 60
  const SliderMax: int := 100
  const Step: int := 5

  /** The slider's value pinned into its range, as `UISlider.setValue` does. */
  function Clamp(v: int): (r: real)
    ensures SliderMin as real <= r <= SliderMax as real
    ensures SliderMin <= v <= SliderMax ==> r == v as real
  {
    if v < SliderMin then SliderMin as real
    else if v > SliderMax then SliderMax as real
    else v as real
  }

  /** `round(value / step) * step` converted to `Int`; Swift's `round` sends halves away from zero. */
  function SnapToStep(v: real): (r: int)
    requires SliderMin as real <= v <= SliderMax as real
    ensures r % Step == 0 && SliderMin <= r <= SliderMax
    ensures -2.5 <= v - r as real < 2.5
  {
    (v / 5.0 + 0.5).Floor * Step
  }

  function Distance(a: real, b: real): real {
    if a <= b then b - a else a - b
  }

  /** The snapped value is a nearest multiple of the step. */
  lemma SnapIsNearest(v: real, m: int)
    requires SliderMin as real <= v <= SliderMax as real
    requires m % Step == 0
    ensures Distance(v, SnapToStep(v) as real) <= Distance(v, m as real)
  {
    var k := SnapToStep(v) / Step;
    var j := m / Step;
    assert SnapToStep(v) == Step * k && m == Step * j;
    if j < k {
      assert m as real <= SnapToStep(v) as real - 5.0;
    } else if j > k {
      assert m as real >= SnapToStep(v) as real + 5.0;
    }
  }

  /** The threshold label: Fahrenheit as stored, or its Celsius conversion. */
  function ThresholdLabel(fahrenheit: bool, f: int): string {
    if fahrenheit then IntToString(f) + [DegreeSign, 'F']
    else IntToString(CelsiusOf(f)) + [DegreeSign, 'C']
  }

  /** Over the slider's range the Celsius label reads 15 to 37. */
  lemma SliderCelsiusRange(f: int)
    requires SliderMin <= f <= SliderMax
    ensures 15 <= CelsiusOf(f) <= 37
  {
  }

  /**
   * The settings label and the `String` extension show the same Celsius
   * number, but with different degree glyphs.
   */
  lemma LabelAgreesWithExtension(f: int)
    requires InIntRange(f)
    ensures Number(ThresholdLabel(false, f)) == Number(FahrenheitToCelsius(IntToString(f)))
    ensures ThresholdLabel(false, f) != FahrenheitToCelsius(IntToString(f))
  {
    ParseIntToString(f);
    var text := ThresholdLabel(false, f);
    var shown := FahrenheitToCelsius(IntToString(f));
    assert Number(text) == IntToString(CelsiusOf(f));
    assert text[|text| - 2] == DegreeSign;
    assert shown[|shown| - 2] == DegreeRing;
  }

  // ---------------------------------------------------------------------------
  // App-wide settings and the settings screen

  /** Values kept in the persistent key-value store. */
  datatype Stored = IntValue(i: int) | BoolValue(b: bool)

  const MaxTempKey: string := "max_temp_key"
  const IsTempEnabledKey: string := "is_temp_enabled_key"

  /** The app delegate's static temperature settings and the persistent store they are saved to. */
  class AppSettings {
    /** `farenheit_celsius`: true shows Fahrenheit. */
    var fahrenheit: bool
    var metersFeet: bool
    /** `is_temp_enabled`: the temperature sensor switch. */
    var tempEnabled: bool
    /** `max_temp`, in Fahrenheit. */
    var maxTemp: int
    var defaults: map<string, Stored>

    /** The static initial values; loading from the store at launch is not modelled. */
    constructor ()
      ensures fahrenheit && metersFeet && tempEnabled && maxTemp == 80
      ensures defaults == map[]
    {
      fahrenheit, metersFeet, tempEnabled, maxTemp := true, true, true, 80;
      defaults := map[];
    }
  }

  /** The temperature settings screen: its slider value and label, over the app-wide settings. */
  class TemperatureAdjust {
    const settings: AppSettings
    var sliderValue: real
    var sliderLabel: string

    ghost predicate Valid()
      reads this
    {
      SliderMin as real <= sliderValue <= SliderMax as real
    }

    /** The slider starts at `max_temp` (pinned to 60...100); the label shows `max_temp` in the chosen unit. */
    constructor (settings: AppSettings)
      ensures Valid() && this.settings == settings
      ensures sliderValue == Clamp(settings.maxTemp)
      ensures sliderLabel == ThresholdLabel(settings.fahrenheit, settings.maxTemp)
    {
      this.settings := settings;
      sliderValue := Clamp(settings.maxTemp);
      sliderLabel := ThresholdLabel(settings.fahrenheit, settings.maxTemp);
    }

    /**
     * `sliderValueDidChange`: the slider snaps to the nearest multiple of 5,
     * which becomes `max_temp` and is persisted; the unit flags are untouched.
     */
    method SliderValueDidChange(value: real)
      requires Valid()
      requires SliderMin as real <= value <= SliderMax as real
      modifies this, settings
      ensures Valid()
      ensures var f := SnapToStep(value);
        && sliderValue == f as real
        && settings.maxTemp == f
        && sliderLabel == ThresholdLabel(settings.fahrenheit, f)
        && settings.defaults == old(settings.defaults)[MaxTempKey := IntValue(f)]
      ensures settings.fahrenheit == old(settings.fahrenheit)
      ensures settings.tempEnabled == old(settings.tempEnabled)
      ensures settings.metersFeet == old(settings.metersFeet)
    {
      var rounded := SnapToStep(value);
      sliderValue := rounded as real;
      if settings.fahrenheit {
        sliderLabel := IntToString(rounded) + [DegreeSign, 'F'];
      } else {
        var celsius := CelsiusOf(rounded);
        sliderLabel := IntToString(celsius) + [DegreeSign, 'C'];
      }
      settings.maxTemp := rounded;
      settings.defaults := settings.defaults[MaxTempKey := IntValue(rounded)];
    }

    /**
     * `farenheitOrCelsius`: flips the unit once; `max_temp` becomes the
     * slider's value truncated to an `Int`, in Fahrenheit whatever the unit.
     */
    method FahrenheitOrCelsius()
      requires Valid()
      modifies this, settings
      ensures Valid()
      ensures settings.fahrenheit == !old(settings.fahrenheit)
      ensures sliderValue == old(sliderValue)
      ensures var f := old(sliderValue).Floor;
        && settings.maxTemp == f
        && sliderLabel == ThresholdLabel(settings.fahrenheit, f)
        && settings.defaults == old(settings.defaults)[MaxTempKey := IntValue(f)]
      ensures settings.tempEnabled == old(settings.tempEnabled)
      ensures settings.metersFeet == old(settings.metersFeet)
    {
      settings.fahrenheit := !settings.fahrenheit;
      var fahrenheitInt := sliderValue.Floor;
      if settings.fahrenheit {
        sliderLabel := IntToString(fahrenheitInt) + [DegreeSign, 'F'];
      } else {
        var celsius := CelsiusOf(fahrenheitInt);
        sliderLabel := IntToString(celsius) + [DegreeSign, 'C'];
      }
      settings.maxTemp := fahrenheitInt;
      settings.defaults := settings.defaults[MaxTempKey := IntValue(fahrenheitInt)];
    }

    /** `switchStateDidChange`: the enable flag becomes exactly the switch state, and is persisted. */
    method SwitchStateDidChange(isOn: bool)
      modifies settings
      ensures settings.tempEnabled == isOn
      ensures settings.defaults == old(settings.defaults)[IsTempEnabledKey := BoolValue(isOn)]
      ensures settings.fahrenheit == old(settings.fahrenheit) && settings.maxTemp == old(settings.maxTemp)
      ensures settings.metersFeet == old(settings.metersFeet)
    {
      settings.tempEnabled := isOn;
      settings.defaults := settings.defaults[IsTempEnabledKey := BoolValue(isOn)];
    }
  }
}
