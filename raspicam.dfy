/**
 * The camera option store shared by the raspistill/raspivid wrappers: the
 * input validators, the time-unit conversion, the table of fluent setters and
 * the builder that turns the stored options into a command-line argument list.
 *
 * The store is two insertion-ordered PHP arrays: booleanArguments (bare flags,
 * flag name to bool) and valueArguments (flag name to scalar). Every setter
 * validates first and writes afterwards, so a rejected call changes nothing.
 * Exceptions are modelled as a Fail/Err outcome.
 */
module Raspicam {
  import opened Wrappers
  import opened Php
  import opened OrderedMap

  // ---------------------------------------------------------------------------
  // Enumerations

  const EXPOSURE_MODES: seq<Value> := [
    Str("auto"), Str("night"), Str("nightpreview"), Str("backlight"), Str("spotlight"), Str("sports"),
    Str("snow"), Str("beach"), Str("verylong"), Str("fixedfps"), Str("antishake"), Str("fireworks")]

  const WHITE_BALANCE_MODES: seq<Value> := [
    Str("off"), Str("auto"), Str("sun"), Str("cloud"), Str("shade"), Str("tungsten"),
    Str("fluorescent"), Str("incandescent"), Str("flash"), Str("horizon")]

  const EFFECTS: seq<Value> := [
    Str("none"), Str("negative"), Str("solarise"), Str("posterise"), Str("whiteboard"), Str("blackboard"),
    Str("sketch"), Str("denoise"), Str("emboss"), Str("oilpaint"), Str("hatch"), Str("gpen"),
    Str("pastel"), Str("watercolour"), Str("film"), Str("blur"), Str("saturation"), Str("colourswap"),
    Str("washedout"), Str("colourpoint"), Str("colourbalance"), Str("cartoon")]

  const METERING_MODES: seq<Value> := [Str("average"), Str("spot"), Str("backlit"), Str("matrix")]

  const DRC_MODES: seq<Value> := [Str("off"), Str("low"), Str("medium"), Str("high")]

  const ROTATIONS: seq<Value> := [Int(0), Int(90), Int(180), Int(270)]

  /** The only keys ever written to booleanArguments. */
  const FLAG_KEYS: set<string> := {"vflip", "hflip"}

  // ---------------------------------------------------------------------------
  // Outcomes

  datatype Error =
    | ExpectedIntBetween(min: int, max: int)   // InvalidArgumentException from assertIntBetween
    | ExpectedOneOf(valid: seq<Value>)         // InvalidArgumentException from assertInArray
    | ExpectedPositiveNumber                   // InvalidArgumentException from assertPositiveNumber
    | InvalidInputTimeUnit(unit: string)       // InvalidArgumentException from convertTimeUnit
    | InvalidOutputTimeUnit(unit: string)      // InvalidArgumentException from convertTimeUnit
    | FilenameRequired                         // InvalidArgumentException from recordVideo
    | CommandFailed(description: string)       // CommandFailedException from checkReturnValue
    | WrongArguments(callee: string)           // TypeError or ArgumentCountError: one scalar does not fit the method's parameters

  /** A call that returns normally (Pass) or throws (Fail). */
  datatype Outcome = Pass | Fail(error: Error)

  /** A call that returns a value (Ok) or throws (Err). */
  datatype Result<T> = Ok(value: T) | Err(error: Error)

  // ---------------------------------------------------------------------------
  // Validators

  /** assertIntBetween: only an integer-typed value inside [min, max] passes; floats never do. */
  function AssertIntBetween(v: Value, min: int, max: int): (r: Outcome)
    ensures r.Pass? <==> v.Int? && min <= v.i <= max
    ensures r.Fail? ==> r.error == ExpectedIntBetween(min, max)
  {
    if !v.Int? || v.i < min || v.i > max then Fail(ExpectedIntBetween(min, max)) else Pass
  }

  /** assertInArray with in_array(..., true): membership under strict comparison. */
  function AssertInArray(v: Value, valid: seq<Value>): (r: Outcome)
    ensures r.Pass? <==> v in valid
    ensures r.Fail? ==> r.error == ExpectedOneOf(valid)
  {
    if v !in valid then Fail(ExpectedOneOf(valid)) else Pass
  }

  /** assertPositiveNumber: an int or a float strictly above zero. */
  function AssertPositiveNumber(v: Value): (r: Outcome)
    ensures r.Pass? <==> (v.Int? && v.i > 0) || (v.Float? && v.f > 0.0)
    ensures r.Fail? ==> r.error == ExpectedPositiveNumber
  {
    if (!v.Int? && !v.Float?) || (v.Int? && v.i <= 0) || (v.Float? && v.f <= 0.0)
    then Fail(ExpectedPositiveNumber)
    else Pass
  }

  /** The numeric value of an int or a float. */
  function NumberOf(v: Value): real
    requires v.Int? || v.Float?
  {
    if v.Int? then v.i as real else v.f
  }

  // ---------------------------------------------------------------------------
  // Time units

  /** Microseconds per input unit: minute, second, millisecond, microsecond. */
  function InputFactor(unit: string): (r: Option<int>)
    ensures r.Some? <==> unit in {"m", "s", "ms", "us"}
    ensures r.Some? ==> r.value >= 1
  {
    match unit
    case "m" => Some(60000000)
    case "s" => Some(1000000)
    case "ms" => Some(1000)
    case "us" => Some(1)
    case _ => None
  }

  /** Microseconds per output unit; a minute is not an output unit. */
  function OutputFactor(unit: string): (r: Option<int>)
    ensures r.Some? <==> unit in {"s", "ms", "us"}
    ensures r.Some? ==> r == InputFactor(unit) && 1000000 % r.value == 0
  {
    match unit
    case "s" => Some(1000000)
    case "ms" => Some(1000)
    case "us" => Some(1)
    case _ => None
  }

  /** PHP's ceil(): the least integer not below x. */
  function Ceil(x: real): (r: int)
    ensures x <= r as real < x + 1.0
  {
    -((-x).Floor)
  }

  /**
   * convertTimeUnit: the input unit is checked first, then the output unit; on
   * success the result is the exact quantity in the output unit rounded up.
   */
  function ConvertTimeUnit(value: real, inputUnit: string, outputUnit: string): (r: Result<int>)
    ensures InputFactor(inputUnit).None? ==> r == Err(InvalidInputTimeUnit(inputUnit))
    ensures InputFactor(inputUnit).Some? && OutputFactor(outputUnit).None? ==>
              r == Err(InvalidOutputTimeUnit(outputUnit))
    ensures InputFactor(inputUnit).Some? && OutputFactor(outputUnit).Some? ==> r.Ok?
    ensures r.Ok? ==>
              && InputFactor(inputUnit).Some? && OutputFactor(outputUnit).Some?
              && var exact := value * InputFactor(inputUnit).value as real / OutputFactor(outputUnit).value as real;
                 exact <= r.value as real < exact + 1.0
  {
    match InputFactor(inputUnit)
    case None => Err(InvalidInputTimeUnit(inputUnit))
    case Some(modifier) =>
      match OutputFactor(outputUnit)
      case None => Err(InvalidOutputTimeUnit(outputUnit))
      case Some(divisor) => Ok(Ceil(value * (modifier as real / divisor as real)))
  }

  /**
   * A duration argument (shutterSpeed, raspivid's timeout): assertPositiveNumber
   * runs before convertTimeUnit, and a positive duration never rounds to zero.
   */
  function Duration(v: Value, unit: string, outputUnit: string): (r: Result<int>)
    ensures AssertPositiveNumber(v).Fail? ==> r == Err(ExpectedPositiveNumber)
    ensures AssertPositiveNumber(v).Pass? ==> r.Ok? == ConvertTimeUnit(NumberOf(v), unit, outputUnit).Ok?
    ensures AssertPositiveNumber(v).Pass? && InputFactor(unit).Some? && OutputFactor(outputUnit).Some? ==> r.Ok?
    ensures r.Err? && AssertPositiveNumber(v).Pass? ==> r == ConvertTimeUnit(NumberOf(v), unit, outputUnit)
    ensures r.Ok? ==> r.value >= 1 && r == ConvertTimeUnit(NumberOf(v), unit, outputUnit)
  {
    match AssertPositiveNumber(v)
    case Fail(e) => Err(e)
    case Pass =>
      var r := ConvertTimeUnit(NumberOf(v), unit, outputUnit);
      if r.Ok? then
        PositiveQuotient(NumberOf(v), InputFactor(unit).value, OutputFactor(outputUnit).value);
        r
      else r
  }

  lemma PositiveQuotient(x: real, a: int, b: int)
    requires x > 0.0 && a > 0 && b > 0
    ensures x * a as real / b as real > 0.0
  {
    assert x * a as real > 0.0;
  }

  /** Converting a whole number to its own (output-capable) unit gives it back unchanged. */
  lemma ConvertSameUnit(n: int, unit: string)
    requires OutputFactor(unit).Some?
    ensures ConvertTimeUnit(n as real, unit, unit) == Ok(n)
  {
    var r := ConvertTimeUnit(n as real, unit, unit);
    assert InputFactor(unit) == OutputFactor(unit);
    var f := OutputFactor(unit).value as real;
    assert n as real * f / f == n as real;
  }

  /** A longer duration never converts to a smaller number. */
  lemma ConvertMonotonic(a: real, b: real, inputUnit: string, outputUnit: string)
    requires a <= b
    requires ConvertTimeUnit(a, inputUnit, outputUnit).Ok?
    ensures ConvertTimeUnit(b, inputUnit, outputUnit).Ok?
    ensures ConvertTimeUnit(a, inputUnit, outputUnit).value <= ConvertTimeUnit(b, inputUnit, outputUnit).value
  {
    var q := InputFactor(inputUnit).value as real / OutputFactor(outputUnit).value as real;
    assert q > 0.0;
    assert a * q <= b * q;
  }

  /** The conversions exercised by the shutter-speed and recording tests. */
  lemma ConversionExamples()
    ensures ConvertTimeUnit(2.0, "s", "us") == Ok(2000000)
    ensures ConvertTimeUnit(1.54, "s", "us") == Ok(1540000)
    ensures ConvertTimeUnit(4000.0, "ms", "us") == Ok(4000000)
    ensures ConvertTimeUnit(5000000.0, "us", "us") == Ok(5000000)
    ensures ConvertTimeUnit(5000000.0, "us", "ms") == Ok(5000)
    ensures ConvertTimeUnit(5.0, "s", "ms") == Ok(5000)
    ensures ConvertTimeUnit(1.0, "m", "ms") == Ok(60000)
    ensures ConvertTimeUnit(0.5, "m", "s") == Ok(30)
    ensures ConvertTimeUnit(1.0, "foo", "us") == Err(InvalidInputTimeUnit("foo"))
    ensures ConvertTimeUnit(1.0, "s", "m") == Err(InvalidOutputTimeUnit("m"))
  {
  }

  // ---------------------------------------------------------------------------
  // Option store and argument list

  /** The two PHP arrays of a camera object. */
  datatype Settings = Settings(flags: seq<(string, bool)>, values: seq<(string, Value)>)

  /** Structural invariant: distinct keys, flags only under vflip/hflip, values never under those. */
  ghost predicate WellFormed(st: Settings) {
    && DistinctKeys(st.flags)
    && DistinctKeys(st.values)
    && (forall k :: k in Keys(st.flags) ==> k in FLAG_KEYS)
    && (forall k :: k in Keys(st.values) ==> k !in FLAG_KEYS)
  }

  /** The documented domain of each value key a Raspicam setter writes. */
  predicate InDomain(key: string, v: Value) {
    match key
    case "sharpness" | "contrast" | "saturation" => v.Int? && -100 <= v.i <= 100
    case "brightness" => v.Int? && 0 <= v.i <= 100
    case "ISO" => v.Int? && 100 <= v.i <= 800
    case "ev" => v.Int? && -10 <= v.i <= 10
    case "mode" => v.Int? && 0 <= v.i <= 7
    case "exposure" => v in EXPOSURE_MODES
    case "awb" => v in WHITE_BALANCE_MODES
    case "imxfx" => v in EFFECTS
    case "metering" => v in METERING_MODES
    case "drc" => v in DRC_MODES
    case "rotation" => v in ROTATIONS
    case "shutter" => v.Int? && v.i >= 1
    case _ => false
  }

  /** One command-line argument: a bare flag (--vflip) or a flag with a value (--ISO 500). */
  datatype Argument = Switch(name: string) | Valued(name: string, value: Value)

  /** The executable and its arguments, as handed to the command runner. */
  datatype Command = Command(executable: string, arguments: seq<Argument>)

  /** The bare flags: one per entry whose value is true, in insertion order. */
  function SwitchArguments(flags: seq<(string, bool)>): (r: seq<Argument>)
    ensures |r| <= |flags|
    ensures forall i :: 0 <= i < |r| ==> r[i].Switch? && r[i].name in Keys(flags)
  {
    if flags == [] then []
    else
      var init, last := flags[..|flags| - 1], flags[|flags| - 1];
      KeysOfSnoc(init, last);
      assert flags == init + [last];
      SwitchArguments(init) + (if last.1 then [Switch(last.0)] else [])
  }

  /** The name/value arguments: one per entry, in insertion order. */
  function ValueArguments(values: seq<(string, Value)>): (r: seq<Argument>)
    ensures |r| == |values|
    ensures forall i :: 0 <= i < |r| ==> r[i] == Valued(values[i].0, values[i].1)
  {
    if values == [] then []
    else
      var last := values[|values| - 1];
      ValueArguments(values[..|values| - 1]) + [Valued(last.0, last.1)]
  }

  /** buildCommand's argument list: the bare flags first, then the name/value arguments. */
  function ArgumentList(st: Settings): (r: seq<Argument>)
    ensures forall name :: Switch(name) in r <==> (name, true) in st.flags
    ensures forall name, v :: Valued(name, v) in r <==> (name, v) in st.values
  {
    ArgumentSources(st.flags, st.values);
    SwitchArguments(st.flags) + ValueArguments(st.values)
  }

  /** Each bare flag comes from a true entry and each name/value argument from a value entry, and back. */
  lemma ArgumentSources(flags: seq<(string, bool)>, values: seq<(string, Value)>)
    ensures forall name :: Switch(name) in SwitchArguments(flags) + ValueArguments(values) <==> (name, true) in flags
    ensures forall name, v :: Valued(name, v) in SwitchArguments(flags) + ValueArguments(values) <==> (name, v) in values
  {
    var sw, va := SwitchArguments(flags), ValueArguments(values);
    forall name ensures Switch(name) in sw + va <==> (name, true) in flags {
      SwitchPresentIff(flags, name);
    }
    forall name, v ensures Valued(name, v) in sw + va <==> (name, v) in values {
      if (name, v) in values {
        var i :| 0 <= i < |values| && values[i] == (name, v);
        assert (sw + va)[|sw| + i] == va[i];
      }
      if Valued(name, v) in sw + va {
        var i :| 0 <= i < |sw + va| && (sw + va)[i] == Valued(name, v);
        assert (sw + va)[i] == va[i - |sw|];
      }
    }
  }

  lemma {:induction false} KeysOfSnoc<V>(s: seq<(string, V)>, e: (string, V))
    ensures Keys(s + [e]) == Keys(s) + {e.0}
  {
    if s != [] {
      assert (s + [e])[1..] == s[1..] + [e];
      KeysOfSnoc(s[1..], e);
    }
  }

  lemma {:induction false} KeysAreIndexed<V>(s: seq<(string, V)>, k: string)
    ensures k in Keys(s) <==> exists i :: 0 <= i < |s| && s[i].0 == k
  {
    if s != [] {
      KeysAreIndexed(s[1..], k);
      if k in Keys(s[1..]) {
        var i :| 0 <= i < |s[1..]| && s[1..][i].0 == k;
        assert s[i + 1].0 == k;
      }
      if k != s[0].0 && exists i :: 0 <= i < |s| && s[i].0 == k {
        var i :| 0 <= i < |s| && s[i].0 == k;
        assert s[1..][i - 1].0 == k;
      }
    }
  }

  /** Flags keep their insertion order: the bare flags of a concatenation concatenate. */
  lemma {:induction false} SwitchArgumentsAppend(a: seq<(string, bool)>, b: seq<(string, bool)>)
    ensures SwitchArguments(a + b) == SwitchArguments(a) + SwitchArguments(b)
  {
    if b != [] {
      var init := b[..|b| - 1];
      assert (a + b)[..|a + b| - 1] == a + init;
      assert (a + b)[|a + b| - 1] == b[|b| - 1];
      SwitchArgumentsAppend(a, init);
    } else {
      assert a + b == a;
    }
  }

  /** A bare flag is emitted exactly when an entry maps its name to true. */
  lemma {:induction false} SwitchPresentIff(flags: seq<(string, bool)>, name: string)
    ensures Switch(name) in SwitchArguments(flags) <==> (name, true) in flags
  {
    if flags != [] {
      var init, last := flags[..|flags| - 1], flags[|flags| - 1];
      assert flags == init + [last];
      SwitchPresentIff(init, name);
    }
  }

  /** With distinct keys: the flag --name appears exactly when name's stored value is true. */
  lemma SwitchPresentIffTrue(flags: seq<(string, bool)>, name: string)
    requires DistinctKeys(flags)
    ensures Switch(name) in SwitchArguments(flags) <==> Lookup(flags, name) == Some(true)
  {
    SwitchPresentIff(flags, name);
    LookupIsEntry(flags, name, true);
  }

  /** No two arguments share a flag name. */
  ghost predicate NamesDistinct(args: seq<Argument>) {
    forall i, j :: 0 <= i < j < |args| ==> args[i].name != args[j].name
  }

  /** The last key of a list with distinct keys does not occur earlier. */
  lemma LastKeyIsNew<V>(s: seq<(string, V)>)
    requires DistinctKeys(s) && s != []
    ensures s[|s| - 1].0 !in Keys(s[..|s| - 1])
  {
    KeysAreIndexed(s[..|s| - 1], s[|s| - 1].0);
  }

  /** The bare flags of a list with distinct keys have distinct names. */
  lemma {:induction false} SwitchNamesDistinct(flags: seq<(string, bool)>)
    requires DistinctKeys(flags)
    ensures NamesDistinct(SwitchArguments(flags))
  {
    if flags != [] {
      var init, last := flags[..|flags| - 1], flags[|flags| - 1];
      assert DistinctKeys(init);
      SwitchNamesDistinct(init);
      LastKeyIsNew(flags);
      var r0 := SwitchArguments(init);
      var r := r0 + (if last.1 then [Switch(last.0)] else []);
      assert SwitchArguments(flags) == r;
      forall i, j | 0 <= i < j < |r| ensures r[i].name != r[j].name {
        if j >= |r0| {
          assert r[j] == Switch(last.0);
          assert r[i] == r0[i] && r0[i].name in Keys(init);
          assert last.0 !in Keys(init);
        } else {
          assert r[i] == r0[i] && r[j] == r0[j];
        }
      }
    }
  }

  /**
   * No flag name appears twice in the built argument list, and every bare flag
   * comes before every name/value argument.
   */
  lemma ArgumentListShape(st: Settings)
    requires WellFormed(st)
    ensures NamesDistinct(ArgumentList(st))
    ensures forall i, j :: 0 <= i < j < |ArgumentList(st)| && ArgumentList(st)[i].Valued? ==> ArgumentList(st)[j].Valued?
  {
    var sw, va := SwitchArguments(st.flags), ValueArguments(st.values);
    SwitchNamesDistinct(st.flags);
    var r := sw + va;
    forall i, j | 0 <= i < j < |r| ensures r[i].name != r[j].name {
      if j < |sw| {
        assert r[i] == sw[i] && r[j] == sw[j];
      } else if i >= |sw| {
        assert r[i] == va[i - |sw|] && r[j] == va[j - |sw|];
      } else {
        assert r[i] == sw[i] && sw[i].name in Keys(st.flags);
        assert r[j] == va[j - |sw|];
        KeysAreIndexed(st.values, st.values[j - |sw|].0);
      }
    }
  }

  // ---------------------------------------------------------------------------
  // The setter table used by the constructor's options array

  /** The public one-argument setters of Raspicam. */
  datatype Setter =
    | Flip | VerticalFlip | HorizontalFlip
    | Sharpness | Contrast | Brightness | Saturation | ISO | ExposureCompensation
    | Exposure | WhiteBalance | Effect | Metering | DynamicRangeCompression | Rotate
    | ShutterSpeed | SensorMode

  /** Each setter's method name in lower case, the form the lookup compares against. */
  function FoldedName(s: Setter): string {
    match s
    case Flip => "flip"
    case VerticalFlip => "verticalflip"
    case HorizontalFlip => "horizontalflip"
    case Sharpness => "sharpness"
    case Contrast => "contrast"
    case Brightness => "brightness"
    case Saturation => "saturation"
    case ISO => "iso"
    case ExposureCompensation => "exposurecompensation"
    case Exposure => "exposure"
    case WhiteBalance => "whitebalance"
    case Effect => "effect"
    case Metering => "metering"
    case DynamicRangeCompression => "dynamicrangecompression"
    case Rotate => "rotate"
    case ShutterSpeed => "shutterspeed"
    case SensorMode => "sensormode"
  }

  /** The setter whose lower-case method name is lower, if any. */
  function FoldedSetter(lower: string): (r: Option<Setter>)
    ensures r.Some? ==> lower == FoldedName(r.value)
  {
    match lower
    case "flip" => Some(Flip)
    case "verticalflip" => Some(VerticalFlip)
    case "horizontalflip" => Some(HorizontalFlip)
    case "sharpness" => Some(Sharpness)
    case "contrast" => Some(Contrast)
    case "brightness" => Some(Brightness)
    case "saturation" => Some(Saturation)
    case "iso" => Some(ISO)
    case "exposurecompensation" => Some(ExposureCompensation)
    case "exposure" => Some(Exposure)
    case "whitebalance" => Some(WhiteBalance)
    case "effect" => Some(Effect)
    case "metering" => Some(Metering)
    case "dynamicrangecompression" => Some(DynamicRangeCompression)
    case "rotate" => Some(Rotate)
    case "shutterspeed" => Some(ShutterSpeed)
    case "sensormode" => Some(SensorMode)
    case _ => None
  }

  /** Method lookup by option key; PHP method names ignore ASCII case. */
  function SetterNamed(name: string): (r: Option<Setter>)
    ensures r.Some? ==> LowerAscii(name) == FoldedName(r.value)
  {
    FoldedSetter(LowerAscii(name))
  }

  /** Every lower-case method name finds its own setter. */
  lemma FoldedSetterFinds(s: Setter)
    ensures FoldedSetter(FoldedName(s)) == Some(s)
  {
  }

  /** An option key reaches setter s exactly when it is s's method name up to ASCII case. */
  lemma SetterNamedIff(name: string, s: Setter)
    ensures SetterNamed(name) == Some(s) <==> LowerAscii(name) == FoldedName(s)
  {
    FoldedSetterFinds(s);
  }

  /** An option key finds the same setter whatever its letter case. */
  lemma SetterNamedIgnoresCase(name: string)
    ensures SetterNamed(LowerAscii(name)) == SetterNamed(name)
  {
    LowerAsciiIdempotent(name);
  }

  /** Write a validated value under key, or report the validation failure. */
  function Store(st: Settings, key: string, v: Value, check: Outcome): Result<Settings> {
    if check.Pass? then Ok(st.(values := Assign(st.values, key, v))) else Err(check.error)
  }

  /**
   * What calling setter s with the single argument v does to the store: a flag
   * setter writes the truth value of v; a value setter validates v and then
   * writes it under its key; shutterSpeed stores the duration in microseconds.
   */
  function Apply(st: Settings, s: Setter, v: Value): (r: Result<Settings>)
    ensures IsFlagSetter(s) ==> r.Ok? && r.value.values == st.values && Keys(r.value.flags) == Keys(st.flags) + KeysWritten(s)
    ensures !IsFlagSetter(s) && r.Ok? ==> r.value.flags == st.flags && Keys(r.value.values) == Keys(st.values) + KeysWritten(s)
    ensures !IsFlagSetter(s) && !s.ShutterSpeed? ==> (r.Ok? <==> Check(s, v).Pass?)
    ensures s.ShutterSpeed? ==> (r.Ok? <==> Duration(v, "s", "us").Ok?)
    ensures r.Err? && !s.ShutterSpeed? ==> r.error == Check(s, v).error
    ensures r.Err? && s.ShutterSpeed? ==> r.error == Duration(v, "s", "us").error
  {
    match s
    case Flip => Ok(st.(flags := Assign(Assign(st.flags, "vflip", ToBool(v)), "hflip", ToBool(v))))
    case VerticalFlip => Ok(st.(flags := Assign(st.flags, "vflip", ToBool(v))))
    case HorizontalFlip => Ok(st.(flags := Assign(st.flags, "hflip", ToBool(v))))
    case ShutterSpeed =>
      (match Duration(v, "s", "us")
       case Ok(us) => Ok(st.(values := Assign(st.values, "shutter", Int(us))))
       case Err(e) => Err(e))
    case _ => Store(st, ValueKey(s), v, Check(s, v))
  }

  /** The three setters that write booleanArguments. */
  predicate IsFlagSetter(s: Setter) {
    s.Flip? || s.VerticalFlip? || s.HorizontalFlip?
  }

  /** The valueArguments key a value setter writes. */
  function ValueKey(s: Setter): string
    requires !IsFlagSetter(s)
  {
    match s
    case Sharpness => "sharpness"
    case Contrast => "contrast"
    case Brightness => "brightness"
    case Saturation => "saturation"
    case ISO => "ISO"
    case ExposureCompensation => "ev"
    case Exposure => "exposure"
    case WhiteBalance => "awb"
    case Effect => "imxfx"
    case Metering => "metering"
    case DynamicRangeCompression => "drc"
    case Rotate => "rotation"
    case ShutterSpeed => "shutter"
    case SensorMode => "mode"
  }

  /** The keys setter s may write. */
  function KeysWritten(s: Setter): set<string> {
    match s
    case Flip => {"vflip", "hflip"}
    case VerticalFlip => {"vflip"}
    case HorizontalFlip => {"hflip"}
    case _ => {ValueKey(s)}
  }

  /**
   * A successful setter call leaves every key it does not own as it was, in
   * both arrays; a value setter leaves booleanArguments untouched altogether.
   */
  lemma ApplyWritesOnlyItsKeys(st: Settings, s: Setter, v: Value, k: string)
    requires Apply(st, s, v).Ok? && k !in KeysWritten(s)
    ensures Lookup(Apply(st, s, v).value.flags, k) == Lookup(st.flags, k)
    ensures Lookup(Apply(st, s, v).value.values, k) == Lookup(st.values, k)
    ensures !IsFlagSetter(s) ==> Apply(st, s, v).value.flags == st.flags
  {
    var b := ToBool(v);
    match s {
      case Flip =>
        LookupAssign(st.flags, "vflip", b, k);
        LookupAssign(Assign(st.flags, "vflip", b), "hflip", b, k);
      case VerticalFlip => LookupAssign(st.flags, "vflip", b, k);
      case HorizontalFlip => LookupAssign(st.flags, "hflip", b, k);
      case ShutterSpeed => LookupAssign(st.values, "shutter", Int(Duration(v, "s", "us").value), k);
      case _ => LookupAssign(st.values, ValueKey(s), v, k);
    }
  }

  /**
   * After a flip setter, the bare flag --name of each key it owns is in the
   * built argument list exactly when the value given was truthy: a flag set
   * back to false disappears.
   */
  lemma FlagSetterControlsSwitch(st: Settings, s: Setter, v: Value, name: string)
    requires WellFormed(st) && IsFlagSetter(s) && name in KeysWritten(s)
    ensures Switch(name) in ArgumentList(Apply(st, s, v).value) <==> ToBool(v)
  {
    var after := Apply(st, s, v).value;
    var b := ToBool(v);
    if s.Flip? {
      LookupAssign(st.flags, "vflip", b, name);
      LookupAssign(Assign(st.flags, "vflip", b), "hflip", b, name);
    } else {
      LookupAssign(st.flags, name, b, name);
    }
    SwitchPresentIffTrue(after.flags, name);
    assert Switch(name) !in ValueArguments(after.values);
  }

  /**
   * Every range and enumeration setter accepts exactly the values of its
   * key's documented domain, and then reads back the value it was given.
   */
  lemma ApplyAcceptsExactlyItsDomain(st: Settings, s: Setter, v: Value)
    requires !IsFlagSetter(s) && !s.ShutterSpeed?
    ensures Apply(st, s, v).Ok? <==> InDomain(ValueKey(s), v)
    ensures Apply(st, s, v).Ok? ==> Lookup(Apply(st, s, v).value.values, ValueKey(s)) == Some(v)
  {
    var key := ValueKey(s);
    CheckIsDomain(s, v);
    if Apply(st, s, v).Ok? {
      LookupAssign(st.values, key, v, key);
    }
  }

  /** The validation a range or enumeration setter performs. */
  function Check(s: Setter, v: Value): Outcome
    requires !IsFlagSetter(s) && !s.ShutterSpeed?
  {
    match s
    case Sharpness | Contrast | Saturation => AssertIntBetween(v, -100, 100)
    case Brightness => AssertIntBetween(v, 0, 100)
    case ISO => AssertIntBetween(v, 100, 800)
    case ExposureCompensation => AssertIntBetween(v, -10, 10)
    case SensorMode => AssertIntBetween(v, 0, 7)
    case Exposure => AssertInArray(v, EXPOSURE_MODES)
    case WhiteBalance => AssertInArray(v, WHITE_BALANCE_MODES)
    case Effect => AssertInArray(v, EFFECTS)
    case Metering => AssertInArray(v, METERING_MODES)
    case DynamicRangeCompression => AssertInArray(v, DRC_MODES)
    case Rotate => AssertInArray(v, ROTATIONS)
  }

  /** The range checks are the integer domains of their keys. */
  lemma RangeCheckIsDomain(s: Setter, v: Value)
    requires s.Sharpness? || s.Contrast? || s.Saturation? || s.Brightness?
    ensures Check(s, v).Pass? <==> InDomain(ValueKey(s), v)
  {
  }

  lemma NarrowRangeCheckIsDomain(s: Setter, v: Value)
    requires s.ISO? || s.ExposureCompensation? || s.SensorMode?
    ensures Check(s, v).Pass? <==> InDomain(ValueKey(s), v)
  {
  }

  /** The enumeration checks are the enumerated domains of their keys. */
  lemma ModeCheckIsDomain(s: Setter, v: Value)
    requires s.Exposure? || s.WhiteBalance? || s.Effect?
    ensures Check(s, v).Pass? <==> InDomain(ValueKey(s), v)
  {
  }

  lemma ShortModeCheckIsDomain(s: Setter, v: Value)
    requires s.Metering? || s.DynamicRangeCompression? || s.Rotate?
    ensures Check(s, v).Pass? <==> InDomain(ValueKey(s), v)
  {
  }

  /** Each range or enumeration setter validates exactly against its key's domain. */
  lemma CheckIsDomain(s: Setter, v: Value)
    requires !IsFlagSetter(s) && !s.ShutterSpeed?
    ensures Check(s, v).Pass? <==> InDomain(ValueKey(s), v)
  {
    if s.Sharpness? || s.Contrast? || s.Saturation? || s.Brightness? {
      RangeCheckIsDomain(s, v);
    } else if s.ISO? || s.ExposureCompensation? || s.SensorMode? {
      NarrowRangeCheckIsDomain(s, v);
    } else if s.Exposure? || s.WhiteBalance? || s.Effect? {
      ModeCheckIsDomain(s, v);
    } else {
      ShortModeCheckIsDomain(s, v);
    }
  }

  /** shutterSpeed with the default unit (seconds) accepts exactly the positive numbers. */
  lemma ShutterSpeedAcceptsPositive(st: Settings, v: Value)
    ensures Apply(st, ShutterSpeed, v).Ok? <==> AssertPositiveNumber(v).Pass?
    ensures Apply(st, ShutterSpeed, v).Ok? ==>
              Lookup(Apply(st, ShutterSpeed, v).value.values, "shutter") == Some(Int(Ceil(NumberOf(v) * 1000000.0)))
  {
    if AssertPositiveNumber(v).Pass? {
      LookupAssign(st.values, "shutter", Int(Duration(v, "s", "us").value), "shutter");
    }
  }

  /** Writing one domain value under a non-flag key keeps the store well formed. */
  lemma StoreKeepsInvariant(st: Settings, key: string, v: Value, check: Outcome)
    requires WellFormed(st) && key !in FLAG_KEYS
    requires check.Pass? ==> InDomain(key, v)
    requires Store(st, key, v, check).Ok?
    ensures WellFormed(Store(st, key, v, check).value)
    ensures forall e :: e in Store(st, key, v, check).value.values ==> e in st.values || InDomain(e.0, e.1)
  {
  }

  lemma FlagSetterKeepsInvariant(st: Settings, s: Setter, v: Value)
    requires WellFormed(st) && IsFlagSetter(s)
    ensures Apply(st, s, v).Ok? && Apply(st, s, v).value.values == st.values
    ensures WellFormed(Apply(st, s, v).value)
  {
  }

  /**
   * Setters keep the store well formed and only ever add values that lie in
   * their key's domain.
   */
  lemma ApplyKeepsInvariant(st: Settings, s: Setter, v: Value)
    requires WellFormed(st)
    requires Apply(st, s, v).Ok?
    ensures WellFormed(Apply(st, s, v).value)
    ensures forall e :: e in Apply(st, s, v).value.values ==> e in st.values || InDomain(e.0, e.1)
  {
    if IsFlagSetter(s) {
      FlagSetterKeepsInvariant(st, s, v);
    } else if s.ShutterSpeed? {
      var us := Duration(v, "s", "us").value;
      assert InDomain("shutter", Int(us));
      StoreKeepsInvariant(st, "shutter", Int(us), Pass);
    } else {
      var key := ValueKey(s);
      CheckIsDomain(s, v);
      StoreKeepsInvariant(st, key, v, Check(s, v));
    }
  }

  /** The rotation examples of the tests: only the ints 0, 90, 180 and 270 pass. */
  lemma RotationExamples()
    ensures AssertInArray(Int(90), ROTATIONS).Pass?
    ensures AssertInArray(Str("90"), ROTATIONS).Fail?
    ensures AssertInArray(Int(1), ROTATIONS).Fail?
    ensures AssertInArray(Float(5.5), ROTATIONS).Fail?
    ensures AssertInArray(Bool(false), ROTATIONS).Fail?
    ensures AssertInArray(Null, ROTATIONS).Fail?
  {
  }

  // ---------------------------------------------------------------------------
  // Exit status

  /**
   * checkReturnValue: a runner that reports no exit code (None) counts as
   * success, exit code 0 is success, any other code fails with that code's
   * description (ExitCodes::getDescription, supplied by the caller).
   */
  function CheckReturnValue(exitCode: Option<int>, describe: int -> string): (r: Outcome)
    ensures r.Pass? <==> exitCode.None? || exitCode.value == 0
    ensures r.Fail? ==> r == Fail(CommandFailed(describe(exitCode.value)))
  {
    match exitCode
    case None => Pass
    case Some(code) => if code == 0 then Pass else Fail(CommandFailed(describe(code)))
  }

  // ---------------------------------------------------------------------------
  // The camera object

  /** The state a setter leaves: values written under key on success, nothing changed on failure. */
  ghost predicate Written(before: Settings, after: Settings, r: Outcome, key: string, v: Value) {
    && after.flags == before.flags
    && after.values == if r.Pass? then Assign(before.values, key, v) else before.values
  }

  /** The state a table call leaves: the table's result on success, the old state on failure. */
  ghost predicate Applied(before: Settings, after: Settings, r: Outcome, result: Result<Settings>) {
    match result
    case Ok(st) => r == Pass && after == st
    case Err(e) => r == Fail(e) && after == before
  }

  class Camera {
    var booleanArguments: seq<(string, bool)>
    var valueArguments: seq<(string, Value)>

    function Current(): Settings
      reads this
    {
      Settings(booleanArguments, valueArguments)
    }

    ghost predicate Valid()
      reads this
    {
      WellFormed(Current())
    }

    constructor ()
      ensures Valid() && Current() == Settings([], [])
    {
      booleanArguments := [];
      valueArguments := [];
    }

    /** flip: both vflip and hflip take the truth value of v. */
    method Flip(v: Value)
      requires Valid()
      modifies this
      ensures Valid()
      ensures booleanArguments == Assign(Assign(old(booleanArguments), "vflip", ToBool(v)), "hflip", ToBool(v))
      ensures valueArguments == old(valueArguments)
    {
      booleanArguments := Assign(booleanArguments, "vflip", ToBool(v));
      booleanArguments := Assign(booleanArguments, "hflip", ToBool(v));
    }

    method VerticalFlip(v: Value)
      requires Valid()
      modifies this
      ensures Valid()
      ensures booleanArguments == Assign(old(booleanArguments), "vflip", ToBool(v))
      ensures valueArguments == old(valueArguments)
    {
      booleanArguments := Assign(booleanArguments, "vflip", ToBool(v));
    }

    method HorizontalFlip(v: Value)
      requires Valid()
      modifies this
      ensures Valid()
      ensures booleanArguments == Assign(old(booleanArguments), "hflip", ToBool(v))
      ensures valueArguments == old(valueArguments)
    {
      booleanArguments := Assign(booleanArguments, "hflip", ToBool(v));
    }

    method Sharpness(v: Value) returns (r: Outcome)
      requires Valid()
      modifies this
      ensures Valid()
      ensures r == AssertIntBetween(v, -100, 100)
      ensures Written(old(Current()), Current(), r, "sharpness", v)
    {
      r := AssertIntBetween(v, -100, 100);
      if r.Pass? {
        valueArguments := Assign(valueArguments, "sharpness", v);
      }
    }

    method Contrast(v: Value) returns (r: Outcome)
      requires Valid()
      modifies this
      ensures Valid()
      ensures r == AssertIntBetween(v, -100, 100)
      ensures Written(old(Current()), Current(), r, "contrast", v)
    {
      r := AssertIntBetween(v, -100, 100);
      if r.Pass? {
        valueArguments := Assign(valueArguments, "contrast", v);
      }
    }

    method Brightness(v: Value) returns (r: Outcome)
      requires Valid()
      modifies this
      ensures Valid()
      ensures r == AssertIntBetween(v, 0, 100)
      ensures Written(old(Current()), Current(), r, "brightness", v)
    {
      r := AssertIntBetween(v, 0, 100);
      if r.Pass? {
        valueArguments := Assign(valueArguments, "brightness", v);
      }
    }

    method Saturation(v: Value) returns (r: Outcome)
      requires Valid()
      modifies this
      ensures Valid()
      ensures r == AssertIntBetween(v, -100, 100)
      ensures Written(old(Current()), Current(), r, "saturation", v)
    {
      r := AssertIntBetween(v, -100, 100);
      if r.Pass? {
        valueArguments := Assign(valueArguments, "saturation", v);
      }
    }

    method ISO(v: Value) returns (r: Outcome)
      requires Valid()
      modifies this
      ensures Valid()
      ensures r == AssertIntBetween(v, 100, 800)
      ensures Written(old(Current()), Current(), r, "ISO", v)
    {
      r := AssertIntBetween(v, 100, 800);
      if r.Pass? {
        valueArguments := Assign(valueArguments, "ISO", v);
      }
    }

    method ExposureCompensation(v: Value) returns (r: Outcome)
      requires Valid()
      modifies this
      ensures Valid()
      ensures r == AssertIntBetween(v, -10, 10)
      ensures Written(old(Current()), Current(), r, "ev", v)
    {
      r := AssertIntBetween(v, -10, 10);
      if r.Pass? {
        valueArguments := Assign(valueArguments, "ev", v);
      }
    }

    method Exposure(v: Value) returns (r: Outcome)
      requires Valid()
      modifies this
      ensures Valid()
      ensures r == AssertInArray(v, EXPOSURE_MODES)
      ensures Written(old(Current()), Current(), r, "exposure", v)
    {
      r := AssertInArray(v, EXPOSURE_MODES);
      if r.Pass? {
        valueArguments := Assign(valueArguments, "exposure", v);
      }
    }

    method WhiteBalance(v: Value) returns (r: Outcome)
      requires Valid()
      modifies this
      ensures Valid()
      ensures r == AssertInArray(v, WHITE_BALANCE_MODES)
      ensures Written(old(Current()), Current(), r, "awb", v)
    {
      r := AssertInArray(v, WHITE_BALANCE_MODES);
      if r.Pass? {
        valueArguments := Assign(valueArguments, "awb", v);
      }
    }

    method Effect(v: Value) returns (r: Outcome)
      requires Valid()
      modifies this
      ensures Valid()
      ensures r == AssertInArray(v, EFFECTS)
      ensures Written(old(Current()), Current(), r, "imxfx", v)
    {
      r := AssertInArray(v, EFFECTS);
      if r.Pass? {
        valueArguments := Assign(valueArguments, "imxfx", v);
      }
    }

    method Metering(v: Value) returns (r: Outcome)
      requires Valid()
      modifies this
      ensures Valid()
      ensures r == AssertInArray(v, METERING_MODES)
      ensures Written(old(Current()), Current(), r, "metering", v)
    {
      r := AssertInArray(v, METERING_MODES);
      if r.Pass? {
        valueArguments := Assign(valueArguments, "metering", v);
      }
    }

    method DynamicRangeCompression(v: Value) returns (r: Outcome)
      requires Valid()
      modifies this
      ensures Valid()
      ensures r == AssertInArray(v, DRC_MODES)
      ensures Written(old(Current()), Current(), r, "drc", v)
    {
      r := AssertInArray(v, DRC_MODES);
      if r.Pass? {
        valueArguments := Assign(valueArguments, "drc", v);
      }
    }

    method Rotate(v: Value) returns (r: Outcome)
      requires Valid()
      modifies this
      ensures Valid()
      ensures r == AssertInArray(v, ROTATIONS)
      ensures Written(old(Current()), Current(), r, "rotation", v)
    {
      r := AssertInArray(v, ROTATIONS);
      if r.Pass? {
        valueArguments := Assign(valueArguments, "rotation", v);
      }
    }

    /** shutterSpeed: stored under shutter in microseconds; an invalid unit also leaves the store unchanged. */
    method ShutterSpeed(v: Value, unit: string) returns (r: Outcome)
      requires Valid()
      modifies this
      ensures Valid()
      ensures booleanArguments == old(booleanArguments)
      ensures var d := Duration(v, unit, "us");
              && (d.Ok? ==> r == Pass && valueArguments == Assign(old(valueArguments), "shutter", Int(d.value)))
              && (d.Err? ==> r == Fail(d.error) && valueArguments == old(valueArguments))
    {
      r := AssertPositiveNumber(v);
      if r.Fail? {
        return;
      }
      var us := ConvertTimeUnit(NumberOf(v), unit, "us");
      if us.Err? {
        r := Fail(us.error);
        return;
      }
      valueArguments := Assign(valueArguments, "shutter", Int(us.value));
    }

    method SensorMode(v: Value) returns (r: Outcome)
      requires Valid()
      modifies this
      ensures Valid()
      ensures r == AssertIntBetween(v, 0, 7)
      ensures Written(old(Current()), Current(), r, "mode", v)
    {
      r := AssertIntBetween(v, 0, 7);
      if r.Pass? {
        valueArguments := Assign(valueArguments, "mode", v);
      }
    }

    /** call_user_func([$this, $key], $value) for a Raspicam setter: agrees with the table. */
    method Call(s: Setter, v: Value) returns (r: Outcome)
      requires Valid()
      modifies this
      ensures Valid()
      ensures Applied(old(Current()), Current(), r, Apply(old(Current()), s, v))
    {
      match s {
        case Flip => Flip(v); r := Pass;
        case VerticalFlip => VerticalFlip(v); r := Pass;
        case HorizontalFlip => HorizontalFlip(v); r := Pass;
        case Sharpness => r := Sharpness(v);
        case Contrast => r := Contrast(v);
        case Brightness => r := Brightness(v);
        case Saturation => r := Saturation(v);
        case ISO => r := ISO(v);
        case ExposureCompensation => r := ExposureCompensation(v);
        case Exposure => r := Exposure(v);
        case WhiteBalance => r := WhiteBalance(v);
        case Effect => r := Effect(v);
        case Metering => r := Metering(v);
        case DynamicRangeCompression => r := DynamicRangeCompression(v);
        case Rotate => r := Rotate(v);
        case ShutterSpeed => r := ShutterSpeed(v, "s");
        case SensorMode => r := SensorMode(v);
      }
    }

    /**
     * buildCommand: walk booleanArguments emitting a bare flag for each true
     * entry, then walk valueArguments emitting one name/value argument each.
     */
    method BuildCommand(executable: string) returns (cmd: Command)
      ensures cmd == Command(executable, ArgumentList(Current()))
    {
      var args: seq<Argument> := [];
      var i := 0;
      while i < |booleanArguments|
        invariant 0 <= i <= |booleanArguments|
        invariant args == SwitchArguments(booleanArguments[..i])
      {
        var (name, on) := booleanArguments[i];
        if on {
          args := args + [Switch(name)];
        }
        assert booleanArguments[..i + 1][..i] == booleanArguments[..i];
        i := i + 1;
      }
      assert booleanArguments[..i] == booleanArguments;
      var j := 0;
      while j < |valueArguments|
        invariant 0 <= j <= |valueArguments|
        invariant args == SwitchArguments(booleanArguments) + ValueArguments(valueArguments[..j])
      {
        var (name, value) := valueArguments[j];
        args := args + [Valued(name, value)];
        assert valueArguments[..j + 1][..j] == valueArguments[..j];
        j := j + 1;
      }
      assert valueArguments[..j] == valueArguments;
      cmd := Command(executable, args);
    }
  }
}
