/**
 * The raspivid wrapper: a camera store with the video-only options width,
 * height, output and timeout, the constructor's options array applied through
 * the setter table, and recordVideo, which stores the output file and the
 * recording length and then hands the built command to the command runner.
 *
 * PHP's `Raspivid extends Raspicam` is modelled by composition: a Raspivid
 * holds its Camera and writes the camera's (protected) arrays directly.
 */
module Raspivid {
  import opened Wrappers
  import opened Php
  import opened OrderedMap
  import opened Raspicam

  /** getExecutable: the command a Raspivid runs. */
  const COMMAND: string := "raspivid"

  /** The documented domain of every value key a Raspivid may hold. */
  predicate VideoInDomain(key: string, v: Value) {
    || InDomain(key, v)
    || (key == "width" && v.Int? && 64 <= v.i <= 1920)
    || (key == "height" && v.Int? && 64 <= v.i <= 1080)
    || (key == "output" && !Empty(v))
    || (key == "timeout" && v.Int? && v.i >= 1)
  }

  /** A well-formed store whose every value lies in its key's domain. */
  ghost predicate Consistent(st: Settings) {
    && WellFormed(st)
    && forall e :: e in st.values ==> VideoInDomain(e.0, e.1)
  }

  // ---------------------------------------------------------------------------
  // The setter table of a Raspivid

  /**
   * The methods the constructor can reach with one option value: the setters,
   * the validator assertPositiveNumber (which writes nothing), and the methods
   * whose parameters a single scalar cannot fill, named in lower case.
   */
  datatype VideoSetter = Common(setter: Setter) | Width | Height | PositiveCheck | Refused(callee: string)

  /**
   * The methods visible from the constructor that throw before running when
   * given one scalar: too few arguments, or a parameter typed as an array or
   * an object.
   */
  const REFUSING: set<string> := {
    "__construct", "recordvideo", "setcommandrunner", "execute", "checkreturnvalue",
    "assertintbetween", "assertinarray", "converttimeunit"
  }

  /**
   * Method lookup by option key, ignoring ASCII case. The private timeout is
   * not visible from the constructor, and the getters and buildCommand change
   * no option, so such keys are skipped like unknown ones.
   */
  function VideoSetterNamed(name: string): (r: Option<VideoSetter>)
    ensures r.Some? ==> LowerAscii(name) == VideoFoldedName(r.value)
    ensures r.Some? && r.value.Refused? ==> r.value.callee in REFUSING
    ensures SetterNamed(name).Some? ==> r == Some(Common(SetterNamed(name).value))
    ensures LowerAscii(name) == "width" ==> r == Some(Width)
    ensures LowerAscii(name) == "height" ==> r == Some(Height)
    ensures LowerAscii(name) == "assertpositivenumber" ==> r == Some(PositiveCheck)
    ensures LowerAscii(name) in REFUSING ==> r == Some(Refused(LowerAscii(name)))
    ensures r.None? <==> LowerAscii(name) !in VIDEO_ONLY && SetterNamed(name).None?
  {
    InheritedNamesNotShadowed(name);
    var lower := LowerAscii(name);
    if lower == "width" then Some(Width)
    else if lower == "height" then Some(Height)
    else if lower == "assertpositivenumber" then Some(PositiveCheck)
    else if lower in REFUSING then Some(Refused(lower))
    else match SetterNamed(name)
      case Some(s) => Some(Common(s))
      case None => None
  }

  /** The lower-case names of the entries a Raspivid adds to the inherited setters. */
  const VIDEO_ONLY: set<string> := {"width", "height", "assertpositivenumber"} + REFUSING

  /** No inherited setter shares its name with a video-only entry of the table. */
  lemma InheritedNamesNotShadowed(name: string)
    ensures SetterNamed(name).Some? ==>
              var lower := LowerAscii(name);
              lower != "width" && lower != "height" && lower != "assertpositivenumber" && lower !in REFUSING
  {
    if SetterNamed(name).Some? {
      FoldedNameNotVideoOnly(SetterNamed(name).value);
    }
  }

  lemma FoldedNameNotVideoOnly(c: Setter)
    ensures var lower := FoldedName(c);
            lower != "width" && lower != "height" && lower != "assertpositivenumber" && lower !in REFUSING
  {
  }


  /** Each entry's method name in lower case. */
  function VideoFoldedName(s: VideoSetter): string {
    match s
    case Common(c) => FoldedName(c)
    case Width => "width"
    case Height => "height"
    case PositiveCheck => "assertpositivenumber"
    case Refused(m) => m
  }

  /** What calling setter s with the single argument v does to the store. */
  function VideoApply(st: Settings, s: VideoSetter, v: Value): (r: Result<Settings>)
    ensures s.Common? && IsFlagSetter(s.setter) ==> r.Ok? && r.value.values == st.values
    ensures !(s.Common? && IsFlagSetter(s.setter)) && r.Ok? ==>
              r.value.flags == st.flags && Keys(r.value.values) == Keys(st.values) + VideoKeysWritten(s)
    ensures VideoKeysWritten(s) == {} && r.Ok? ==> r.value == st
    ensures s.Refused? ==> r == Err(WrongArguments(s.callee))
  {
    match s
    case Common(c) => Apply(st, c, v)
    case Width => Store(st, "width", v, AssertIntBetween(v, 64, 1920))
    case Height => Store(st, "height", v, AssertIntBetween(v, 64, 1080))
    case PositiveCheck =>
      (match AssertPositiveNumber(v)
       case Pass => Ok(st)
       case Fail(e) => Err(e))
    case Refused(m) => Err(WrongArguments(m))
  }

  /** The keys setter s may write. */
  function VideoKeysWritten(s: VideoSetter): set<string> {
    match s
    case Common(c) => KeysWritten(c)
    case Width => {"width"}
    case Height => {"height"}
    case PositiveCheck => {}
    case Refused(_) => {}
  }

  /**
   * The constructor's loop over its options array: each key naming a setter
   * calls it with the key's value, in array order; other keys are skipped; the
   * first setter that throws ends construction with its error.
   */
  function Configured(st: Settings, options: seq<(string, Value)>): (r: Result<Settings>)
    ensures r.Ok? ==> Keys(st.flags) <= Keys(r.value.flags) && Keys(st.values) <= Keys(r.value.values)
    ensures (forall i :: 0 <= i < |options| ==> VideoSetterNamed(options[i].0).None?) ==> r == Ok(st)
    decreases |options|
  {
    if options == [] then Ok(st)
    else match VideoSetterNamed(options[0].0)
      case None => Configured(st, options[1..])
      case Some(s) =>
        match VideoApply(st, s, options[0].1)
        case Err(e) => Err(e)
        case Ok(next) => Configured(next, options[1..])
  }

  /** width and height accept exactly their documented ranges and read back the value given. */
  lemma ResolutionAcceptsExactlyItsDomain(st: Settings, s: VideoSetter, v: Value)
    requires s.Width? || s.Height?
    ensures var key := if s.Width? then "width" else "height";
            && (VideoApply(st, s, v).Ok? <==> VideoInDomain(key, v))
            && (VideoApply(st, s, v).Ok? ==> Lookup(VideoApply(st, s, v).value.values, key) == Some(v))
  {
    var key := if s.Width? then "width" else "height";
    assert !InDomain(key, v);
    if VideoApply(st, s, v).Ok? {
      LookupAssign(st.values, key, v, key);
    }
  }

  /** A successful setter call changes no key other than its own, in either array. */
  lemma VideoApplyWritesOnlyItsKeys(st: Settings, s: VideoSetter, v: Value, k: string)
    requires VideoApply(st, s, v).Ok? && k !in VideoKeysWritten(s)
    ensures Lookup(VideoApply(st, s, v).value.flags, k) == Lookup(st.flags, k)
    ensures Lookup(VideoApply(st, s, v).value.values, k) == Lookup(st.values, k)
  {
    match s {
      case Common(c) => ApplyWritesOnlyItsKeys(st, c, v, k);
      case Width => LookupAssign(st.values, "width", v, k);
      case Height => LookupAssign(st.values, "height", v, k);
      case PositiveCheck =>
      case Refused(_) =>
    }
  }

  /** Writing a domain value under a non-flag key keeps the store consistent. */
  lemma StoreKeepsConsistent(st: Settings, key: string, v: Value)
    requires Consistent(st) && key !in FLAG_KEYS && VideoInDomain(key, v)
    ensures Consistent(st.(values := Assign(st.values, key, v)))
  {
  }

  /** Every setter of the table keeps the store consistent. */
  lemma VideoApplyKeepsConsistent(st: Settings, s: VideoSetter, v: Value)
    requires Consistent(st) && VideoApply(st, s, v).Ok?
    ensures Consistent(VideoApply(st, s, v).value)
  {
    match s {
      case Common(c) => ApplyKeepsInvariant(st, c, v);
      case Width => StoreKeepsConsistent(st, "width", v);
      case Height => StoreKeepsConsistent(st, "height", v);
      case PositiveCheck =>
      case Refused(_) =>
    }
  }

  /** Applying the options of a + b is applying a, then b to the result, unless a already failed. */
  lemma {:induction false} ConfiguredAppend(st: Settings, a: seq<(string, Value)>, b: seq<(string, Value)>)
    ensures Configured(st, a + b) == match Configured(st, a)
                                     case Ok(mid) => Configured(mid, b)
                                     case Err(e) => Err(e)
    decreases |a|
  {
    if a != [] {
      assert (a + b)[0] == a[0];
      assert (a + b)[1..] == a[1..] + b;
      match VideoSetterNamed(a[0].0) {
        case None => ConfiguredAppend(st, a[1..], b);
        case Some(s) =>
          match VideoApply(st, s, a[0].1) {
            case Err(e) =>
            case Ok(next) => ConfiguredAppend(next, a[1..], b);
          }
      }
    } else {
      assert a + b == b;
    }
  }

  /** An option key that names no setter has no effect, wherever it stands. */
  lemma UnknownOptionIgnored(st: Settings, a: seq<(string, Value)>, key: string, v: Value, b: seq<(string, Value)>)
    requires VideoSetterNamed(key).None?
    ensures Configured(st, a + [(key, v)] + b) == Configured(st, a + b)
  {
    ConfiguredAppend(st, a, [(key, v)] + b);
    ConfiguredAppend(st, a, b);
    assert a + [(key, v)] + b == a + ([(key, v)] + b);
    assert ([(key, v)] + b)[1..] == b;
    match Configured(st, a) {
      case Ok(mid) =>
      case Err(e) =>
    }
  }

  /** Construction keeps the store consistent. */
  lemma {:induction false} ConfiguredKeepsConsistent(st: Settings, options: seq<(string, Value)>)
    requires Consistent(st) && Configured(st, options).Ok?
    ensures Consistent(Configured(st, options).value)
    decreases |options|
  {
    if options != [] {
      match VideoSetterNamed(options[0].0) {
        case None => ConfiguredKeepsConsistent(st, options[1..]);
        case Some(s) =>
          VideoApplyKeepsConsistent(st, s, options[0].1);
          ConfiguredKeepsConsistent(VideoApply(st, s, options[0].1).value, options[1..]);
      }
    }
  }

  /** The video option keys are found in any letter case. */
  lemma ResolutionOptionNames()
    ensures VideoSetterNamed("width") == Some(Width)
    ensures VideoSetterNamed("Height") == Some(Height)
  {
    LowerAsciiOfLower("width");
    LowerAsciiOfLower("eight");
    assert "Height"[1..] == "eight";
  }

  /** Keys naming a Raspicam setter reach it through the video table. */
  lemma CommonOptionNames()
    ensures VideoSetterNamed("flip") == Some(Common(Flip))
    ensures VideoSetterNamed("ISO") == Some(Common(ISO))
  {
    LowerAsciiOfLower("flip");
    assert LowerAscii("O") == "o";
    assert LowerAscii("SO") == "so";
    assert LowerAscii("ISO") == "iso";
  }

  /** The private timeout is not reachable from the options array. */
  lemma TimeoutIsNoOption(key: string)
    requires key == "timeout"
    ensures VideoSetterNamed(key) == None
  {
    LowerAsciiOfLower(key);
  }

  /** A key naming no method, such as framerate, is skipped. */
  lemma FramerateIsNoOption(key: string)
    requires key == "framerate"
    ensures VideoSetterNamed(key) == None
  {
    LowerAsciiOfLower(key);
  }

  /** The protected validator assertPositiveNumber is reachable from the options array. */
  lemma ValidatorOptionName(key: string)
    requires key == "assertPositiveNumber"
    ensures VideoSetterNamed(key) == Some(PositiveCheck)
  {
    FoldsTo(key, "assertpositivenumber");
  }

  /** recordVideo needs a second argument, so the constructor refuses it as an option. */
  lemma RecordVideoOptionName(key: string)
    requires key == "recordVideo"
    ensures VideoSetterNamed(key) == Some(Refused("recordvideo"))
  {
    FoldsTo(key, "recordvideo");
  }

  /** A name folds to lower when each of its characters folds to the character of lower at that place. */
  lemma FoldsTo(name: string, lower: string)
    requires |name| == |lower| && forall i :: 0 <= i < |name| ==> LowerChar(name[i]) == lower[i]
    ensures LowerAscii(name) == lower
  {
  }


  /**
   * An assertPositiveNumber option writes nothing: a positive number lets the
   * remaining options run on the same store, anything else ends construction.
   */
  lemma PositiveCheckOption(st: Settings, key: string, v: Value, rest: seq<(string, Value)>)
    requires VideoSetterNamed(key) == Some(PositiveCheck)
    ensures AssertPositiveNumber(v).Pass? ==> Configured(st, [(key, v)] + rest) == Configured(st, rest)
    ensures AssertPositiveNumber(v).Fail? ==> Configured(st, [(key, v)] + rest) == Err(ExpectedPositiveNumber)
  {
    assert ([(key, v)] + rest)[1..] == rest;
  }

  /** An option naming a method that one scalar cannot call ends construction with that error. */
  lemma RefusedOption(st: Settings, key: string, v: Value, rest: seq<(string, Value)>)
    requires VideoSetterNamed(key).Some? && VideoSetterNamed(key).value.Refused?
    ensures Configured(st, [(key, v)] + rest) == Err(WrongArguments(LowerAscii(key)))
  {
  }

  /** The resolution cases of the tests. */
  lemma ResolutionExamples(st: Settings)
    ensures VideoApply(st, Width, Int(64)).Ok? && VideoApply(st, Width, Int(600)).Ok?
    ensures VideoApply(st, Height, Int(1080)).Ok? && VideoApply(st, Width, Int(1080)).Ok?
    ensures VideoApply(st, Width, Int(2592)).Err? && VideoApply(st, Height, Int(15)).Err?
    ensures VideoApply(st, Width, Float(100.5)).Err? && VideoApply(st, Height, Float(-12.0)).Err?
    ensures VideoApply(st, Width, Bool(false)).Err? && VideoApply(st, Height, Null).Err?
    ensures VideoApply(st, Width, Str("foo")).Err?
  {
  }

  /** The empty store of a newly created camera. */
  const EMPTY: Settings := Settings([], [])

  /** A named setter that throws ends construction with its error; the remaining options never run. */
  lemma ConfiguredFails(st: Settings, key: string, v: Value, rest: seq<(string, Value)>, s: VideoSetter)
    requires VideoSetterNamed(key) == Some(s) && VideoApply(st, s, v).Err?
    ensures Configured(st, [(key, v)] + rest) == Err(VideoApply(st, s, v).error)
  {
    assert ([(key, v)] + rest)[1..] == rest;
  }

  /** One step of the options loop: a key naming setter s applies it, then the rest follow. */
  lemma ConfiguredStep(st: Settings, key: string, v: Value, rest: seq<(string, Value)>, s: VideoSetter)
    requires VideoSetterNamed(key) == Some(s) && VideoApply(st, s, v).Ok?
    ensures Configured(st, [(key, v)] + rest) == Configured(VideoApply(st, s, v).value, rest)
  {
    assert ([(key, v)] + rest)[1..] == rest;
  }

  /** flip(true) on a fresh camera sets vflip, then hflip. */
  lemma FlipExample()
    ensures VideoApply(EMPTY, Common(Flip), Bool(true)) == Ok(Settings([("vflip", true), ("hflip", true)], []))
  {
    assert Keys<bool>([]) == {};
    assert Assign([], "vflip", true) == [("vflip", true)];
    assert Keys([("vflip", true)]) == {"vflip"};
    assert Assign([("vflip", true)], "hflip", true) == [("vflip", true), ("hflip", true)];
  }

  /** The flip option of the constructor example, whatever follows it. */
  lemma FlipOptionStep(rest: seq<(string, Value)>)
    ensures Configured(EMPTY, [("flip", Bool(true))] + rest)
         == Configured(Settings([("vflip", true), ("hflip", true)], []), rest)
  {
    CommonOptionNames();
    FlipExample();
    ConfiguredStep(EMPTY, "flip", Bool(true), rest, Common(Flip));
  }

  /** The width and height options of the constructor example. */
  lemma ResolutionOptionSteps(flags: seq<(string, bool)>)
    ensures Configured(Settings(flags, []), [("width", Int(600)), ("height", Int(400))])
         == Ok(Settings(flags, [("width", Int(600)), ("height", Int(400))]))
  {
    ResolutionOptionNames();
    LowerAsciiOfLower("height");
    ResolutionExampleSteps(flags);
    var wide := Settings(flags, [("width", Int(600))]);
    ConfiguredStep(wide, "height", Int(400), [], Height);
    ConfiguredStep(Settings(flags, []), "width", Int(600), [("height", Int(400))], Width);
  }

  /**
   * The constructor example of the tests: flip, width 600 and height 400 set
   * vflip and hflip, then store width and height, in that order.
   */
  lemma ConstructorExample(options: seq<(string, Value)>)
    requires options == [("flip", Bool(true)), ("width", Int(600)), ("height", Int(400))]
    ensures Configured(EMPTY, options) == Ok(Settings([("vflip", true), ("hflip", true)], [("width", Int(600)), ("height", Int(400))]))
  {
    var rest := [("width", Int(600)), ("height", Int(400))];
    assert options == [("flip", Bool(true))] + rest;
    FlipOptionStep(rest);
    ResolutionOptionSteps([("vflip", true), ("hflip", true)]);
  }

  /** width(600) and then height(400), whatever the flags. */
  lemma ResolutionExampleSteps(flags: seq<(string, bool)>)
    ensures VideoApply(Settings(flags, []), Width, Int(600)) == Ok(Settings(flags, [("width", Int(600))]))
    ensures VideoApply(Settings(flags, [("width", Int(600))]), Height, Int(400))
         == Ok(Settings(flags, [("width", Int(600)), ("height", Int(400))]))
  {
    WidthExampleStep(flags, []);
    HeightExampleStep(flags, [("width", Int(600))]);
  }

  lemma WidthExampleStep(flags: seq<(string, bool)>, values: seq<(string, Value)>)
    requires values == []
    ensures VideoApply(Settings(flags, values), Width, Int(600)) == Ok(Settings(flags, [("width", Int(600))]))
  {
    assert Keys(values) == {};
  }

  lemma HeightExampleStep(flags: seq<(string, bool)>, values: seq<(string, Value)>)
    requires values == [("width", Int(600))]
    ensures VideoApply(Settings(flags, values), Height, Int(400))
         == Ok(Settings(flags, [("width", Int(600)), ("height", Int(400))]))
  {
    assert Keys(values) == {"width"};
    assert Assign(values, "height", Int(400)) == values + [("height", Int(400))];
    assert values + [("height", Int(400))] == [("width", Int(600)), ("height", Int(400))];
  }


  /** The store the constructor example builds yields --vflip --hflip --width --height. */
  lemma ConstructorExampleArguments()
    ensures ArgumentList(Settings([("vflip", true), ("hflip", true)], [("width", Int(600)), ("height", Int(400))]))
         == [Switch("vflip"), Switch("hflip"), Valued("width", Int(600)), Valued("height", Int(400))]
  {
    var flags := [("vflip", true), ("hflip", true)];
    assert flags[..1] == [("vflip", true)];
    assert flags[..1][..0] == [];
    assert SwitchArguments(flags) == [Switch("vflip"), Switch("hflip")];
  }

  // ---------------------------------------------------------------------------
  // Recording

  /** The store recordVideo leaves and the command it hands to the runner, or its error. */
  datatype Recording = Recording(after: Settings, command: Result<Command>)

  /**
   * recordVideo: an empty filename is refused before anything is written; the
   * filename is then stored under output, the length is converted to
   * milliseconds under timeout, and the store's argument list is run.
   */
  function Record(st: Settings, filename: Value, length: Value, unit: string): (r: Recording)
    ensures Empty(filename) ==> r == Recording(st, Err(FilenameRequired))
    ensures r.command.Ok? <==> !Empty(filename) && Duration(length, unit, "ms").Ok?
    ensures r.command.Err? && !Empty(filename) ==> r.command.error == Duration(length, unit, "ms").error
    ensures r.command.Ok? ==> r.command.value == Command(COMMAND, ArgumentList(r.after))
  {
    if Empty(filename) then Recording(st, Err(FilenameRequired))
    else
      var withOutput := st.(values := Assign(st.values, "output", filename));
      match Duration(length, unit, "ms")
      case Err(e) => Recording(withOutput, Err(e))
      case Ok(ms) =>
        var done := withOutput.(values := Assign(withOutput.values, "timeout", Int(ms)));
        Recording(done, Ok(Command(COMMAND, ArgumentList(done))))
  }

  /**
   * What recordVideo changes: nothing for an empty filename; otherwise output
   * is the filename, and timeout is the length in milliseconds when the length
   * and unit are valid, or left as it was when they are not; no other key and
   * no flag changes.
   */
  lemma RecordWrites(st: Settings, filename: Value, length: Value, unit: string, k: string)
    ensures var r := Record(st, filename, length, unit);
            var d := Duration(length, unit, "ms");
            && (Empty(filename) ==> r == Recording(st, Err(FilenameRequired)))
            && (!Empty(filename) ==>
                  && r.after.flags == st.flags
                  && Lookup(r.after.values, "output") == Some(filename)
                  && (r.command.Ok? <==> d.Ok?)
                  && (d.Ok? ==> Lookup(r.after.values, "timeout") == Some(Int(d.value)) && d.value >= 1)
                  && (d.Err? ==> r.command == Err(d.error) && Lookup(r.after.values, "timeout") == Lookup(st.values, "timeout"))
                  && (k != "output" && k != "timeout" ==> Lookup(r.after.values, k) == Lookup(st.values, k)))
  {
    if !Empty(filename) {
      var withOutput := Assign(st.values, "output", filename);
      LookupAssign(st.values, "output", filename, "output");
      LookupAssign(st.values, "output", filename, "timeout");
      LookupAssign(st.values, "output", filename, k);
      var d := Duration(length, unit, "ms");
      if d.Ok? {
        LookupAssign(withOutput, "timeout", Int(d.value), "output");
        LookupAssign(withOutput, "timeout", Int(d.value), "timeout");
        LookupAssign(withOutput, "timeout", Int(d.value), k);
      }
    }
  }

  /** recordVideo keeps the store consistent, whether or not it fails. */
  lemma RecordKeepsConsistent(st: Settings, filename: Value, length: Value, unit: string)
    requires Consistent(st)
    ensures Consistent(Record(st, filename, length, unit).after)
  {
    if !Empty(filename) {
      StoreKeepsConsistent(st, "output", filename);
      var withOutput := st.(values := Assign(st.values, "output", filename));
      var d := Duration(length, unit, "ms");
      if d.Ok? {
        StoreKeepsConsistent(withOutput, "timeout", Int(d.value));
      }
    }
  }

  /** recordVideo keeps the arrays well formed. */
  lemma RecordKeepsWellFormed(st: Settings, filename: Value, length: Value, unit: string)
    requires WellFormed(st)
    ensures WellFormed(Record(st, filename, length, unit).after)
  {
    if !Empty(filename) {
      var withOutput := st.(values := Assign(st.values, "output", filename));
      AssignKeepsWellFormed(st, "output", filename);
      var d := Duration(length, unit, "ms");
      if d.Ok? {
        AssignKeepsWellFormed(withOutput, "timeout", Int(d.value));
      }
    }
  }

  /** Writing any value under a non-flag key keeps the arrays well formed. */
  lemma AssignKeepsWellFormed(st: Settings, key: string, v: Value)
    requires WellFormed(st) && key !in FLAG_KEYS
    ensures WellFormed(st.(values := Assign(st.values, key, v)))
  {
  }

  /**
   * The command recordVideo runs is raspivid with --output set to the filename
   * and --timeout to the length in milliseconds, and no flag name twice.
   */
  lemma RecordCommandArguments(st: Settings, filename: Value, length: Value, unit: string)
    requires WellFormed(st)
    requires Record(st, filename, length, unit).command.Ok?
    ensures var cmd := Record(st, filename, length, unit).command.value;
            && cmd.executable == COMMAND
            && Valued("output", filename) in cmd.arguments
            && Valued("timeout", Int(Duration(length, unit, "ms").value)) in cmd.arguments
            && NamesDistinct(cmd.arguments)
  {
    var r := Record(st, filename, length, unit);
    var ms := Duration(length, unit, "ms").value;
    RecordWrites(st, filename, length, unit, "output");
    RecordKeepsWellFormed(st, filename, length, unit);
    LookupIsEntry(r.after.values, "output", filename);
    LookupIsEntry(r.after.values, "timeout", Int(ms));
    ArgumentListShape(r.after);
  }

  /** recordVideo('foo.h264', 5) on a fresh camera runs raspivid --output 'foo.h264' --timeout '5000'. */
  lemma RecordExample()
    ensures Record(EMPTY, Str("foo.h264"), Int(5), "s").command ==
            Ok(Command("raspivid", [Valued("output", Str("foo.h264")), Valued("timeout", Int(5000))]))
    ensures Record(EMPTY, Str(""), Int(5), "s") == Recording(EMPTY, Err(FilenameRequired))
    ensures Record(EMPTY, Str("0"), Int(5), "s") == Recording(EMPTY, Err(FilenameRequired))
    ensures Record(EMPTY, Str("foo.h264"), Int(0), "s") ==
            Recording(Settings([], [("output", Str("foo.h264"))]), Err(ExpectedPositiveNumber))
  {
    RecordExampleRuns(EMPTY);
    RecordExampleZeroLength(EMPTY);
  }

  lemma RecordExampleRuns(st: Settings)
    requires st == EMPTY
    ensures Record(st, Str("foo.h264"), Int(5), "s").command ==
            Ok(Command("raspivid", [Valued("output", Str("foo.h264")), Valued("timeout", Int(5000))]))
  {
    assert Duration(Int(5), "s", "ms") == Ok(5000);
    assert Keys(st.values) == {};
    var output := [("output", Str("foo.h264"))];
    assert Assign(st.values, "output", Str("foo.h264")) == output;
    assert Keys(output) == {"output"};
    var done := Settings([], [("output", Str("foo.h264")), ("timeout", Int(5000))]);
    assert Assign(output, "timeout", Int(5000)) == done.values;
    assert Record(st, Str("foo.h264"), Int(5), "s").after == done;
    RecordExampleArguments(done);
  }

  lemma RecordExampleArguments(done: Settings)
    requires done == Settings([], [("output", Str("foo.h264")), ("timeout", Int(5000))])
    ensures ArgumentList(done) == [Valued("output", Str("foo.h264")), Valued("timeout", Int(5000))]
  {
    assert SwitchArguments([]) == [];
    assert ValueArguments(done.values) == [Valued("output", Str("foo.h264")), Valued("timeout", Int(5000))];
  }


  lemma RecordExampleZeroLength(st: Settings)
    requires st == EMPTY
    ensures Record(st, Str("foo.h264"), Int(0), "s") ==
            Recording(Settings([], [("output", Str("foo.h264"))]), Err(ExpectedPositiveNumber))
  {
    assert Keys(st.values) == {};
    assert Assign(st.values, "output", Str("foo.h264")) == [("output", Str("foo.h264"))];
  }


  // ---------------------------------------------------------------------------
  // The Raspivid object

  class Raspivid {
    const camera: Camera

    ghost predicate Valid()
      reads this, camera
    {
      Consistent(camera.Current())
    }

    constructor ()
      ensures fresh(camera) && Valid() && camera.Current() == EMPTY
    {
      camera := new Camera();
    }

    /** new Raspivid($options): create the camera, then apply the options. */
    static method New(options: seq<(string, Value)>) returns (r: Outcome, cam: Raspivid)
      ensures fresh(cam) && fresh(cam.camera) && cam.Valid()
      ensures match Configured(EMPTY, options)
              case Ok(st) => r == Pass && cam.camera.Current() == st
              case Err(e) => r == Fail(e)
    {
      cam := new Raspivid();
      r := cam.Configure(options);
    }

    /** The constructor's loop over its options array. */
    method Configure(options: seq<(string, Value)>) returns (r: Outcome)
      requires Valid()
      modifies camera
      ensures Valid()
      ensures match Configured(old(camera.Current()), options)
              case Ok(st) => r == Pass && camera.Current() == st
              case Err(e) => r == Fail(e)
    {
      var i := 0;
      while i < |options|
        invariant 0 <= i <= |options|
        invariant Valid()
        invariant Configured(old(camera.Current()), options) == Configured(camera.Current(), options[i..])
      {
        assert options[i..][0] == options[i] && options[i..][1..] == options[i + 1..];
        var (key, value) := options[i];
        var s := VideoSetterNamed(key);
        if s.Some? {
          r := Dispatch(s.value, value);
          if r.Fail? {
            return;
          }
        }
        i := i + 1;
      }
      assert options[i..] == [];
      r := Pass;
    }

    /** call_user_func([$this, $key], $value) for a setter of the table. */
    method Dispatch(s: VideoSetter, v: Value) returns (r: Outcome)
      requires Valid()
      modifies camera
      ensures Valid()
      ensures Applied(old(camera.Current()), camera.Current(), r, VideoApply(old(camera.Current()), s, v))
    {
      ghost var before := camera.Current();
      match s {
        case Common(c) =>
          r := camera.Call(c, v);
          if r.Pass? {
            ApplyKeepsInvariant(before, c, v);
          }
        case Width =>
          r := Width(v);
        case Height =>
          r := Height(v);
        case PositiveCheck =>
          r := AssertPositiveNumber(v);
        case Refused(m) =>
          r := Fail(WrongArguments(m));
      }
    }

    /** width: an int in [64, 1920], stored under width. */
    method Width(v: Value) returns (r: Outcome)
      requires Valid()
      modifies camera
      ensures Valid()
      ensures r == AssertIntBetween(v, 64, 1920)
      ensures Written(old(camera.Current()), camera.Current(), r, "width", v)
    {
      r := AssertIntBetween(v, 64, 1920);
      if r.Pass? {
        camera.valueArguments := Assign(camera.valueArguments, "width", v);
      }
    }

    /** height: an int in [64, 1080], stored under height. */
    method Height(v: Value) returns (r: Outcome)
      requires Valid()
      modifies camera
      ensures Valid()
      ensures r == AssertIntBetween(v, 64, 1080)
      ensures Written(old(camera.Current()), camera.Current(), r, "height", v)
    {
      r := AssertIntBetween(v, 64, 1080);
      if r.Pass? {
        camera.valueArguments := Assign(camera.valueArguments, "height", v);
      }
    }

    /** The private timeout: a positive length converted to milliseconds, stored under timeout. */
    method Timeout(v: Value, unit: string) returns (r: Outcome)
      requires Valid()
      modifies camera
      ensures Valid()
      ensures camera.booleanArguments == old(camera.booleanArguments)
      ensures var d := Duration(v, unit, "ms");
              && (d.Ok? ==> r == Pass && camera.valueArguments == Assign(old(camera.valueArguments), "timeout", Int(d.value)))
              && (d.Err? ==> r == Fail(d.error) && camera.valueArguments == old(camera.valueArguments))
    {
      r := AssertPositiveNumber(v);
      if r.Fail? {
        return;
      }
      var ms := ConvertTimeUnit(NumberOf(v), unit, "ms");
      if ms.Err? {
        r := Fail(ms.error);
        return;
      }
      assert Duration(v, unit, "ms") == ms;
      ghost var before := camera.Current();
      StoreKeepsConsistent(before, "timeout", Int(ms.value));
      camera.valueArguments := Assign(camera.valueArguments, "timeout", Int(ms.value));
      assert camera.Current() == before.(values := Assign(before.values, "timeout", Int(ms.value)));
    }

    /** buildCommand with raspivid as the executable. */
    method BuildCommand() returns (cmd: Command)
      ensures cmd == Command(COMMAND, ArgumentList(camera.Current()))
    {
      cmd := camera.BuildCommand(COMMAND);
    }

    /**
     * recordVideo: the runner is given the built command (ran) and reports
     * exitCode, which checkReturnValue turns into the outcome; describe stands
     * for the exit-code descriptions.
     */
    method RecordVideo(filename: Value, length: Value, timeUnit: string, exitCode: Option<int>, describe: int -> string)
      returns (r: Outcome, ran: Option<Command>)
      requires Valid()
      modifies camera
      ensures Valid()
      ensures var rec := Record(old(camera.Current()), filename, length, timeUnit);
              && camera.Current() == rec.after
              && (rec.command.Err? ==> r == Fail(rec.command.error) && ran == None)
              && (rec.command.Ok? ==> ran == Some(rec.command.value) && r == CheckReturnValue(exitCode, describe))
    {
      if Empty(filename) {
        r, ran := Fail(FilenameRequired), None;
        return;
      }
      camera.valueArguments := Assign(camera.valueArguments, "output", filename);
      r := Timeout(length, timeUnit);
      if r.Fail? {
        ran := None;
        return;
      }
      var cmd := BuildCommand();
      ran := Some(cmd);
      r := CheckReturnValue(exitCode, describe);
    }
  }
}
