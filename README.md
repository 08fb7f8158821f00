# raspicam-php option store, in Dafny

This project models the configuration core of the PHP library raspicam-php: the
camera object that collects command-line options for the Raspberry Pi camera
tools and turns them into an argument list, and its `raspivid` subclass, which
records videos.

A camera object holds two insertion-ordered PHP arrays:

- `booleanArguments` maps a bare flag (`vflip`, `hflip`) to a bool;
- `valueArguments` maps a flag name (`sharpness`, `ISO`, `awb`, `shutter`, `width`, `output`, `timeout`, …) to a scalar.

Every fluent setter validates its argument first and writes afterwards. A rejected value (an exception in PHP) therefore leaves both arrays as they were. `buildCommand` emits one bare flag for each true boolean entry, then one name/value argument for each value entry, each group in insertion order. `recordVideo` stores the output file and the recording length (converted to milliseconds) and runs the built command. It then reports the command runner's exit code as success (0) or as a failure carrying that code's description.

Files:

- `wrappers.dfy`: `Option`.
- `php.dfy` (module `Php`): the PHP scalar type, with its type tags and strict comparison, plus `empty()`, the `(bool)` cast and ASCII case folding of method names.
- `ordered_map.dfy` (module `OrderedMap`): a PHP array as a list of (key, value) entries, with reads and writes.
- `raspicam.dfy` (module `Raspicam`): the validators, time-unit conversion, the argument list, the setter table, and the class `Camera` with its setters and `BuildCommand`.
- `raspivid.dfy` (module `Raspivid`): the class `Raspivid`, which holds its `Camera`, plus the width/height/timeout setters, the constructor's options loop and `RecordVideo`.

Each stateful operation is a method on a class. Its contract ties the new state to a pure function of the old state: `Apply`/`VideoApply` for one setter call, `Configured` for the options array, `Record` for `recordVideo` and `ArgumentList` for `buildCommand`. The properties are proved about those functions. The class invariant `Raspivid.Valid` is preserved by every method. It says the arrays have distinct keys, flags live only under `vflip`/`hflip`, and every stored value lies in its key's documented domain.

Exceptions become values:

- `Outcome` is `Pass`, or `Fail(error)` for a thrown exception.
- `Result<T>` is `Ok(value)` or `Err(error)`.

PHP's dynamic values become `Php.Value`: `Int`, `Float` (an exact real), `Str`, `Bool` or `Null`. Strict comparison (`===`, `in_array(..., true)`) is then datatype equality, and `is_int`/`is_float` are constructor tests.

## Model

| member | source | states |
|---|---|---|
| Php.ToBool | src/Raspicam.php:134-140 | The `(bool)` cast that the flip setters store is true exactly when PHP's `empty()` is false (so `"0"` and `""` are false). |
| Php.Empty | src/Raspivid.php:94 | `empty()` is true exactly for null, false, 0, 0.0, "" and "0". |
| Php.LowerAscii | src/Raspicam.php:116-125 | Folding a method name keeps its length and maps every character to its lower-case form: `A`-`Z` become `a`-`z`, everything else is unchanged. |
| Php.LowerAsciiIdempotent | src/Raspicam.php:116-125 | Folding case twice equals folding once, so a key and its lower-case form name the same method. |
| Php.LowerAsciiOfLower | src/Raspicam.php:116-125 | A name with no upper-case ASCII letter is unchanged by case folding. |
| OrderedMap.Lookup | src/Raspicam.php:95-104 | Reading an array key yields a value exactly when the key is present. |
| OrderedMap.Assign | src/Raspicam.php:136-137 | `$a[$k] = $v` adds k to the key set. An existing key keeps its position and no entry moves. A new key is appended at the end. No other entry is created. Distinct keys stay distinct. |
| OrderedMap.LookupAssign | src/Raspicam.php:136-137 | After `$a[$k] = $v`, reading k gives v and every other key gives what it gave before. |
| OrderedMap.AssignTwice | src/Raspicam.php:136-137 | Writing the same key twice equals writing only the later value. |
| OrderedMap.LookupIsEntry | src/Raspicam.php:95-104 | In an array with distinct keys, reading k gives v exactly when (k, v) is an entry. |
| Raspicam.AssertIntBetween | src/Raspicam.php:670-677 | Passes exactly for an int-tagged value in [min, max]. Floats, bools, null and strings fail with the range error. |
| Raspicam.AssertInArray | src/Raspicam.php:683-690 | Passes exactly when the value is strictly (type and value) one of the listed values. |
| Raspicam.AssertPositiveNumber | src/Raspicam.php:695-700 | Passes exactly for an int or float above zero, so zero is rejected. |
| Raspicam.Ceil | src/Raspicam.php:746 | `ceil`: the least integer not below x. |
| Raspicam.InputFactor | src/Raspicam.php:711-727 | Exactly the units m, s, ms and us are accepted as input, each with a positive factor in microseconds. |
| Raspicam.OutputFactor | src/Raspicam.php:730-744 | Exactly s, ms and us are output units, with the same factor as on input, each dividing 10⁶. |
| Raspicam.ConvertTimeUnit | src/Raspicam.php:709-747 | An unknown input unit is an error, checked first. An output unit outside s/ms/us (minute included) is the next error. A known input unit with an output unit of s, ms or us always succeeds, and the result is value × input factor / output factor rounded up. |
| Raspicam.Duration | src/Raspicam.php:517-528 | A duration argument is checked positive before its unit is converted. A non-positive value gives that error, a bad unit gives the conversion's error, a positive number with valid units always succeeds, and a successful result is at least 1. |
| Raspicam.ConvertSameUnit | src/Raspicam.php:709-747 | Converting a whole number between the same unit returns it unchanged. |
| Raspicam.ConvertMonotonic | src/Raspicam.php:709-747 | A longer duration never converts to a smaller number, and it converts whenever the shorter one does. |
| Raspicam.ConversionExamples | src/Raspicam.php:709-747 | The conversions of the tests: 2 s → 2000000 us, 1.54 s → 1540000 us, 4000 ms → 4000000 us, 5000000 us → 5000000 us and → 5000 ms, and 5 s → 5000 ms, and the minute as an input unit: 1 m → 60000 ms, 0.5 m → 30 s. Input unit `foo` and output unit `m` are errors. |
| Raspicam.SwitchArguments | src/Raspicam.php:642-646 | The bare flags are at most one per boolean entry, and each is named after a key of `booleanArguments`. |
| Raspicam.ValueArguments | src/Raspicam.php:648-650 | Exactly one name/value argument per value entry, at the same position. |
| Raspicam.SwitchArgumentsAppend | src/Raspicam.php:642-646 | The bare flags of two concatenated lists are the concatenation of their bare flags, so insertion order is kept. |
| Raspicam.SwitchPresentIff | src/Raspicam.php:642-646 | The flag `--name` is emitted exactly when some entry maps name to true. |
| Raspicam.SwitchPresentIffTrue | src/Raspicam.php:642-646 | With distinct keys, `--name` is emitted exactly when name's stored value is true. |
| Raspicam.SwitchNamesDistinct | src/Raspicam.php:642-646 | Bare flags built from distinct keys have distinct names. |
| Raspicam.ArgumentList | src/Raspicam.php:638-653 | `--name` is in the built list exactly when name maps to true in `booleanArguments`, and a name/value argument exactly when that pair is in `valueArguments`. |
| Raspicam.ArgumentSources | src/Raspicam.php:642-650 | The first loop's bare flags come from exactly the true entries and the second loop's arguments from exactly the value entries. |
| Raspicam.ArgumentListShape | src/Raspicam.php:638-653 | In the built argument list no flag name appears twice, and every bare flag comes before every name/value argument. |
| Raspicam.FoldedSetter | src/Raspicam.php:116-125 | A lower-case name finds a setter only when it is that setter's lower-case method name. |
| Raspicam.SetterNamed | src/Raspicam.php:116-125 | An option key finds a setter only when its case-folded form is that setter's lower-case method name. |
| Raspicam.FoldedSetterFinds | src/Raspicam.php:116-125 | Every setter's lower-case method name finds that setter. |
| Raspicam.SetterNamedIff | src/Raspicam.php:116-125 | An option key reaches setter s exactly when it equals s's method name up to ASCII case. |
| Raspicam.SetterNamedIgnoresCase | src/Raspicam.php:116-125 | An option key finds the same setter whatever its letter case. |
| Raspicam.Apply | src/Raspicam.php:134-556 | A flip setter always succeeds, leaves `valueArguments` as it was and adds only its own flags. A value setter leaves `booleanArguments` as it was and adds only its own key. It succeeds exactly when its validator passes (for shutterSpeed, when the duration converts), and fails with that validator's error. |
| Raspicam.ApplyWritesOnlyItsKeys | src/Raspicam.php:134-556 | A successful setter call leaves every key it does not own unchanged, in both arrays. A value setter does not touch `booleanArguments` at all. |
| Raspicam.FlagSetterControlsSwitch | src/Raspicam.php:134-168 | After flip, verticalFlip or horizontalFlip, each of its flags is in the built list exactly when the value given was truthy, so setting a flag back to false removes it. |
| Raspicam.ApplyAcceptsExactlyItsDomain | src/Raspicam.php:177-504 | Each range and enumeration setter succeeds exactly for the values in its key's domain, and the key then reads back the value given. |
| Raspicam.RangeCheckIsDomain | src/Raspicam.php:177-232 | sharpness, contrast and saturation accept the ints in [-100, 100], and brightness the ints in [0, 100]. |
| Raspicam.NarrowRangeCheckIsDomain | src/Raspicam.php:241-264 | ISO accepts the ints in [100, 800] and ev the ints in [-10, 10]; mode (sensorMode, lines 549-556) the ints in [0, 7]. |
| Raspicam.ModeCheckIsDomain | src/Raspicam.php:288-418 | exposure, awb and imxfx accept exactly their listed mode strings. |
| Raspicam.ShortModeCheckIsDomain | src/Raspicam.php:433-504 | metering and drc accept exactly their listed strings, and rotation exactly the ints 0, 90, 180 and 270. |
| Raspicam.CheckIsDomain | src/Raspicam.php:177-556 | Every range or enumeration validation is exactly its key's domain. |
| Raspicam.ShutterSpeedAcceptsPositive | src/Raspicam.php:517-528 | shutterSpeed in its default unit (seconds) succeeds exactly for positive numbers, and stores ⌈value × 1000000⌉ under `shutter`. |
| Raspicam.StoreKeepsInvariant | src/Raspicam.php:177-556 | Writing a validated value under a non-flag key keeps the arrays well formed, and adds only domain values. |
| Raspicam.FlagSetterKeepsInvariant | src/Raspicam.php:134-168 | Flip setters always succeed, leave `valueArguments` alone and keep the arrays well formed. |
| Raspicam.ApplyKeepsInvariant | src/Raspicam.php:134-556 | Every setter keeps the arrays well formed, and every value it adds lies in its key's domain. |
| Raspicam.RotationExamples | src/Raspicam.php:490-504 | rotate accepts the int 90 and rejects the string "90", the int 1, the float 5.5, false and null. |
| Raspicam.CheckReturnValue | src/Raspicam.php:592-607 | A runner without an exit code counts as success, and so does exit code 0. Any other code fails with that code's description. |
| Raspicam.Camera.constructor | src/Raspicam.php:95-104 | A new camera has two empty arrays. |
| Raspicam.Camera.Flip | src/Raspicam.php:134-140 | Sets `vflip`, then `hflip`, to the truth value of v. `valueArguments` is unchanged. |
| Raspicam.Camera.VerticalFlip | src/Raspicam.php:149-154 | Sets only `vflip`. |
| Raspicam.Camera.HorizontalFlip | src/Raspicam.php:163-168 | Sets only `hflip`. |
| Raspicam.Camera.Sharpness | src/Raspicam.php:177-184 | Validates [-100, 100], then writes `sharpness`. On failure nothing changes. |
| Raspicam.Camera.Contrast | src/Raspicam.php:193-200 | Validates [-100, 100], then writes `contrast`. On failure nothing changes. |
| Raspicam.Camera.Brightness | src/Raspicam.php:209-216 | Validates [0, 100], then writes `brightness`. On failure nothing changes. |
| Raspicam.Camera.Saturation | src/Raspicam.php:225-232 | Validates [-100, 100], then writes `saturation`. On failure nothing changes. |
| Raspicam.Camera.ISO | src/Raspicam.php:241-248 | Validates [100, 800], then writes `ISO`. On failure nothing changes. |
| Raspicam.Camera.ExposureCompensation | src/Raspicam.php:257-264 | Validates [-10, 10], then writes `ev`. On failure nothing changes. |
| Raspicam.Camera.Exposure | src/Raspicam.php:288-310 | Validates against the twelve exposure modes, then writes `exposure`. On failure nothing changes. |
| Raspicam.Camera.WhiteBalance | src/Raspicam.php:332-352 | Validates against the ten white-balance modes, then writes `awb`. On failure nothing changes. |
| Raspicam.Camera.Effect | src/Raspicam.php:386-418 | Validates against the 22 effects, then writes `imxfx`. On failure nothing changes. |
| Raspicam.Camera.Metering | src/Raspicam.php:433-447 | Validates against the four metering modes, then writes `metering`. On failure nothing changes. |
| Raspicam.Camera.DynamicRangeCompression | src/Raspicam.php:465-479 | Validates against off/low/medium/high, then writes `drc`. On failure nothing changes. |
| Raspicam.Camera.Rotate | src/Raspicam.php:490-504 | Validates against the ints 0/90/180/270, then writes `rotation`. On failure nothing changes. |
| Raspicam.Camera.ShutterSpeed | src/Raspicam.php:517-528 | A positive value in a valid unit is stored in microseconds under `shutter`. A non-positive value or a bad unit fails with both arrays unchanged. |
| Raspicam.Camera.SensorMode | src/Raspicam.php:549-556 | Validates [0, 7], then writes `mode`. On failure nothing changes. |
| Raspicam.Camera.Call | src/Raspicam.php:116-125 | Calling a setter by table entry does exactly what `Apply` specifies: the new arrays on success, the old arrays and the error on failure. |
| Raspicam.Camera.BuildCommand | src/Raspicam.php:638-653 | The two loops produce the executable followed by exactly `ArgumentList` of the current arrays. |
| Raspivid.VideoSetterNamed | src/Raspicam.php:116-125 | An option key finds an entry exactly when its case-folded form is `width`, `height`, `assertpositivenumber`, a refused method's name or an inherited setter's name, and then finds that entry: the key is unknown otherwise. A found entry's lower-case name is the folded key. Every inherited setter stays reachable under its own name. |
| Raspivid.InheritedNamesNotShadowed | src/Raspivid.php:51-74 | No inherited setter's name is width, height, assertPositiveNumber or a refused method. |
| Raspivid.VideoApply | src/Raspivid.php:51-74 | A flip setter leaves `valueArguments` as it was. Any other successful call leaves `booleanArguments` as it was and adds only its own key. A call that owns no key (assertPositiveNumber) changes nothing when it passes. A refused method always fails with a type or arity error. |
| Raspivid.Configured | src/Raspicam.php:116-125 | Applying options never removes a key, and options that all name no method leave the store as it was. |
| Raspivid.ResolutionAcceptsExactlyItsDomain | src/Raspivid.php:51-74 | width succeeds exactly for ints in [64, 1920] and height exactly for ints in [64, 1080]. The key then reads back the value given. |
| Raspivid.VideoApplyWritesOnlyItsKeys | src/Raspivid.php:51-74 | A successful setter of the video table leaves every key it does not own unchanged. |
| Raspivid.VideoApplyKeepsConsistent | src/Raspivid.php:51-74 | Every setter of the video table keeps the arrays well formed and every stored value in its domain. |
| Raspivid.ConfiguredAppend | src/Raspicam.php:116-125 | Applying options a + b equals applying a, then b to the result. If a fails, the whole call fails with a's error. |
| Raspivid.UnknownOptionIgnored | src/Raspicam.php:116-125 | A key that names no setter has no effect, wherever it stands among the options. |
| Raspivid.ConfiguredKeepsConsistent | src/Raspicam.php:116-125 | Applying an options array keeps the arrays well formed and every value in its domain. |
| Raspivid.ResolutionOptionNames | src/Raspivid.php:51-74 | The option keys `width` and `Height` reach the width and height setters. |
| Raspivid.CommonOptionNames | src/Raspicam.php:116-125 | The option keys `flip` and `ISO` reach the inherited setters. |
| Raspivid.TimeoutIsNoOption | src/Raspivid.php:113-124 | The private `timeout` cannot be reached through the options array. |
| Raspivid.FramerateIsNoOption | src/Raspivid.php:17-34 | A key naming no method (the `framerate` of the constructor's doc example) is skipped. |
| Raspivid.ValidatorOptionName | src/Raspicam.php:695-700 | The option key `assertPositiveNumber` reaches the protected validator. |
| Raspivid.RecordVideoOptionName | src/Raspivid.php:92 | The option key `recordVideo` reaches a method that one scalar cannot call. |
| Raspivid.FoldsTo | src/Raspicam.php:119-121 | A name whose characters each fold to the matching character of a lower-case name folds to that name. |
| Raspivid.PositiveCheckOption | src/Raspicam.php:695-700 | An `assertPositiveNumber` option writes nothing: a positive number lets the other options run on the same store, and anything else ends construction with the positive-number error. |
| Raspivid.RefusedOption | src/Raspicam.php:116-125 | An option naming a method that needs more than one scalar ends construction with a type or arity error. |
| Raspivid.ResolutionExamples | src/Raspivid.php:51-74 | The test cases: 64, 600 and 1080 are accepted. 2592, 15, 100.5, -12.0, false, null and "foo" are rejected. |
| Raspivid.ConfiguredStep | src/Raspicam.php:116-125 | One loop step: a key naming setter s applies it to the key's value, then the remaining options follow. |
| Raspivid.ConfiguredFails | src/Raspicam.php:119-123 | A key naming a setter that throws on its value ends construction with that setter's error, and the options after it never run. |
| Raspivid.FlipExample | src/Raspicam.php:134-140 | flip(true) on a fresh camera gives the flags vflip and hflip, in that order. |
| Raspivid.FlipOptionStep | src/Raspicam.php:116-125 | The option `flip => true` at the head of the array sets both flags, then the rest follow. |
| Raspivid.ResolutionOptionSteps | src/Raspivid.php:51-74 | The options `width => 600, height => 400` store width, then height. |
| Raspivid.ResolutionExampleSteps | src/Raspivid.php:51-74 | width(600) then height(400) append `width` and `height` in that order. |
| Raspivid.ConstructorExample | src/Raspivid.php:31-34 | The options flip, width 600 and height 400 give the flags vflip and hflip and the values width 600 and height 400. |
| Raspivid.ConstructorExampleArguments | src/Raspicam.php:638-653 | That store builds `--vflip --hflip --width 600 --height 400`. |
| Raspivid.Record | src/Raspivid.php:92-124 | An empty filename fails with nothing written. A command results exactly when the filename is not empty and the length converts, and it is `raspivid` with the argument list of the new store. Otherwise the error is the duration's. |
| Raspivid.RecordWrites | src/Raspivid.php:92-124 | An empty filename fails before anything is written. Otherwise `output` becomes the filename and no flag changes. A valid length stores ms ≥ 1 under `timeout` and the command runs. An invalid length or unit fails with `output` already written and `timeout` as it was. No other key changes. |
| Raspivid.RecordKeepsConsistent | src/Raspivid.php:92-124 | recordVideo keeps every stored value in its domain, whether it succeeds or fails. |
| Raspivid.RecordKeepsWellFormed | src/Raspivid.php:92-124 | recordVideo keeps the arrays' keys distinct and writes no flag, whether it succeeds or fails. |
| Raspivid.RecordCommandArguments | src/Raspivid.php:92-105 | The command run is `raspivid` with `--output` set to the filename and `--timeout` set to the length in milliseconds, with no flag name twice. |
| Raspivid.RecordExample | src/Raspivid.php:92-124 | recordVideo('foo.h264', 5) on a fresh camera runs `raspivid --output foo.h264 --timeout 5000`. The filenames "" and "0" are refused with nothing written. A zero length fails after `output` is written. |
| Raspivid.Raspivid.constructor | src/Raspivid.php:31-34 | A new Raspivid has a fresh camera with empty arrays. |
| Raspivid.Raspivid.New | src/Raspicam.php:116-125 | `new Raspivid($options)` ends in the state `Configured` gives for the options, or fails with the first setter error. |
| Raspivid.Raspivid.Configure | src/Raspicam.php:116-125 | The loop over the options array agrees with `Configured`. |
| Raspivid.Raspivid.Dispatch | src/Raspicam.php:119-123 | Calling a table entry (a setter, the validator or a refused method) does exactly what `VideoApply` specifies and keeps the invariant. |
| Raspivid.Raspivid.Width | src/Raspivid.php:51-58 | Validates [64, 1920], then writes `width`. On failure nothing changes. |
| Raspivid.Raspivid.Height | src/Raspivid.php:67-74 | Validates [64, 1080], then writes `height`. On failure nothing changes. |
| Raspivid.Raspivid.Timeout | src/Raspivid.php:113-124 | A positive length in a valid unit is stored in milliseconds under `timeout`. Otherwise it fails with nothing changed. |
| Raspivid.Raspivid.BuildCommand | src/Raspivid.php:39-42 | The executable is `raspivid`, followed by the built argument list. |
| Raspivid.Raspivid.RecordVideo | src/Raspivid.php:92-105 | The new state is `Record`'s. On an error nothing is run. Otherwise exactly the built command is run, and the outcome is `checkReturnValue` of the runner's exit code. |

## Left out

- The subprocess layer (`execute`, `getCommandRunner`, `setCommandRunner`, `getOutput`, and the runner library's `Exec`/`ReturnValue` classes) is external I/O. `RecordVideo` takes the runner's exit code as a parameter: `None` means a runner that reports none. It returns the command it would hand over. `ExitCodes::getDescription` is the parameter `describe`.
- `CommandBuilder` renders arguments as strings with shell quoting. That code is foreign, so the argument list stays abstract as bare flags and (name, value) pairs.
- Floating-point rounding in `$value * $modifier` and integer overflow of `(int) ceil(...)` are not modelled: the conversion uses exact reals. For example, 1.54 s is exactly 1540000 us here.
- Raspicam.ConvertTimeUnit: takes its units as strings. PHP's `switch` compares loosely; for string arguments against the non-numeric unit names this is plain equality, but a non-string unit (an int, null, …) is not modelled.
- Default arguments are supplied by the caller: `flip()` is `Flip(Bool(true))`, and `shutterSpeed($v)` and `recordVideo($f, $l)` use the unit "s".
- The constructor's `is_callable` lookup is modelled by an explicit table of what the constructor can reach with one scalar. It holds the setters flip through sensorMode, width and height, the protected validator `assertPositiveNumber` (which writes nothing, or throws), and the methods that PHP 7.1 and later refuses with a `TypeError` or `ArgumentCountError` before they run: `__construct`, `recordVideo`, `setCommandRunner`, `execute`, `checkReturnValue`, `assertIntBetween`, `assertInArray` and `convertTimeUnit`. Those refused methods end construction with the error `WrongArguments`; the model does not tell the two PHP error classes apart. The getters `getExecutable`, `getOutput`, `getCommandRunner` and `getCommandBuilder` and the method `buildCommand` accept one extra argument and change no option, so their keys are skipped like unknown ones; the runner that `getCommandRunner` creates on first use is not modelled. An array value under `__construct` would re-run the options loop in PHP; option values are scalars here, so that case is not modelled. The subclass's private `timeout` is not callable from the parent's constructor, so it is not in the table.
- Raspivid.Raspivid.Configure: when a setter throws, construction fails with that error. The state is then unobservable in PHP, so the contract says nothing about it.
- Option keys are strings. Integer array keys are not modelled.
- Inheritance is modelled as composition: a `Raspivid` holds its `Camera` and writes the camera's protected arrays.
- `src/Raspistill.php` is a stub returning a constant, and the example scripts call methods the library does not have, so neither is modelled.
- The process lifecycle (start/running/stop/kill) and EXIF tags are not part of the modelled source files. The `ENCODING_*` constants exist (src/Raspicam.php:76-79), but no setter in the modelled files uses them, so there is nothing to model.

## Behaviour worth knowing

- The doc comment of `rotate` (src/Raspicam.php:484) supports only 0, 90, 180 and 270 degrees. The check is strict membership (src/Raspicam.php:492-499 and 683-690), so `Float(90.0)` and `Str("90")` are rejected as well as 1 and 5.5.
- `convertTimeUnit` (src/Raspicam.php:709-747) accepts minutes as an input unit but not as an output unit, so converting to `m` is an error.
- `recordVideo` tests the filename with `empty()` (src/Raspivid.php:94), which is true for the string "0", so `recordVideo('0', …)` is refused as a missing filename.
- The constructor's doc example (src/Raspivid.php:20-26) passes `framerate`, which names no method, so it is silently skipped.
- The constructor reaches protected and private methods of the base class too (src/Raspicam.php:119-122), so `new Raspivid(['assertPositiveNumber' => 0])` throws, and so does an option named after a method that needs more than one argument.
