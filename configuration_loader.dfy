/**
  The configuration loader of the data generator: the checks and defaults
  applied to the configuration JSON once it is parsed, the trajectory file
  parser, and the camera's mounting pose. Reading the files and decoding the
  JSON text are not modelled: the loader starts from the decoded top-level
  object and from the text of the trajectory file.
*/
module ConfigurationLoader {
  import opened Wrappers
  import opened Text
  import opened Matrices
  import opened Numerics
  import opened Transforms

  /**
    A JSON number with a fraction or an exponent, as Python's json module
    reads it; it also accepts NaN, Infinity and -Infinity.
  */
  datatype Float = Finite(value: real) | NaN | PosInf | NegInf

  /** A decoded JSON value. Objects are maps: their key order is not kept. */
  datatype Json =
    | JNull
    | JBool(b: bool)
    | JInt(i: int)
    | JFloat(f: Float)
    | JString(s: string)
    | JArray(items: seq<Json>)
    | JObject(fields: map<string, Json>)

  type Object = map<string, Json>

  /**
    The exceptions that leave `_load_config`. `NotAnObject` stands for the
    TypeError Python raises when `in` meets a number, a boolean or null as the
    `camera` or `sequence` entry, and for the AttributeError of `.keys()` on a
    camera entry that is a string or a list.
  */
  datatype ConfigError =
    | KeyError(message: string)
    | TypeError(message: string)
    | OverflowError
    | NotAnObject(key: string)

  const RequiredKeys: seq<string> := ["output", "trajectory", "camera", "sequence"]
  const RequiredSequenceKeys: seq<string> := ["texture_number", "sequence_type", "sequence_number"]
  /** The optional camera entries, in the order the defaults are filled in. */
  const CameraDefaultKeys: seq<string> := ["x", "y", "z", "roll", "pitch", "yaw"]

  const MissingTopLevel := "Required value missing from JSON"
  const MissingCameraName := "Camera name missing from camera_properties in JSON"
  const MissingSequence := "Required sequence information is missing"
  const BadSequenceNumber := "sequence_number must be an integer"
  const BadTextureNumber := "texture_number must be an integer"

  /** The default of an optional camera entry: 1.5708 for the pitch, 0.0 for the others. */
  function CameraDefault(key: string): Json {
    JFloat(Finite(if key == "pitch" then 1.5708 else 0.0))
  }

  predicate HasKeys(m: Object, keys: seq<string>) {
    forall i :: 0 <= i < |keys| ==> keys[i] in m
  }

  /** The values Python's `in` accepts on its right: dictionaries, strings and lists. */
  predicate IsContainer(v: Json) {
    v.JObject? || v.JString? || v.JArray?
  }

  /**
    Python's `key in v`: a key of a dictionary, a substring of a string, an
    element of a list (only a string element can equal `key`).
  */
  predicate Contains(v: Json, key: string)
    requires IsContainer(v)
  {
    match v
    case JObject(fields) => key in fields
    case JString(s) => InString(key, s)
    case JArray(items) => JString(key) in items
  }

  predicate ContainsAll(v: Json, keys: seq<string>)
    requires IsContainer(v)
  {
    forall i :: 0 <= i < |keys| ==> Contains(v, keys[i])
  }

  lemma TopLevelKeys(m: Object)
    ensures HasKeys(m, RequiredKeys)
        <==> "output" in m && "trajectory" in m && "camera" in m && "sequence" in m
  {
    assert RequiredKeys[0] == "output" && RequiredKeys[1] == "trajectory";
    assert RequiredKeys[2] == "camera" && RequiredKeys[3] == "sequence";
  }

  lemma SequenceKeys(v: Json)
    requires IsContainer(v)
    ensures ContainsAll(v, RequiredSequenceKeys)
        <==> Contains(v, "texture_number") && Contains(v, "sequence_type") && Contains(v, "sequence_number")
  {
    assert RequiredSequenceKeys[0] == "texture_number";
    assert RequiredSequenceKeys[1] == "sequence_type" && RequiredSequenceKeys[2] == "sequence_number";
  }

  /** Python's `int(x)` on a finite float: truncation toward zero. */
  function Truncate(x: real): (n: int)
    ensures x >= 0.0 ==> 0 <= n && n as real <= x < n as real + 1.0
    ensures x < 0.0 ==> n <= 0 && n as real - 1.0 < x <= n as real
  {
    if x >= 0.0 then x.Floor else -((-x).Floor)
  }

  /**
    How `int(v)` fails: with a TypeError or ValueError, which the loader
    turns into its own TypeError, or with an OverflowError, which it lets
    through.
  */
  datatype IntFailure = Invalid | Overflow

  /**
    Python's `int(v)` on a decoded JSON value: integers as they are, booleans
    as 1 and 0, finite floats truncated, NaN a ValueError, the infinities an
    OverflowError, strings through the base-10 integer parser, anything else
    a TypeError.
  */
  function IntOf(v: Json): (r: Result<int, IntFailure>)
    ensures v.JInt? ==> r == Success(v.i)
    ensures r == Failure(Overflow) <==> v == JFloat(PosInf) || v == JFloat(NegInf)
  {
    match v
    case JInt(i) => Success(i)
    case JBool(b) => Success(if b then 1 else 0)
    case JFloat(f) =>
      (match f
       case Finite(x) => Success(Truncate(x))
       case NaN => Failure(Invalid)
       case _ => Failure(Overflow))
    case JString(s) =>
      (match ParseInt(s)
       case Some(n) => Success(n)
       case None => Failure(Invalid))
    case _ => Failure(Invalid)
  }

  /** The camera block once the default-filling loop has run. */
  function WithDefaults(camera: Object): (r: Object)
    ensures forall k :: k in r <==> k in camera || k in CameraDefaultKeys
    ensures forall k :: k in camera ==> r[k] == camera[k]
    ensures forall k :: k in r && k !in camera ==> r[k] == CameraDefault(k)
  {
    map k | k in camera.Keys + set i | 0 <= i < |CameraDefaultKeys| :: CameraDefaultKeys[i]
      :: if k in camera then camera[k] else CameraDefault(k)
  }

  /** The `sequence` block with both numbers replaced by their `int()`. */
  function WithNumbers(sequence: Object, number: int, texture: int): Object
    requires "sequence_number" in sequence && "texture_number" in sequence
  {
    sequence["sequence_number" := JInt(number)]["texture_number" := JInt(texture)]
  }

  /**
    What `_load_config` makes of a decoded configuration: the checks in the
    order the source makes them, then the result with the camera defaults
    filled in and the two numbers converted. A camera entry that is a string
    or a list holding "name" fails at `.keys()`; a sequence entry that is a
    string or a list holding the three keys fails when it is indexed by
    "sequence_number", inside the first conversion.
  */
  function Validate(configs: Object): Result<Object, ConfigError> {
    TopLevelKeys(configs);
    if !HasKeys(configs, RequiredKeys) then Failure(KeyError(MissingTopLevel))
    else if !IsContainer(configs["camera"]) then Failure(NotAnObject("camera"))
    else if !Contains(configs["camera"], "name") then Failure(KeyError(MissingCameraName))
    else if !configs["camera"].JObject? then Failure(NotAnObject("camera"))
    else if !IsContainer(configs["sequence"]) then Failure(NotAnObject("sequence"))
    else if !ContainsAll(configs["sequence"], RequiredSequenceKeys) then Failure(KeyError(MissingSequence))
    else if !configs["sequence"].JObject? then Failure(TypeError(BadSequenceNumber))
    else
      var sequence := configs["sequence"].fields;
      SequenceKeys(configs["sequence"]);
      match IntOf(sequence["sequence_number"])
      case Failure(e) => Failure(if e == Overflow then OverflowError else TypeError(BadSequenceNumber))
      case Success(number) =>
        match IntOf(sequence["texture_number"])
        case Failure(e) => Failure(if e == Overflow then OverflowError else TypeError(BadTextureNumber))
        case Success(texture) =>
          Success(configs["camera" := JObject(WithDefaults(configs["camera"].fields))]
                         ["sequence" := JObject(WithNumbers(sequence, number, texture))])
  }

  /** The default-filling loop: each missing optional key gets its default, in order. */
  method FillCameraDefaults(camera: Object) returns (filled: Object)
    ensures filled == WithDefaults(camera)
  {
    filled := camera;
    var i := 0;
    while i < |CameraDefaultKeys|
      invariant 0 <= i <= |CameraDefaultKeys|
      invariant forall k :: k in filled <==> k in camera || k in CameraDefaultKeys[..i]
      invariant forall k :: k in camera ==> filled[k] == camera[k]
      invariant forall k :: k in filled && k !in camera ==> filled[k] == CameraDefault(k)
    {
      var key := CameraDefaultKeys[i];
      if key !in filled {
        filled := filled[key := CameraDefault(key)];
      }
      assert CameraDefaultKeys[..i + 1] == CameraDefaultKeys[..i] + [key];
      i := i + 1;
    }
    assert CameraDefaultKeys[..i] == CameraDefaultKeys;
  }

  /** `_load_config` after the file is decoded: it updates the configuration in place. */
  method LoadConfig(configs: Object) returns (r: Result<Object, ConfigError>)
    ensures r == Validate(configs)
  {
    TopLevelKeys(configs);
    if !HasKeys(configs, RequiredKeys) {
      return Failure(KeyError(MissingTopLevel));
    }
    var camera := configs["camera"];
    if !IsContainer(camera) {
      return Failure(NotAnObject("camera"));
    }
    if !Contains(camera, "name") {
      return Failure(KeyError(MissingCameraName));
    }
    if !camera.JObject? {
      return Failure(NotAnObject("camera"));
    }
    var filled := FillCameraDefaults(camera.fields);
    var withCamera := configs["camera" := JObject(filled)];
    var result := withCamera;
    var block := result["sequence"];
    if !IsContainer(block) {
      return Failure(NotAnObject("sequence"));
    }
    if !ContainsAll(block, RequiredSequenceKeys) {
      return Failure(KeyError(MissingSequence));
    }
    if !block.JObject? {
      return Failure(TypeError(BadSequenceNumber));
    }
    var original := block.fields;
    var sequence := original;
    SequenceKeys(block);
    var number := IntOf(sequence["sequence_number"]);
    if number.Failure? {
      return Failure(if number.error == Overflow then OverflowError else TypeError(BadSequenceNumber));
    }
    sequence := sequence["sequence_number" := JInt(number.value)];
    result := withCamera["sequence" := JObject(sequence)];
    var texture := IntOf(sequence["texture_number"]);
    if texture.Failure? {
      return Failure(if texture.error == Overflow then OverflowError else TypeError(BadTextureNumber));
    }
    sequence := sequence["texture_number" := JInt(texture.value)];
    result := withCamera["sequence" := JObject(sequence)];
    assert sequence == WithNumbers(original, number.value, texture.value);
    return Success(result);
  }

  /** Everything `_load_config` requires of a configuration, key by key. */
  predicate Acceptable(configs: Object) {
    && "output" in configs && "trajectory" in configs && "camera" in configs && "sequence" in configs
    && configs["camera"].JObject? && "name" in configs["camera"].fields
    && configs["sequence"].JObject?
    && var sequence := configs["sequence"].fields;
       && "texture_number" in sequence && "sequence_type" in sequence && "sequence_number" in sequence
       && IntOf(sequence["sequence_number"]).Success? && IntOf(sequence["texture_number"]).Success?
  }

  /** A configuration loads exactly when it has every required entry and both numbers convert. */
  lemma ValidateAccepts(configs: Object)
    ensures Validate(configs).Success? <==> Acceptable(configs)
  {
    TopLevelKeys(configs);
    if "sequence" in configs && IsContainer(configs["sequence"]) {
      SequenceKeys(configs["sequence"]);
    }
  }

  /** A missing top-level entry is a KeyError, whatever else is wrong. */
  lemma MissingTopLevelKey(configs: Object, key: string)
    requires key in RequiredKeys && key !in configs
    ensures Validate(configs) == Failure(KeyError(MissingTopLevel))
  {
    TopLevelKeys(configs);
  }

  /**
    A camera entry that `in` accepts but that does not hold "name" is a
    KeyError: an object without the key, a string without the substring, a
    list without the element.
  */
  lemma MissingCameraNameKey(configs: Object)
    requires "output" in configs && "trajectory" in configs && "camera" in configs && "sequence" in configs
    requires IsContainer(configs["camera"]) && !Contains(configs["camera"], "name")
    ensures Validate(configs) == Failure(KeyError(MissingCameraName))
  {
    TopLevelKeys(configs);
  }

  /**
    A sequence entry that `in` accepts but that lacks one of the three required
    keys is a KeyError, whether it is an object, a string or a list.
  */
  lemma MissingSequenceKey(configs: Object, key: string)
    requires "output" in configs && "trajectory" in configs && "camera" in configs && "sequence" in configs
    requires configs["camera"].JObject? && "name" in configs["camera"].fields
    requires IsContainer(configs["sequence"])
    requires key in RequiredSequenceKeys && !Contains(configs["sequence"], key)
    ensures Validate(configs) == Failure(KeyError(MissingSequence))
  {
    TopLevelKeys(configs);
    SequenceKeys(configs["sequence"]);
  }

  /**
    The entries that are not dictionaries: a scalar camera or sequence entry
    fails at `in`; a string or list camera holding "name" fails at `.keys()`;
    a string or list sequence holding the three keys fails when indexed, which
    the first conversion reports as its TypeError.
  */
  lemma NonObjectBlocks(configs: Object)
    requires "output" in configs && "trajectory" in configs && "camera" in configs && "sequence" in configs
    ensures !IsContainer(configs["camera"]) ==> Validate(configs) == Failure(NotAnObject("camera"))
    ensures IsContainer(configs["camera"]) && !configs["camera"].JObject? && Contains(configs["camera"], "name")
            ==> Validate(configs) == Failure(NotAnObject("camera"))
    ensures configs["camera"].JObject? && "name" in configs["camera"].fields && !IsContainer(configs["sequence"])
            ==> Validate(configs) == Failure(NotAnObject("sequence"))
    ensures configs["camera"].JObject? && "name" in configs["camera"].fields
            && IsContainer(configs["sequence"]) && !configs["sequence"].JObject?
            && ContainsAll(configs["sequence"], RequiredSequenceKeys)
            ==> Validate(configs) == Failure(TypeError(BadSequenceNumber))
  {
    TopLevelKeys(configs);
  }

  /**
    A loaded configuration has the keys it was given. The camera block gains
    the missing defaults, the two numbers become their `int()`, and nothing
    else changes.
  */
  lemma ValidateResult(configs: Object)
    requires Acceptable(configs)
    ensures Validate(configs).Success?
    ensures var r := Validate(configs).value;
            var sequence := configs["sequence"].fields;
            && r.Keys == configs.Keys
            && (forall k :: k in configs && k != "camera" && k != "sequence" ==> r[k] == configs[k])
            && r["camera"] == JObject(WithDefaults(configs["camera"].fields))
            && r["sequence"].JObject?
            && r["sequence"].fields.Keys == sequence.Keys
            && r["sequence"].fields["sequence_number"] == JInt(IntOf(sequence["sequence_number"]).value)
            && r["sequence"].fields["texture_number"] == JInt(IntOf(sequence["texture_number"]).value)
            && (forall k :: k in sequence && k != "sequence_number" && k != "texture_number"
                  ==> r["sequence"].fields[k] == sequence[k])
  {
    ValidateAccepts(configs);
    var sequence := configs["sequence"].fields;
    var number, texture := IntOf(sequence["sequence_number"]).value, IntOf(sequence["texture_number"]).value;
    ValidateValue(configs, number, texture);
    UpdatedEntries(configs, WithDefaults(configs["camera"].fields), sequence, number, texture);
  }

  /** An acceptable configuration loads to its camera and sequence blocks replaced. */
  lemma ValidateValue(configs: Object, number: int, texture: int)
    requires Acceptable(configs)
    requires number == IntOf(configs["sequence"].fields["sequence_number"]).value
    requires texture == IntOf(configs["sequence"].fields["texture_number"]).value
    ensures Validate(configs)
         == Success(configs["camera" := JObject(WithDefaults(configs["camera"].fields))]
                           ["sequence" := JObject(WithNumbers(configs["sequence"].fields, number, texture))])
  {
    ValidateAccepts(configs);
  }

  /** Replacing the camera and sequence blocks keeps every key and every other entry. */
  lemma UpdatedEntries(configs: Object, camera: Object, sequence: Object, number: int, texture: int)
    requires "camera" in configs && "sequence" in configs
    requires "sequence_number" in sequence && "texture_number" in sequence
    ensures var r := configs["camera" := JObject(camera)]["sequence" := JObject(WithNumbers(sequence, number, texture))];
            && r.Keys == configs.Keys
            && (forall k :: k in configs && k != "camera" && k != "sequence" ==> r[k] == configs[k])
            && r["camera"] == JObject(camera)
            && r["sequence"].fields.Keys == sequence.Keys
            && r["sequence"].fields["sequence_number"] == JInt(number)
            && r["sequence"].fields["texture_number"] == JInt(texture)
            && (forall k :: k in sequence && k != "sequence_number" && k != "texture_number"
                  ==> r["sequence"].fields[k] == sequence[k])
  {
  }

  /** Filling the defaults twice is filling them once; a full camera block is left as it is. */
  lemma WithDefaultsIdempotent(camera: Object)
    ensures WithDefaults(WithDefaults(camera)) == WithDefaults(camera)
    ensures (forall i :: 0 <= i < |CameraDefaultKeys| ==> CameraDefaultKeys[i] in camera)
            ==> WithDefaults(camera) == camera
  {
    if forall i :: 0 <= i < |CameraDefaultKeys| ==> CameraDefaultKeys[i] in camera {
      assert forall k :: k in CameraDefaultKeys ==> k in camera;
    }
  }

  /** A configuration that loaded loads again to itself. */
  lemma ValidateIdempotent(configs: Object)
    requires Validate(configs).Success?
    ensures Validate(Validate(configs).value) == Validate(configs)
  {
    var r := Validate(configs).value;
    ValidateAccepts(configs);
    ValidateResult(configs);
    var camera := WithDefaults(configs["camera"].fields);
    WithDefaultsIdempotent(configs["camera"].fields);
    assert "name" in camera;
    var numbers := r["sequence"].fields;
    assert Acceptable(r);
    ValidateAccepts(r);
    var again := Validate(r).value;
    ValidateResult(r);
    assert again["sequence"] == r["sequence"] by {
      assert WithNumbers(numbers, IntOf(numbers["sequence_number"]).value,
                         IntOf(numbers["texture_number"]).value) == numbers;
    }
    assert again == r;
  }

  /** `int()` on the strings the tests use: a digit string parses, a word and a decimal do not. */
  lemma IntOfStrings()
    ensures IntOf(JString("2")) == Success(2)
    ensures IntOf(JString("blah")) == Failure(Invalid)
    ensures IntOf(JString("2.1")) == Failure(Invalid)
  {
    IntOfString("2");
    IntOfString("blah");
    IntOfString("2.1");
    ParseIntDigit();
    ParseIntRejectsWord();
    ParseIntRejectsDecimal();
  }

  lemma IntOfString(s: string)
    ensures IntOf(JString(s)) == match ParseInt(s) case Some(n) => Success(n) case None => Failure(Invalid)
  {
  }

  /** `int()` on the other JSON scalars: floats truncate toward zero, booleans count as 1 and 0. */
  lemma IntOfScalars()
    ensures IntOf(JFloat(Finite(2.7))) == Success(2)
    ensures IntOf(JFloat(Finite(-2.7))) == Success(-2)
    ensures IntOf(JBool(true)) == Success(1)
    ensures IntOf(JFloat(NaN)) == Failure(Invalid)
    ensures IntOf(JNull) == Failure(Invalid)
  {
    assert Truncate(2.7) == 2;
    assert Truncate(-2.7) == -2;
  }

  /** The sequence block of the tests' configuration. */
  function ExampleSequence(): Object {
    map["sequence_number" := JInt(1), "sequence_type" := JString("regular"), "texture_number" := JInt(1)]
  }

  /** The camera block of the tests' configuration, with or without the optional entries. */
  function ExampleCamera(withOptions: bool): Object {
    if withOptions then
      map["name" := JString("Camera"), "x" := JFloat(Finite(0.0)), "y" := JFloat(Finite(0.0)),
          "z" := JFloat(Finite(0.0)), "roll" := JFloat(Finite(0.0)), "pitch" := JFloat(Finite(1.5708)),
          "yaw" := JFloat(Finite(0.0))]
    else
      map["name" := JString("Camera")]
  }

  /** The tests' configuration with the given camera and sequence blocks. */
  function ExampleConfig(camera: Object, sequence: Object): Object {
    map["camera" := JObject(camera), "output" := JString("output/"),
        "sequence" := JObject(sequence), "trajectory" := JString("trajectory.txt")]
  }

  /** The tests' configuration with arbitrary camera and sequence entries. */
  function ExampleEntries(camera: Json, sequence: Json): Object {
    map["camera" := camera, "output" := JString("output/"),
        "sequence" := sequence, "trajectory" := JString("trajectory.txt")]
  }

  /**
    Camera and sequence entries that are strings, lists or numbers: `in`
    looks for a substring or an element, or fails on a number.
  */
  lemma NonObjectExamples()
    ensures Validate(ExampleEntries(JString("abc"), JObject(ExampleSequence())))
         == Failure(KeyError(MissingCameraName))
    ensures Validate(ExampleEntries(JArray([]), JObject(ExampleSequence())))
         == Failure(KeyError(MissingCameraName))
    ensures Validate(ExampleEntries(JArray([JString("name")]), JObject(ExampleSequence())))
         == Failure(NotAnObject("camera"))
    ensures Validate(ExampleEntries(JInt(3), JObject(ExampleSequence())))
         == Failure(NotAnObject("camera"))
    ensures Validate(ExampleEntries(JObject(ExampleCamera(true)), JArray(KeyStrings(RequiredSequenceKeys))))
         == Failure(TypeError(BadSequenceNumber))
    ensures Validate(ExampleEntries(JObject(ExampleCamera(true)), JString("abc")))
         == Failure(KeyError(MissingSequence))
  {
    var camera := ExampleCamera(true);
    assert "name" in camera;
    var short := "abc";
    assert !InString("name", short);
    MissingCameraNameKey(ExampleEntries(JString(short), JObject(ExampleSequence())));
    MissingCameraNameKey(ExampleEntries(JArray([]), JObject(ExampleSequence())));
    NonObjectBlocks(ExampleEntries(JArray([JString("name")]), JObject(ExampleSequence())));
    NonObjectBlocks(ExampleEntries(JInt(3), JObject(ExampleSequence())));
    var keys := KeyStrings(RequiredSequenceKeys);
    assert ContainsAll(JArray(keys), RequiredSequenceKeys);
    NonObjectBlocks(ExampleEntries(JObject(camera), JArray(keys)));
    assert !InString(RequiredSequenceKeys[0], short);
    MissingSequenceKey(ExampleEntries(JObject(camera), JString(short)), RequiredSequenceKeys[0]);
  }

  /** The keys as a JSON list of strings. */
  function KeyStrings(keys: seq<string>): (r: seq<Json>)
    ensures |r| == |keys| && forall i :: 0 <= i < |keys| ==> r[i] == JString(keys[i])
  {
    seq(|keys|, i requires 0 <= i < |keys| => JString(keys[i]))
  }

  /** A camera block with only a name gets every default; a full one is kept. */
  lemma ExampleDefaults()
    ensures WithDefaults(ExampleCamera(false)) == ExampleCamera(true)
    ensures WithDefaults(ExampleCamera(true)) == ExampleCamera(true)
  {
    NameOnlyDefaults();
    FullCameraKept();
  }

  lemma NameOnlyDefaults()
    ensures WithDefaults(ExampleCamera(false)) == ExampleCamera(true)
  {
    NameOnlyKeys();
    NameOnlyValues();
  }

  lemma NameOnlyKeys()
    ensures WithDefaults(ExampleCamera(false)).Keys == ExampleCamera(true).Keys
  {
    var full := ExampleCamera(true);
    assert forall k :: k in full <==> k == "name" || k in CameraDefaultKeys;
  }

  lemma NameOnlyValues()
    ensures forall k :: k in ExampleCamera(true) ==>
              k in WithDefaults(ExampleCamera(false)) && WithDefaults(ExampleCamera(false))[k] == ExampleCamera(true)[k]
  {
    var full := ExampleCamera(true);
    assert forall k :: k in full && k != "name" ==> full[k] == CameraDefault(k) && k in CameraDefaultKeys;
  }

  lemma FullCameraKept()
    ensures WithDefaults(ExampleCamera(true)) == ExampleCamera(true)
  {
    var full := ExampleCamera(true);
    assert forall i :: 0 <= i < |CameraDefaultKeys| ==> CameraDefaultKeys[i] in full;
    WithDefaultsIdempotent(full);
  }

  /** The tests' configuration without options loads to the one with every default. */
  lemma ExampleLoads()
    ensures Validate(ExampleConfig(ExampleCamera(false), ExampleSequence()))
         == Success(ExampleConfig(ExampleCamera(true), ExampleSequence()))
    ensures Validate(ExampleConfig(ExampleCamera(true), ExampleSequence()))
         == Success(ExampleConfig(ExampleCamera(true), ExampleSequence()))
  {
    ExampleDefaults();
    ExampleLoadsWith(ExampleCamera(false));
    ExampleLoadsWith(ExampleCamera(true));
  }

  /** The tests' configuration with a named camera block loads to that block with its defaults. */
  lemma ExampleLoadsWith(camera: Object)
    requires "name" in camera
    requires WithDefaults(camera) == ExampleCamera(true)
    ensures Validate(ExampleConfig(camera, ExampleSequence()))
         == Success(ExampleConfig(ExampleCamera(true), ExampleSequence()))
  {
    var sequence := ExampleSequence();
    var configs := ExampleConfig(camera, sequence);
    assert WithNumbers(sequence, 1, 1) == sequence;
    assert configs["camera"].fields == camera && configs["sequence"].fields == sequence;
    assert Acceptable(configs);
    ValidateValue(configs, 1, 1);
    ExampleConfigUpdate(camera, sequence, ExampleCamera(true), sequence);
  }

  lemma ExampleConfigUpdate(camera: Object, sequence: Object, camera': Object, sequence': Object)
    ensures ExampleConfig(camera, sequence)["camera" := JObject(camera')]["sequence" := JObject(sequence')]
         == ExampleConfig(camera', sequence')
  {
  }

  /**
    A number that `int()` rejects with a TypeError or ValueError is reported
    as a TypeError naming the entry; the sequence number is checked first.
  */
  lemma RejectsNumber(configs: Object, key: string)
    requires "output" in configs && "trajectory" in configs && "camera" in configs && "sequence" in configs
    requires configs["camera"].JObject? && "name" in configs["camera"].fields
    requires configs["sequence"].JObject?
    requires var sequence := configs["sequence"].fields;
             && "texture_number" in sequence && "sequence_type" in sequence && "sequence_number" in sequence
             && (key == "sequence_number" || key == "texture_number")
             && IntOf(sequence[key]) == Failure(Invalid)
             && (key == "texture_number" ==> IntOf(sequence["sequence_number"]).Success?)
    ensures Validate(configs)
         == Failure(TypeError(if key == "sequence_number" then BadSequenceNumber else BadTextureNumber))
  {
    TopLevelKeys(configs);
    SequenceKeys(configs["sequence"]);
  }

  /** The tests' sequence block with one entry replaced keeps the three required keys. */
  lemma ExampleSequenceKeys(key: string, v: Json)
    requires key == "sequence_number" || key == "texture_number"
    ensures var sequence := ExampleSequence()[key := v];
            && "texture_number" in sequence && "sequence_type" in sequence && "sequence_number" in sequence
            && sequence[key] == v
            && (key == "texture_number" ==> sequence["sequence_number"] == JInt(1))
  {
  }

  /** A rejected number in the tests' configuration is reported as a TypeError. */
  lemma ExampleRejects(key: string, v: Json)
    requires key == "sequence_number" || key == "texture_number"
    requires IntOf(v) == Failure(Invalid)
    ensures Validate(ExampleConfig(ExampleCamera(true), ExampleSequence()[key := v]))
         == Failure(TypeError(if key == "sequence_number" then BadSequenceNumber else BadTextureNumber))
  {
    ExampleSequenceKeys(key, v);
    assert "name" in ExampleCamera(true);
    RejectsNumber(ExampleConfig(ExampleCamera(true), ExampleSequence()[key := v]), key);
  }

  /** An accepted number in the tests' configuration is stored as its `int()`. */
  lemma ExampleAccepts(key: string, v: Json, n: int)
    requires key == "sequence_number" || key == "texture_number"
    requires IntOf(v) == Success(n)
    ensures var loaded := Validate(ExampleConfig(ExampleCamera(true), ExampleSequence()[key := v]));
            loaded.Success? && loaded.value["sequence"].fields[key] == JInt(n)
  {
    ExampleSequenceKeys(key, v);
    assert "name" in ExampleCamera(true);
    ValidateResult(ExampleConfig(ExampleCamera(true), ExampleSequence()[key := v]));
  }

  /** A sequence or texture number of "blah" or "2.1" is a TypeError; "2" loads as 2. */
  lemma ExampleNumberStrings(key: string)
    requires key == "sequence_number" || key == "texture_number"
    ensures var message := if key == "sequence_number" then BadSequenceNumber else BadTextureNumber;
            && Validate(ExampleConfig(ExampleCamera(true), ExampleSequence()[key := JString("blah")]))
               == Failure(TypeError(message))
            && Validate(ExampleConfig(ExampleCamera(true), ExampleSequence()[key := JString("2.1")]))
               == Failure(TypeError(message))
    ensures var loaded := Validate(ExampleConfig(ExampleCamera(true), ExampleSequence()[key := JString("2")]));
            loaded.Success? && loaded.value["sequence"].fields[key] == JInt(2)
  {
    IntOfStrings();
    ExampleRejects(key, JString("blah"));
    ExampleRejects(key, JString("2.1"));
    ExampleAccepts(key, JString("2"), 2);
  }

  /** `int()` reads back what `format(n, '0{w}d')` wrote. */
  lemma IntOfFormatted(n: int, width: nat)
    ensures IntOf(JString(FormatInt(n, width))) == Success(n)
  {
    FormatIntRoundTrip(n, width);
    IntOfString(FormatInt(n, width));
  }

  // The camera's mounting pose

  /** A JSON value numpy stores in a float array: an integer, a boolean or a finite float. */
  predicate IsNumber(v: Json) {
    v.JInt? || v.JBool? || (v.JFloat? && v.f.Finite?)
  }

  function NumberValue(v: Json): real
    requires IsNumber(v)
  {
    match v
    case JInt(i) => i as real
    case JBool(b) => if b then 1.0 else 0.0
    case JFloat(f) => f.value
  }

  /** The six pose entries of a camera block are present and numeric. */
  predicate HasNumericPose(camera: Object) {
    && "x" in camera && IsNumber(camera["x"])
    && "y" in camera && IsNumber(camera["y"])
    && "z" in camera && IsNumber(camera["z"])
    && "roll" in camera && IsNumber(camera["roll"])
    && "pitch" in camera && IsNumber(camera["pitch"])
    && "yaw" in camera && IsNumber(camera["yaw"])
  }

  /**
    `create_camera_pose`: identity(4) with the translation in the last column
    and roll @ pitch @ yaw in the top-left block. It is the transform of the
    transform engine for the camera's six entries.
  */
  function CreateCameraPose(t: Trig, camera: Object): (pose: Matrix)
    requires HasNumericPose(camera)
    ensures pose == CreateTransformMatrix(t, NumberValue(camera["x"]), NumberValue(camera["y"]),
                                          NumberValue(camera["z"]), NumberValue(camera["roll"]),
                                          NumberValue(camera["pitch"]), NumberValue(camera["yaw"]))
  {
    var rotation := MatMul(MatMul(RollMatrix(t, NumberValue(camera["roll"])),
                                  PitchMatrix(t, NumberValue(camera["pitch"]))),
                           YawMatrix(t, NumberValue(camera["yaw"])));
    [rotation[0] + [NumberValue(camera["x"])],
     rotation[1] + [NumberValue(camera["y"])],
     rotation[2] + [NumberValue(camera["z"])],
     [0.0, 0.0, 0.0, 1.0]]
  }

  /** A camera block with only a name is mounted at the origin, pitched by 1.5708. */
  lemma DefaultCameraPose(t: Trig, camera: Object)
    requires forall i :: 0 <= i < |CameraDefaultKeys| ==> CameraDefaultKeys[i] !in camera
    ensures HasNumericPose(WithDefaults(camera))
    ensures CreateCameraPose(t, WithDefaults(camera)) == CreateTransformMatrix(t, 0.0, 0.0, 0.0, 0.0, 1.5708, 0.0)
  {
    assert CameraDefaultKeys[0] == "x" && CameraDefaultKeys[1] == "y" && CameraDefaultKeys[2] == "z";
    assert CameraDefaultKeys[3] == "roll" && CameraDefaultKeys[4] == "pitch" && CameraDefaultKeys[5] == "yaw";
  }

  // The trajectory file

  /** Python's `float(s)`: `None` where it raises ValueError. */
  type FloatParser = string -> Option<Float>

  /**
    What the model takes from `float()`: whitespace at either end is ignored,
    the empty string and a word are rejected, and the decimals the tests use
    read as themselves.
  */
  ghost predicate FloatLaw(parse: FloatParser) {
    && (forall c, s :: IsPythonSpace(c) ==> parse([c] + s) == parse(s))
    && (forall c, s :: IsPythonSpace(c) ==> parse(s + [c]) == parse(s))
    && parse("") == None && parse("the") == None
    && parse("0.0") == Some(Finite(0.0)) && parse("1.0") == Some(Finite(1.0))
    && parse("2.0") == Some(Finite(2.0)) && parse("3.0") == Some(Finite(3.0))
  }

  /** The characters `line.strip(' \n\r\t')` removes. */
  predicate IsPoseSpace(c: char) {
    c == ' ' || c == '\n' || c == '\r' || c == '\t'
  }

  const PoseFormatMessage := "Each pose must be 3 floats, separated by commas. Got: "

  /** `float()` of every field, or `None` when one of them fails. */
  function ParseFields(fields: seq<string>, parse: FloatParser): (r: Option<seq<Float>>)
    ensures r.Some? <==> forall i :: 0 <= i < |fields| ==> parse(fields[i]).Some?
    ensures r.Some? ==> |r.value| == |fields|
                        && forall i :: 0 <= i < |fields| ==> r.value[i] == parse(fields[i]).value
    decreases |fields|
  {
    if |fields| == 0 then Some([])
    else
      match ParseFields(fields[..|fields| - 1], parse)
      case None => None
      case Some(front) =>
        match parse(fields[|fields| - 1])
        case None => None
        case Some(x) => Some(front + [x])
  }

  /** One stripped, non-blank line of the trajectory file: three comma-separated floats. */
  function ParsePose(line: string, parse: FloatParser): (r: Result<seq<Float>, string>)
    ensures r.Success? ==> |r.value| == 3
    ensures r.Failure? ==> r.error == PoseFormatMessage + line
    ensures r.Success? <==> |SplitOn(line, ',')| == 3 && ParseFields(SplitOn(line, ','), parse).Some?
  {
    var fields := SplitOn(line, ',');
    if |fields| != 3 then Failure(PoseFormatMessage + line)
    else
      match ParseFields(fields, parse)
      case None => Failure(PoseFormatMessage + line)
      case Some(pose) => Success(pose)
  }

  /** The poses of the lines, in order, or the message for the first line that is not a pose. */
  function ParseTrajectory(lines: seq<string>, parse: FloatParser): Result<seq<seq<Float>>, string>
    decreases |lines|
  {
    if |lines| == 0 then Success([])
    else
      var line := Strip(lines[0], IsPoseSpace);
      if |line| == 0 then ParseTrajectory(lines[1..], parse)
      else
        match ParsePose(line, parse)
        case Failure(message) => Failure(message)
        case Success(pose) =>
          match ParseTrajectory(lines[1..], parse)
          case Failure(message) => Failure(message)
          case Success(poses) => Success([pose] + poses)
  }

  /** The poses already read in front of what the rest of the file gives. */
  function Prepend(done: seq<seq<Float>>, rest: Result<seq<seq<Float>>, string>): Result<seq<seq<Float>>, string> {
    match rest
    case Success(poses) => Success(done + poses)
    case Failure(message) => Failure(message)
  }

  /** The loop over the fields of one line. */
  method ReadPose(fields: seq<string>, parse: FloatParser) returns (r: Option<seq<Float>>)
    ensures r == ParseFields(fields, parse)
  {
    var pose: seq<Float> := [];
    var i := 0;
    while i < |fields|
      invariant 0 <= i <= |fields|
      invariant ParseFields(fields[..i], parse) == Some(pose)
    {
      var x := parse(fields[i]);
      assert fields[..i + 1][..i] == fields[..i];
      if x.None? {
        assert !ParseFields(fields, parse).Some?;
        return None;
      }
      pose := pose + [x.value];
      i := i + 1;
    }
    assert fields[..i] == fields;
    return Some(pose);
  }

  /** `_load_trajectory` on the text of the file. */
  method LoadTrajectory(text: string, parse: FloatParser) returns (r: Result<seq<seq<Float>>, string>)
    ensures r == ParseTrajectory(Lines(text), parse)
  {
    var lines := Lines(text);
    var result: seq<seq<Float>> := [];
    var i := 0;
    assert lines[i..] == lines;
    if ParseTrajectory(lines, parse).Success? {
      assert result + ParseTrajectory(lines, parse).value == ParseTrajectory(lines, parse).value;
    }
    while i < |lines|
      invariant 0 <= i <= |lines|
      invariant ParseTrajectory(lines, parse) == Prepend(result, ParseTrajectory(lines[i..], parse))
    {
      assert lines[i..][1..] == lines[i + 1..];
      var line := Strip(lines[i], IsPoseSpace);
      if |line| == 0 {
        i := i + 1;
        continue;
      }
      var fields := SplitOn(line, ',');
      if |fields| != 3 {
        return Failure(PoseFormatMessage + line);
      }
      var pose := ReadPose(fields, parse);
      if pose.None? {
        return Failure(PoseFormatMessage + line);
      }
      PrependStep(result, pose.value, ParseTrajectory(lines[i + 1..], parse));
      result := result + [pose.value];
      i := i + 1;
    }
    assert lines[i..] == [];
    assert result + [] == result;
    return Success(result);
  }

  lemma PrependStep(done: seq<seq<Float>>, pose: seq<Float>, rest: Result<seq<seq<Float>>, string>)
    ensures Prepend(done, match rest case Failure(m) => Failure(m) case Success(ps) => Success([pose] + ps))
         == Prepend(done + [pose], rest)
  {
    if rest.Success? {
      assert done + ([pose] + rest.value) == done + [pose] + rest.value;
    }
  }

  /** The lines the parser does not skip, stripped. */
  function NonBlank(lines: seq<string>): (r: seq<string>)
    ensures forall k :: 0 <= k < |r| ==> |r[k]| > 0
    decreases |lines|
  {
    if |lines| == 0 then []
    else
      var line := Strip(lines[0], IsPoseSpace);
      if |line| == 0 then NonBlank(lines[1..]) else [line] + NonBlank(lines[1..])
  }

  /** The poses of lines none of which is skipped. */
  function ParseAll(nb: seq<string>, parse: FloatParser): Result<seq<seq<Float>>, string>
    decreases |nb|
  {
    if |nb| == 0 then Success([])
    else
      match ParsePose(nb[0], parse)
      case Failure(message) => Failure(message)
      case Success(pose) =>
        match ParseAll(nb[1..], parse)
        case Failure(message) => Failure(message)
        case Success(poses) => Success([pose] + poses)
  }

  /** Skipping the blank lines and parsing the rest is the same as parsing the file. */
  lemma {:induction false} TrajectoryOfNonBlank(lines: seq<string>, parse: FloatParser)
    ensures ParseTrajectory(lines, parse) == ParseAll(NonBlank(lines), parse)
    decreases |lines|
  {
    if |lines| > 0 {
      TrajectoryOfNonBlank(lines[1..], parse);
      var line := Strip(lines[0], IsPoseSpace);
      if |line| > 0 {
        var nb := NonBlank(lines);
        assert nb[0] == line && nb[1..] == NonBlank(lines[1..]);
      }
    }
  }

  lemma {:induction false} ParseAllSuccess(nb: seq<string>, parse: FloatParser)
    ensures ParseAll(nb, parse).Success? <==> forall k :: 0 <= k < |nb| ==> ParsePose(nb[k], parse).Success?
    ensures var r := ParseAll(nb, parse);
            r.Success? ==> |r.value| == |nb|
                           && forall k :: 0 <= k < |nb| ==> r.value[k] == ParsePose(nb[k], parse).value
    decreases |nb|
  {
    if |nb| > 0 {
      ParseAllSuccess(nb[1..], parse);
      assert forall k :: 0 < k < |nb| ==> nb[k] == nb[1..][k - 1];
    }
  }

  lemma {:induction false} ParseAllFailure(nb: seq<string>, parse: FloatParser)
    ensures var r := ParseAll(nb, parse);
            r.Failure? ==> exists k :: 0 <= k < |nb| && r.error == PoseFormatMessage + nb[k]
                                       && ParsePose(nb[k], parse).Failure?
                                       && forall j :: 0 <= j < k ==> ParsePose(nb[j], parse).Success?
    decreases |nb|
  {
    var r := ParseAll(nb, parse);
    if |nb| > 0 && r.Failure? {
      if ParsePose(nb[0], parse).Failure? {
        assert r.error == PoseFormatMessage + nb[0];
      } else {
        ParseAllFailure(nb[1..], parse);
        var rest := nb[1..];
        var k :| 0 <= k < |rest| && ParseAll(rest, parse).error == PoseFormatMessage + rest[k]
                 && ParsePose(rest[k], parse).Failure?
                 && forall j :: 0 <= j < k ==> ParsePose(rest[j], parse).Success?;
        assert nb[k + 1] == rest[k];
        assert forall j :: 0 < j < k + 1 ==> nb[j] == rest[j - 1];
      }
    }
  }

  /**
    The trajectory is one pose per non-blank line, in order, when every such
    line is a pose; otherwise the message names the first one that is not.
  */
  lemma TrajectoryPoses(lines: seq<string>, parse: FloatParser)
    ensures var nb := NonBlank(lines);
            ParseTrajectory(lines, parse).Success?
            <==> forall k :: 0 <= k < |nb| ==> ParsePose(nb[k], parse).Success?
    ensures var nb := NonBlank(lines);
            var r := ParseTrajectory(lines, parse);
            r.Success? ==> |r.value| == |nb|
                           && forall k :: 0 <= k < |nb| ==> r.value[k] == ParsePose(nb[k], parse).value
    ensures var nb := NonBlank(lines);
            var r := ParseTrajectory(lines, parse);
            r.Failure? ==> exists k :: 0 <= k < |nb| && r.error == PoseFormatMessage + nb[k]
                                       && ParsePose(nb[k], parse).Failure?
                                       && forall j :: 0 <= j < k ==> ParsePose(nb[j], parse).Success?
  {
    TrajectoryOfNonBlank(lines, parse);
    ParseAllSuccess(NonBlank(lines), parse);
    ParseAllFailure(NonBlank(lines), parse);
  }

  /** A file of blank lines is an empty trajectory. */
  lemma {:induction false} BlankTrajectory(lines: seq<string>, parse: FloatParser)
    requires forall i :: 0 <= i < |lines| ==> Strip(lines[i], IsPoseSpace) == ""
    ensures NonBlank(lines) == []
    ensures ParseTrajectory(lines, parse) == Success([])
    decreases |lines|
  {
    if |lines| > 0 {
      BlankTrajectory(lines[1..], parse);
    }
  }

  /** A text without carriage returns splits into the pieces it joins with newlines. */
  lemma LinesOfJoin(text: string, parts: seq<string>)
    requires |parts| >= 1 && '\r' !in text
    requires forall i :: 0 <= i < |parts| ==> '\n' !in parts[i]
    requires text == JoinWith(parts, '\n')
    ensures Lines(text) == parts
  {
    TranslateNewlinesPlain(text);
    SplitJoin(parts, '\n');
  }

  /** Three lines joined with newlines. */
  lemma JoinThreeLines(a: string, b: string, c: string)
    ensures JoinWith([a, b, c], '\n') == a + "\n" + b + "\n" + c
  {
    assert [a, b, c][1..] == [b, c];
    assert [b, c][1..] == [c];
    assert JoinWith([b, c], '\n') == b + "\n" + c;
    assert a + "\n" + (b + "\n" + c) == a + "\n" + b + "\n" + c;
  }

  /** A line of three fields that parse to `x`, `y` and `z`. */
  lemma ThreeFieldPose(a: string, b: string, c: string, parse: FloatParser, x: Float, y: Float, z: Float)
    requires ',' !in a && ',' !in b && ',' !in c
    requires parse(a) == Some(x) && parse(b) == Some(y) && parse(c) == Some(z)
    ensures ParsePose(a + "," + b + "," + c, parse) == Success([x, y, z])
  {
    SplitThree(a, b, c, ',');
    var fields := [a, b, c];
    var r := ParseFields(fields, parse);
    assert r.value == [x, y, z];
  }

  /** A line of two fields is not a pose. */
  lemma TwoFieldLine(a: string, b: string, parse: FloatParser)
    requires ',' !in a && ',' !in b
    ensures ParsePose(a + "," + b, parse).Failure?
  {
    SplitTwo(a, b, ',');
  }

  /** A line of three fields whose last does not parse is not a pose. */
  lemma BadLastField(a: string, b: string, c: string, parse: FloatParser)
    requires ',' !in a && ',' !in b && ',' !in c
    requires parse(c) == None
    ensures ParsePose(a + "," + b + "," + c, parse).Failure?
  {
    SplitThree(a, b, c, ',');
    assert SplitOn(a + "," + b + "," + c, ',')[2] == c;
  }

  /** A first line that is a pose, then a second that is not. */
  lemma SecondLineFails(first: string, second: string, parse: FloatParser)
    requires |first| > 0 && !IsPoseSpace(first[0]) && !IsPoseSpace(first[|first| - 1])
    requires |second| > 0 && !IsPoseSpace(second[0]) && !IsPoseSpace(second[|second| - 1])
    requires ParsePose(first, parse).Success? && ParsePose(second, parse).Failure?
    ensures ParseTrajectory([first, second, ""], parse) == Failure(PoseFormatMessage + second)
  {
    StripUnchanged(first, IsPoseSpace);
    StripUnchanged(second, IsPoseSpace);
    var lines := [first, second, ""];
    assert lines[1..] == [second, ""];
    assert lines[1..][1..] == [""];
  }

  /** A first line that is a pose, then a second that is not, each ended by a newline. */
  lemma FailsOnSecondLine(text: string, first: string, second: string, parse: FloatParser)
    requires text == first + "\n" + second + "\n"
    requires '\n' !in first && '\r' !in first && '\n' !in second && '\r' !in second
    requires |first| > 0 && !IsPoseSpace(first[0]) && !IsPoseSpace(first[|first| - 1])
    requires |second| > 0 && !IsPoseSpace(second[0]) && !IsPoseSpace(second[|second| - 1])
    requires ParsePose(first, parse).Success? && ParsePose(second, parse).Failure?
    ensures ParseTrajectory(Lines(text), parse) == Failure(PoseFormatMessage + second)
  {
    JoinThreeLines(first, second, "");
    assert text == first + "\n" + second + "\n" + "";
    LinesOfJoin(text, [first, second, ""]);
    SecondLineFails(first, second, parse);
  }

  lemma ZeroPoseLine(parse: FloatParser)
    requires FloatLaw(parse)
    ensures ParsePose("0.0,0.0,0.0", parse) == Success([Finite(0.0), Finite(0.0), Finite(0.0)])
  {
    assert "0.0,0.0,0.0" == "0.0" + "," + "0.0" + "," + "0.0";
    ThreeFieldPose("0.0", "0.0", "0.0", parse, Finite(0.0), Finite(0.0), Finite(0.0));
  }

  /** An empty file of two newlines is an empty trajectory. */
  lemma EmptyFileTrajectory(parse: FloatParser)
    ensures ParseTrajectory(Lines("\n\n"), parse) == Success([])
  {
    var lines := ["", "", ""];
    assert JoinWith(lines, '\n') == "\n\n";
    LinesOfJoin("\n\n", lines);
    BlankTrajectory(lines, parse);
  }

  lemma EmptyThirdField(parse: FloatParser)
    requires FloatLaw(parse)
    ensures ParsePose("0.0,0.0,", parse).Failure?
  {
    assert "0.0,0.0," == "0.0" + "," + "0.0" + "," + "";
    BadLastField("0.0", "0.0", "", parse);
  }

  lemma WordThirdField(parse: FloatParser)
    requires FloatLaw(parse)
    ensures ParsePose("0.0,0.0,the", parse).Failure?
  {
    assert "0.0,0.0,the" == "0.0" + "," + "0.0" + "," + "the";
    BadLastField("0.0", "0.0", "the", parse);
  }

  /** The second line of a file that starts with a pose of zeros. */
  lemma ZeroThenLine(first: string, second: string, text: string)
    requires first == "0.0,0.0,0.0"
    requires text == "0.0,0.0,0.0\n" + second + "\n"
    ensures text == first + "\n" + second + "\n"
  {
    assert "0.0,0.0,0.0\n" == first + "\n";
  }

  /** A line of digits, dots, commas and letters holds no line break and no space at its ends. */
  lemma SingleLineShape(line: string)
    requires line == "0.0,0.0,the" || line == "0.0,0.0," || line == "0.0,0.0,0.0"
    ensures '\n' !in line && '\r' !in line
    ensures |line| > 0 && !IsPoseSpace(line[0]) && !IsPoseSpace(line[|line| - 1])
  {
  }

  /** A pose of zeros, then a line that is not a pose. */
  lemma ZerosThenFailure(text: string, second: string, parse: FloatParser)
    requires FloatLaw(parse)
    requires text == "0.0,0.0,0.0\n" + second + "\n"
    requires '\n' !in second && '\r' !in second
    requires |second| > 0 && !IsPoseSpace(second[0]) && !IsPoseSpace(second[|second| - 1])
    requires ParsePose(second, parse).Failure?
    ensures ParseTrajectory(Lines(text), parse) == Failure(PoseFormatMessage + second)
  {
    var first := "0.0,0.0,0.0";
    ZeroPoseLine(parse);
    SingleLineShape(first);
    ZeroThenLine(first, second, text);
    FailsOnSecondLine(text, first, second, parse);
  }

  /** A trailing line with an empty third field fails with that line in the message. */
  lemma NotFullPoseTrajectory(text: string, parse: FloatParser)
    requires FloatLaw(parse)
    requires text == "0.0,0.0,0.0\n" + "0.0,0.0," + "\n"
    ensures ParseTrajectory(Lines(text), parse) == Failure(PoseFormatMessage + "0.0,0.0,")
  {
    var second := "0.0,0.0,";
    EmptyThirdField(parse);
    SingleLineShape(second);
    ZerosThenFailure(text, second, parse);
  }

  /** A file whose only line has two fields fails with that line in the message. */
  lemma TwoFieldTrajectory(parse: FloatParser)
    ensures ParseTrajectory(Lines("0.0,0.0" + "\n"), parse) == Failure(PoseFormatMessage + "0.0,0.0")
  {
    var line := "0.0,0.0";
    assert line == "0.0" + "," + "0.0";
    TwoFieldLine("0.0", "0.0", parse);
    OnlyLineFails(line, parse);
  }

  /** A file of one line that is not a pose fails with that line in the message. */
  lemma OnlyLineFails(line: string, parse: FloatParser)
    requires '\n' !in line && '\r' !in line
    requires |line| > 0 && !IsPoseSpace(line[0]) && !IsPoseSpace(line[|line| - 1])
    requires ParsePose(line, parse).Failure?
    ensures ParseTrajectory(Lines(line + "\n"), parse) == Failure(PoseFormatMessage + line)
  {
    var lines := [line, ""];
    JoinTwoLines(line, "");
    assert line + "\n" == line + "\n" + "";
    LinesOfJoin(line + "\n", lines);
    StripUnchanged(line, IsPoseSpace);
  }

  /** A field that is a word fails with its line in the message. */
  lemma NotNumbersTrajectory(text: string, parse: FloatParser)
    requires FloatLaw(parse)
    requires text == "0.0,0.0,0.0\n" + "0.0,0.0,the" + "\n"
    ensures ParseTrajectory(Lines(text), parse) == Failure(PoseFormatMessage + "0.0,0.0,the")
  {
    var second := "0.0,0.0,the";
    WordThirdField(parse);
    SingleLineShape(second);
    ZerosThenFailure(text, second, parse);
  }

  /** Two lines joined with a newline. */
  lemma JoinTwoLines(a: string, b: string)
    ensures JoinWith([a, b], '\n') == a + "\n" + b
  {
    assert [a, b][1..] == [b];
  }

  /** Two lines and then two empty ones, joined with newlines. */
  lemma JoinTwoLinesBlankEnd(a: string, b: string)
    ensures JoinWith([a, b, "", ""], '\n') == a + "\n" + b + "\n\n"
  {
    assert [a, b, "", ""][1..] == [b, "", ""];
    JoinThreeLines(b, "", "");
    assert a + "\n" + (b + "\n" + "" + "\n" + "") == a + "\n" + b + "\n\n";
  }

  /** A file whose non-blank lines are two poses. */
  lemma TwoPoseLines(lines: seq<string>, first: string, second: string, parse: FloatParser, p: seq<Float>, q: seq<Float>)
    requires NonBlank(lines) == [first, second]
    requires ParsePose(first, parse) == Success(p) && ParsePose(second, parse) == Success(q)
    ensures ParseTrajectory(lines, parse) == Success([p, q])
  {
    TrajectoryOfNonBlank(lines, parse);
    ParseAllTwo(first, second, parse, p, q);
  }

  lemma ParseAllTwo(first: string, second: string, parse: FloatParser, p: seq<Float>, q: seq<Float>)
    requires ParsePose(first, parse) == Success(p) && ParsePose(second, parse) == Success(q)
    ensures ParseAll([first, second], parse) == Success([p, q])
  {
    assert ParseAll([], parse) == Success([]);
    ParseAllCons(second, [], parse, q, []);
    assert [second] + [] == [second] && [q] + [] == [q];
    ParseAllCons(first, [second], parse, p, [q]);
    assert [first] + [second] == [first, second] && [p] + [q] == [p, q];
  }

  /** A pose in front of lines that are all poses. */
  lemma ParseAllCons(line: string, rest: seq<string>, parse: FloatParser, pose: seq<Float>, poses: seq<seq<Float>>)
    requires ParsePose(line, parse) == Success(pose) && ParseAll(rest, parse) == Success(poses)
    ensures ParseAll([line] + rest, parse) == Success([pose] + poses)
  {
    var nb := [line] + rest;
    assert nb[0] == line && nb[1..] == rest;
  }

  /** Lines that are their own stripped form, with or without blank lines after them. */
  lemma TwoPlainLines(a: string, b: string)
    requires |a| > 0 && !IsPoseSpace(a[0]) && !IsPoseSpace(a[|a| - 1])
    requires |b| > 0 && !IsPoseSpace(b[0]) && !IsPoseSpace(b[|b| - 1])
    ensures NonBlank([a, b]) == [a, b]
    ensures NonBlank([a, b, "", ""]) == [a, b]
  {
    StripUnchanged(a, IsPoseSpace);
    StripUnchanged(b, IsPoseSpace);
    assert NonBlank(["", ""]) == [] by {
      assert ["", ""][1..] == [""];
      assert [""][1..] == [];
    }
    assert NonBlank([b]) == [b] by {
      assert [b][1..] == [];
    }
    assert [a, b][1..] == [b];
    var four := [a, b, "", ""];
    assert NonBlank([b, "", ""]) == [b] by {
      assert [b, "", ""][1..] == ["", ""];
    }
    assert four[1..] == [b, "", ""];
  }

  lemma OneTwoThreeLine(parse: FloatParser)
    requires FloatLaw(parse)
    ensures ParsePose("1.0,2.0,3.0", parse) == Success([Finite(1.0), Finite(2.0), Finite(3.0)])
  {
    assert "1.0,2.0,3.0" == "1.0" + "," + "2.0" + "," + "3.0";
    ThreeFieldPose("1.0", "2.0", "3.0", parse, Finite(1.0), Finite(2.0), Finite(3.0));
  }

  /** A field with one leading space reads as the field without it. */
  lemma SpacedField(field: string, parse: FloatParser)
    requires FloatLaw(parse)
    ensures parse([' '] + field) == parse(field)
  {
    assert IsPythonSpace(' ');
  }

  /** A line whose first field has a space before its comma still gives the pose. */
  lemma TrailingSpaceLine(parse: FloatParser)
    requires FloatLaw(parse)
    ensures ParsePose("1.0 ,2.0,3.0", parse) == Success([Finite(1.0), Finite(2.0), Finite(3.0)])
  {
    var first := "1.0";
    assert IsPythonSpace(' ');
    assert parse(first + [' ']) == parse(first);
    assert "1.0 ,2.0,3.0" == first + [' '] + "," + "2.0" + "," + "3.0";
    ThreeFieldPose(first + [' '], "2.0", "3.0", parse, Finite(1.0), Finite(2.0), Finite(3.0));
  }

  lemma SpacedZeroLine(parse: FloatParser)
    requires FloatLaw(parse)
    ensures ParsePose("0.0, 0.0, 0.0", parse) == Success([Finite(0.0), Finite(0.0), Finite(0.0)])
  {
    SpacedField("0.0", parse);
    assert " 0.0" == [' '] + "0.0";
    assert "0.0, 0.0, 0.0" == "0.0" + "," + " 0.0" + "," + " 0.0";
    ThreeFieldPose("0.0", " 0.0", " 0.0", parse, Finite(0.0), Finite(0.0), Finite(0.0));
  }

  lemma SpacedOneTwoThreeLine(parse: FloatParser)
    requires FloatLaw(parse)
    ensures ParsePose("1.0, 2.0, 3.0", parse) == Success([Finite(1.0), Finite(2.0), Finite(3.0)])
  {
    SpacedField("2.0", parse);
    SpacedField("3.0", parse);
    assert " 2.0" == [' '] + "2.0" && " 3.0" == [' '] + "3.0";
    assert "1.0, 2.0, 3.0" == "1.0" + "," + " 2.0" + "," + " 3.0";
    ThreeFieldPose("1.0", " 2.0", " 3.0", parse, Finite(1.0), Finite(2.0), Finite(3.0));
  }

  /** Two poses without whitespace and without a final newline. */
  lemma NoWhitespaceTrajectory(text: string, parse: FloatParser)
    requires FloatLaw(parse)
    requires text == "0.0,0.0,0.0\n1.0,2.0,3.0"
    ensures ParseTrajectory(Lines(text), parse)
            == Success([[Finite(0.0), Finite(0.0), Finite(0.0)], [Finite(1.0), Finite(2.0), Finite(3.0)]])
  {
    var a, b := "0.0,0.0,0.0", "1.0,2.0,3.0";
    JoinTwoLines(a, b);
    assert text == a + "\n" + b;
    LinesOfJoin(text, [a, b]);
    TwoPlainLines(a, b);
    ZeroPoseLine(parse);
    OneTwoThreeLine(parse);
    TwoPoseLines([a, b], a, b, parse, [Finite(0.0), Finite(0.0), Finite(0.0)], [Finite(1.0), Finite(2.0), Finite(3.0)]);
  }

  /** Two poses with spaces after the commas and blank lines at the end. */
  lemma WhitespaceTrajectory(text: string, parse: FloatParser)
    requires FloatLaw(parse)
    requires text == "0.0, 0.0, 0.0" + "\n" + "1.0, 2.0, 3.0" + "\n\n"
    ensures ParseTrajectory(Lines(text), parse)
            == Success([[Finite(0.0), Finite(0.0), Finite(0.0)], [Finite(1.0), Finite(2.0), Finite(3.0)]])
  {
    var a, b := "0.0, 0.0, 0.0", "1.0, 2.0, 3.0";
    LinesBlankEnd(a, b);
    TwoPlainLines(a, b);
    SpacedZeroLine(parse);
    SpacedOneTwoThreeLine(parse);
    TwoPoseLines([a, b, "", ""], a, b, parse, [Finite(0.0), Finite(0.0), Finite(0.0)], [Finite(1.0), Finite(2.0), Finite(3.0)]);
  }

  /** Two lines followed by a blank line split into those lines and two empty ones. */
  lemma LinesBlankEnd(a: string, b: string)
    requires '\n' !in a && '\r' !in a && '\n' !in b && '\r' !in b
    ensures Lines(a + "\n" + b + "\n\n") == [a, b, "", ""]
  {
    var text := a + "\n" + b + "\n\n";
    JoinTwoLinesBlankEnd(a, b);
    assert '\r' !in text;
    LinesOfJoin(text, [a, b, "", ""]);
  }
}
