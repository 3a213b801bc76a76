/**
 * The resizer's configuration: a PHP array with the keys "format", "mode",
 * "height" and "width", its defaults, the guarded setters that validate a
 * value before storing it, the constructor that applies the keys it is
 * given, and the merge of per-call overrides.
 *
 * Each operation is a pure function here; the class in module Resizer
 * performs the same updates in place and is proved against these functions.
 */
module ResizerConfig {
  import opened PhpValues

  /** The configuration array, keyed by option name. */
  type Config = map<string, Value>

  // PHP's image type constants.
  const ImageTypeGif: int := 1
  const ImageTypeJpeg: int := 2
  const ImageTypePng: int := 3

  // The class constants naming the resize modes.
  const ModeCover: string := "cover"
  const ModeShrink: string := "shrink"
  const ModeStretch: string := "stretch"

  const Keys: set<string> := {"format", "mode", "height", "width"}

  /** The configuration an instance starts with, before any setter runs. */
  const Defaults: Config :=
    map["format" := Int(ImageTypePng), "mode" := Str(ModeCover), "height" := Int(200), "width" := Int(300)]

  /** The formats setFormat accepts: GIF, JPEG and PNG. */
  predicate IsFormat(v: Value) {
    v.Int? && v.n in {ImageTypeGif, ImageTypeJpeg, ImageTypePng}
  }

  /** The modes setMode accepts: cover, shrink and stretch. */
  predicate IsMode(v: Value) {
    v.Str? && v.s in {ModeCover, ModeShrink, ModeStretch}
  }

  /** A width or height setWidth/setHeight accepts: an integer of at least 1. */
  predicate IsDimension(v: Value) {
    v.Int? && v.n >= 1
  }

  /** A configuration every setter keeps: the four keys, each holding a valid value. */
  predicate WellFormed(c: Config) {
    && c.Keys == Keys
    && IsFormat(c["format"])
    && IsMode(c["mode"])
    && IsDimension(c["height"])
    && IsDimension(c["width"])
  }

  /** `c'` is `c` with `key` set to `v` and every other entry as it was. */
  predicate StoredOnly(c: Config, c': Config, key: string, v: Value) {
    && c'.Keys == c.Keys + {key}
    && c'[key] == v
    && forall k :: k in c && k != key ==> c'[k] == c[k]
  }

  lemma DefaultsWellFormed()
    ensures WellFormed(Defaults)
    ensures Defaults["format"] == Int(ImageTypePng) && Defaults["mode"] == Str(ModeCover)
    ensures Defaults["width"] == Int(300) && Defaults["height"] == Int(200)
  {
  }

  /** Stores `v` under `key` when `valid`, and otherwise throws InvalidValue. */
  function Guarded(c: Config, key: string, v: Value, valid: bool): (r: Result<Config>)
    ensures r.Success? <==> valid
    ensures r.Failure? ==> r.error == InvalidValue
    ensures r.Success? ==> StoredOnly(c, r.value, key, v)
  {
    if valid then Success(c[key := v]) else Failure(InvalidValue)
  }

  function SetFormat(c: Config, v: Value): (r: Result<Config>)
    ensures r.Success? <==> IsFormat(v)
    ensures r.Failure? ==> r.error == InvalidValue
    ensures r.Success? ==> StoredOnly(c, r.value, "format", v)
    ensures r.Success? && WellFormed(c) ==> WellFormed(r.value)
  {
    Guarded(c, "format", v, IsFormat(v))
  }

  function SetMode(c: Config, v: Value): (r: Result<Config>)
    ensures r.Success? <==> IsMode(v)
    ensures r.Failure? ==> r.error == InvalidValue
    ensures r.Success? ==> StoredOnly(c, r.value, "mode", v)
    ensures r.Success? && WellFormed(c) ==> WellFormed(r.value)
  {
    Guarded(c, "mode", v, IsMode(v))
  }

  function SetWidth(c: Config, v: Value): (r: Result<Config>)
    ensures r.Success? <==> IsDimension(v)
    ensures r.Failure? ==> r.error == InvalidValue
    ensures r.Success? ==> StoredOnly(c, r.value, "width", v)
    ensures r.Success? && WellFormed(c) ==> WellFormed(r.value)
  {
    Guarded(c, "width", v, IsDimension(v))
  }

  /** setHeight as evidently intended: the validated height is stored under "height". */
  function SetHeight(c: Config, v: Value): (r: Result<Config>)
    ensures r.Success? <==> IsDimension(v)
    ensures r.Failure? ==> r.error == InvalidValue
    ensures r.Success? ==> StoredOnly(c, r.value, "height", v)
    ensures r.Success? && WellFormed(c) ==> WellFormed(r.value)
  {
    Guarded(c, "height", v, IsDimension(v))
  }

  /**
   * setHeight as written: after validating the height it assigns the
   * undefined variable `$width`, which PHP reads as null, to "width".
   */
  function SetHeightAsWritten(c: Config, v: Value): (r: Result<Config>)
    ensures r.Success? <==> IsDimension(v)
    ensures r.Success? ==> StoredOnly(c, r.value, "width", Null)
  {
    Guarded(c, "width", Null, IsDimension(v))
  }

  /** The height stored by setHeight as written is lost, and the width is wiped out. */
  lemma SetHeightAsWrittenLosesHeight(c: Config, h: int)
    requires WellFormed(c) && h >= 1
    ensures SetHeightAsWritten(c, Int(h)).Success?
    ensures SetHeightAsWritten(c, Int(h)).value["height"] == c["height"]
    ensures SetHeightAsWritten(c, Int(h)).value["width"] == Null
    ensures !WellFormed(SetHeightAsWritten(c, Int(h)).value)
    ensures SetHeight(c, Int(h)).value["height"] == Int(h)
  {
  }

  /** PHP's isset on an array key: the key is present and its value is not null. */
  predicate IsSet(m: map<string, Value>, key: string) {
    key in m && m[key] != Null
  }

  /**
   * The constructor's effect on a fresh configuration: for each of format,
   * mode, height and width, in that order, the setter runs only when the key
   * is set in the argument, and the first setter that throws aborts
   * construction. `setHeight` is the setter used for the height key.
   */
  function ConstructUsing(arg: Option<map<string, Value>>, setHeight: (Config, Value) -> Result<Config>): Result<Config>
  {
    match arg
    case None => Success(Defaults)
    case Some(m) =>
      var c1 :- if IsSet(m, "format") then SetFormat(Defaults, m["format"]) else Success(Defaults);
      var c2 :- if IsSet(m, "mode") then SetMode(c1, m["mode"]) else Success(c1);
      var c3 :- if IsSet(m, "height") then setHeight(c2, m["height"]) else Success(c2);
      if IsSet(m, "width") then SetWidth(c3, m["width"]) else Success(c3)
  }

  /** What the constructor leaves in the configuration, with setHeight corrected. */
  function Construct(arg: Option<map<string, Value>>): (r: Result<Config>)
    ensures r.Failure? ==> r.error == InvalidValue
    ensures r.Success? ==> WellFormed(r.value)
  {
    DefaultsWellFormed();
    ConstructUsing(arg, SetHeight)
  }

  /** The constructor as written, with the faulty setHeight. */
  function ConstructAsWritten(arg: Option<map<string, Value>>): Result<Config> {
    ConstructUsing(arg, SetHeightAsWritten)
  }

  /** Every key of `m` that is set holds a value its setter accepts. */
  predicate AllSetValid(m: map<string, Value>) {
    && (IsSet(m, "format") ==> IsFormat(m["format"]))
    && (IsSet(m, "mode") ==> IsMode(m["mode"]))
    && (IsSet(m, "height") ==> IsDimension(m["height"]))
    && (IsSet(m, "width") ==> IsDimension(m["width"]))
  }

  /** The defaults with each key that is set in `m` replaced by its value there. */
  function Applied(m: map<string, Value>): Config {
    map k | k in Keys :: if IsSet(m, k) then m[k] else Defaults[k]
  }

  /**
   * Construction succeeds exactly when every key present is valid; the
   * result then holds the given value for each key set and the default for
   * every other key.
   */
  lemma ConstructApplies(m: map<string, Value>)
    ensures Construct(Some(m)).Success? <==> AllSetValid(m)
    ensures Construct(Some(m)).Success? ==> Construct(Some(m)).value == Applied(m)
  {
    DefaultsWellFormed();
    var r := Construct(Some(m));
    var r1 := if IsSet(m, "format") then SetFormat(Defaults, m["format"]) else Success(Defaults);
    if r1.Failure? {
      assert r == r1;
      return;
    }
    var r2 := if IsSet(m, "mode") then SetMode(r1.value, m["mode"]) else Success(r1.value);
    if r2.Failure? {
      assert r == r2;
      return;
    }
    var r3 := if IsSet(m, "height") then SetHeight(r2.value, m["height"]) else Success(r2.value);
    if r3.Failure? {
      assert r == r3;
      return;
    }
    var r4 := if IsSet(m, "width") then SetWidth(r3.value, m["width"]) else Success(r3.value);
    assert r == r4;
    if r4.Success? {
      var c := r4.value;
      assert c.Keys == Keys;
      forall k | k in Keys
        ensures c[k] == Applied(m)[k]
      {
      }
    }
  }

  /** With no argument, or none of the four keys set, construction keeps the defaults. */
  lemma ConstructKeepsDefaults(arg: Option<map<string, Value>>)
    requires arg.Some? ==> forall k :: k in Keys ==> !IsSet(arg.value, k)
    ensures Construct(arg) == Success(Defaults)
  {
    if arg.Some? {
      assert !IsSet(arg.value, "format") && !IsSet(arg.value, "mode");
      assert !IsSet(arg.value, "height") && !IsSet(arg.value, "width");
    }
  }

  /**
   * As written, a constructor given only a height keeps the default height
   * and nulls the width; given both, the later setWidth hides the damage but
   * the height is still ignored.
   */
  lemma ConstructAsWrittenIgnoresHeight(h: int, w: int)
    requires h >= 1 && w >= 1
    ensures ConstructAsWritten(Some(map["height" := Int(h)])) == Success(Defaults["width" := Null])
    ensures ConstructAsWritten(Some(map["height" := Int(h), "width" := Int(w)])) == Success(Defaults["width" := Int(w)])
    ensures Construct(Some(map["height" := Int(h)])) == Success(Defaults["height" := Int(h)])
  {
    assert Defaults["width" := Null]["width" := Int(w)] == Defaults["width" := Int(w)];
  }

  /**
   * The override merge of `process`: later keys win, so each key of
   * `overrides` takes its overriding value and every other key keeps the
   * stored one. The stored configuration itself is a value and is not changed.
   */
  function Merge(c: Config, overrides: map<string, Value>): (r: Config)
    ensures r.Keys == c.Keys + overrides.Keys
    ensures forall k :: k in overrides ==> r[k] == overrides[k]
    ensures forall k :: k in c && k !in overrides ==> r[k] == c[k]
  {
    c + overrides
  }
}
