/**
 * The ImageResizer object: its configuration array, updated in place by the
 * constructor and the setters, and `process`, which merges per-call
 * overrides into that configuration and computes the blit for a source
 * image of a given size.
 */
module Resizer {
  import opened PhpValues
  import ResizerConfig
  import Geometry

  /** The mode a configuration value names, if it names one. */
  function ModeOf(v: Value): (m: Option<Geometry.Mode>)
    ensures m.Some? <==> ResizerConfig.IsMode(v)
    ensures m == Some(Geometry.Cover) <==> v == Str(ResizerConfig.ModeCover)
    ensures m == Some(Geometry.Shrink) <==> v == Str(ResizerConfig.ModeShrink)
    ensures m == Some(Geometry.Stretch) <==> v == Str(ResizerConfig.ModeStretch)
  {
    if v == Str(ResizerConfig.ModeCover) then Some(Geometry.Cover)
    else if v == Str(ResizerConfig.ModeShrink) then Some(Geometry.Shrink)
    else if v == Str(ResizerConfig.ModeStretch) then Some(Geometry.Stretch)
    else None
  }

  /** Overrides for width or height, when given, are usable target dimensions. */
  predicate DimensionOverridesValid(overrides: map<string, Value>) {
    && ("width" in overrides ==> ResizerConfig.IsDimension(overrides["width"]))
    && ("height" in overrides ==> ResizerConfig.IsDimension(overrides["height"]))
  }

  class ImageResizer {
    var config: ResizerConfig.Config

    ghost predicate Valid()
      reads this
    {
      ResizerConfig.WellFormed(config)
    }

    /** An instance built without a configuration argument holds the defaults. */
    constructor ()
      ensures Valid() && config == ResizerConfig.Defaults
    {
      config := ResizerConfig.Defaults;
      ResizerConfig.DefaultsWellFormed();
    }

    /**
     * Construction from an optional configuration array: the setters for
     * format, mode, height and width run in that order, each only when its
     * key is set; the first that throws aborts construction.
     */
    static method Create(arg: Option<map<string, Value>>) returns (r: Result<ImageResizer>)
      ensures r.Success? <==> ResizerConfig.Construct(arg).Success?
      ensures r.Failure? ==> r.error == InvalidValue
      ensures r.Success? ==> fresh(r.value) && r.value.Valid()
      ensures r.Success? ==> r.value.config == ResizerConfig.Construct(arg).value
    {
      var resizer := new ImageResizer();
      if arg.Some? {
        var m := arg.value;
        if ResizerConfig.IsSet(m, "format") {
          var o := resizer.SetFormat(m["format"]);
          if o.Fail? {
            return Failure(o.error);
          }
        }
        if ResizerConfig.IsSet(m, "mode") {
          var o := resizer.SetMode(m["mode"]);
          if o.Fail? {
            return Failure(o.error);
          }
        }
        if ResizerConfig.IsSet(m, "height") {
          var o := resizer.SetHeight(m["height"]);
          if o.Fail? {
            return Failure(o.error);
          }
        }
        if ResizerConfig.IsSet(m, "width") {
          var o := resizer.SetWidth(m["width"]);
          if o.Fail? {
            return Failure(o.error);
          }
        }
      }
      return Success(resizer);
    }

    method SetFormat(v: Value) returns (o: Outcome)
      requires Valid()
      modifies this
      ensures Valid()
      ensures o.Pass? <==> ResizerConfig.IsFormat(v)
      ensures o.Fail? ==> o.error == InvalidValue && config == old(config)
      ensures o.Pass? ==> config == ResizerConfig.SetFormat(old(config), v).value
    {
      if !ResizerConfig.IsFormat(v) {
        return Fail(InvalidValue);
      }
      config := config["format" := v];
      return Pass;
    }

    method SetMode(v: Value) returns (o: Outcome)
      requires Valid()
      modifies this
      ensures Valid()
      ensures o.Pass? <==> ResizerConfig.IsMode(v)
      ensures o.Fail? ==> o.error == InvalidValue && config == old(config)
      ensures o.Pass? ==> config == ResizerConfig.SetMode(old(config), v).value
    {
      if !ResizerConfig.IsMode(v) {
        return Fail(InvalidValue);
      }
      config := config["mode" := v];
      return Pass;
    }

    method SetWidth(v: Value) returns (o: Outcome)
      requires Valid()
      modifies this
      ensures Valid()
      ensures o.Pass? <==> ResizerConfig.IsDimension(v)
      ensures o.Fail? ==> o.error == InvalidValue && config == old(config)
      ensures o.Pass? ==> config == ResizerConfig.SetWidth(old(config), v).value
    {
      if !ResizerConfig.IsDimension(v) {
        return Fail(InvalidValue);
      }
      config := config["width" := v];
      return Pass;
    }

    /** Stores the height under "height" (the source assigns an undefined variable to "width"). */
    method SetHeight(v: Value) returns (o: Outcome)
      requires Valid()
      modifies this
      ensures Valid()
      ensures o.Pass? <==> ResizerConfig.IsDimension(v)
      ensures o.Fail? ==> o.error == InvalidValue && config == old(config)
      ensures o.Pass? ==> config == ResizerConfig.SetHeight(old(config), v).value
    {
      if !ResizerConfig.IsDimension(v) {
        return Fail(InvalidValue);
      }
      config := config["height" := v];
      return Pass;
    }

    /**
     * The geometry of `process` for a source image of `sourceWidth` by
     * `sourceHeight`: the overrides are merged over the stored configuration,
     * and the merged mode, width and height select and drive the plan. Only a
     * mode override that names no mode makes it fail.
     */
    method Process(sourceWidth: int, sourceHeight: int, overrides: map<string, Value>) returns (r: Result<Geometry.Blit>)
      requires Valid()
      requires sourceWidth > 0 && sourceHeight > 0
      requires DimensionOverridesValid(overrides)
      ensures r.Failure? <==> "mode" in overrides && !ResizerConfig.IsMode(overrides["mode"])
      ensures r.Failure? ==> r.error == UnknownMode
      ensures r.Success? ==>
        var merged := ResizerConfig.Merge(config, overrides);
        ModeOf(merged["mode"]).Some? &&
        r.value == Geometry.Plan(sourceWidth, sourceHeight, ModeOf(merged["mode"]).value,
                                 merged["width"].n, merged["height"].n)
    {
      var merged := ResizerConfig.Merge(config, overrides);
      var width := merged["width"].n;
      var height := merged["height"].n;
      var mode := ModeOf(merged["mode"]);
      if mode.None? {
        return Failure(UnknownMode);
      }
      return Success(Geometry.Plan(sourceWidth, sourceHeight, mode.value, width, height));
    }
  }
}
