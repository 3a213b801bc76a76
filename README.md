# ImageResizer: configuration and resize geometry

A Dafny model of `TwoWholeWorms\Utilities\ImageResizer`, a PHP class that resizes an image with GD. It has two parts.

- **Configuration.** The object holds a configuration array with the keys `format`, `mode`, `height` and `width`. The defaults are PNG, `cover`, 200 and 300. Guarded setters store a value or throw `ImageResizerInvalidValueException`. The constructor runs the setters only for the keys that are set in its argument. `process` merges per-call overrides over the stored array without changing it.
- **Geometry.** `process` takes the source image's width and height and the target width, height and mode (`cover`, `shrink` or `stretch`). From these it computes the source and destination rectangles that it passes to `imagecopyresampled`.

Module layout:

- `PhpValues` (values.dfy): the PHP values the validation can tell apart (`Null`, `Int`, `Str`, `Other`). The thrown exceptions become the `Failure` case of a `Result`.
- `ResizerConfig` (config.dfy): the configuration array as a `map<string, Value>`, with pure functions for each setter, the constructor and the merge.
- `Geometry` (geometry.dfy): the blit geometry as written (`Plan`) and as evidently intended (`IntendedPlan`).
- `Resizer` (resizer.dfy): the class `ImageResizer`. It has a `config` field that the constructor and setters update in place, and each method is proved against the pure function for it. Its `Process` method merges the overrides and computes the blit.

PHP compares float aspect ratios and truncates with `(int)`. The model compares exactly, using `sw * H > W * sh`. Each truncation becomes an integer division whose numerator cannot be negative in its branch.

Line 147 computes the destination aspect ratio from `$this->width / $this->height`. The class has no such properties, and the line runs before the merge at line 149. Both operands read as null, so the line evaluates `null / null`. From PHP 8 on this throws a DivisionByZeroError before the `switch` is reached. In PHP 7 it yields NAN, so both `>` tests (lines 167 and 181) are false and every call takes the else branch. The model takes the destination aspect from the merged width and height, which are the values the branches use. "As written" below always means as written with this one repair to line 147.

## Model

| member | source | states |
|---|---|---|
| ResizerConfig.DefaultsWellFormed | src/TwoWholeWorms/Utilities/ImageResizer.php:36-41 | before any setter runs, the configuration is format PNG (3), mode `cover`, width 300, height 200, and each of these passes its setter's check |
| ResizerConfig.SetFormat | src/TwoWholeWorms/Utilities/ImageResizer.php:65-74 | succeeds exactly for GIF, JPEG and PNG and otherwise fails with InvalidValue; on success only `format` changes; a well-formed configuration stays well-formed |
| ResizerConfig.SetMode | src/TwoWholeWorms/Utilities/ImageResizer.php:79-88 | succeeds exactly for `cover`, `shrink` and `stretch` and otherwise fails with InvalidValue; on success only `mode` changes |
| ResizerConfig.SetWidth | src/TwoWholeWorms/Utilities/ImageResizer.php:90-98 | fails with InvalidValue on a non-integer or a value below 1; on success only `width` changes, to the given value |
| ResizerConfig.SetHeight | src/TwoWholeWorms/Utilities/ImageResizer.php:100-108 | setHeight as intended: fails with InvalidValue on a non-integer or a value below 1; on success only `height` changes, to the given value |
| ResizerConfig.SetHeightAsWritten | src/TwoWholeWorms/Utilities/ImageResizer.php:100-108 | setHeight as written: validates the height, then stores null (the undefined `$width`) under `width` and leaves every other key as it was |
| ResizerConfig.SetHeightAsWrittenLosesHeight | src/TwoWholeWorms/Utilities/ImageResizer.php:105 | as written, a valid height leaves `height` unchanged and sets `width` to null, so the configuration is no longer well-formed; the corrected setter stores the height |
| ResizerConfig.Construct | src/TwoWholeWorms/Utilities/ImageResizer.php:51-60 | construction fails only with InvalidValue; when it succeeds the configuration is well-formed |
| ResizerConfig.ConstructApplies | src/TwoWholeWorms/Utilities/ImageResizer.php:51-60 | construction succeeds exactly when every key that is set holds a valid value; the result holds the given value for each set key and the default for every other key |
| ResizerConfig.ConstructKeepsDefaults | src/TwoWholeWorms/Utilities/ImageResizer.php:53 | with no argument, or with none of the four keys set (absent or null), the configuration is the defaults |
| ResizerConfig.ConstructAsWrittenIgnoresHeight | src/TwoWholeWorms/Utilities/ImageResizer.php:57-58 | the constructor as written drops a given height; with only a height it nulls the width, and with both keys the later setWidth restores the width; the corrected constructor stores the height |
| ResizerConfig.Merge | src/TwoWholeWorms/Utilities/ImageResizer.php:149 | the merged keys are the stored keys plus the override keys; each override key takes its overriding value, and every other key keeps its stored value |
| Geometry.Plan | src/TwoWholeWorms/Utilities/ImageResizer.php:145-199 | in every mode the sampled source rectangle has the image's full width and height (in cover it is offset) and non-negative offsets, and the destination starts at (0, 0) |
| Geometry.StretchIgnoresAspect | src/TwoWholeWorms/Utilities/ImageResizer.php:190-194 | for every source aspect, stretch maps the whole source (0, 0, sw, sh) onto (0, 0, W, H) |
| Geometry.ShrinkScalesToOneTarget | src/TwoWholeWorms/Utilities/ImageResizer.php:176-187 | for a relatively wider source the height is H and the width is floor(H·sw/sh), at least W; otherwise the width is W and the height is floor(W·sh/sw), at least H; either way the aspect matches the source's to within one pixel |
| Geometry.ShrinkEqualAspect | src/TwoWholeWorms/Utilities/ImageResizer.php:181-187 | equal aspects take the else branch and give exactly W by H |
| Geometry.CoverCropOffset | src/TwoWholeWorms/Utilities/ImageResizer.php:162-174 | for a relatively wider source sourceY is 0, destHeight is H, destWidth stays 0, and sourceX is floor((H·sw − W·sh)/(2·sh)); otherwise sourceX is 0, destWidth is W, destHeight stays 0, and sourceY is floor((W·sh − H·sw)/(2·sw)) |
| Geometry.CoverEqualAspect | src/TwoWholeWorms/Utilities/ImageResizer.php:167-173 | equal aspects give both cover offsets 0 |
| Geometry.CoverLeavesCanvasEmpty | src/TwoWholeWorms/Utilities/ImageResizer.php:156-173 | in cover exactly one of destWidth and destHeight stays 0, so the canvas has no pixels |
| Geometry.CoverSamplesPastEdge | src/TwoWholeWorms/Utilities/ImageResizer.php:151-173 | any non-zero cover offset pushes the full-size sampling rectangle past the source's edge; the rectangle is inside the image exactly when both offsets are 0 |
| Geometry.ShrinkCoversBox | src/TwoWholeWorms/Utilities/ImageResizer.php:176-187 | shrink as written never gives a dimension below its target, and the result fits the box only when it equals the box, contrary to the "fits within" promise of line 27 |
| Geometry.WideSourceIntoSquare | src/TwoWholeWorms/Utilities/ImageResizer.php:161-194 | a 1000 by 500 source into 300 by 300: cover samples from x = 150 with the full width onto a 0 by 300 canvas, shrink gives 600 by 300, stretch gives 300 by 300 |
| Geometry.IntendedPlan | src/TwoWholeWorms/Utilities/ImageResizer.php:21-34 | the geometry the mode comments describe: the sampled rectangle always lies inside the source; cover and stretch fill exactly W by H; shrink fits within W by H with one side equal to its target (that it keeps the source aspect is IntendedShrinkKeepsAspect); only cover crops |
| Geometry.IntendedCoverMatchesAspect | src/TwoWholeWorms/Utilities/ImageResizer.php:21-24 | the intended cover crop keeps the full source extent on one axis; on the other axis it takes the largest length whose aspect does not exceed the target's (at least 1 pixel) and centres it |
| Geometry.IntendedShrinkKeepsAspect | src/TwoWholeWorms/Utilities/ImageResizer.php:26-29 | the intended shrink keeps the source's aspect: the side on which the source is relatively longer takes its target, and the other side is the scaled length rounded down (at least 1 pixel) |
| Geometry.IntendedCoverEqualAspect | src/TwoWholeWorms/Utilities/ImageResizer.php:21-24 | with equal aspects the intended cover samples the whole source |
| Resizer.ModeOf | src/TwoWholeWorms/Utilities/ImageResizer.php:161-198 | a configuration value selects a mode exactly when it is one of the three mode names; "cover" selects Cover, "shrink" Shrink and "stretch" Stretch, as the `switch` cases do |
| Resizer.ImageResizer.constructor | src/TwoWholeWorms/Utilities/ImageResizer.php:36-41 | an instance built without an argument holds the default configuration |
| Resizer.ImageResizer.Create | src/TwoWholeWorms/Utilities/ImageResizer.php:51-60 | running the setters in place, in the order format, mode, height, width, yields a fresh, valid object whose configuration is `Construct`'s; it fails with InvalidValue exactly when `Construct` fails |
| Resizer.ImageResizer.SetFormat | src/TwoWholeWorms/Utilities/ImageResizer.php:65-74 | passes exactly for a valid format; on failure the configuration is unchanged; on success it is `SetFormat`'s result |
| Resizer.ImageResizer.SetMode | src/TwoWholeWorms/Utilities/ImageResizer.php:79-88 | passes exactly for a valid mode name; on failure the configuration is unchanged; on success it is `SetMode`'s result |
| Resizer.ImageResizer.SetWidth | src/TwoWholeWorms/Utilities/ImageResizer.php:90-98 | passes exactly for an integer of at least 1; on failure the configuration is unchanged; on success it is `SetWidth`'s result |
| Resizer.ImageResizer.SetHeight | src/TwoWholeWorms/Utilities/ImageResizer.php:100-108 | passes exactly for an integer of at least 1; on failure the configuration is unchanged; on success only `height` is updated (corrected) |
| Resizer.ImageResizer.Process | src/TwoWholeWorms/Utilities/ImageResizer.php:143-199 | fails with the unknown-mode error exactly when a mode override names no mode; otherwise the blit is the as-written `Plan` for the merged mode, width and height |

## Left out

- `loadImage` (lines 110-141) reads the file or URI through `getimagesize` and `imagecreatefrom*`, and rewrites Dropbox links. This is I/O. `Process` takes the source width and height as positive parameters instead.
- The GD calls `imagecreatetruecolor` and `imagecopyresampled` (lines 201-209) are a foreign library. The model stops at the rectangles passed to them.
- `save` (lines 212-235) writes the encoded image to disk. This is I/O. It also reads the undefined `$this->format` and `$config`.
- IEEE float rounding in the aspect-ratio divisions (lines 146-147) and in the `(int)` truncations is not modelled. The comparison and divisions are exact integer arithmetic.
- Geometry.Plan: takes the destination aspect ratio from the merged width and height. As written, line 147 evaluates `null / null`, which throws from PHP 8 on and yields NAN in PHP 7, where every call takes the else branches. That outcome is not reproduced.
- Resizer.ImageResizer.SetFormat, ResizerConfig.SetFormat (through ResizerConfig.IsFormat): compare values strictly. PHP's loose `in_array` would also accept values such as the string "3" or `true`.
- Resizer.ImageResizer.SetMode, ResizerConfig.SetMode (through ResizerConfig.IsMode): compare values strictly. PHP's loose `in_array` would also accept `true`, and the integer 0 before PHP 8.
- Resizer.ImageResizer.Process: the `switch` on the mode is matched strictly, not with PHP's loose `==`.
- Resizer.ImageResizer.Process: requires any width or height override to be an integer of at least 1. The source does not validate overrides and would hand such values straight to GD.
- Calling `process` with no argument is not modelled, and it is a source defect. The default `null` overrides never produce a merged array: before PHP 8 `array_merge` warns and returns null, and from PHP 8 on it throws a TypeError. `save` passes its own default `null` straight to `process` (lines 214-215), so it has the same defect.
- The `default` branch of `loadImage` (lines 136-138) cannot be reached after the check on line 120, so it is not modelled. The `default` branch of `process` (lines 196-198) is reachable through a mode override and is modelled as the `UnknownMode` failure.
- `ImageResizerRuntimeException` is not part of this model. It appears only as the `UnknownMode` error.
- The `sourceImage`, `destImage` and `sourceImageInfo` fields hold GD resources and are not modelled.

## Findings

| source | as written | input that shows it | evidently intended | confidence | as-written member | corrected member |
|---|---|---|---|---|---|---|
| src/TwoWholeWorms/Utilities/ImageResizer.php:105 | `setHeight` stores the undefined `$width` (null) under `width` | `setHeight(150)` on the defaults: height stays 200 and width becomes null | store the height under `height` | high (not executed) | ResizerConfig.SetHeightAsWrittenLosesHeight | ResizerConfig.SetHeight |
| src/TwoWholeWorms/Utilities/ImageResizer.php:167-173 | cover sets only one of `destWidth`/`destHeight`; the other keeps its initial 0 | 1000 by 500 into 300 by 300 in cover, with the destination aspect read from the merged width and height: the canvas is 0 by 300 | a canvas of W by H | high (not executed) | Geometry.CoverLeavesCanvasEmpty | Geometry.IntendedPlan |
| src/TwoWholeWorms/Utilities/ImageResizer.php:153-154 | cover offsets the sampling rectangle, measured in destination pixels, but keeps the full source size | 1000 by 500 into 300 by 300 in cover, with the destination aspect read from the merged width and height: x = 150 and width 1000, which reaches 1150 > 1000 | a centred crop inside the source whose aspect matches the target's | high (not executed) | Geometry.CoverSamplesPastEdge | Geometry.IntendedCoverMatchesAspect |
| src/TwoWholeWorms/Utilities/ImageResizer.php:181-187 | shrink fixes the side where the source is relatively narrower, so the other side overshoots its target | 1000 by 500 into 300 by 300 in shrink, with the destination aspect read from the merged width and height: 600 by 300 | fit within W by H (line 27) | high (not executed) | Geometry.ShrinkCoversBox | Geometry.IntendedPlan |

`ImageResizer.Create` uses the corrected `SetHeight`. `ImageResizer.Process` still returns the as-written `Plan`, because it models the rectangles the code passes to GD. The corrected geometry is `IntendedPlan`, and its in-bounds and fit properties are proved.
