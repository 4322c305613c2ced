# fdf_rust: a verified model of the height-map loader and the camera

`fdf_rust` is a wire-frame ("fdf") height-map viewer written in Rust on
the quicksilver game library. Its one source file, `src/main.rs`, has two
parts with real behaviour:

- **`fdf_parse`** turns the text of a map into a row-major grid of
  elevations:
  - it splits the text into lines and each line into whitespace-separated
    `f32` tokens;
  - it takes the first line's token count as the width and rejects any
    later line of a different length;
  - it tracks the largest and smallest value, shifts every point by
    **adding** the smallest value, and records `z_range = max - min`;
  - it allocates a zeroed 800 x 600 RGBA pixel buffer.

  Each of its three panics becomes an `Err` of `HeightMap.ParseError`.
- **The camera settings `Perspective`**, with its `Base` snapshot:
  - the click handler `FDF::event` toggles dragging and takes the
    snapshot;
  - the per-frame `FDF::update` recomputes one drag channel from the
    snapshot, with precedence Shift, then Control, then plain: the
    distance, floored at 1, the stretch, or the center, clamped to the
    unit square;
  - it then steps the angles with the arrow keys.

Files:

- `results.dfy`: `Option` and `Result`.
- `text.dfy` (module `Text`): `str::lines` and `str::split_whitespace` as
  functions on strings. For `lines` there is a round trip: splitting the
  text of newline-terminated lines gives those lines back. For
  `split_whitespace`, the words contain no whitespace and together they
  are exactly the text's non-whitespace characters; and words joined by
  single spaces split back into exactly those words.
- `camera.dfy` (module `Camera`):
  - the constants;
  - `Base` and the constructor values;
  - the drag channels and the arrow-key steps as functions with their
    properties;
  - the class `Perspective`, whose methods change the fields the way
    `event` and `update` do. They are proved against those functions and
    keep the invariant `Valid()`: distance at least 1, center in the unit
    square, theta in [0, 2*pi) and phi below 2*pi.
- `height_map.dfy` (module `HeightMap`):
  - the reference definition `Parse`, which reports the first failing
    line, otherwise `NoNumbers` when there is no line, otherwise the grid;
  - the imperative `ParseGrid`: the loop over the lines (`ScanLines`, one
    turn of it `ScanLine`) with its running max/min and its optional width,
    an in-place shift over an array, then the width check. It is proved to
    compute `Parse`;
  - the class `FdfMap` and `FdfParse`.
- `height_map_props.dfy` (module `HeightMapProperties`): what the parse
  promises, proved about `ParseLines`, the reference definition applied to
  the lines of the text. The properties are success, the width rule, the
  float rule, no lines, a blank first line, grid size and layout, the shift
  direction, and the range.
- `examples_model.dfy` (module `ParseExamples`): two concrete shifts, and
  three whole texts parsed with a reader of single digits: one too-short
  second line, one token that does not convert, and one 2 x 2 grid.

Values are `real`. The `f32` start values `NEG_INFINITY` and `INFINITY` of
the accumulators are kept as the `Extended` values `NegInf` and `PosInf`,
so a map without any number has `z_range` equal to -inf, as in the source.
The token conversion `parse::<f32>` is a parameter
`parseFloat: string -> Option<real>`.

Behaviour of the code worth noting:

- Only a text with no line at all fails with "Please input at least one
  number" (src/main.rs:96). A first line with no token gives width 0, and
  any number of blank lines then parse into an empty grid
  (`BlankFirstLine`).
- The points are only shifted by adding the minimum (src/main.rs:93-95);
  nothing divides them by the range.
- The Shift-drag distance is floored at 1 (src/main.rs:124).
- Down lowers phi, but its wrap test reads theta (src/main.rs:152), so phi
  is never wrapped at 0. The model keeps this behaviour as written
  (`TurnDown`, `DownNeverWrapsPhi`).

## Model

| member | source | states |
|---|---|---|
| Text.Lines | src/main.rs:78 | `rect.lines()`: there are no lines exactly when the text is empty |
| Text.LinesHaveNoLineFeed | src/main.rs:78 | no line holds a line feed |
| Text.LinesOfTerminated | src/main.rs:78 | lines joined with a `\n` after each (none containing `\n`, none ending in `\r`) split back into exactly those lines |
| Text.WordsAreWords | src/main.rs:79 | every token of `split_whitespace` is non-empty and holds no whitespace |
| Text.WordsCoverText | src/main.rs:79 | the tokens, concatenated, are exactly the non-whitespace characters of the line, in order |
| Text.WordsOfWordThen | src/main.rs:79 | a word followed by the end of the line or by whitespace is the first token, and the rest of the line gives the remaining tokens |
| Text.WordsOfSpaced | src/main.rs:79 | words joined by single spaces split back into exactly those words, so the token boundaries are fixed |
| Text.LinesOfLine | src/main.rs:78 | a line with no `\n` and no trailing `\r`, followed by `\n`, is the first line, and the rest of the text gives the remaining lines |
| Camera.ClampScalar | src/main.rs:128 | one coordinate of `clamp`: the result lies in [lo, hi], equals the input inside, lo below, hi above |
| Camera.Clamp | src/main.rs:128 | the clamped vector lies in the box and is unchanged when already inside |
| Camera.NewBase | src/main.rs:23-31 | `Base::new`: origin = center = (0.5, 0.5), dist 2, stretch 0.25 |
| Camera.Delta | src/main.rs:124-128 | the mouse travel from the snapshot origin in window units: the origin plus the travel scaled by (800, 600) is the mouse position |
| Camera.DraggedDist | src/main.rs:123-124 | the Shift-drag distance is at least 1 and at least the snapshot distance plus the vertical travel over 600, and equals one of them |
| Camera.DraggedStretch | src/main.rs:125-126 | the Control-drag stretch differs from the snapshot stretch by exactly the vertical travel divided by 600, unbounded |
| Camera.DraggedCenter | src/main.rs:127-128 | the plain-drag center is in the unit square, and equals snapshot center + travel/(800, 600) whenever that is inside the square |
| Camera.TurnLeft | src/main.rs:132-137 | for every theta: theta - 0.05 when that is not negative, otherwise theta - 0.05 + 2*pi; keeps theta in [0, 2*pi) |
| Camera.TurnRight | src/main.rs:138-143 | for every theta: theta + 0.05 when that is below 2*pi, otherwise theta + 0.05 - 2*pi; keeps theta in [0, 2*pi) |
| Camera.TurnUp | src/main.rs:144-149 | for every phi, negative ones included: phi + 0.02 when that is below 2*pi, otherwise phi + 0.02 - 2*pi; keeps phi below 2*pi and keeps [0, 2*pi) |
| Camera.TurnDown | src/main.rs:150-155 | phi - 0.02 with no wrap; theta gains 2*pi only if it was negative |
| Camera.Turn | src/main.rs:131-155 | the four keys in source order keep theta in [0, 2*pi) and phi below 2*pi; with no arrow key the angles do not change |
| Camera.DownNeverWrapsPhi | src/main.rs:150-155 | Down alone lowers phi by the full step, so phi in [0, 0.02) becomes negative |
| Camera.FramesKeepAngles | src/main.rs:131-155 | over any sequence of frames theta stays in [0, 2*pi) and phi below 2*pi |
| Camera.Perspective.constructor | src/main.rs:43-54 | `Perspective::new`: not clicked, `Base::new`, center (0.5, 0.5), angles (pi/3, pi/6) as f32, dist 2, stretch 0.25; satisfies `Valid()` |
| Camera.Perspective.HandleEvent | src/main.rs:160-175 | a left-button press flips `clicked` and snapshots (mouse, center, dist, stretch) into `base`, nothing else changes; any other event changes nothing; `Valid()` is kept |
| Camera.Perspective.Update | src/main.rs:115-158 | when clicked, exactly the channel chosen by Shift > Control > plain takes its dragged value and the other two keep theirs; when not clicked none changes; the angles become `Turn` of the old angles; `clicked` and `base` are kept; `Valid()` is kept |
| Camera.Perspective.Drag | src/main.rs:122-130 | the drag half of `update`: the channel choice and values above, angles untouched |
| Camera.Perspective.Rotate | src/main.rs:131-155 | the arrow-key half of `update`: the angles become `Turn` of the old angles, every other field is kept |
| HeightMap.ExtMax | src/main.rs:88 | `f32::max` on the accumulator: -inf gives the number, +inf stays, and a finite accumulator gives the larger of the two, which is one of them |
| HeightMap.ExtMin | src/main.rs:89 | `f32::min` on the accumulator: +inf gives the number, -inf stays, and a finite accumulator gives the smaller of the two, which is one of them |
| HeightMap.Range | src/main.rs:97 | `maximum - minimum`: for two finite accumulators, the range plus the minimum is the maximum, and it is at least 0 when the minimum is at most the maximum; -inf when the maximum is -inf or the minimum +inf; +inf when the maximum is +inf or the minimum -inf |
| HeightMap.MaxOf | src/main.rs:74-89 | the running maximum is -inf exactly before any value and never +inf |
| HeightMap.MinOf | src/main.rs:75-89 | the running minimum is +inf exactly before any value and never -inf |
| HeightMap.MaxOfIsMaximum | src/main.rs:74-89 | once a value is read the running maximum is finite, at least every value, and one of them |
| HeightMap.MinOfIsMinimum | src/main.rs:75-89 | once a value is read the running minimum is finite, at most every value, and one of them |
| HeightMap.ParseRow | src/main.rs:79 | a converted row has one value per token; a failed row's error is a token that does not convert |
| HeightMap.ParseRowMeaning | src/main.rs:79 | a row converts exactly when every token does, value j is token j's, and an error names the first token that does not convert |
| HeightMap.LineError | src/main.rs:79-82 | the panic of a failing line: conversion is tried first, so `InvalidFloat` with the line's index and a token that does not convert exactly when some token fails; otherwise `InvalidRectangle` with the line's index, its length and the first line's length; never `NoNumbers` |
| HeightMap.FirstBadLine | src/main.rs:78-86 | the lines before the result all pass, and the result, unless past the end, does not |
| HeightMap.ShiftedBy | src/main.rs:93-95 | same length; each point is its value plus the minimum |
| HeightMap.ScanRow | src/main.rs:87-90 | the loop over one row continues the running max/min exactly as if over the samples so far followed by the row |
| HeightMap.ShiftAll | src/main.rs:93-95 | the in-place loop leaves the array equal to its old contents shifted by the minimum |
| HeightMap.Parse | src/main.rs:72-97 | on success the text has a line and the width is the first line's token count |
| HeightMap.ParseLines | src/main.rs:76-96 | `NoNumbers` exactly when there is no line; on success the width is the first line's token count |
| HeightMap.ScanLine | src/main.rs:79-91 | one turn of the loop over the lines: it fails exactly when the line does not pass, with that line's panic; otherwise the points gain the line's values, the max/min are those of the new points, and the width is the first line's |
| HeightMap.ScanLines | src/main.rs:78-92 | the loop over the lines stops exactly when some line fails, with the first failing line's panic; otherwise it yields all the samples in order, their max and min, and the first line's width (none when there is no line) |
| HeightMap.ParseGrid | src/main.rs:72-97 | the imperative parse (lines loop, width check, accumulators, extend, shift, width expect, range) returns exactly `Parse` of the text |
| HeightMap.FdfMap.constructor | src/main.rs:73-104 | the map holds the grid, freshly defaulted settings, and a fresh buffer of 4 * 800 * 600 zero bytes |
| HeightMap.FdfParse | src/main.rs:72-105 | the error of `Parse` when it fails, otherwise a fresh map with its grid, default settings and a zeroed buffer of 4 * 800 * 600 bytes |
| HeightMapProperties.SuccessRule | src/main.rs:78-96 | the parse succeeds exactly when there is a line and every line passes; the width is then the first line's token count and every line has that many |
| HeightMapProperties.WidthRule | src/main.rs:78-86 | `InvalidRectangle(i, len, w)` exactly when line i > 0 is the first failing line, its tokens all convert, it has len tokens and the first line has w != len |
| HeightMapProperties.InvalidFloatRule | src/main.rs:78-79 | `InvalidFloat(i, token)` exactly when all lines before i pass and token is the first token of line i that does not convert (`FirstFailure`) |
| HeightMapProperties.InvalidFloatReported | src/main.rs:78-79 | when the parse fails with `InvalidFloat(i, token)`, every line before i passes and token is the first token of line i that does not convert: the token that causes the panic |
| HeightMapProperties.InvalidFloatOfFirst | src/main.rs:78-79 | such a token makes the parse fail with exactly that error |
| HeightMapProperties.FirstBadLineIs | src/main.rs:78-86 | the first line that does not pass is the one whose panic is reported |
| HeightMapProperties.FirstFailingToken | src/main.rs:79 | the first token that does not convert is the one the row conversion reports |
| HeightMapProperties.NoNumbersRule | src/main.rs:76-96 | "Please input at least one number" exactly for the empty text |
| HeightMapProperties.BlankFirstLine | src/main.rs:80-97 | a blank first line is not rejected: the parse succeeds exactly when every line is blank, with no points, width 0 and range -inf |
| HeightMapProperties.RowsHaveWidth | src/main.rs:80-86 | on success every line gives `width` values |
| HeightMapProperties.GridSize | src/main.rs:87-91 | on success there are width * lines points |
| HeightMapProperties.GridLayout | src/main.rs:79-95 | on success the point at row * width + col is the value of token col of line row plus the minimum of all values |
| HeightMapProperties.TokenAt | src/main.rs:79-91 | before the shift, sample row * width + col is the value of token col of line row |
| HeightMapProperties.TokenOfRow | src/main.rs:79-91 | when every line has w values and line row converts, its token col converts to the sample at offset row * w + col |
| HeightMapProperties.PointAt | src/main.rs:93-95 | point i is sample i plus the minimum |
| HeightMapProperties.ShiftDirection | src/main.rs:74-95 | every point is its value plus (not minus) the minimum, and that minimum is at most every value and is one of them |
| HeightMapProperties.ZRange | src/main.rs:97 | `z_range` is max - min of all values and at least 0 when one was read; with none it is -inf and there are no points |
| HeightMapProperties.RangeOfValues | src/main.rs:97 | max minus min is -inf before any value, afterwards finite and at least 0 |
| HeightMapProperties.SamplesLength | src/main.rs:91 | lines of w values each extend the points to lines * w values |
| HeightMapProperties.SamplesAt | src/main.rs:91 | value col of line row is the sample after row full lines and col values |
| HeightMapProperties.SamplesFlatten | src/main.rs:91 | `extend_from_slice` line after line is the flattening of the lines' rows |
| HeightMapProperties.FlatLength | src/main.rs:91 | rows of w values flatten to rows * w values (counted by addition) |
| HeightMapProperties.FlatAt | src/main.rs:91 | in the flattening, value col of row row follows row full rows and col values |
| HeightMapProperties.OffsetIsProduct | src/main.rs:91 | that count by addition is row * width |
| ParseExamples.NegativeShift | src/main.rs:93-97 | values -1, 0, 1 have minimum -1, are stored as -2, -1, 0 and have range 2 |
| ParseExamples.ZeroShift | src/main.rs:93-95 | values 0, 1, 2 have minimum 0 and are stored unchanged |
| ParseExamples.ShortSecondLine | src/main.rs:78-86 | the text "1 2\n3" panics with `InvalidRectangle(1, 1, 2)`: row 1 has length 1 instead of 2 |
| ParseExamples.BadToken | src/main.rs:79 | the text "1 x" panics on the token "x" of line 0 |
| ParseExamples.Square | src/main.rs:72-97 | the text "1 2\n3 4" gives points 2, 3, 4, 5 (each value plus the minimum 1), width 2 and range 3 |

## Left out

- The quicksilver lifecycle (`State`, `run`, the window, `Image::from_raw`, drawing; src/main.rs:107-113, 177-190) is I/O on a foreign library. `Asset::execute` is modelled as a direct call on the loaded map.
- `load_file("42.fdf")` and the UTF-8 check are file I/O and are not modelled. The model starts from the text.
- `parse::<f32>` is a library call. It is the parameter `parseFloat`, whose `None` is the "Not a valid float" panic.
- The "Not a valid float" panic's message names neither the line nor the token. `InvalidFloat(line, token)` is the model's own record of where the panic happens. The examples use their own reader `ParseExamples.Digit`, not `parse::<f32>`.
- `f32` arithmetic is modelled as exact `real` arithmetic: no rounding, no NaN, no infinite tokens. So `is_sign_negative` is `< 0` and `is_sign_positive` is `>= 0`, and the -0.0 cases are not modelled. The pi constants are the exact `f32` values; 0.05 and 0.02 are the decimal values, not their `f32` roundings.
- HeightMap.Range: it is not defined for inf minus the same inf (NaN in `f32`). The parse never computes that case (`RangeOfValues`).
- `FdfMap::update` (src/main.rs:65) has an empty body, so there is no projection or rasterisation to model.
- The `Vec<f32>` of points is a `seq<real>` built by concatenation. Only the shift loop runs in place on an `array<real>`, which is then read back into the sequence.
- The window's keyboard and mouse are passed as values (`Keyboard`, the mouse position, `Event`). Key states other than "down" are not distinguished.
- The loop over the lines of `fdf_parse` is the method `ScanLines`, and one turn of it is the method `ScanLine`. A panic inside the loop becomes the `failure` out-parameter, which ends the loop.
- The body of `FDF::update` is split into the methods `Drag` and `Rotate`, its two halves in source order. `Update` calls them one after the other, and each half carries its own contract.
