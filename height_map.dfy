/** The height-map loader `fdf_parse`: text in, a row-major grid of samples
    out, each sample shifted by the smallest value read, together with the
    value range and a zeroed RGBA buffer for the window. */
module HeightMap {
  import opened Results
  import Text
  import Camera

  newtype byte = b: int | 0 <= b < 256

  /** Size of the pixel buffer: four bytes for each pixel of the 800 by 600
      window. */
  const BUFFER_LEN: nat := 4 * 800 * 600

  /** An f32 accumulator as the parser uses it: it starts at an infinity and
      only ever meets finite samples. */
  datatype Extended = NegInf | Fin(value: real) | PosInf

  /** `f32::max(acc, num)` for a finite `num`: -inf gives way to any
      number, +inf absorbs it, two numbers give the larger. */
  function ExtMax(acc: Extended, num: real): (r: Extended)
    ensures acc == NegInf ==> r == Fin(num)
    ensures acc == PosInf ==> r == PosInf
    ensures acc.Fin? ==> r.Fin? && r.value >= acc.value && r.value >= num
                         && (r.value == acc.value || r.value == num)
  {
    match acc
    case NegInf => Fin(num)
    case Fin(m) => Fin(if m >= num then m else num)
    case PosInf => PosInf
  }

  /** `f32::min(acc, num)` for a finite `num`: +inf gives way to any
      number, -inf absorbs it, two numbers give the smaller. */
  function ExtMin(acc: Extended, num: real): (r: Extended)
    ensures acc == PosInf ==> r == Fin(num)
    ensures acc == NegInf ==> r == NegInf
    ensures acc.Fin? ==> r.Fin? && r.value <= acc.value && r.value <= num
                         && (r.value == acc.value || r.value == num)
  {
    match acc
    case PosInf => Fin(num)
    case Fin(m) => Fin(if m <= num then m else num)
    case NegInf => NegInf
  }

  /** The running maximum after reading `s` in order, starting from -inf. */
  function MaxOf(s: seq<real>): (m: Extended)
    ensures m == NegInf <==> s == []
    ensures m != PosInf
  {
    if s == [] then NegInf else ExtMax(MaxOf(s[..|s| - 1]), s[|s| - 1])
  }

  /** The running minimum after reading `s` in order, starting from +inf. */
  function MinOf(s: seq<real>): (m: Extended)
    ensures m == PosInf <==> s == []
    ensures m != NegInf
  {
    if s == [] then PosInf else ExtMin(MinOf(s[..|s| - 1]), s[|s| - 1])
  }

  /** Once a value has been read the running maximum is the largest value read. */
  lemma {:induction false} MaxOfIsMaximum(s: seq<real>)
    requires s != []
    ensures MaxOf(s).Fin?
    ensures forall i :: 0 <= i < |s| ==> s[i] <= MaxOf(s).value
    ensures exists i :: 0 <= i < |s| && s[i] == MaxOf(s).value
  {
    var init := s[..|s| - 1];
    if init != [] {
      MaxOfIsMaximum(init);
      var i :| 0 <= i < |init| && init[i] == MaxOf(init).value;
      assert s[i] == init[i];
    }
  }

  /** Once a value has been read the running minimum is the smallest value read. */
  lemma {:induction false} MinOfIsMinimum(s: seq<real>)
    requires s != []
    ensures MinOf(s).Fin?
    ensures forall i :: 0 <= i < |s| ==> MinOf(s).value <= s[i]
    ensures exists i :: 0 <= i < |s| && s[i] == MinOf(s).value
  {
    var init := s[..|s| - 1];
    if init != [] {
      MinOfIsMinimum(init);
      var i :| 0 <= i < |init| && init[i] == MinOf(init).value;
      assert s[i] == init[i];
    }
  }

  /** f32 subtraction `hi - lo` on the accumulators, except the two
      infinity-minus-itself cases (NaN), which the parser never meets. */
  function Range(hi: Extended, lo: Extended): (r: Extended)
    requires !(hi == PosInf && lo == PosInf) && !(hi == NegInf && lo == NegInf)
    ensures hi.Fin? && lo.Fin? ==> r.Fin? && r.value + lo.value == hi.value
    ensures hi.Fin? && lo.Fin? && lo.value <= hi.value ==> r.value >= 0.0
    ensures hi == NegInf || lo == PosInf ==> r == NegInf
    ensures hi == PosInf || lo == NegInf ==> r == PosInf
  {
    if hi.Fin? && lo.Fin? then Fin(hi.value - lo.value)
    else if hi == PosInf || lo == NegInf then PosInf
    else NegInf
  }

  /** The three ways `fdf_parse` panics. */
  datatype ParseError =
    | InvalidFloat(line: nat, token: string)                  // "Not a valid float"
    | InvalidRectangle(row: nat, length: nat, expected: nat)  // "Invalid rectangle: row {} has length {} instead of {}"
    | NoNumbers                                               // "Please input at least one number"

  /** The grid fields of `FdfMap`. */
  datatype HeightGrid = HeightGrid(points: seq<real>, width: nat, zRange: Extended)

  /** The conversion of one line's whitespace-separated tokens to floats,
      in order: all tokens converted, or the first token that does not
      convert (where the program panics). */
  function ParseRow(tokens: seq<string>, parseFloat: string -> Option<real>): (r: Result<seq<real>, string>)
    ensures r.Ok? ==> |r.value| == |tokens|
    ensures r.Err? ==> parseFloat(r.error) == None
  {
    if tokens == [] then Ok([])
    else
      match parseFloat(tokens[0])
      case None => Err(tokens[0])
      case Some(v) =>
        var rest := ParseRow(tokens[1..], parseFloat);
        if rest.Err? then rest else Ok([v] + rest.value)
  }

  /** A row converts exactly when each of its tokens does, and then value `j`
      is token `j`'s; otherwise the error names the first token that fails. */
  lemma {:induction false} ParseRowMeaning(tokens: seq<string>, parseFloat: string -> Option<real>)
    ensures ParseRow(tokens, parseFloat).Ok? <==> forall j :: 0 <= j < |tokens| ==> parseFloat(tokens[j]).Some?
    ensures ParseRow(tokens, parseFloat).Ok? ==>
      forall j :: 0 <= j < |tokens| ==> parseFloat(tokens[j]) == Some(ParseRow(tokens, parseFloat).value[j])
    ensures ParseRow(tokens, parseFloat).Err? ==>
      exists j :: 0 <= j < |tokens| && tokens[j] == ParseRow(tokens, parseFloat).error
                  && parseFloat(tokens[j]) == None
                  && forall k :: 0 <= k < j ==> parseFloat(tokens[k]).Some?
  {
    if tokens != [] {
      var tail := tokens[1..];
      ParseRowMeaning(tail, parseFloat);
      var rest := ParseRow(tail, parseFloat);
      if parseFloat(tokens[0]).Some? {
        if rest.Err? {
          var j :| 0 <= j < |tail| && tail[j] == rest.error && parseFloat(tail[j]) == None
                   && forall k :: 0 <= k < j ==> parseFloat(tail[k]).Some?;
          assert tokens[j + 1] == tail[j];
          assert forall k :: 0 <= k < j + 1 ==> parseFloat(tokens[k]).Some? by {
            forall k | 0 <= k < j + 1 ensures parseFloat(tokens[k]).Some? {
              if k > 0 { assert tokens[k] == tail[k - 1]; }
            }
          }
        } else {
          forall j | 0 <= j < |tokens| ensures parseFloat(tokens[j]) == Some(ParseRow(tokens, parseFloat).value[j]) {
            if j > 0 { assert tokens[j] == tail[j - 1]; }
          }
        }
      } else {
        assert 0 <= 0 < |tokens| && tokens[0] == ParseRow(tokens, parseFloat).error;
      }
    }
  }

  /** The samples of one line, empty when the line does not convert. */
  function RowValues(line: string, parseFloat: string -> Option<real>): (r: seq<real>)
  {
    var r := ParseRow(Text.Words(line), parseFloat);
    if r.Ok? then r.value else []
  }

  /** Line `i` passes: all its tokens convert and, unless it is the first
      line, it has as many tokens as the first line. */
  predicate LineOk(lines: seq<string>, parseFloat: string -> Option<real>, i: nat)
    requires i < |lines|
  {
    ParseRow(Text.Words(lines[i]), parseFloat).Ok?
    && (i == 0 || |Text.Words(lines[i])| == |Text.Words(lines[0])|)
  }

  /** The panic that line `i` causes, when it does not pass: conversion is
      tried before the length is compared. */
  function LineError(lines: seq<string>, parseFloat: string -> Option<real>, i: nat): (e: ParseError)
    requires i < |lines|
    ensures e.InvalidFloat? <==> ParseRow(Text.Words(lines[i]), parseFloat).Err?
    ensures e.InvalidFloat? ==> e.line == i && parseFloat(e.token) == None
    ensures e.InvalidRectangle? ==>
      e.row == i && e.length == |Text.Words(lines[i])| && e.expected == |Text.Words(lines[0])|
    ensures !e.NoNumbers?
  {
    var r := ParseRow(Text.Words(lines[i]), parseFloat);
    if r.Err? then InvalidFloat(i, r.error)
    else InvalidRectangle(i, |Text.Words(lines[i])|, |Text.Words(lines[0])|)
  }

  /** The first line at or after `from` that does not pass, or `|lines|`. */
  function FirstBadLine(lines: seq<string>, parseFloat: string -> Option<real>, from: nat): (i: nat)
    requires from <= |lines|
    decreases |lines| - from
    ensures from <= i <= |lines|
    ensures forall k :: from <= k < i ==> LineOk(lines, parseFloat, k)
    ensures i < |lines| ==> !LineOk(lines, parseFloat, i)
  {
    if from == |lines| || !LineOk(lines, parseFloat, from) then from
    else FirstBadLine(lines, parseFloat, from + 1)
  }

  /** The samples of the first `n` lines, row after row. */
  function Samples(lines: seq<string>, parseFloat: string -> Option<real>, n: nat): (r: seq<real>)
    requires n <= |lines|
  {
    if n == 0 then [] else Samples(lines, parseFloat, n - 1) + RowValues(lines[n - 1], parseFloat)
  }

  /** Every token's value, in reading order, before the shift. */
  function AllSamples(text: string, parseFloat: string -> Option<real>): seq<real>
  {
    var lines := Text.Lines(text);
    Samples(lines, parseFloat, |lines|)
  }

  /** Every value plus `minimum` (nothing to shift while no value was read). */
  function ShiftedBy(vals: seq<real>, minimum: Extended): (r: seq<real>)
    ensures |r| == |vals|
    ensures minimum.Fin? ==> forall k :: 0 <= k < |vals| ==> r[k] == vals[k] + minimum.value
    ensures !minimum.Fin? ==> r == vals
  {
    if minimum.Fin? then seq(|vals|, k requires 0 <= k < |vals| => vals[k] + minimum.value) else vals
  }

  /** What `fdf_parse` computes, as a reference definition: the panic of the
      first line that fails, else `NoNumbers` for a text with no lines, else
      the grid with the first line's width. */
  function Parse(text: string, parseFloat: string -> Option<real>): (r: Result<HeightGrid, ParseError>)
    ensures r.Ok? ==> Text.Lines(text) != [] && r.value.width == |Text.Words(Text.Lines(text)[0])|
  {
    ParseLines(Text.Lines(text), parseFloat)
  }

  /** `Parse` on the lines of the text. */
  function ParseLines(lines: seq<string>, parseFloat: string -> Option<real>): (r: Result<HeightGrid, ParseError>)
    ensures r == Err(NoNumbers) <==> lines == []
    ensures r.Ok? ==> |lines| > 0 && r.value.width == |Text.Words(lines[0])|
  {
    var bad := FirstBadLine(lines, parseFloat, 0);
    if bad < |lines| then Err(LineError(lines, parseFloat, bad))
    else if |lines| == 0 then Err(NoNumbers)
    else Ok(GridOf(lines, parseFloat))
  }

  /** The grid built from lines that all pass. */
  function GridOf(lines: seq<string>, parseFloat: string -> Option<real>): HeightGrid
    requires |lines| > 0
  {
    var vals := Samples(lines, parseFloat, |lines|);
    HeightGrid(ShiftedBy(vals, MinOf(vals)), |Text.Words(lines[0])|, Range(MaxOf(vals), MinOf(vals)))
  }

  /** The inner loop over one row's values: the running max and min
      continued over the row. */
  method ScanRow(points: seq<real>, row: seq<real>, maximum: Extended, minimum: Extended)
    returns (newMax: Extended, newMin: Extended)
    requires maximum == MaxOf(points) && minimum == MinOf(points)
    ensures newMax == MaxOf(points + row) && newMin == MinOf(points + row)
  {
    newMax, newMin := maximum, minimum;
    var k := 0;
    assert points + row[..0] == points;
    while k < |row|
      invariant k <= |row|
      invariant newMax == MaxOf(points + row[..k]) && newMin == MinOf(points + row[..k])
    {
      assert (points + row[..k + 1])[..|points| + k] == points + row[..k];
      newMax := ExtMax(newMax, row[k]);
      newMin := ExtMin(newMin, row[k]);
      k := k + 1;
    }
    assert row[..|row|] == row;
  }

  /** The pass after reading: every point has the minimum added to it, in
      place, one index at a time. */
  method ShiftAll(points: array<real>, minimum: Extended)
    requires points.Length > 0 ==> minimum.Fin?
    modifies points
    ensures points[..] == ShiftedBy(old(points[..]), minimum)
  {
    var k := 0;
    while k < points.Length
      invariant k <= points.Length
      invariant forall j :: 0 <= j < k ==> points[j] == old(points[j]) + minimum.value
      invariant forall j :: k <= j < points.Length ==> points[j] == old(points[j])
    {
      points[k] := points[k] + minimum.value;
      k := k + 1;
    }
  }

  /** The grid part of `fdf_parse`, step by step as the source does it: the
      pass over the lines, then an in-place shift of every point, then the
      width check, then the range. */
  method ParseGrid(text: string, parseFloat: string -> Option<real>) returns (r: Result<HeightGrid, ParseError>)
    ensures r == Parse(text, parseFloat)
  {
    var lines := Text.Lines(text);
    var failure, points, maximum, minimum, width := ScanLines(lines, parseFloat);
    if failure.Some? {
      return Err(failure.value);
    }
    var buffer := new real[|points|](j requires 0 <= j < |points| => points[j]);
    assert buffer[..] == points;
    ShiftAll(buffer, minimum);
    if width.None? {
      return Err(NoNumbers);
    }
    r := Ok(HeightGrid(buffer[..], width.value, Range(maximum, minimum)));
  }

  /** A line that does not pass is the first bad line from itself on. */
  lemma BadLineStops(lines: seq<string>, parseFloat: string -> Option<real>, i: nat)
    requires i < |lines| && !LineOk(lines, parseFloat, i)
    ensures FirstBadLine(lines, parseFloat, i) == i
  {
  }

  /** A line that passes is skipped by `FirstBadLine`. */
  lemma GoodLineSkipped(lines: seq<string>, parseFloat: string -> Option<real>, i: nat)
    requires i < |lines| && LineOk(lines, parseFloat, i)
    ensures FirstBadLine(lines, parseFloat, i) == FirstBadLine(lines, parseFloat, i + 1)
  {
  }

  /** One turn of the loop over the lines: line `i`'s tokens are converted
      (a token that does not convert stops the parse), the first line sets
      the width and a later line of another length stops the parse, and
      otherwise the line's values update the running max/min and are
      appended to the points. */
  method ScanLine(lines: seq<string>, parseFloat: string -> Option<real>, i: nat,
                  points: seq<real>, maximum: Extended, minimum: Extended, width: Option<nat>)
    returns (failure: Option<ParseError>, points': seq<real>, maximum': Extended, minimum': Extended, width': Option<nat>)
    requires i < |lines|
    requires width == if i == 0 then None else Some(|Text.Words(lines[0])|)
    requires points == Samples(lines, parseFloat, i) && maximum == MaxOf(points) && minimum == MinOf(points)
    ensures failure.Some? <==> !LineOk(lines, parseFloat, i)
    ensures failure.Some? ==> failure.value == LineError(lines, parseFloat, i)
    ensures failure.None? ==>
      points' == Samples(lines, parseFloat, i + 1)
      && maximum' == MaxOf(points') && minimum' == MinOf(points')
      && width' == Some(|Text.Words(lines[0])|)
  {
    points', maximum', minimum', width' := points, maximum, minimum, width;
    var parsed := ParseRow(Text.Words(lines[i]), parseFloat);
    if parsed.Err? {
      return Some(InvalidFloat(i, parsed.error)), points', maximum', minimum', width';
    }
    var row := parsed.value;
    if width.Some? {
      if width.value != |row| {
        return Some(InvalidRectangle(i, |row|, width.value)), points', maximum', minimum', width';
      }
    } else {
      width' := Some(|row|);
    }
    assert LineOk(lines, parseFloat, i);
    assert RowValues(lines[i], parseFloat) == row;
    maximum', minimum' := ScanRow(points, row, maximum, minimum);
    points' := points + row;
    failure := None;
  }

  /** The loop over the lines, stopped by the first line that fails. */
  method ScanLines(lines: seq<string>, parseFloat: string -> Option<real>)
    returns (failure: Option<ParseError>, points: seq<real>, maximum: Extended, minimum: Extended, width: Option<nat>)
    ensures failure.Some? <==> FirstBadLine(lines, parseFloat, 0) < |lines|
    ensures failure.Some? ==> failure.value == LineError(lines, parseFloat, FirstBadLine(lines, parseFloat, 0))
    ensures failure.None? ==>
      points == Samples(lines, parseFloat, |lines|)
      && maximum == MaxOf(points) && minimum == MinOf(points)
      && width == if lines == [] then None else Some(|Text.Words(lines[0])|)
  {
    maximum := NegInf;
    minimum := PosInf;
    width := None;
    points := [];
    failure := None;
    var i := 0;
    while i < |lines|
      invariant i <= |lines|
      invariant width == if i == 0 then None else Some(|Text.Words(lines[0])|)
      invariant FirstBadLine(lines, parseFloat, 0) == FirstBadLine(lines, parseFloat, i)
      invariant points == Samples(lines, parseFloat, i)
      invariant maximum == MaxOf(points) && minimum == MinOf(points)
      invariant failure.None?
    {
      failure, points, maximum, minimum, width := ScanLine(lines, parseFloat, i, points, maximum, minimum, width);
      if failure.Some? {
        BadLineStops(lines, parseFloat, i);
        assert FirstBadLine(lines, parseFloat, 0) == i;
        return;
      }
      GoodLineSkipped(lines, parseFloat, i);
      i := i + 1;
    }
    assert FirstBadLine(lines, parseFloat, i) == |lines|;
  }

  /** The loaded map: the grid, the camera settings and the pixel buffer. */
  class FdfMap {
    var points: seq<real>
    var width: nat
    var zRange: Extended
    var settings: Camera.Perspective
    var imgBuffer: array<byte>

    /** The struct literal at the end of `fdf_parse`: fresh default settings
        and an all-zero buffer of `4 * 800 * 600` bytes. */
    constructor (grid: HeightGrid)
      ensures points == grid.points && width == grid.width && zRange == grid.zRange
      ensures fresh(settings) && settings.HasDefaults() && settings.Valid()
      ensures fresh(imgBuffer) && imgBuffer.Length == BUFFER_LEN
      ensures forall j :: 0 <= j < imgBuffer.Length ==> imgBuffer[j] == 0
    {
      points := grid.points;
      width := grid.width;
      zRange := grid.zRange;
      settings := new Camera.Perspective();
      imgBuffer := new byte[BUFFER_LEN](_ => 0);
    }
  }

  /** `fdf_parse`: a panic becomes an `Err`; otherwise a new map holding the
      parsed grid. */
  method FdfParse(text: string, parseFloat: string -> Option<real>) returns (r: Result<FdfMap, ParseError>)
    ensures Parse(text, parseFloat).Err? ==> r == Err(Parse(text, parseFloat).error)
    ensures Parse(text, parseFloat).Ok? ==>
      var g := Parse(text, parseFloat).value;
      r.Ok? && fresh(r.value) && fresh(r.value.settings) && fresh(r.value.imgBuffer)
      && r.value.points == g.points && r.value.width == g.width && r.value.zRange == g.zRange
      && r.value.settings.HasDefaults() && r.value.imgBuffer.Length == BUFFER_LEN
      && forall j :: 0 <= j < r.value.imgBuffer.Length ==> r.value.imgBuffer[j] == 0
  {
    var grid := ParseGrid(text, parseFloat);
    if grid.Err? {
      return Err(grid.error);
    }
    var m := new FdfMap(grid.value);
    r := Ok(m);
  }
}
