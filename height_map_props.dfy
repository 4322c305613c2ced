/** What `fdf_parse` promises, proved about its reference definition
    `HeightMap.ParseLines` of the text's lines (`HeightMap.Parse` is
    `ParseLines` of `Text.Lines`, and `HeightMap.ParseGrid` is proved to
    compute `Parse`). */
module HeightMapProperties {
  import opened Results
  import Text
  import opened HeightMap

  /** Parsing succeeds exactly when there is at least one line and every
      line passes; the width is then the first line's token count and every
      line has that many tokens. */
  lemma SuccessRule(lines: seq<string>, parseFloat: string -> Option<real>)
    ensures ParseLines(lines, parseFloat).Ok? <==>
      |lines| > 0 && forall k :: 0 <= k < |lines| ==> LineOk(lines, parseFloat, k)
    ensures ParseLines(lines, parseFloat).Ok? ==>
      ParseLines(lines, parseFloat).value.width == |Text.Words(lines[0])|
      && forall k :: 0 <= k < |lines| ==> |Text.Words(lines[k])| == ParseLines(lines, parseFloat).value.width
  {
    if ParseLines(lines, parseFloat).Ok? {
      forall k | 0 <= k < |lines| ensures |Text.Words(lines[k])| == |Text.Words(lines[0])| {
        assert LineOk(lines, parseFloat, k);
      }
    }
  }

  /** The width rule: the parse fails with `InvalidRectangle(i, len, w)`
      exactly when line `i > 0` is the first failing line, all its tokens
      convert, it has `len` tokens and the first line has `w != len`. */
  lemma WidthRule(lines: seq<string>, parseFloat: string -> Option<real>, i: nat, len: nat, w: nat)
    ensures ParseLines(lines, parseFloat) == Err(InvalidRectangle(i, len, w)) <==>
      0 < i < |lines| && (forall k :: 0 <= k < i ==> LineOk(lines, parseFloat, k))
      && ParseRow(Text.Words(lines[i]), parseFloat).Ok?
      && len == |Text.Words(lines[i])| && w == |Text.Words(lines[0])| && len != w
  {
    if 0 < i < |lines| && (forall k :: 0 <= k < i ==> LineOk(lines, parseFloat, k))
       && ParseRow(Text.Words(lines[i]), parseFloat).Ok?
       && len == |Text.Words(lines[i])| && w == |Text.Words(lines[0])| && len != w
    {
      FirstBadLineIs(lines, parseFloat, i);
    }
  }

  /** The first line that does not pass is the one the parse reports. */
  lemma FirstBadLineIs(lines: seq<string>, parseFloat: string -> Option<real>, i: nat)
    requires i < |lines| && !LineOk(lines, parseFloat, i)
    requires forall k :: 0 <= k < i ==> LineOk(lines, parseFloat, k)
    ensures ParseLines(lines, parseFloat) == Err(LineError(lines, parseFloat, i))
  {
    assert FirstBadLine(lines, parseFloat, 0) == i;
  }

  /** A successful parse is the grid of all the lines. */
  lemma OkIsGrid(lines: seq<string>, parseFloat: string -> Option<real>)
    requires ParseLines(lines, parseFloat).Ok?
    ensures |lines| > 0 && ParseLines(lines, parseFloat).value == GridOf(lines, parseFloat)
  {
  }

  /** A token that does not convert: the parse fails with
      `InvalidFloat(i, token)` exactly when every line before `i` passes and
      `token` is the first token of line `i` that does not convert. */
  lemma InvalidFloatRule(lines: seq<string>, parseFloat: string -> Option<real>, i: nat, token: string)
    ensures ParseLines(lines, parseFloat) == Err(InvalidFloat(i, token)) <==> FirstFailure(lines, parseFloat, i, token)
  {
    if ParseLines(lines, parseFloat) == Err(InvalidFloat(i, token)) {
      InvalidFloatReported(lines, parseFloat, i, token);
    }
    if FirstFailure(lines, parseFloat, i, token) {
      InvalidFloatOfFirst(lines, parseFloat, i, token);
    }
  }

  /** Every line before `i` passes and `token` is the first token of line
      `i` that does not convert. */
  predicate FirstFailure(lines: seq<string>, parseFloat: string -> Option<real>, i: nat, token: string)
  {
    i < |lines| && (forall k :: 0 <= k < i ==> LineOk(lines, parseFloat, k))
    && exists j :: 0 <= j < |Text.Words(lines[i])| && Text.Words(lines[i])[j] == token
                   && parseFloat(token) == None
                   && forall k :: 0 <= k < j ==> parseFloat(Text.Words(lines[i])[k]).Some?
  }

  lemma InvalidFloatReported(lines: seq<string>, parseFloat: string -> Option<real>, i: nat, token: string)
    requires ParseLines(lines, parseFloat) == Err(InvalidFloat(i, token))
    ensures FirstFailure(lines, parseFloat, i, token)
  {
    var bad := FirstBadLine(lines, parseFloat, 0);
    assert bad < |lines| && LineError(lines, parseFloat, bad) == InvalidFloat(i, token);
    assert bad == i;
    var ws := Text.Words(lines[i]);
    assert ParseRow(ws, parseFloat) == Err(token);
    ParseRowMeaning(ws, parseFloat);
  }

  lemma InvalidFloatOfFirst(lines: seq<string>, parseFloat: string -> Option<real>, i: nat, token: string)
    requires FirstFailure(lines, parseFloat, i, token)
    ensures ParseLines(lines, parseFloat) == Err(InvalidFloat(i, token))
  {
    var ws := Text.Words(lines[i]);
    var j :| 0 <= j < |ws| && ws[j] == token && parseFloat(token) == None
             && forall k :: 0 <= k < j ==> parseFloat(ws[k]).Some?;
    FirstFailingToken(ws, parseFloat, j);
    FirstBadLineIs(lines, parseFloat, i);
    assert LineError(lines, parseFloat, i) == InvalidFloat(i, token);
  }

  /** The first token that fails to convert is the one `ParseRow` reports. */
  lemma {:induction false} FirstFailingToken(tokens: seq<string>, parseFloat: string -> Option<real>, j: nat)
    requires j < |tokens| && parseFloat(tokens[j]) == None
    requires forall k :: 0 <= k < j ==> parseFloat(tokens[k]).Some?
    ensures ParseRow(tokens, parseFloat) == Err(tokens[j])
  {
    if j > 0 {
      FirstFailingToken(tokens[1..], parseFloat, j - 1);
    }
  }

  /** With no line at all the width is never set: exactly the empty text
      fails with `NoNumbers`. */
  lemma NoNumbersRule(text: string, parseFloat: string -> Option<real>)
    ensures Parse(text, parseFloat) == Err(NoNumbers) <==> text == []
  {
  }

  /** A blank first line sets the width to 0 and is not itself rejected:
      the lines then parse exactly when every line is blank, into an empty
      grid of width 0 whose range is the untouched -inf. */
  lemma BlankFirstLine(lines: seq<string>, parseFloat: string -> Option<real>)
    requires |lines| > 0 && Text.Words(lines[0]) == []
    ensures ParseLines(lines, parseFloat).Ok? <==> forall k :: 0 <= k < |lines| ==> Text.Words(lines[k]) == []
    ensures ParseLines(lines, parseFloat).Ok? ==> ParseLines(lines, parseFloat).value == HeightGrid([], 0, NegInf)
  {
    if forall k :: 0 <= k < |lines| ==> Text.Words(lines[k]) == [] {
      forall k | 0 <= k < |lines| ensures LineOk(lines, parseFloat, k) {
        assert Text.Words(lines[k]) == [];
      }
    }
    if ParseLines(lines, parseFloat).Ok? {
      SuccessRule(lines, parseFloat);
      forall k | 0 <= k < |lines| ensures |RowValues(lines[k], parseFloat)| == 0 {
        assert LineOk(lines, parseFloat, k);
      }
      SamplesLength(lines, parseFloat, 0);
    }
  }

  /** Lines of `w` values each give `w` samples per line. */
  lemma SamplesLength(lines: seq<string>, parseFloat: string -> Option<real>, w: nat)
    requires forall k :: 0 <= k < |lines| ==> |RowValues(lines[k], parseFloat)| == w
    ensures |Samples(lines, parseFloat, |lines|)| == |lines| * w
  {
    var rows := RowsOf(lines, parseFloat);
    SamplesFlatten(lines, parseFloat, |lines|);
    assert rows[..|lines|] == rows;
    FlatLength(rows, w);
    OffsetIsProduct(|lines|, w);
  }

  /** In lines of `w` values each, value `col` of line `row` is the sample
      that follows the `row` earlier lines and `col` earlier values. */
  lemma SamplesAt(lines: seq<string>, parseFloat: string -> Option<real>, w: nat, row: nat, col: nat)
    requires forall k :: 0 <= k < |lines| ==> |RowValues(lines[k], parseFloat)| == w
    requires row < |lines| && col < w
    ensures Offset(row, w) + col < |Samples(lines, parseFloat, |lines|)|
    ensures Samples(lines, parseFloat, |lines|)[Offset(row, w) + col] == RowValues(lines[row], parseFloat)[col]
  {
    var rows := RowsOf(lines, parseFloat);
    SamplesFlatten(lines, parseFloat, |lines|);
    assert rows[..|lines|] == rows;
    FlatAt(rows, w, row, col);
  }

  /** The values of each line, line by line. */
  function RowsOf(lines: seq<string>, parseFloat: string -> Option<real>): (rows: seq<seq<real>>)
    ensures |rows| == |lines|
    ensures forall k :: 0 <= k < |lines| ==> rows[k] == RowValues(lines[k], parseFloat)
  {
    seq(|lines|, k requires 0 <= k < |lines| => RowValues(lines[k], parseFloat))
  }

  /** The rows one after the other. */
  function Flatten(rows: seq<seq<real>>): seq<real>
  {
    if rows == [] then [] else Flatten(rows[..|rows| - 1]) + rows[|rows| - 1]
  }

  /** The samples of the first `n` lines are those lines' rows flattened. */
  lemma {:induction false} SamplesFlatten(lines: seq<string>, parseFloat: string -> Option<real>, n: nat)
    requires n <= |lines|
    ensures Samples(lines, parseFloat, n) == Flatten(RowsOf(lines, parseFloat)[..n])
  {
    if n > 0 {
      SamplesFlatten(lines, parseFloat, n - 1);
      var rows := RowsOf(lines, parseFloat);
      assert rows[..n][..n - 1] == rows[..n - 1];
    }
  }

  /** `n` rows of `w`, counted by repeated addition. */
  function Offset(n: nat, w: nat): nat
  {
    if n == 0 then 0 else Offset(n - 1, w) + w
  }

  lemma {:induction false} OffsetIsProduct(n: nat, w: nat)
    ensures Offset(n, w) == n * w
  {
    if n > 0 {
      OffsetIsProduct(n - 1, w);
      assert n * w == (n - 1) * w + w;
    }
  }

  /** Rows of `w` values each flatten to `Offset(|rows|, w)` values. */
  lemma {:induction false} FlatLength(rows: seq<seq<real>>, w: nat)
    requires forall k :: 0 <= k < |rows| ==> |rows[k]| == w
    ensures |Flatten(rows)| == Offset(|rows|, w)
  {
    if rows != [] {
      FlatLength(rows[..|rows| - 1], w);
    }
  }

  /** Value `col` of row `row` sits after `row` full rows and `col` values. */
  lemma {:induction false} FlatAt(rows: seq<seq<real>>, w: nat, row: nat, col: nat)
    requires forall k :: 0 <= k < |rows| ==> |rows[k]| == w
    requires row < |rows| && col < w
    ensures Offset(row, w) + col < |Flatten(rows)|
    ensures Flatten(rows)[Offset(row, w) + col] == rows[row][col]
  {
    var init := rows[..|rows| - 1];
    if row < |rows| - 1 {
      FlatAt(init, w, row, col);
    } else {
      FlatLength(init, w);
    }
  }

  /** Every line of a successful parse contributes `width` samples. */
  lemma RowsHaveWidth(lines: seq<string>, parseFloat: string -> Option<real>, g: HeightGrid)
    requires ParseLines(lines, parseFloat) == Ok(g)
    ensures forall k :: 0 <= k < |lines| ==> |RowValues(lines[k], parseFloat)| == g.width
  {
    SuccessRule(lines, parseFloat);
    forall k | 0 <= k < |lines| ensures |RowValues(lines[k], parseFloat)| == g.width {
      assert LineOk(lines, parseFloat, k);
    }
  }

  /** Grid size: on success there are `width * lines` points. */
  lemma GridSize(lines: seq<string>, parseFloat: string -> Option<real>, g: HeightGrid)
    requires ParseLines(lines, parseFloat) == Ok(g)
    ensures |g.points| == g.width * |lines|
  {
    OkIsGrid(lines, parseFloat);
    RowsHaveWidth(lines, parseFloat, g);
    SamplesLength(lines, parseFloat, g.width);
  }

  /** Grid layout: the point at `idx == row * width + col` is the value of
      token `col` of line `row` plus the minimum of all values. */
  lemma GridLayout(lines: seq<string>, parseFloat: string -> Option<real>, g: HeightGrid, row: nat, col: nat, idx: nat)
    requires ParseLines(lines, parseFloat) == Ok(g)
    requires row < |lines| && col < g.width && idx == row * g.width + col
    ensures idx < |g.points|
    ensures |Text.Words(lines[row])| == g.width
    ensures MinOf(Samples(lines, parseFloat, |lines|)).Fin?
    ensures parseFloat(Text.Words(lines[row])[col]).Some?
    ensures g.points[idx]
            == parseFloat(Text.Words(lines[row])[col]).value + MinOf(Samples(lines, parseFloat, |lines|)).value
  {
    TokenAt(lines, parseFloat, g, row, col, idx);
    ShiftDirection(lines, parseFloat, g);
    PointAt(lines, parseFloat, g, idx);
  }

  /** Sample `row * width + col` is the value of token `col` of line `row`. */
  lemma TokenAt(lines: seq<string>, parseFloat: string -> Option<real>, g: HeightGrid, row: nat, col: nat, idx: nat)
    requires ParseLines(lines, parseFloat) == Ok(g)
    requires row < |lines| && col < g.width && idx == row * g.width + col
    ensures idx < |Samples(lines, parseFloat, |lines|)|
    ensures |Text.Words(lines[row])| == g.width
    ensures parseFloat(Text.Words(lines[row])[col]) == Some(Samples(lines, parseFloat, |lines|)[idx])
  {
    LinePasses(lines, parseFloat, row);
    RowsHaveWidth(lines, parseFloat, g);
    OffsetIsProduct(row, g.width);
    TokenOfRow(lines, parseFloat, g.width, row, col, idx);
  }

  /** On success every line passes. */
  lemma LinePasses(lines: seq<string>, parseFloat: string -> Option<real>, row: nat)
    requires ParseLines(lines, parseFloat).Ok? && row < |lines|
    ensures LineOk(lines, parseFloat, row)
  {
  }

  /** When every line has `w` values and line `row` converts, its token
      `col` converts to the sample at offset `idx`, which is `row * w + col`. */
  lemma TokenOfRow(lines: seq<string>, parseFloat: string -> Option<real>, w: nat, row: nat, col: nat, idx: nat)
    requires forall k :: 0 <= k < |lines| ==> |RowValues(lines[k], parseFloat)| == w
    requires row < |lines| && col < w && ParseRow(Text.Words(lines[row]), parseFloat).Ok?
    requires idx == Offset(row, w) + col
    ensures |Text.Words(lines[row])| == w
    ensures idx < |Samples(lines, parseFloat, |lines|)|
    ensures parseFloat(Text.Words(lines[row])[col]) == Some(Samples(lines, parseFloat, |lines|)[idx])
  {
    var ws := Text.Words(lines[row]);
    ParseRowMeaning(ws, parseFloat);
    RowValuesOfOk(lines[row], parseFloat);
    SamplesAt(lines, parseFloat, w, row, col);
    assert parseFloat(ws[col]) == Some(RowValues(lines[row], parseFloat)[col]);
  }

  /** The values of a line that converts are its tokens' values. */
  lemma RowValuesOfOk(line: string, parseFloat: string -> Option<real>)
    requires ParseRow(Text.Words(line), parseFloat).Ok?
    ensures RowValues(line, parseFloat) == ParseRow(Text.Words(line), parseFloat).value
  {
  }

  /** Point `idx` is sample `idx` plus the minimum. */
  lemma PointAt(lines: seq<string>, parseFloat: string -> Option<real>, g: HeightGrid, idx: nat)
    requires ParseLines(lines, parseFloat) == Ok(g)
    requires idx < |g.points|
    ensures MinOf(Samples(lines, parseFloat, |lines|)).Fin?
    ensures g.points[idx] == Samples(lines, parseFloat, |lines|)[idx] + MinOf(Samples(lines, parseFloat, |lines|)).value
  {
    ShiftDirection(lines, parseFloat, g);
  }

  /** Shift direction: every stored point is its sample PLUS the smallest
      value read (not minus it), and that minimum is a value read and is at
      most every value read. */
  lemma ShiftDirection(lines: seq<string>, parseFloat: string -> Option<real>, g: HeightGrid)
    requires ParseLines(lines, parseFloat) == Ok(g)
    ensures |g.points| == |Samples(lines, parseFloat, |lines|)|
    ensures var vals := Samples(lines, parseFloat, |lines|);
      vals != [] ==>
        MinOf(vals).Fin?
        && (forall k :: 0 <= k < |vals| ==> g.points[k] == vals[k] + MinOf(vals).value)
        && (forall k :: 0 <= k < |vals| ==> MinOf(vals).value <= vals[k])
        && exists k :: 0 <= k < |vals| && vals[k] == MinOf(vals).value
  {
    OkIsGrid(lines, parseFloat);
    var vals := Samples(lines, parseFloat, |lines|);
    if vals != [] {
      MinOfIsMinimum(vals);
    }
  }

  /** Range: `z_range` is the largest minus the smallest value read, hence
      never negative once a value was read; with no value it is -inf. */
  lemma ZRange(lines: seq<string>, parseFloat: string -> Option<real>, g: HeightGrid)
    requires ParseLines(lines, parseFloat) == Ok(g)
    ensures Samples(lines, parseFloat, |lines|) == [] ==> g.zRange == NegInf && g.points == []
    ensures var vals := Samples(lines, parseFloat, |lines|);
      vals != [] ==>
        MaxOf(vals).Fin? && MinOf(vals).Fin?
        && g.zRange.Fin? && g.zRange.value == MaxOf(vals).value - MinOf(vals).value
        && g.zRange.value >= 0.0
  {
    OkIsGrid(lines, parseFloat);
    RangeOfValues(Samples(lines, parseFloat, |lines|));
  }

  /** Max minus min of the values read: -inf before any value, afterwards
      finite and not negative. */
  lemma RangeOfValues(vals: seq<real>)
    ensures vals == [] ==> Range(MaxOf(vals), MinOf(vals)) == NegInf && ShiftedBy(vals, MinOf(vals)) == []
    ensures vals != [] ==>
      MaxOf(vals).Fin? && MinOf(vals).Fin?
      && Range(MaxOf(vals), MinOf(vals)) == Fin(MaxOf(vals).value - MinOf(vals).value)
      && MaxOf(vals).value - MinOf(vals).value >= 0.0
  {
    if vals != [] {
      MaxOfIsMaximum(vals);
      MinOfIsMinimum(vals);
      assert MinOf(vals).value <= vals[0] <= MaxOf(vals).value;
    }
  }
}
