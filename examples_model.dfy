/** Worked examples: the shift by the minimum, and whole texts parsed with a
    reader that knows only the digits. */
module ParseExamples {
  import opened Results
  import Text
  import opened HeightMap
  import opened HeightMapProperties

  /** Samples -1, 0, 1 have minimum -1 and are stored as -2, -1, 0: the
      shift adds the minimum. Their range is 2. */
  lemma NegativeShift()
    ensures MinOf([-1.0, 0.0, 1.0]) == Fin(-1.0)
    ensures ShiftedBy([-1.0, 0.0, 1.0], MinOf([-1.0, 0.0, 1.0])) == [-2.0, -1.0, 0.0]
    ensures Range(MaxOf([-1.0, 0.0, 1.0]), MinOf([-1.0, 0.0, 1.0])) == Fin(2.0)
  {
  }

  /** Samples 0, 1, 2 have minimum 0, so the shift leaves them as they are. */
  lemma ZeroShift()
    ensures ShiftedBy([0.0, 1.0, 2.0], MinOf([0.0, 1.0, 2.0])) == [0.0, 1.0, 2.0]
  {
  }

  /** A float reader for the examples: a single decimal digit and nothing
      else. */
  function Digit(t: string): (r: Option<real>)
    ensures r.Some? <==> |t| == 1 && '0' <= t[0] <= '9'
    ensures r.Some? ==> 0.0 <= r.value <= 9.0
  {
    if |t| == 1 && '0' <= t[0] <= '9' then Some((t[0] as int - '0' as int) as real) else None
  }

  /** A token that converts, in front of tokens that all convert. */
  lemma ParseRowCons(t: string, ts: seq<string>, v: real)
    requires Digit(t) == Some(v) && ParseRow(ts, Digit).Ok?
    ensures ParseRow([t] + ts, Digit) == Ok([v] + ParseRow(ts, Digit).value)
  {
    assert ([t] + ts)[0] == t && ([t] + ts)[1..] == ts;
  }

  /** The lines of "1 2\n3". */
  lemma ShortSecondLineLines()
    ensures Text.Lines("1 2\n3") == ["1 2", "3"]
  {
    assert "1 2\n3" == "1 2" + "\n" + "3";
    Text.LinesOfLine("1 2", "3");
    assert Text.Lines("3") == ["3"];
  }

  /** The tokens of "1 2" and of "3", and their values. */
  lemma ShortSecondLineRows()
    ensures Text.Words("1 2") == ["1", "2"] && Text.Words("3") == ["3"]
    ensures ParseRow(["1", "2"], Digit) == Ok([1.0, 2.0]) && ParseRow(["3"], Digit) == Ok([3.0])
  {
    assert "1 2" == Text.Spaced(["1", "2"]);
    Text.WordsOfSpaced(["1", "2"]);
    Text.WordsOfSpaced(["3"]);
    assert Digit("1") == Some(1.0) && Digit("2") == Some(2.0) && Digit("3") == Some(3.0);
    ParseRowCons("2", [], 2.0);
    assert ["2"] + [] == ["2"] && [2.0] + [] == [2.0];
    ParseRowCons("1", ["2"], 1.0);
    assert ["1"] + ["2"] == ["1", "2"] && [1.0] + [2.0] == [1.0, 2.0];
    ParseRowCons("3", [], 3.0);
    assert ["3"] + [] == ["3"] && [3.0] + [] == [3.0];
  }

  /** "1 2" then "3": the second line is shorter than the first, so the
      parse stops at line 1 with length 1 where 2 was expected. */
  lemma ShortSecondLine()
    ensures Parse("1 2\n3", Digit) == Err(InvalidRectangle(1, 1, 2))
  {
    ShortSecondLineLines();
    ShortSecondLineRows();
    var lines := ["1 2", "3"];
    assert LineOk(lines, Digit, 0);
    WidthRule(lines, Digit, 1, 1, 2);
  }

  /** "1 x": the token "x" does not convert, so line 0 panics on it. */
  lemma BadToken()
    ensures Parse("1 x", Digit) == Err(InvalidFloat(0, "x"))
  {
    var lines := ["1 x"];
    assert Text.Lines("1 x") == lines;
    assert "1 x" == Text.Spaced(["1", "x"]);
    Text.WordsOfSpaced(["1", "x"]);
    assert Digit("1") == Some(1.0) && Digit("x") == None;
    FirstFailingToken(["1", "x"], Digit, 1);
    FirstBadLineIs(lines, Digit, 0);
  }

  /** The lines of "1 2\n3 4". */
  lemma SquareLines()
    ensures Text.Lines("1 2\n3 4") == ["1 2", "3 4"]
  {
    assert "1 2\n3 4" == "1 2" + "\n" + "3 4";
    Text.LinesOfLine("1 2", "3 4");
    assert Text.LineEnd("3 4") == 3;
  }

  /** The values of "1 2" and of "3 4". */
  lemma SquareRows()
    ensures RowValues("1 2", Digit) == [1.0, 2.0] && RowValues("3 4", Digit) == [3.0, 4.0]
    ensures ParseRow(Text.Words("1 2"), Digit).Ok? && ParseRow(Text.Words("3 4"), Digit).Ok?
    ensures |Text.Words("1 2")| == 2 && |Text.Words("3 4")| == 2
  {
    assert "1 2" == Text.Spaced(["1", "2"]) && "3 4" == Text.Spaced(["3", "4"]);
    Text.WordsOfSpaced(["1", "2"]);
    Text.WordsOfSpaced(["3", "4"]);
    assert Digit("1") == Some(1.0) && Digit("2") == Some(2.0);
    assert Digit("3") == Some(3.0) && Digit("4") == Some(4.0);
    ParseRowCons("2", [], 2.0);
    assert ["2"] + [] == ["2"] && [2.0] + [] == [2.0];
    ParseRowCons("1", ["2"], 1.0);
    assert ["1"] + ["2"] == ["1", "2"] && [1.0] + [2.0] == [1.0, 2.0];
    ParseRowCons("4", [], 4.0);
    assert ["4"] + [] == ["4"] && [4.0] + [] == [4.0];
    ParseRowCons("3", ["4"], 3.0);
    assert ["3"] + ["4"] == ["3", "4"] && [3.0] + [4.0] == [3.0, 4.0];
  }

  /** The samples of "1 2" and "3 4", row after row. */
  lemma SquareSamples()
    ensures Samples(["1 2", "3 4"], Digit, 2) == [1.0, 2.0, 3.0, 4.0]
  {
    SquareRows();
    var lines := ["1 2", "3 4"];
    assert Samples(lines, Digit, 1) == [1.0, 2.0];
    assert [1.0, 2.0] + [3.0, 4.0] == [1.0, 2.0, 3.0, 4.0];
  }

  /** Samples 1, 2, 3, 4: minimum 1, maximum 4, stored as 2, 3, 4, 5. */
  lemma SquareShift()
    ensures MinOf([1.0, 2.0, 3.0, 4.0]) == Fin(1.0) && MaxOf([1.0, 2.0, 3.0, 4.0]) == Fin(4.0)
    ensures ShiftedBy([1.0, 2.0, 3.0, 4.0], Fin(1.0)) == [2.0, 3.0, 4.0, 5.0]
  {
    var s := [1.0, 2.0, 3.0, 4.0];
    assert s[..3] == [1.0, 2.0, 3.0] && s[..3][..2] == [1.0, 2.0];
    assert MinOf([1.0, 2.0]) == Fin(1.0) && MaxOf([1.0, 2.0]) == Fin(2.0);
    assert MinOf([1.0, 2.0, 3.0]) == Fin(1.0) && MaxOf([1.0, 2.0, 3.0]) == Fin(3.0);
  }

  /** "1 2\n3 4" parses to a 2-wide grid: the samples 1, 2, 3, 4 shifted by
      their minimum 1, and the range 4 - 1. */
  lemma Square()
    ensures Parse("1 2\n3 4", Digit) == Ok(HeightGrid([2.0, 3.0, 4.0, 5.0], 2, Fin(3.0)))
  {
    SquareLines();
    SquareRows();
    var lines := ["1 2", "3 4"];
    assert LineOk(lines, Digit, 0) && LineOk(lines, Digit, 1);
    SuccessRule(lines, Digit);
    OkIsGrid(lines, Digit);
    SquareSamples();
    SquareShift();
  }
}
