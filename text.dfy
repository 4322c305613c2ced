/** The two pieces of Rust's `str` API the parser relies on: `lines()` and
    `split_whitespace()`, as total functions on `string`. */
module Text {

  /** Rust's `char::is_whitespace`: the Unicode White_Space property. */
  predicate IsWhitespace(c: char)
  {
    ('\t' <= c <= '\r') || c == ' ' || c == '\U{0085}' || c == '\U{00A0}'
    || c == '\U{1680}' || ('\U{2000}' <= c <= '\U{200A}') || c == '\U{2028}'
    || c == '\U{2029}' || c == '\U{202F}' || c == '\U{205F}' || c == '\U{3000}'
  }

  // ---------------------------------------------------------------------
  // str::lines

  /** Index of the first line feed in `s`, or `|s|` when there is none. */
  function LineEnd(s: string): (k: nat)
    ensures k <= |s|
    ensures k < |s| ==> s[k] == '\n'
    ensures forall j :: 0 <= j < k ==> s[j] != '\n'
  {
    if s == [] || s[0] == '\n' then 0 else 1 + LineEnd(s[1..])
  }

  /** A line terminated by "\r\n" loses its carriage return. */
  function StripCarriageReturn(line: string): string
  {
    if |line| > 0 && line[|line| - 1] == '\r' then line[..|line| - 1] else line
  }

  /** `str::lines`: split at each '\n' (dropping a '\r' just before it); the
      final line needs no terminator, and an empty text has no lines. */
  function Lines(s: string): (ls: seq<string>)
    decreases |s|
    ensures ls == [] <==> s == []
  {
    if s == [] then []
    else
      var k := LineEnd(s);
      if k == |s| then [s]
      else [StripCarriageReturn(s[..k])] + Lines(s[k + 1..])
  }

  /** No line holds a line feed. */
  lemma {:induction false} LinesHaveNoLineFeed(s: string)
    decreases |s|
    ensures forall i :: 0 <= i < |Lines(s)| ==> '\n' !in Lines(s)[i]
  {
    if s != [] {
      var k := LineEnd(s);
      if k < |s| {
        LinesHaveNoLineFeed(s[k + 1..]);
        var ls := [StripCarriageReturn(s[..k])] + Lines(s[k + 1..]);
        assert forall i :: 1 <= i < |ls| ==> ls[i] == Lines(s[k + 1..])[i - 1];
      }
    }
  }

  /** Every line followed by its own '\n', the form most text files take. */
  function Terminated(ls: seq<string>): string
  {
    if ls == [] then [] else ls[0] + "\n" + Terminated(ls[1..])
  }

  lemma LineEndOfTerminated(l: string, rest: string)
    requires '\n' !in l
    ensures LineEnd(l + "\n" + rest) == |l|
  {
    var s := l + "\n" + rest;
    assert s[|l|] == '\n';
    assert forall j :: 0 <= j < |l| ==> s[j] == l[j];
  }

  /** `lines` inverts `Terminated` on lines with no '\n' and no trailing '\r'. */
  lemma {:induction false} LinesOfTerminated(ls: seq<string>)
    requires forall i :: 0 <= i < |ls| ==> '\n' !in ls[i]
    requires forall i :: 0 <= i < |ls| ==> |ls[i]| == 0 || ls[i][|ls[i]| - 1] != '\r'
    ensures Lines(Terminated(ls)) == ls
  {
    if ls != [] {
      LinesOfTerminated(ls[1..]);
      LinesOfLine(ls[0], Terminated(ls[1..]));
      assert [ls[0]] + ls[1..] == ls;
    }
  }

  /** A line with no '\n' and no trailing '\r', then its '\n', is the first
      line of the text. */
  lemma LinesOfLine(l: string, rest: string)
    requires '\n' !in l && (|l| == 0 || l[|l| - 1] != '\r')
    ensures Lines(l + "\n" + rest) == [l] + Lines(rest)
  {
    var s := l + "\n" + rest;
    LineEndOfTerminated(l, rest);
    assert s[..|l|] == l;
    assert s[|l| + 1..] == rest;
  }

  // ---------------------------------------------------------------------
  // str::split_whitespace

  /** Length of the run of non-whitespace characters that starts `s`. */
  function WordEnd(s: string): (k: nat)
    ensures k <= |s|
    ensures k < |s| ==> IsWhitespace(s[k])
    ensures forall j :: 0 <= j < k ==> !IsWhitespace(s[j])
  {
    if s == [] || IsWhitespace(s[0]) then 0 else 1 + WordEnd(s[1..])
  }

  predicate IsWord(w: string)
  {
    |w| > 0 && forall j :: 0 <= j < |w| ==> !IsWhitespace(w[j])
  }

  /** `str::split_whitespace`: the maximal runs of non-whitespace characters,
      in order; runs of whitespace of any length only separate them. */
  function Words(s: string): (ws: seq<string>)
    decreases |s|
  {
    if s == [] then []
    else if IsWhitespace(s[0]) then Words(s[1..])
    else
      var k := WordEnd(s);
      [s[..k]] + Words(s[k..])
  }

  /** Every word is non-empty and holds no whitespace. */
  lemma {:induction false} WordsAreWords(s: string)
    decreases |s|
    ensures forall i :: 0 <= i < |Words(s)| ==> IsWord(Words(s)[i])
  {
    if s == [] {
    } else if IsWhitespace(s[0]) {
      WordsAreWords(s[1..]);
    } else {
      var k := WordEnd(s);
      WordsAreWords(s[k..]);
      var ws := [s[..k]] + Words(s[k..]);
      assert forall i :: 1 <= i < |ws| ==> ws[i] == Words(s[k..])[i - 1];
    }
  }

  /** `s` with its whitespace removed. */
  function NonWhitespace(s: string): string
  {
    if s == [] then []
    else if IsWhitespace(s[0]) then NonWhitespace(s[1..])
    else [s[0]] + NonWhitespace(s[1..])
  }

  function Concat(ws: seq<string>): string
  {
    if ws == [] then [] else ws[0] + Concat(ws[1..])
  }

  lemma {:induction false} NonWhitespaceAppend(a: string, b: string)
    ensures NonWhitespace(a + b) == NonWhitespace(a) + NonWhitespace(b)
  {
    if a != [] {
      assert (a + b)[1..] == a[1..] + b;
      NonWhitespaceAppend(a[1..], b);
    } else {
      assert a + b == b;
    }
  }

  lemma {:induction false} NonWhitespaceOfWord(w: string)
    requires forall j :: 0 <= j < |w| ==> !IsWhitespace(w[j])
    ensures NonWhitespace(w) == w
  {
    if w != [] {
      NonWhitespaceOfWord(w[1..]);
    }
  }

  /** The words hold exactly the non-whitespace characters of `s`, in order:
      splitting loses nothing but whitespace. */
  lemma {:induction false} WordsCoverText(s: string)
    ensures Concat(Words(s)) == NonWhitespace(s)
    decreases |s|
  {
    if s == [] {
    } else if IsWhitespace(s[0]) {
      WordsCoverText(s[1..]);
    } else {
      var k := WordEnd(s);
      assert s == s[..k] + s[k..];
      NonWhitespaceAppend(s[..k], s[k..]);
      NonWhitespaceOfWord(s[..k]);
      WordsCoverText(s[k..]);
      var ws := [s[..k]] + Words(s[k..]);
      assert ws[1..] == Words(s[k..]);
    }
  }

  /** Words joined by single spaces. */
  function Spaced(ws: seq<string>): string
  {
    if ws == [] then [] else if |ws| == 1 then ws[0] else ws[0] + " " + Spaced(ws[1..])
  }

  /** A word ends where the whitespace (or the text) after it begins. */
  lemma WordEndOfWord(w: string, rest: string)
    requires IsWord(w)
    requires rest == [] || IsWhitespace(rest[0])
    ensures WordEnd(w + rest) == |w|
  {
    var s := w + rest;
    assert forall j :: 0 <= j < |w| ==> s[j] == w[j];
    if rest != [] {
      assert s[|w|] == rest[0];
    }
  }

  /** A word followed by whitespace or the end of the text is split off whole. */
  lemma WordsOfWordThen(w: string, rest: string)
    requires IsWord(w)
    requires rest == [] || IsWhitespace(rest[0])
    ensures Words(w + rest) == [w] + Words(rest)
  {
    var s := w + rest;
    WordEndOfWord(w, rest);
    assert s[0] == w[0];
    assert s[..|w|] == w && s[|w|..] == rest;
  }

  /** A leading space only separates. */
  lemma WordsSkipSpace(rest: string)
    ensures Words(" " + rest) == Words(rest)
  {
    assert (" " + rest)[1..] == rest;
  }

  /** `split_whitespace` inverts `Spaced` on words: the token boundaries are
      exactly where the spaces were put. */
  lemma {:induction false} WordsOfSpaced(ws: seq<string>)
    requires forall i :: 0 <= i < |ws| ==> IsWord(ws[i])
    ensures Words(Spaced(ws)) == ws
  {
    if |ws| == 1 {
      WordsOfWordThen(ws[0], []);
      assert ws[0] + [] == ws[0];
    } else if |ws| > 1 {
      WordsOfSpaced(ws[1..]);
      SpacedStep(ws[0], ws[1..]);
      assert [ws[0]] + ws[1..] == ws;
    }
  }

  /** One word, a space, then words that already split back. */
  lemma SpacedStep(w: string, ws: seq<string>)
    requires IsWord(w) && ws != []
    requires Words(Spaced(ws)) == ws
    ensures Words(Spaced([w] + ws)) == [w] + ws
  {
    var rest := Spaced(ws);
    assert ([w] + ws)[1..] == ws;
    assert Spaced([w] + ws) == w + (" " + rest);
    WordsSkipSpace(rest);
    WordsOfWordThen(w, " " + rest);
  }
}
