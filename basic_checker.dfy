/**
 * `basicChecker(output, answer)`: both texts are split into lines, each line loses its
 * trailing whitespace, trailing empty lines are dropped, and the first line that
 * differs (a missing line counting as "") is reported with its first differing column,
 * both 1-based. The texts are taken as already decoded.
 */
module BasicChecker {
  import opened Text
  import opened Decimal
  import I18n

  // ---------------------------------------------------------------------------
  // process_content

  /** `[line.rstrip() for line in lines]`. */
  function StripLines(lines: seq<string>): (r: seq<string>)
    ensures |r| == |lines|
    ensures forall i :: 0 <= i < |r| ==> r[i] == RStrip(lines[i])
  {
    seq(|lines|, i requires 0 <= i < |lines| => RStrip(lines[i]))
  }

  /** What `while lines and lines[-1] == "": lines.pop()` leaves. */
  function DropTrailingEmpty(lines: seq<string>): (r: seq<string>)
    ensures r <= lines
    ensures r == [] || r[|r| - 1] != ""
    ensures forall i :: |r| <= i < |lines| ==> lines[i] == ""
    decreases |lines|
  {
    if lines != [] && lines[|lines| - 1] == "" then DropTrailingEmpty(lines[..|lines| - 1]) else lines
  }

  /** The lines `process_content` returns for a text. */
  function Normalise(text: string): seq<string> {
    DropTrailingEmpty(StripLines(SplitLines(text)))
  }

  /** No line ends in whitespace (stripping it changes nothing), and the last line, if any, is not empty. */
  predicate Normalised(lines: seq<string>) {
    (forall i :: 0 <= i < |lines| ==> RStrip(lines[i]) == lines[i])
    && (lines == [] || lines[|lines| - 1] != "")
  }

  /** Stripping every line and dropping the trailing empty ones leaves normalised lines. */
  lemma StrippedNormalised(lines: seq<string>)
    ensures Normalised(DropTrailingEmpty(StripLines(lines)))
  {
    var s := StripLines(lines);
    var r := DropTrailingEmpty(s);
    forall i | 0 <= i < |r| ensures RStrip(r[i]) == r[i] {
      assert r[i] == s[i] == RStrip(lines[i]);
      TrimEndIdempotent(lines[i], WHITESPACE);
    }
  }

  lemma NormaliseIsNormalised(text: string)
    ensures Normalised(Normalise(text))
  {
    StrippedNormalised(SplitLines(text));
  }

  /** `process_content(content)`: the comprehension, then the popping loop. */
  method ProcessContent(text: string) returns (lines: seq<string>)
    ensures lines == Normalise(text)
    ensures Normalised(lines)
  {
    lines := StripLines(SplitLines(text));
    ghost var stripped := lines;
    while lines != [] && lines[|lines| - 1] == ""
      invariant DropTrailingEmpty(lines) == DropTrailingEmpty(stripped)
      decreases |lines|
    {
      lines := lines[..|lines| - 1];
    }
    NormaliseIsNormalised(text);
  }

  // ---------------------------------------------------------------------------
  // The first difference

  datatype Difference = NoDifference | DifferenceAt(line: nat, column: nat)

  /** A line of a normalised text, "" past its end. */
  function LineAt(lines: seq<string>, i: nat): string {
    if i < |lines| then lines[i] else ""
  }

  function Max(a: nat, b: nat): nat {
    if a > b then a else b
  }

  function Min(a: nat, b: nat): nat {
    if a < b then a else b
  }

  /** The length of the longest common prefix of two lines. */
  function CommonPrefix(x: string, y: string): (n: nat)
    ensures n <= Min(|x|, |y|)
    ensures x[..n] == y[..n]
    ensures n < Min(|x|, |y|) ==> x[n] != y[n]
    decreases |x|
  {
    if x == [] || y == [] || x[0] != y[0] then 0
    else
      var n := 1 + CommonPrefix(x[1..], y[1..]);
      assert x[..n] == [x[0]] + x[1..][..n - 1];
      assert y[..n] == [y[0]] + y[1..][..n - 1];
      n
  }

  /** A length with the three properties of CommonPrefix is CommonPrefix. */
  lemma CommonPrefixUnique(x: string, y: string, n: nat)
    requires n <= Min(|x|, |y|) && x[..n] == y[..n]
    requires n < Min(|x|, |y|) ==> x[n] != y[n]
    ensures n == CommonPrefix(x, y)
  {
    var c := CommonPrefix(x, y);
    assert forall k :: 0 <= k < c ==> x[k] == x[..c][k] == y[..c][k] == y[k];
    assert forall k :: 0 <= k < n ==> x[k] == x[..n][k] == y[..n][k] == y[k];
  }

  lemma CommonPrefixSymmetric(x: string, y: string)
    ensures CommonPrefix(x, y) == CommonPrefix(y, x)
  {
    CommonPrefixUnique(y, x, CommonPrefix(x, y));
  }

  /** The first difference at line index `i` or later. */
  function DiffFrom(a: seq<string>, b: seq<string>, i: nat): Difference
    decreases Max(|a|, |b|) - i
  {
    if i >= Max(|a|, |b|) then NoDifference
    else if LineAt(a, i) != LineAt(b, i) then
      DifferenceAt(i + 1, CommonPrefix(LineAt(a, i), LineAt(b, i)) + 1)
    else DiffFrom(a, b, i + 1)
  }

  /** The difference `basicChecker` reports between two normalised texts. */
  function Compare(a: seq<string>, b: seq<string>): Difference {
    DiffFrom(a, b, 0)
  }

  /** The comparison loop of `basicChecker`, column search included. */
  method FindDifference(a: seq<string>, b: seq<string>) returns (d: Difference)
    ensures d == Compare(a, b)
  {
    var maxLines := if |a| > |b| then |a| else |b|;
    for i := 0 to maxLines
      invariant DiffFrom(a, b, i) == Compare(a, b)
    {
      var x := if i < |a| then a[i] else "";
      var y := if i < |b| then b[i] else "";
      if x != y {
        var col := 1;
        var minLen := if |x| < |y| then |x| else |y|;
        while col <= minLen && x[col - 1] == y[col - 1]
          invariant 1 <= col <= minLen + 1
          invariant x[..col - 1] == y[..col - 1]
        {
          assert x[..col] == x[..col - 1] + [x[col - 1]];
          assert y[..col] == y[..col - 1] + [y[col - 1]];
          col := col + 1;
        }
        CommonPrefixUnique(x, y, col - 1);
        return DifferenceAt(i + 1, col);
      }
    }
    return NoDifference;
  }

  /** No difference from `i` on exactly when all remaining lines agree. */
  lemma {:induction false} DiffFromNone(a: seq<string>, b: seq<string>, i: nat)
    ensures DiffFrom(a, b, i) == NoDifference
        <==> forall k :: i <= k < Max(|a|, |b|) ==> LineAt(a, k) == LineAt(b, k)
    decreases Max(|a|, |b|) - i
  {
    if i < Max(|a|, |b|) && LineAt(a, i) == LineAt(b, i) {
      DiffFromNone(a, b, i + 1);
    }
  }

  /** A reported difference names the first differing line. */
  lemma {:induction false} DiffFromLine(a: seq<string>, b: seq<string>, i: nat)
    requires DiffFrom(a, b, i).DifferenceAt?
    ensures var d := DiffFrom(a, b, i);
      i + 1 <= d.line <= Max(|a|, |b|)
      && LineAt(a, d.line - 1) != LineAt(b, d.line - 1)
      && (forall k :: i <= k < d.line - 1 ==> LineAt(a, k) == LineAt(b, k))
    decreases Max(|a|, |b|) - i
  {
    if LineAt(a, i) == LineAt(b, i) {
      DiffFromLine(a, b, i + 1);
    }
  }

  /** The column of a reported difference follows the common prefix of its two lines. */
  lemma {:induction false} DiffFromColumn(a: seq<string>, b: seq<string>, i: nat)
    requires DiffFrom(a, b, i).DifferenceAt?
    ensures var d := DiffFrom(a, b, i);
      d.line >= i + 1 && d.column == CommonPrefix(LineAt(a, d.line - 1), LineAt(b, d.line - 1)) + 1
    decreases Max(|a|, |b|) - i
  {
    if LineAt(a, i) == LineAt(b, i) {
      DiffFromColumn(a, b, i + 1);
    }
  }

  /** A reported difference names the first differing line and its first differing column. */
  lemma DiffFromAt(a: seq<string>, b: seq<string>, i: nat)
    requires DiffFrom(a, b, i).DifferenceAt?
    ensures i + 1 <= DiffFrom(a, b, i).line <= Max(|a|, |b|)
    ensures var d := DiffFrom(a, b, i);
      var x := LineAt(a, d.line - 1);
      var y := LineAt(b, d.line - 1);
      x != y
      && (forall k :: i <= k < d.line - 1 ==> LineAt(a, k) == LineAt(b, k))
      && 1 <= d.column <= Min(|x|, |y|) + 1
      && x[..d.column - 1] == y[..d.column - 1]
      && (d.column <= Min(|x|, |y|) ==> x[d.column - 1] != y[d.column - 1])
  {
    DiffFromLine(a, b, i);
    DiffFromColumn(a, b, i);
    var d := DiffFrom(a, b, i);
    var n := CommonPrefix(LineAt(a, d.line - 1), LineAt(b, d.line - 1));
    assert d.column - 1 == n;
  }

  /** Normalised texts agree line by line (with "" past the end) only if they are equal. */
  lemma NormalisedLinesEqual(a: seq<string>, b: seq<string>)
    requires Normalised(a) && Normalised(b)
    requires forall k :: 0 <= k < Max(|a|, |b|) ==> LineAt(a, k) == LineAt(b, k)
    ensures a == b
  {
    var m := Max(|a|, |b|);
    if m > 0 {
      assert LineAt(a, m - 1) == LineAt(b, m - 1);
    }
    forall k | 0 <= k < |a| ensures a[k] == b[k] {
      assert LineAt(a, k) == LineAt(b, k);
    }
  }

  /** On normalised texts the comparison finds no difference exactly when they are equal. */
  lemma CompareNoneIffEqual(a: seq<string>, b: seq<string>)
    requires Normalised(a) && Normalised(b)
    ensures Compare(a, b) == NoDifference <==> a == b
  {
    DiffFromNone(a, b, 0);
    if Compare(a, b) == NoDifference {
      NormalisedLinesEqual(a, b);
    }
  }

  lemma {:induction false} DiffFromSymmetric(a: seq<string>, b: seq<string>, i: nat)
    ensures DiffFrom(a, b, i) == DiffFrom(b, a, i)
    decreases Max(|a|, |b|) - i
  {
    if i < Max(|a|, |b|) {
      CommonPrefixSymmetric(LineAt(a, i), LineAt(b, i));
      DiffFromSymmetric(a, b, i + 1);
    }
  }

  /** Swapping output and answer reports the same line and column. */
  lemma CompareSymmetric(a: seq<string>, b: seq<string>)
    ensures Compare(a, b) == Compare(b, a)
  {
    DiffFromSymmetric(a, b, 0);
  }

  /** Extra non-empty lines on one side are reported at the first extra line, column 1. */
  lemma ExtraLines(a: seq<string>, b: seq<string>)
    requires |a| < |b| && a == b[..|a|] && b[|a|] != ""
    ensures Compare(a, b) == DifferenceAt(|a| + 1, 1)
  {
    DiffFromNone(a, b[..|a| + 1], 0);
    var k := |a|;
    assert LineAt(a, k) != LineAt(b, k);
    forall j | 0 <= j < k ensures LineAt(a, j) == LineAt(b, j) {
      assert a[j] == b[j];
    }
    PrefixDiff(a, b, 0, k);
  }

  lemma {:induction false} PrefixDiff(a: seq<string>, b: seq<string>, i: nat, k: nat)
    requires i <= k < Max(|a|, |b|)
    requires forall j :: i <= j < k ==> LineAt(a, j) == LineAt(b, j)
    requires LineAt(a, k) != LineAt(b, k)
    ensures DiffFrom(a, b, i) == DifferenceAt(k + 1, CommonPrefix(LineAt(a, k), LineAt(b, k)) + 1)
    decreases k - i
  {
    if i < k {
      PrefixDiff(a, b, i + 1, k);
    }
  }

  // ---------------------------------------------------------------------------
  // basicChecker

  const NO_DIFFERENCES: string := "No differences found."
  const DIFFERENCE_AT: string := "Difference found at line {0}, column {1}."

  /** The verdict and message for a comparison result, in the current language `lang`. */
  function Report(d: Difference, lang: string): (bool, string) {
    match d
    case NoDifference => (true, I18n.Lookup(lang, NO_DIFFERENCES))
    case DifferenceAt(line, column) =>
      (false, Format(I18n.Lookup(lang, DIFFERENCE_AT), [NatToString(line), NatToString(column)]))
  }

  /** `basicChecker(output, answer)` with `lang` the current language of `_`. */
  method Check(output: string, answer: string, lang: string) returns (passed: bool, message: string)
    ensures (passed, message) == Report(Compare(Normalise(output), Normalise(answer)), lang)
    ensures passed <==> Normalise(output) == Normalise(answer)
  {
    var outputLines := ProcessContent(output);
    var answerLines := ProcessContent(answer);
    var d := FindDifference(outputLines, answerLines);
    CompareNoneIffEqual(outputLines, answerLines);
    match d {
      case NoDifference =>
        passed, message := true, I18n.Lookup(lang, NO_DIFFERENCES);
      case DifferenceAt(line, column) =>
        passed := false;
        message := Format(I18n.Lookup(lang, DIFFERENCE_AT), [NatToString(line), NatToString(column)]);
    }
  }

  /** The verdict of the specification: pass exactly on equal normalised texts. */
  lemma VerdictIffEqual(output: string, answer: string, lang: string)
    ensures Report(Compare(Normalise(output), Normalise(answer)), lang).0
        <==> Normalise(output) == Normalise(answer)
  {
    NormaliseIsNormalised(output);
    NormaliseIsNormalised(answer);
    CompareNoneIffEqual(Normalise(output), Normalise(answer));
  }

  /** Every text passes against itself. */
  lemma Reflexive(x: string, lang: string)
    ensures Report(Compare(Normalise(x), Normalise(x)), lang) == (true, I18n.Lookup(lang, NO_DIFFERENCES))
  {
    VerdictIffEqual(x, x, lang);
  }

  /** Swapping output and answer gives the same verdict and message. */
  lemma Symmetric(output: string, answer: string, lang: string)
    ensures Report(Compare(Normalise(output), Normalise(answer)), lang)
         == Report(Compare(Normalise(answer), Normalise(output)), lang)
  {
    CompareSymmetric(Normalise(output), Normalise(answer));
  }
}
