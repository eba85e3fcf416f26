/**
 * Python `str` operations the harness relies on, on decoded character sequences:
 * the whitespace set of `str.strip`/`str.rstrip`, the line-break set of
 * `str.splitlines`, `str.split` on one separator and `str.join`, `str.replace`,
 * `str.startswith`, `str * n` and positional `str.format`; and the `/` of
 * `pathlib` on POSIX paths written as strings.
 */
module Text {

  /** The characters `str.isspace` accepts, so the ones `strip()`/`rstrip()` remove. */
  const WHITESPACE: set<char> := {
    '\t', '\n', '\U{000B}', '\U{000C}', '\r', '\U{001C}', '\U{001D}', '\U{001E}', '\U{001F}', ' ',
    '\U{0085}', '\U{00A0}', '\U{1680}', '\U{2000}', '\U{2001}', '\U{2002}', '\U{2003}', '\U{2004}',
    '\U{2005}', '\U{2006}', '\U{2007}', '\U{2008}', '\U{2009}', '\U{200A}', '\U{2028}', '\U{2029}',
    '\U{202F}', '\U{205F}', '\U{3000}'
  }

  /** The characters at which `str.splitlines` ends a line ("\r\n" counts as one break). */
  const LINE_BREAKS: set<char> := {
    '\n', '\r', '\U{000B}', '\U{000C}', '\U{001C}', '\U{001D}', '\U{001E}', '\U{0085}', '\U{2028}', '\U{2029}'
  }

  predicate StartsWith(s: string, prefix: string) {
    |prefix| <= |s| && s[..|prefix|] == prefix
  }

  /** `s.rstrip(chars)`: drop the longest suffix made of characters in `chars`. */
  function TrimEnd(s: string, chars: set<char>): (r: string)
    ensures r <= s
    ensures r == [] || r[|r| - 1] !in chars
    ensures forall i :: |r| <= i < |s| ==> s[i] in chars
    decreases |s|
  {
    if s != [] && s[|s| - 1] in chars then TrimEnd(s[..|s| - 1], chars) else s
  }

  /** `s.lstrip(chars)`: drop the longest prefix made of characters in `chars`. */
  function TrimStart(s: string, chars: set<char>): (r: string)
    ensures |r| <= |s| && r == s[|s| - |r|..]
    ensures r == [] || r[0] !in chars
    ensures forall i :: 0 <= i < |s| - |r| ==> s[i] in chars
    decreases |s|
  {
    if s != [] && s[0] in chars then
      var r := TrimStart(s[1..], chars);
      assert s[1..][|s| - 1 - |r|..] == s[|s| - |r|..];
      assert forall i :: 1 <= i < |s| - |r| ==> s[i] == s[1..][i - 1];
      r
    else s
  }

  /** `s.strip(chars)`. */
  function Trim(s: string, chars: set<char>): string {
    TrimStart(TrimEnd(s, chars), chars)
  }

  /** `s.rstrip()` with no argument. */
  function RStrip(s: string): string {
    TrimEnd(s, WHITESPACE)
  }

  /** `s.strip()` with no argument. */
  function Strip(s: string): string {
    Trim(s, WHITESPACE)
  }

  lemma {:induction false} TrimEndIdempotent(s: string, chars: set<char>)
    ensures TrimEnd(TrimEnd(s, chars), chars) == TrimEnd(s, chars)
  {
  }

  /** Stripping a text enclosed in one stripped character on each side gives the text back. */
  lemma TrimEnclosed(c: char, x: string, chars: set<char>)
    requires c in chars && x != [] && x[0] !in chars && x[|x| - 1] !in chars
    ensures Trim([c] + x + [c], chars) == x
  {
    var p := [c] + x;
    var q := p + [c];
    assert q[..|q| - 1] == p;
    assert TrimEnd(q, chars) == TrimEnd(p, chars);
    assert p[|p| - 1] == x[|x| - 1];
    assert p[1..] == x;
  }

  // ---------------------------------------------------------------------------
  // str.split(sep) and sep.join(parts)

  /** `s.split(sep)` for a one-character separator: never empty, "" gives [""]. */
  function Split(s: string, sep: char): (parts: seq<string>)
    ensures |parts| >= 1
    ensures forall i :: 0 <= i < |parts| ==> sep !in parts[i]
    decreases |s|
  {
    if s == [] then [""]
    else
      var rest := Split(s[1..], sep);
      if s[0] == sep then [""] + rest else [[s[0]] + rest[0]] + rest[1..]
  }

  /** `sep.join(parts)`. */
  function Join(parts: seq<string>, sep: char): string
    decreases |parts|
  {
    if parts == [] then ""
    else if |parts| == 1 then parts[0]
    else parts[0] + [sep] + Join(parts[1..], sep)
  }

  lemma {:induction false} JoinSplit(s: string, sep: char)
    ensures Join(Split(s, sep), sep) == s
    decreases |s|
  {
    if s != [] {
      var rest := Split(s[1..], sep);
      JoinSplit(s[1..], sep);
      if s[0] != sep {
        if |rest| > 1 {
          assert ([[s[0]] + rest[0]] + rest[1..])[1..] == rest[1..];
        }
      }
    }
  }

  lemma {:induction false} SplitJoin(parts: seq<string>, sep: char)
    requires |parts| >= 1
    requires forall i :: 0 <= i < |parts| ==> sep !in parts[i]
    ensures Split(Join(parts, sep), sep) == parts
    decreases |parts|, |parts[0]|
  {
    if parts[0] == [] {
      if |parts| > 1 {
        SplitJoin(parts[1..], sep);
        assert Join(parts, sep) == [sep] + Join(parts[1..], sep);
        assert (Join(parts, sep))[1..] == Join(parts[1..], sep);
        assert [""] + parts[1..] == parts;
      }
    } else {
      var tail := [parts[0][1..]] + parts[1..];
      assert sep !in tail[0] by { assert forall c :: c in parts[0][1..] ==> c in parts[0]; }
      assert forall i :: 1 <= i < |tail| ==> tail[i] == parts[i];
      SplitJoin(tail, sep);
      var j := Join(parts, sep);
      if |parts| == 1 {
        assert j == parts[0];
      } else {
        assert j == parts[0] + [sep] + Join(parts[1..], sep);
      }
      assert j[1..] == Join(tail, sep);
      assert j[0] == parts[0][0] && j[0] != sep;
      assert [j[0]] + tail[0] == parts[0];
      assert tail[1..] == parts[1..];
      assert [[j[0]] + tail[0]] + tail[1..] == parts;
    }
  }

  // ---------------------------------------------------------------------------
  // str.splitlines()

  /** Index of the first line break at or after `i`, or |s|. */
  function NextBreak(s: string, i: nat): (k: nat)
    requires i <= |s|
    ensures i <= k <= |s|
    ensures k < |s| ==> s[k] in LINE_BREAKS
    ensures forall j :: i <= j < k ==> s[j] !in LINE_BREAKS
    decreases |s| - i
  {
    if i == |s| || s[i] in LINE_BREAKS then i else NextBreak(s, i + 1)
  }

  /** `s.splitlines()`: a trailing break does not start an empty last line; "\r\n" is one break. */
  function SplitLines(s: string): (lines: seq<string>)
    ensures forall i, c :: 0 <= i < |lines| && c in lines[i] ==> c !in LINE_BREAKS
    decreases |s|
  {
    if s == [] then []
    else
      var k := NextBreak(s, 0);
      if k == |s| then [s]
      else
        var next := if s[k] == '\r' && k + 1 < |s| && s[k + 1] == '\n' then k + 2 else k + 1;
        [s[..k]] + SplitLines(s[next..])
  }

  /** Text without any break character is one line (or none when empty). */
  lemma SplitLinesNoBreak(s: string)
    requires forall c :: c in s ==> c !in LINE_BREAKS
    ensures SplitLines(s) == if s == [] then [] else [s]
  {
    if s != [] {
      assert NextBreak(s, 0) == |s|;
    }
  }

  // ---------------------------------------------------------------------------
  // str.replace(pat, rep): left to right, non-overlapping

  predicate OccursAt(s: string, pat: string, i: nat) {
    i + |pat| <= |s| && s[i..i + |pat|] == pat
  }

  /** `pat in s`. */
  predicate Occurs(s: string, pat: string) {
    exists i: nat | i + |pat| <= |s| :: OccursAt(s, pat, i)
  }

  /** `s.replace(pat, rep)` for a non-empty `pat`. */
  function ReplaceAll(s: string, pat: string, rep: string): string
    requires |pat| > 0
    decreases |s|
  {
    if s == [] then []
    else if StartsWith(s, pat) then rep + ReplaceAll(s[|pat|..], pat, rep)
    else [s[0]] + ReplaceAll(s[1..], pat, rep)
  }

  /** `s.count(pat)`: the number of replacements `ReplaceAll` makes. */
  function Count(s: string, pat: string): nat
    requires |pat| > 0
    decreases |s|
  {
    if s == [] then 0
    else if StartsWith(s, pat) then 1 + Count(s[|pat|..], pat)
    else Count(s[1..], pat)
  }

  lemma {:induction false} ReplaceLength(s: string, pat: string, rep: string)
    requires |pat| > 0
    ensures |ReplaceAll(s, pat, rep)| == |s| + Count(s, pat) * (|rep| - |pat|)
    decreases |s|
  {
    if s != [] {
      var d := |rep| - |pat|;
      if StartsWith(s, pat) {
        var t := s[|pat|..];
        ReplaceLength(t, pat, rep);
        var c := Count(t, pat);
        assert |ReplaceAll(s, pat, rep)| == |rep| + |ReplaceAll(t, pat, rep)|;
        assert |t| == |s| - |pat|;
        assert Count(s, pat) == c + 1;
        MulSucc(c, d);
      } else {
        ReplaceLength(s[1..], pat, rep);
      }
    }
  }

  lemma MulSucc(c: int, d: int)
    ensures (c + 1) * d == c * d + d
  {
  }

  /** A text that does not contain `pat` is returned unchanged. */
  lemma {:induction false} ReplaceAbsent(s: string, pat: string, rep: string)
    requires |pat| > 0 && !Occurs(s, pat)
    ensures ReplaceAll(s, pat, rep) == s && Count(s, pat) == 0
    decreases |s|
  {
    if s != [] {
      assert !OccursAt(s, pat, 0);
      assert !Occurs(s[1..], pat) by {
        forall i: nat | OccursAt(s[1..], pat, i) ensures false {
          assert s[i + 1..i + 1 + |pat|] == s[1..][i..i + |pat|];
          assert OccursAt(s, pat, i + 1);
        }
      }
      ReplaceAbsent(s[1..], pat, rep);
    }
  }

  /** Every text that contains `pat` has at least one replacement. */
  lemma {:induction false} OccursCount(s: string, pat: string)
    requires |pat| > 0 && Occurs(s, pat)
    ensures Count(s, pat) >= 1
    decreases |s|
  {
    var i: nat :| i + |pat| <= |s| && OccursAt(s, pat, i);
    if !StartsWith(s, pat) {
      assert i != 0;
      assert 1 <= i && i + |pat| <= |s|;
      assert s[1..][i - 1..i - 1 + |pat|] == s[i..i + |pat|];
      assert OccursAt(s[1..], pat, i - 1);
      OccursCount(s[1..], pat);
    }
  }

  /** When `rep` shares no character with `q`, a replaced text starts with `q` only if the original did. */
  lemma {:induction false} ReplacePrefix(x: string, pat: string, rep: string, q: string)
    requires |pat| > 0 && |rep| > 0
    requires forall c :: c in rep ==> c !in q
    requires StartsWith(ReplaceAll(x, pat, rep), q)
    ensures StartsWith(x, q)
    decreases |q|
  {
    if q != [] {
      var r := ReplaceAll(x, pat, rep);
      assert r != [] && r[0] == q[0];
      assert q[0] in q && rep[0] in rep;
      if StartsWith(x, pat) {
        assert false;
      } else {
        var r' := ReplaceAll(x[1..], pat, rep);
        assert r == [x[0]] + r';
        assert r'[..|q| - 1] == q[1..];
        ReplacePrefix(x[1..], pat, rep, q[1..]);
        assert x[..|q|] == [x[0]] + x[1..][..|q| - 1];
      }
    }
  }

  /** If `rep` is non-empty and shares no character with `pat`, no `pat` survives in the result. */
  lemma {:induction false} ReplaceLeavesNone(s: string, pat: string, rep: string)
    requires |pat| > 0 && |rep| > 0
    requires forall c :: c in rep ==> c !in pat
    ensures !Occurs(ReplaceAll(s, pat, rep), pat)
    decreases |s|
  {
    var r := ReplaceAll(s, pat, rep);
    assert pat[0] in pat;
    if s != [] {
      if StartsWith(s, pat) {
        var r' := ReplaceAll(s[|pat|..], pat, rep);
        assert r == rep + r';
        ReplaceLeavesNone(s[|pat|..], pat, rep);
        forall i: nat | i + |pat| <= |r| ensures !OccursAt(r, pat, i) {
          if i < |rep| {
            assert rep[i] in rep;
            assert r[i] == rep[i] && r[i] != pat[0];
            assert r[i..i + |pat|][0] != pat[0];
          } else {
            assert r[i..i + |pat|] == r'[i - |rep|..i - |rep| + |pat|];
            assert !OccursAt(r', pat, i - |rep|);
          }
        }
      } else {
        var r' := ReplaceAll(s[1..], pat, rep);
        assert r == [s[0]] + r';
        ReplaceLeavesNone(s[1..], pat, rep);
        forall i: nat | i + |pat| <= |r| ensures !OccursAt(r, pat, i) {
          if i == 0 {
            if r'[..|pat| - 1] == pat[1..] {
              ReplacePrefix(s[1..], pat, rep, pat[1..]);
              assert s[..|pat|] == [s[0]] + s[1..][..|pat| - 1];
              assert s[0] != pat[0] by { assert !StartsWith(s, pat); }
            }
            assert r[..|pat|] == [s[0]] + r'[..|pat| - 1];
          } else {
            assert r[i..i + |pat|] == r'[i - 1..i - 1 + |pat|];
            assert !OccursAt(r', pat, i - 1);
          }
        }
      }
    }
  }

  lemma {:induction false} ReplaceInjectiveSameLength(s: string, pat: string, r1: string, r2: string)
    requires |pat| > 0 && |r1| == |r2| && Count(s, pat) >= 1
    requires ReplaceAll(s, pat, r1) == ReplaceAll(s, pat, r2)
    ensures r1 == r2
    decreases |s|
  {
    if StartsWith(s, pat) {
      assert ReplaceAll(s, pat, r1)[..|r1|] == r1;
      assert ReplaceAll(s, pat, r2)[..|r2|] == r2;
    } else {
      assert ReplaceAll(s[1..], pat, r1) == ReplaceAll(s, pat, r1)[1..];
      assert ReplaceAll(s[1..], pat, r2) == ReplaceAll(s, pat, r2)[1..];
      ReplaceInjectiveSameLength(s[1..], pat, r1, r2);
    }
  }

  /** With at least one occurrence, different replacements give different results. */
  lemma ReplaceInjective(s: string, pat: string, r1: string, r2: string)
    requires |pat| > 0 && Occurs(s, pat)
    requires ReplaceAll(s, pat, r1) == ReplaceAll(s, pat, r2)
    ensures r1 == r2
  {
    OccursCount(s, pat);
    ReplaceLength(s, pat, r1);
    ReplaceLength(s, pat, r2);
    MulCancel(Count(s, pat), |r1| - |pat|, |r2| - |pat|);
    ReplaceInjectiveSameLength(s, pat, r1, r2);
  }

  lemma MulCancel(n: int, a: int, b: int)
    requires n >= 1 && n * a == n * b
    ensures a == b
  {
  }

  // ---------------------------------------------------------------------------
  // s * n and template.format(*args)

  /** `s * n`: empty for n <= 0. */
  function Repeat(s: string, n: int): string
    decreases n
  {
    if n <= 0 then [] else s + Repeat(s, n - 1)
  }

  /** `c * n` is exactly max(n, 0) copies of c. */
  lemma {:induction false} RepeatChar(c: char, n: int)
    ensures |Repeat([c], n)| == if n <= 0 then 0 else n
    ensures forall i :: 0 <= i < |Repeat([c], n)| ==> Repeat([c], n)[i] == c
    decreases n
  {
    if n > 0 {
      RepeatChar(c, n - 1);
    }
  }

  predicate IsFieldAt(t: string, i: nat) {
    i + 3 <= |t| && t[i] == '{' && '0' <= t[i + 1] <= '9' && t[i + 2] == '}'
  }

  /**
   * `template.format(*args)` for the templates the harness uses: every "{d}" with a
   * digit d below |args| is replaced by args[d]; everything else is copied.
   */
  function Format(t: string, args: seq<string>): string
    decreases |t|
  {
    if t == [] then []
    else if IsFieldAt(t, 0) && (t[1] as int - '0' as int) < |args| then
      args[t[1] as int - '0' as int] + Format(t[3..], args)
    else [t[0]] + Format(t[1..], args)
  }

  /** A template without fields formats to itself. */
  lemma {:induction false} FormatNoFields(t: string, args: seq<string>)
    requires '{' !in t
    ensures Format(t, args) == t
    decreases |t|
  {
    if t != [] {
      assert t[0] != '{';
      assert '{' !in t[1..] by { assert forall c :: c in t[1..] ==> c in t; }
      FormatNoFields(t[1..], args);
    }
  }

  /** Formatting distributes over a template split at a point that is not inside a field. */
  lemma {:induction false} FormatAppend(a: string, b: string, args: seq<string>)
    requires '{' !in a
    ensures Format(a + b, args) == a + Format(b, args)
    decreases |a|
  {
    if a == [] {
      assert a + b == b;
    } else {
      assert (a + b)[0] == a[0] && a[0] != '{';
      assert a == [a[0]] + a[1..];
      assert (a + b)[1..] == a[1..] + b;
      assert Format(a + b, args) == [a[0]] + Format(a[1..] + b, args);
      assert '{' !in a[1..] by { assert forall c :: c in a[1..] ==> c in a; }
      FormatAppend(a[1..], b, args);
    }
  }

  /** A POSIX path `pathlib` treats as absolute: it starts at the root. */
  predicate IsAbsolute(p: string) {
    |p| > 0 && p[0] == '/'
  }

  /** `pathlib.Path(base) / rel`: an absolute right operand replaces the base, any other is appended after '/'. */
  function JoinPath(base: string, rel: string): (p: string)
    ensures IsAbsolute(rel) ==> p == rel
    ensures !IsAbsolute(rel) ==> StartsWith(p, base + "/") && p[|base| + 1..] == rel
  {
    if IsAbsolute(rel) then rel else base + "/" + rel
  }
}
