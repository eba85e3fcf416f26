/** `get_executable_version.py`: normalise a version string to exactly three dot-separated parts. */
module Version {
  import opened Text

  /** Pad with "0" parts or cut down to the first three. */
  function ThreeParts(parts: seq<string>): (r: seq<string>)
    ensures |r| == 3
    ensures |parts| <= 3 ==> r[..|parts|] == parts && forall k :: |parts| <= k < 3 ==> r[k] == "0"
    ensures |parts| >= 3 ==> r == parts[..3]
  {
    if |parts| < 3 then parts + seq(3 - |parts|, _ => "0")
    else if |parts| > 3 then parts[..3]
    else parts
  }

  /** What `main` prints for one argument. */
  function Normalise(v: string): string {
    Join(ThreeParts(Split(v, '.')), '.')
  }

  /** The printed version splits back into exactly the padded or truncated parts. */
  lemma NormaliseParts(v: string)
    ensures Split(Normalise(v), '.') == ThreeParts(Split(v, '.'))
  {
    var p := ThreeParts(Split(v, '.'));
    forall k | 0 <= k < 3 ensures '.' !in p[k] {
      if k < |Split(v, '.')| {
        assert p[k] == Split(v, '.')[k];
      }
    }
    SplitJoin(p, '.');
  }

  /** The output always has exactly three dot-separated parts. */
  lemma NormaliseHasThreeParts(v: string)
    ensures |Split(Normalise(v), '.')| == 3
  {
    NormaliseParts(v);
  }

  /** A version that already has three parts is printed unchanged. */
  lemma ThreePartsUnchanged(v: string)
    requires |Split(v, '.')| == 3
    ensures Normalise(v) == v
  {
    JoinSplit(v, '.');
  }

  /** Fewer than three parts keep their order and are padded with "0": "1" becomes "1.0.0". */
  lemma PadsWithZero(v: string)
    requires |Split(v, '.')| < 3
    ensures Split(Normalise(v), '.') == Split(v, '.') + seq(3 - |Split(v, '.')|, _ => "0")
  {
    NormaliseParts(v);
  }

  /** More than three parts keep only the first three: "1.2.3.4" becomes "1.2.3". */
  lemma TruncatesToThree(v: string)
    requires |Split(v, '.')| > 3
    ensures Split(Normalise(v), '.') == Split(v, '.')[..3]
  {
    NormaliseParts(v);
  }

  /** A worked example: "1" gives "1.0.0". */
  lemma PadExample()
    ensures Normalise("1") == "1.0.0"
  {
    assert Join(["1"], '.') == "1";
    SplitJoin(["1"], '.');
    assert ThreeParts(["1"]) == ["1", "0", "0"];
  }

  /** A worked example: "1.2.3.4" gives "1.2.3". */
  lemma TruncateExample()
    ensures Normalise("1.2.3.4") == "1.2.3"
  {
    assert Join(["1", "2", "3", "4"], '.') == "1.2.3.4";
    SplitJoin(["1", "2", "3", "4"], '.');
  }

  /** Normalising twice is the same as normalising once. */
  lemma NormaliseIdempotent(v: string)
    ensures Normalise(Normalise(v)) == Normalise(v)
  {
    NormaliseHasThreeParts(v);
    ThreePartsUnchanged(Normalise(v));
  }

  /** The process outcome: output line and exit status. */
  datatype Outcome = Outcome(output: string, exitCode: int)

  const USAGE: string := "Usage: python get_executable_version.py <version>"

  /** `main()` with `sys.argv[1:]` as `args`. */
  function MainOutcome(args: seq<string>): (o: Outcome)
    ensures |args| != 1 <==> o == Outcome(USAGE, 1)
    ensures |args| == 1 ==> o.exitCode == 0 && o.output == Normalise(args[0]) && |Split(o.output, '.')| == 3
  {
    if |args| != 1 then Outcome(USAGE, 1)
    else
      NormaliseParts(args[0]);
      Outcome(Normalise(args[0]), 0)
  }
}
