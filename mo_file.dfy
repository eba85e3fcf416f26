/**
 * `compile_translations.make`: a .po catalogue is read line by line into a message
 * table, filtered, sorted by key and written as a GNU MO file (GNU gettext manual,
 * section 10.3, "The Format of GNU MO Files"): a 28-byte header, the key and value
 * descriptor tables of (length, offset) pairs, then the key and value bytes. Unlike
 * `msgfmt`, no NUL terminator follows a string and no hash table is written.
 */
module MoFile {
  import opened Wrappers
  import opened Text
  import opened Bytes

  // ---------------------------------------------------------------------------
  // The message table: a dictionary kept in insertion order

  type Messages = seq<(string, string)>

  function Keys(ms: Messages): (ks: seq<string>)
    ensures |ks| == |ms| && forall i :: 0 <= i < |ms| ==> ks[i] == ms[i].0
  {
    seq(|ms|, i requires 0 <= i < |ms| => ms[i].0)
  }

  predicate UniqueKeys(ms: Messages) {
    forall i, j :: 0 <= i < j < |ms| ==> ms[i].0 != ms[j].0
  }

  /** The position of key `k`, if present. */
  function Find(ms: Messages, k: string): (r: Option<nat>)
    ensures r.Some? ==> r.value < |ms| && ms[r.value].0 == k
    ensures r.None? ==> forall i :: 0 <= i < |ms| ==> ms[i].0 != k
    decreases |ms|
  {
    if ms == [] then None
    else if ms[|ms| - 1].0 == k then Some(|ms| - 1)
    else Find(ms[..|ms| - 1], k)
  }

  /** `messages[k] = v`: an existing key keeps its place and takes the new value. */
  function Put(ms: Messages, k: string, v: string): (r: Messages)
    ensures UniqueKeys(ms) ==> UniqueKeys(r)
    ensures Find(ms, k).Some? ==> r == ms[Find(ms, k).value := (k, v)]
    ensures Find(ms, k).None? ==> r == ms + [(k, v)]
  {
    match Find(ms, k)
    case Some(i) => ms[i := (k, v)]
    case None => ms + [(k, v)]
  }

  /** `messages.get(k)`. */
  function Lookup(ms: Messages, k: string): Option<string> {
    match Find(ms, k)
    case Some(i) => Some(ms[i].1)
    case None => None
  }

  lemma LookupPut(ms: Messages, k: string, v: string, other: string)
    requires UniqueKeys(ms)
    ensures Lookup(Put(ms, k, v), k) == Some(v)
    ensures other != k ==> Lookup(Put(ms, k, v), other) == Lookup(ms, other)
  {
    var r := Put(ms, k, v);
    FindUnique(r, k);
    FindUnique(r, other);
    FindUnique(ms, other);
  }

  /** With unique keys, Find finds the one entry with that key. */
  lemma FindUnique(ms: Messages, k: string)
    requires UniqueKeys(ms)
    ensures forall i :: 0 <= i < |ms| && ms[i].0 == k ==> Find(ms, k) == Some(i)
  {
  }

  // ---------------------------------------------------------------------------
  // The line state machine

  datatype PoState = PoState(messages: Messages, msgid: string, msgstr: string, inMsgid: bool, inMsgstr: bool)

  const START: PoState := PoState([], "", "", false, false)

  const QUOTE: set<char> := {'"'}

  /** `if msgid and msgstr: messages[msgid] = msgstr`. */
  function Flush(st: PoState): Messages {
    if st.msgid != "" && st.msgstr != "" then Put(st.messages, st.msgid, st.msgstr) else st.messages
  }

  /** One turn of the loop, on a line already stripped. */
  function Step(st: PoState, line: string): PoState {
    if StartsWith(line, "msgid ") then
      PoState(Flush(st), Trim(line[6..], QUOTE), "", true, false)
    else if StartsWith(line, "msgstr ") then
      st.(msgstr := Trim(line[7..], QUOTE), inMsgid := false, inMsgstr := true)
    else if StartsWith(line, "\"") && (st.inMsgid || st.inMsgstr) then
      var content := Trim(line, QUOTE);
      if st.inMsgid then st.(msgid := st.msgid + content) else st.(msgstr := st.msgstr + content)
    else if line == "" || StartsWith(line, "#") then
      PoState(Flush(st), "", "", false, false)
    else st
  }

  /** The loop over the lines as read: each is stripped, then handled. */
  function RunLines(st: PoState, lines: seq<string>): PoState
    decreases |lines|
  {
    if lines == [] then st else RunLines(Step(st, Strip(lines[0])), lines[1..])
  }

  /** The table after the loop and the final flush. */
  function Parse(lines: seq<string>): Messages {
    Flush(RunLines(START, lines))
  }

  /** The `for line in lines` loop of `make`. */
  method ParsePo(lines: seq<string>) returns (messages: Messages)
    ensures messages == Parse(lines)
  {
    messages := [];
    var msgid, msgstr, inMsgid, inMsgstr := "", "", false, false;
    for i := 0 to |lines|
      invariant RunLines(PoState(messages, msgid, msgstr, inMsgid, inMsgstr), lines[i..]) == RunLines(START, lines)
    {
      assert lines[i..][0] == lines[i] && lines[i..][1..] == lines[i + 1..];
      var line := Strip(lines[i]);
      if StartsWith(line, "msgid ") {
        if msgid != "" && msgstr != "" {
          messages := Put(messages, msgid, msgstr);
        }
        msgid := Trim(line[6..], QUOTE);
        msgstr := "";
        inMsgid := true;
        inMsgstr := false;
      } else if StartsWith(line, "msgstr ") {
        msgstr := Trim(line[7..], QUOTE);
        inMsgid := false;
        inMsgstr := true;
      } else if StartsWith(line, "\"") && (inMsgid || inMsgstr) {
        var content := Trim(line, QUOTE);
        if inMsgid {
          msgid := msgid + content;
        } else if inMsgstr {
          msgstr := msgstr + content;
        }
      } else if line == "" || StartsWith(line, "#") {
        if msgid != "" && msgstr != "" {
          messages := Put(messages, msgid, msgstr);
        }
        msgid, msgstr, inMsgid, inMsgstr := "", "", false, false;
      }
    }
    if msgid != "" && msgstr != "" {
      messages := Put(messages, msgid, msgstr);
    }
  }

  /** One line keeps the keys of the table distinct. */
  lemma StepUnique(st: PoState, line: string)
    requires UniqueKeys(st.messages)
    ensures UniqueKeys(Step(st, line).messages)
  {
    var r := Step(st, line);
    assert r.messages == st.messages || r.messages == Flush(st);
  }

  lemma {:induction false} RunLinesUnique(st: PoState, lines: seq<string>)
    requires UniqueKeys(st.messages)
    ensures UniqueKeys(RunLines(st, lines).messages)
    decreases |lines|
  {
    if lines != [] {
      var next := Step(st, Strip(lines[0]));
      StepUnique(st, Strip(lines[0]));
      RunLinesUnique(next, lines[1..]);
    }
  }

  /** Every key appears once in the table. */
  lemma ParseUnique(lines: seq<string>)
    ensures UniqueKeys(Parse(lines))
  {
    RunLinesUnique(START, lines);
  }

  /** A line with no surrounding white space is its own stripped form. */
  lemma StripPlain(s: string)
    requires s != [] && s[0] !in WHITESPACE && s[|s| - 1] !in WHITESPACE
    ensures Strip(s) == s
  {
  }

  /** `'"x"'.strip('"')` is `x` when `x` neither starts nor ends with a quote. */
  lemma TrimQuoted(x: string)
    requires x != [] && x[0] != '"' && x[|x| - 1] != '"'
    ensures Trim("\"" + x + "\"", QUOTE) == x
  {
    TrimEnclosed('"', x, QUOTE);
  }

  /** A `msgid "x"` line stores the open entry and opens a new one with msgid `x`. */
  lemma MsgidOpens(st: PoState, x: string)
    requires x != [] && x[0] != '"' && x[|x| - 1] != '"'
    ensures Step(st, "msgid \"" + x + "\"") == PoState(Flush(st), x, "", true, false)
  {
    var line := "msgid \"" + x + "\"";
    assert line[..6] == "msgid ";
    assert line[6..] == "\"" + x + "\"";
    TrimQuoted(x);
  }

  /** A `msgstr "x"` line sets msgstr to `x` and leaves the msgid and the table alone. */
  lemma MsgstrSets(st: PoState, x: string)
    requires x != [] && x[0] != '"' && x[|x| - 1] != '"'
    ensures Step(st, "msgstr \"" + x + "\"") == PoState(st.messages, st.msgid, x, false, true)
  {
    var line := "msgstr \"" + x + "\"";
    assert line[..6] == "msgstr" && line[5] != 'd';
    assert line[..7] == "msgstr ";
    assert line[7..] == "\"" + x + "\"";
    TrimQuoted(x);
  }

  /** A line cannot start with a prefix whose first character differs from its own. */
  lemma HeadMismatch(line: string, p: string)
    requires line != [] && p != [] && line[0] != p[0]
    ensures !StartsWith(line, p)
  {
    if |p| <= |line| {
      assert line[..|p|][0] == line[0];
    }
  }

  /** A quoted continuation line extends whichever of msgid and msgstr is open. */
  lemma ContinuationAppends(st: PoState, x: string)
    requires x != [] && x[0] != '"' && x[|x| - 1] != '"'
    requires st.inMsgid || st.inMsgstr
    ensures var r := Step(st, "\"" + x + "\"");
      r.messages == st.messages
      && (st.inMsgid ==> r.msgid == st.msgid + x && r.msgstr == st.msgstr)
      && (!st.inMsgid ==> r.msgstr == st.msgstr + x && r.msgid == st.msgid)
  {
    var line := "\"" + x + "\"";
    assert line[0] == '"';
    HeadMismatch(line, "msgid ");
    HeadMismatch(line, "msgstr ");
    assert line[..1] == "\"";
    TrimQuoted(x);
  }

  /** A quoted line outside an entry changes nothing. */
  lemma StrayQuoteIgnored(st: PoState, line: string)
    requires line != [] && line[0] == '"' && !st.inMsgid && !st.inMsgstr
    ensures Step(st, line) == st
  {
    HeadMismatch(line, "msgid ");
    HeadMismatch(line, "msgstr ");
    HeadMismatch(line, "#");
  }

  /** A blank or comment line closes the entry: what was open is stored and the state resets. */
  lemma CloseResets(st: PoState, line: string)
    requires line == "" || StartsWith(line, "#")
    ensures Step(st, line) == PoState(Flush(st), "", "", false, false)
  {
    if line != "" {
      assert line[0] == '#';
      HeadMismatch(line, "msgid ");
      HeadMismatch(line, "msgstr ");
      HeadMismatch(line, "\"");
    }
  }

  // ---------------------------------------------------------------------------
  // Filtering and sorting

  /** What the dictionary comprehension keeps. */
  predicate Kept(e: (string, string)) {
    e.0 != "" && e.1 != "" && !StartsWith(e.0, "Project-Id-Version")
  }

  function Filter(ms: Messages): (r: Messages)
    ensures forall e :: e in r <==> e in ms && Kept(e)
    decreases |ms|
  {
    if ms == [] then []
    else
      var rest := Filter(ms[1..]);
      assert ms == [ms[0]] + ms[1..];
      if Kept(ms[0]) then [ms[0]] + rest else rest
  }

  lemma {:induction false} FilterUnique(ms: Messages)
    requires UniqueKeys(ms)
    ensures UniqueKeys(Filter(ms))
    decreases |ms|
  {
    if ms != [] {
      FilterUnique(ms[1..]);
      var rest := Filter(ms[1..]);
      forall j | 0 <= j < |rest| ensures rest[j].0 != ms[0].0 {
        assert rest[j] in ms[1..];
        var m :| 0 <= m < |ms[1..]| && ms[1..][m] == rest[j];
        assert ms[m + 1] == rest[j];
      }
    }
  }

  /** Python's `<=` on strings: lexicographic by code point. */
  predicate LexLe(a: string, b: string)
    decreases |a|
  {
    a == [] || (b != [] && (a[0] < b[0] || (a[0] == b[0] && LexLe(a[1..], b[1..]))))
  }

  lemma {:induction false} LexTotal(a: string, b: string)
    ensures LexLe(a, b) || LexLe(b, a)
    decreases |a|
  {
    if a != [] && b != [] && a[0] == b[0] {
      LexTotal(a[1..], b[1..]);
    }
  }

  lemma {:induction false} LexTrans(a: string, b: string, c: string)
    requires LexLe(a, b) && LexLe(b, c)
    ensures LexLe(a, c)
    decreases |a|
  {
    if a != [] && a[0] == b[0] && b[0] == c[0] {
      LexTrans(a[1..], b[1..], c[1..]);
    }
  }

  lemma {:induction false} LexAntisym(a: string, b: string)
    requires LexLe(a, b) && LexLe(b, a)
    ensures a == b
    decreases |a|
  {
    if a != [] {
      LexAntisym(a[1..], b[1..]);
      assert a == [a[0]] + a[1..] && b == [b[0]] + b[1..];
    }
  }

  predicate Sorted(s: seq<string>) {
    forall i, j :: 0 <= i < j < |s| ==> LexLe(s[i], s[j])
  }

  function Insert(x: string, s: seq<string>): (r: seq<string>)
    ensures multiset(r) == multiset(s) + multiset{x}
    decreases |s|
  {
    if s == [] then [x]
    else if LexLe(x, s[0]) then [x] + s
    else
      assert s == [s[0]] + s[1..];
      [s[0]] + Insert(x, s[1..])
  }

  /** Every element of an insertion is the inserted string or one that was there before. */
  lemma InsertFrom(x: string, s: seq<string>, j: nat)
    requires j < |Insert(x, s)|
    ensures Insert(x, s)[j] == x || Insert(x, s)[j] in s
  {
    var r := Insert(x, s);
    assert r[j] in multiset(r);
  }

  lemma {:induction false} InsertSorted(x: string, s: seq<string>)
    requires Sorted(s)
    ensures Sorted(Insert(x, s))
    decreases |s|
  {
    if s != [] {
      var r := Insert(x, s);
      if LexLe(x, s[0]) {
        forall j | 1 <= j < |r| ensures LexLe(x, r[j]) {
          if j > 1 { LexTrans(x, s[0], s[j - 1]); }
        }
      } else {
        LexTotal(x, s[0]);
        InsertSorted(x, s[1..]);
        var t := Insert(x, s[1..]);
        forall j | 0 <= j < |t| ensures LexLe(s[0], t[j]) {
          InsertFrom(x, s[1..], j);
          if t[j] != x {
            var k :| 0 <= k < |s[1..]| && s[1..][k] == t[j];
            assert s[k + 1] == t[j];
          }
        }
      }
    }
  }

  /** `sorted(keys)`. */
  function Sort(ks: seq<string>): (r: seq<string>)
    ensures multiset(r) == multiset(ks) && Sorted(r)
    decreases |ks|
  {
    if ks == [] then []
    else
      var rest := Sort(ks[1..]);
      InsertSorted(ks[0], rest);
      ConsMultiset(ks);
      Insert(ks[0], rest)
  }

  lemma ConsMultiset(ks: seq<string>)
    requires ks != []
    ensures multiset(ks) == multiset(ks[1..]) + multiset{ks[0]}
  {
    assert ks == [ks[0]] + ks[1..];
  }

  /** Distinct keys sort into a strictly increasing order. */
  lemma SortedDistinct(ms: Messages)
    requires UniqueKeys(ms)
    ensures var ks := Sort(Keys(ms)); forall i, j :: 0 <= i < j < |ks| ==> ks[i] != ks[j]
  {
    var ks := Sort(Keys(ms));
    forall i, j | 0 <= i < j < |ks| ensures ks[i] != ks[j] {
      KeysOnce(ms, ks[i]);
      if ks[i] == ks[j] {
        TwoOccurrences(ks, i, j);
      }
    }
  }

  lemma TwoOccurrences(s: seq<string>, i: nat, j: nat)
    requires i < j < |s| && s[i] == s[j]
    ensures multiset(s)[s[i]] >= 2
  {
    assert s == s[..j] + s[j..];
    assert s[i] in s[..j] && s[j] in s[j..];
  }

  lemma {:induction false} KeysOnce(ms: Messages, k: string)
    requires UniqueKeys(ms)
    ensures multiset(Keys(ms))[k] <= 1
    decreases |ms|
  {
    if ms != [] {
      assert Keys(ms) == [ms[0].0] + Keys(ms[1..]);
      KeysOnce(ms[1..], k);
      if ms[0].0 == k {
        assert k !in Keys(ms[1..]);
      }
    }
  }

  // ---------------------------------------------------------------------------
  // Byte layout

  const MAGIC: int := 0x950412DE
  const HEADER_SIZE: int := 28

  /** A value `struct.pack("<L", _)` accepts. */
  type Word = x: int | IsU32(x)

  /** Magic, revision, N, key table offset, value table offset, hash size, hash offset. */
  function Header(n: nat): seq<int> {
    [MAGIC, 0, n, HEADER_SIZE, HEADER_SIZE + 8 * n, 0, HEADER_SIZE + 16 * n]
  }

  /** `struct.pack("<L", w)` for each word, concatenated. */
  function Words(ws: seq<Word>): (b: seq<byte>)
    ensures |b| == 4 * |ws|
    decreases |ws|
  {
    if ws == [] then [] else Words(ws[..|ws| - 1]) + PackU32(ws[|ws| - 1])
  }

  /** The packed header; every word fits once the last one does. */
  function HeaderBytes(n: nat): (b: seq<byte>)
    requires IsU32(HEADER_SIZE + 16 * n)
    ensures |b| == HEADER_SIZE
  {
    var h: seq<Word> := Header(n);
    Words(h)
  }

  function SumLen(encs: seq<seq<byte>>): nat
    decreases |encs|
  {
    if encs == [] then 0 else SumLen(encs[..|encs| - 1]) + |encs[|encs| - 1]|
  }

  function Concat(encs: seq<seq<byte>>): (r: seq<byte>)
    ensures |r| == SumLen(encs)
    decreases |encs|
  {
    if encs == [] then [] else Concat(encs[..|encs| - 1]) + encs[|encs| - 1]
  }

  /** Where string i starts when the strings are laid out one after another from `start`. */
  function Offset(encs: seq<seq<byte>>, start: int, i: nat): int
    requires i <= |encs|
  {
    start + SumLen(encs[..i])
  }

  /** The length and the offset of string i fit in 32 bits. */
  predicate FitsAt(encs: seq<seq<byte>>, start: int, i: nat)
    requires i < |encs|
  {
    IsU32(|encs[i]|) && IsU32(Offset(encs, start, i))
  }

  /** Every length and offset of a descriptor table fits in 32 bits. */
  predicate Fits(encs: seq<seq<byte>>, start: int) {
    forall i :: 0 <= i < |encs| ==> FitsAt(encs, start, i)
  }

  /** The descriptor of string i: its length, then its offset. */
  function Block(encs: seq<seq<byte>>, start: int, i: nat): (b: seq<byte>)
    requires i < |encs| && FitsAt(encs, start, i)
    ensures |b| == 8
  {
    PackU32(|encs[i]|) + PackU32(Offset(encs, start, i))
  }

  /** The descriptors of strings `k` onwards, eight bytes each. */
  function Blocks(encs: seq<seq<byte>>, start: int, k: nat): (bs: seq<seq<byte>>)
    requires Fits(encs, start) && k <= |encs|
    ensures |bs| == |encs| - k && forall j :: 0 <= j < |bs| ==> |bs[j]| == 8
    decreases |encs| - k
  {
    if k == |encs| then [] else [Block(encs, start, k)] + Blocks(encs, start, k + 1)
  }

  /** Descriptor `j` of those from `k` on is the descriptor of string `k + j`. */
  lemma {:induction false} BlockAt(encs: seq<seq<byte>>, start: int, k: nat, j: nat)
    requires Fits(encs, start) && k + j < |encs|
    ensures Blocks(encs, start, k)[j] == Block(encs, start, k + j)
    decreases j
  {
    if j > 0 {
      BlockAt(encs, start, k + 1, j - 1);
    }
  }

  /** A descriptor table: a (length, offset) pair per string. */
  function Table(encs: seq<seq<byte>>, start: int): (t: seq<byte>)
    requires Fits(encs, start)
    ensures |t| == 8 * |encs|
  {
    var bs := Blocks(encs, start, 0);
    EightEach(bs);
    Concat(bs)
  }

  lemma {:induction false} EightEach(bs: seq<seq<byte>>)
    requires forall i :: 0 <= i < |bs| ==> |bs[i]| == 8
    ensures SumLen(bs) == 8 * |bs|
    decreases |bs|
  {
    if bs != [] {
      EightEach(bs[..|bs| - 1]);
    }
  }

  /** Where the keys start, and where the values start. */
  function KeyStart(kenc: seq<seq<byte>>): int {
    HEADER_SIZE + 16 * |kenc|
  }

  function ValueStart(kenc: seq<seq<byte>>): int {
    KeyStart(kenc) + SumLen(kenc)
  }

  /** Every word the file holds fits: otherwise `struct.pack` raises. */
  predicate FileFits(kenc: seq<seq<byte>>, venc: seq<seq<byte>>) {
    IsU32(KeyStart(kenc)) && Fits(kenc, KeyStart(kenc)) && Fits(venc, ValueStart(kenc))
  }

  /** The whole file for the encoded keys and values. */
  function MoImage(kenc: seq<seq<byte>>, venc: seq<seq<byte>>): seq<byte>
    requires FileFits(kenc, venc)
  {
    HeaderBytes(|kenc|) + Table(kenc, KeyStart(kenc)) + Table(venc, ValueStart(kenc)) + Concat(kenc) + Concat(venc)
  }

  /** The sorted keys, and the value of each. */
  function SortedEntries(ms: Messages): (r: (seq<string>, seq<string>))
    requires UniqueKeys(ms)
    ensures |r.0| == |r.1| == |ms|
    ensures forall i :: 0 <= i < |ms| ==> (r.0[i], r.1[i]) in ms
  {
    var keys := Sort(Keys(ms));
    assert |keys| == |multiset(keys)| == |multiset(Keys(ms))| == |ms|;
    forall i | 0 <= i < |keys| ensures Find(ms, keys[i]).Some? {
      assert keys[i] in multiset(Keys(ms));
    }
    var values := seq(|keys|, i requires 0 <= i < |keys| => ms[Find(ms, keys[i]).value].1);
    assert forall i :: 0 <= i < |keys| ==> (keys[i], values[i]) == ms[Find(ms, keys[i]).value];
    (keys, values)
  }

  function EncodeAll(ss: seq<string>): (r: seq<seq<byte>>)
    ensures |r| == |ss| && forall i :: 0 <= i < |ss| ==> r[i] == Utf8(ss[i])
  {
    seq(|ss|, i requires 0 <= i < |ss| => Utf8(ss[i]))
  }

  const STRUCT_ERROR: string := "struct.error"

  /** The file `make` writes for a filtered table with unique keys. */
  function Build(ms: Messages): Result<seq<byte>, string>
    requires UniqueKeys(ms)
  {
    if ms == [] then Ok(HeaderBytes(0))
    else
      var (keys, values) := SortedEntries(ms);
      var kenc := EncodeAll(keys);
      var venc := EncodeAll(values);
      if FileFits(kenc, venc) then Ok(MoImage(kenc, venc)) else Err(STRUCT_ERROR)
  }

  /** What `make(po_file, mo_file)` writes, for the lines of the .po file. */
  function MakeSpec(lines: seq<string>): Result<seq<byte>, string> {
    ParseUnique(lines);
    FilterUnique(Parse(lines));
    Build(Filter(Parse(lines)))
  }

  // ---------------------------------------------------------------------------
  // Writing

  /** Consecutive `f.write(struct.pack("<L", w))` calls. */
  method WriteWords(out: seq<byte>, ws: seq<Word>) returns (r: seq<byte>)
    ensures r == out + Words(ws)
  {
    r := out;
    for j := 0 to |ws|
      invariant r == out + Words(ws[..j])
    {
      assert ws[..j + 1][..j] == ws[..j];
      r := r + PackU32(ws[j]);
    }
    assert ws[..|ws|] == ws;
  }

  /** The offsets loop: each string starts where the previous one ended. */
  method Offsets(encs: seq<seq<byte>>, start: int) returns (offsets: seq<int>, next: int)
    ensures |offsets| == |encs| && next == start + SumLen(encs)
    ensures forall i :: 0 <= i < |encs| ==> offsets[i] == Offset(encs, start, i)
  {
    offsets := [];
    next := start;
    for i := 0 to |encs|
      invariant |offsets| == i && next == start + SumLen(encs[..i])
      invariant forall k :: 0 <= k < i ==> offsets[k] == Offset(encs, start, k)
    {
      assert encs[..i + 1][..i] == encs[..i];
      offsets := offsets + [next];
      next := next + |encs[i]|;
    }
    assert encs[..|encs|] == encs;
  }

  /** The descriptor loop for one table: a length and an offset per string. */
  method WriteDescriptors(out: seq<byte>, encs: seq<seq<byte>>, start: int, offsets: seq<int>)
    returns (r: seq<byte>)
    requires Fits(encs, start)
    requires |offsets| == |encs| && forall i :: 0 <= i < |encs| ==> offsets[i] == Offset(encs, start, i)
    ensures r == out + Table(encs, start)
  {
    var bs := Blocks(encs, start, 0);
    r := out;
    for i := 0 to |encs|
      invariant r == out + Concat(bs[..i])
    {
      assert bs[..i + 1][..i] == bs[..i];
      assert FitsAt(encs, start, i);
      BlockAt(encs, start, 0, i);
      r := r + PackU32(|encs[i]|) + PackU32(offsets[i]);
    }
    assert bs[..|encs|] == bs;
  }

  /** The string loop for one table. */
  method WriteStrings(out: seq<byte>, encs: seq<seq<byte>>) returns (r: seq<byte>)
    ensures r == out + Concat(encs)
  {
    r := out;
    for i := 0 to |encs|
      invariant r == out + Concat(encs[..i])
    {
      assert encs[..i + 1][..i] == encs[..i];
      r := r + encs[i];
    }
    assert encs[..|encs|] == encs;
  }

  /** `make(po_file, mo_file)`, returning the bytes written (or the struct error). */
  method Make(lines: seq<string>) returns (r: Result<seq<byte>, string>)
    ensures r == MakeSpec(lines)
  {
    var parsed := ParsePo(lines);
    ParseUnique(lines);
    FilterUnique(parsed);
    var messages := Filter(parsed);
    r := WriteMo(messages);
  }

  /** The writing half of `make`, for the filtered table. */
  method WriteMo(messages: Messages) returns (r: Result<seq<byte>, string>)
    requires UniqueKeys(messages)
    ensures r == Build(messages)
  {
    if messages == [] {
      var empty: seq<Word> := [MAGIC, 0, 0, 28, 28, 0, 28];
      assert Header(0) == empty;
      var out := WriteWords([], empty);
      assert out == HeaderBytes(0);
      return Ok(out);
    }
    var (keys, values) := SortedEntries(messages);
    var kencoded := EncodeAll(keys);
    var vencoded := EncodeAll(values);
    var n := |keys|;
    var keystart := 7 * 4 + 16 * n;
    var keyoffsets, valuestart := Offsets(kencoded, keystart);
    var valueoffsets, _ := Offsets(vencoded, valuestart);
    if !FileFits(kencoded, vencoded) {
      return Err(STRUCT_ERROR);
    }
    var out := WriteImage(kencoded, vencoded, keyoffsets, valueoffsets);
    return Ok(out);
  }

  /** The writes of `make` once the offsets are known: header, both descriptor tables, both string tables. */
  method WriteImage(kenc: seq<seq<byte>>, venc: seq<seq<byte>>, keyoffsets: seq<int>, valueoffsets: seq<int>)
    returns (out: seq<byte>)
    requires FileFits(kenc, venc)
    requires |keyoffsets| == |kenc| && forall i :: 0 <= i < |kenc| ==> keyoffsets[i] == Offset(kenc, KeyStart(kenc), i)
    requires |valueoffsets| == |venc| && forall i :: 0 <= i < |venc| ==> valueoffsets[i] == Offset(venc, ValueStart(kenc), i)
    ensures out == MoImage(kenc, venc)
  {
    var header: seq<Word> := Header(|kenc|);
    out := WriteWords([], header);
    assert out == HeaderBytes(|kenc|);
    out := WriteDescriptors(out, kenc, KeyStart(kenc), keyoffsets);
    out := WriteDescriptors(out, venc, ValueStart(kenc), valueoffsets);
    out := WriteStrings(out, kenc);
    out := WriteStrings(out, venc);
  }

  // ---------------------------------------------------------------------------
  // Layout properties

  /** An empty table gives exactly the 28-byte header with N = 0 and every table at 28. */
  lemma EmptyFile()
    ensures Build([]).Ok? && |Build([]).value| == HEADER_SIZE
    ensures forall j :: 0 <= j < 7 ==> Build([]).value[4 * j..4 * j + 4] == PackU32([MAGIC, 0, 0, 28, 28, 0, 28][j])
  {
    forall j | 0 <= j < 7 ensures HeaderBytes(0)[4 * j..4 * j + 4] == PackU32([MAGIC, 0, 0, 28, 28, 0, 28][j]) {
      HeaderWord(0, j);
    }
  }

  lemma {:induction false} WordsAppend(a: seq<Word>, b: seq<Word>)
    ensures Words(a + b) == Words(a) + Words(b)
    decreases |b|
  {
    if b != [] {
      var b' := b[..|b| - 1];
      assert (a + b)[..|a + b| - 1] == a + b';
      WordsAppend(a, b');
    } else {
      assert a + b == a;
    }
  }

  lemma SplitAt<T>(s: seq<T>, i: nat)
    requires i < |s|
    ensures s == (s[..i] + [s[i]]) + s[i + 1..]
    ensures (s[..i] + [s[i]])[..i] == s[..i] && (s[..i] + [s[i]])[i] == s[i]
  {
  }

  lemma SliceMiddle<T>(x: seq<T>, y: seq<T>, z: seq<T>, a: nat, len: nat)
    requires a + len <= |y|
    ensures (x + y + z)[|x| + a..|x| + a + len] == y[a..a + len]
  {
  }

  /** Word j of the packed words occupies bytes 4j to 4j + 4. */
  lemma WordAt(ws: seq<Word>, j: nat)
    requires j < |ws|
    ensures Words(ws)[4 * j..4 * j + 4] == PackU32(ws[j])
  {
    var pre := ws[..j] + [ws[j]];
    SplitAt(ws, j);
    WordsAppend(pre, ws[j + 1..]);
    assert Words(pre) == Words(ws[..j]) + PackU32(ws[j]);
    SliceMiddle(Words(ws[..j]), PackU32(ws[j]), Words(ws[j + 1..]), 0, 4);
  }

  /** Header word j of the file. */
  lemma HeaderWord(n: nat, j: nat)
    requires IsU32(HEADER_SIZE + 16 * n) && j < 7
    ensures HeaderBytes(n)[4 * j..4 * j + 4] == PackU32(Header(n)[j])
  {
    var h: seq<Word> := Header(n);
    WordAt(h, j);
  }

  lemma {:induction false} ConcatPrefix(encs: seq<seq<byte>>, j: nat)
    requires j <= |encs|
    ensures Concat(encs[..j]) <= Concat(encs)
    decreases |encs| - j
  {
    if j < |encs| {
      ConcatPrefix(encs, j + 1);
      assert encs[..j + 1][..j] == encs[..j];
    } else {
      assert encs[..j] == encs;
    }
  }

  /** String i sits at its offset within the concatenation. */
  lemma ConcatSlice(encs: seq<seq<byte>>, i: nat)
    requires i < |encs|
    ensures SumLen(encs[..i]) + |encs[i]| <= SumLen(encs)
    ensures Concat(encs)[SumLen(encs[..i])..SumLen(encs[..i]) + |encs[i]|] == encs[i]
  {
    ConcatPrefix(encs, i + 1);
    assert encs[..i + 1][..i] == encs[..i];
    var c := Concat(encs[..i + 1]);
    assert c == Concat(encs[..i]) + encs[i];
    assert Concat(encs)[SumLen(encs[..i])..SumLen(encs[..i]) + |encs[i]|] == c[SumLen(encs[..i])..];
  }

  /** Descriptor i occupies bytes 8i to 8i + 8 of its table. */
  lemma TableAt(encs: seq<seq<byte>>, start: int, i: nat)
    requires Fits(encs, start) && i < |encs|
    ensures FitsAt(encs, start, i)
    ensures Table(encs, start)[8 * i..8 * i + 8] == PackU32(|encs[i]|) + PackU32(Offset(encs, start, i))
  {
    var bs := Blocks(encs, start, 0);
    BlockAt(encs, start, 0, i);
    ConcatSlice(bs, i);
    EightEach(bs[..i]);
  }

  /** The file is the header and tables, then every key, then every value. */
  lemma ImageLength(kenc: seq<seq<byte>>, venc: seq<seq<byte>>)
    requires |kenc| == |venc| && FileFits(kenc, venc)
    ensures |MoImage(kenc, venc)| == HEADER_SIZE + 16 * |kenc| + SumLen(kenc) + SumLen(venc)
  {
  }

  /** Slices of a five-part concatenation (as `MoImage` is built) that fall in one part. */
  lemma InFirst<T>(a: seq<T>, b: seq<T>, c: seq<T>, d: seq<T>, e: seq<T>, k: nat, len: nat)
    requires k + len <= |a|
    ensures (a + b + c + d + e)[k..k + len] == a[k..k + len]
  {
  }

  /** A slice inside the middle part of a three-part concatenation. */
  lemma SliceOf<T>(pre: seq<T>, mid: seq<T>, post: seq<T>, k: nat, len: nat)
    requires k + len <= |mid|
    ensures (pre + mid + post)[|pre| + k..|pre| + k + len] == mid[k..k + len]
  {
  }

  /** The file is its header, the key table, the value table, then the strings. */
  lemma ImageTables(kenc: seq<seq<byte>>, venc: seq<seq<byte>>) returns (h: seq<byte>, strings: seq<byte>)
    requires |kenc| == |venc| && FileFits(kenc, venc)
    ensures |h| == HEADER_SIZE
    ensures MoImage(kenc, venc) == h + Table(kenc, KeyStart(kenc)) + Table(venc, ValueStart(kenc)) + strings
  {
    h, strings := HeaderBytes(|kenc|), Concat(kenc) + Concat(venc);
  }

  /** The file is its header and both tables, which end where the key strings start, then the strings. */
  lemma ImageParts(kenc: seq<seq<byte>>, venc: seq<seq<byte>>) returns (tables: seq<byte>)
    requires |kenc| == |venc| && FileFits(kenc, venc)
    ensures |tables| == KeyStart(kenc)
    ensures MoImage(kenc, venc) == tables + Concat(kenc) + Concat(venc)
  {
    tables := HeaderBytes(|kenc|) + Table(kenc, KeyStart(kenc)) + Table(venc, ValueStart(kenc));
  }

  /** A string found at position a of the middle part sits at |pre| + a of the whole. */
  lemma StringAt(img: seq<byte>, pre: seq<byte>, mid: seq<byte>, post: seq<byte>, enc: seq<byte>, a: nat, off: int)
    requires img == pre + mid + post
    requires a + |enc| <= |mid| && mid[a..a + |enc|] == enc && off == |pre| + a
    ensures 0 <= off && off + |enc| <= |img| && img[off..off + |enc|] == enc
  {
    assert img[off..off + |enc|] == mid[a..a + |enc|];
  }

  /** The header words of the file: magic, revision 0, N, both table offsets, an empty hash table. */
  lemma ImageHeader(kenc: seq<seq<byte>>, venc: seq<seq<byte>>, j: nat)
    requires FileFits(kenc, venc) && j < 7
    ensures MoImage(kenc, venc)[4 * j..4 * j + 4] == PackU32(Header(|kenc|)[j])
  {
    InFirst(HeaderBytes(|kenc|), Table(kenc, KeyStart(kenc)), Table(venc, ValueStart(kenc)), Concat(kenc), Concat(venc), 4 * j, 4);
    HeaderWord(|kenc|, j);
  }

  /** Key i's descriptor: its length and its offset, packed at `HEADER_SIZE + 8i`. */
  lemma KeyDescriptor(kenc: seq<seq<byte>>, venc: seq<seq<byte>>, i: nat)
    requires |kenc| == |venc| && FileFits(kenc, venc) && i < |kenc|
    ensures FitsAt(kenc, KeyStart(kenc), i)
    ensures HEADER_SIZE + 8 * i + 8 <= |MoImage(kenc, venc)|
    ensures MoImage(kenc, venc)[HEADER_SIZE + 8 * i..HEADER_SIZE + 8 * i + 8]
      == PackU32(|kenc[i]|) + PackU32(Offset(kenc, KeyStart(kenc), i))
  {
    var h, strings := ImageTables(kenc, venc);
    var kt, vt := Table(kenc, KeyStart(kenc)), Table(venc, ValueStart(kenc));
    TableAt(kenc, KeyStart(kenc), i);
    assert h + kt + vt + strings == h + kt + (vt + strings);
    SliceOf(h, kt, vt + strings, 8 * i, 8);
  }


  /** Key i's bytes, at its offset. */
  lemma KeyBytes(kenc: seq<seq<byte>>, venc: seq<seq<byte>>, i: nat)
    requires |kenc| == |venc| && FileFits(kenc, venc) && i < |kenc|
    ensures Offset(kenc, KeyStart(kenc), i) + |kenc[i]| <= |MoImage(kenc, venc)|
    ensures MoImage(kenc, venc)[Offset(kenc, KeyStart(kenc), i)..Offset(kenc, KeyStart(kenc), i) + |kenc[i]|] == kenc[i]
  {
    var tables := ImageParts(kenc, venc);
    ConcatSlice(kenc, i);
    StringAt(MoImage(kenc, venc), tables, Concat(kenc), Concat(venc), kenc[i], SumLen(kenc[..i]), Offset(kenc, KeyStart(kenc), i));
  }

  /** Value i's descriptor: its length and its offset, packed at `HEADER_SIZE + 8N + 8i`. */
  lemma ValueDescriptor(kenc: seq<seq<byte>>, venc: seq<seq<byte>>, i: nat)
    requires |kenc| == |venc| && FileFits(kenc, venc) && i < |venc|
    ensures FitsAt(venc, ValueStart(kenc), i)
    ensures HEADER_SIZE + 8 * |kenc| + 8 * i + 8 <= |MoImage(kenc, venc)|
    ensures MoImage(kenc, venc)[HEADER_SIZE + 8 * |kenc| + 8 * i..HEADER_SIZE + 8 * |kenc| + 8 * i + 8]
      == PackU32(|venc[i]|) + PackU32(Offset(venc, ValueStart(kenc), i))
  {
    var h, strings := ImageTables(kenc, venc);
    var kt, vt := Table(kenc, KeyStart(kenc)), Table(venc, ValueStart(kenc));
    TableAt(venc, ValueStart(kenc), i);
    SliceOf(h + kt, vt, strings, 8 * i, 8);
  }


  /** Value i's bytes, at its offset. */
  lemma ValueBytes(kenc: seq<seq<byte>>, venc: seq<seq<byte>>, i: nat)
    requires |kenc| == |venc| && FileFits(kenc, venc) && i < |venc|
    ensures Offset(venc, ValueStart(kenc), i) + |venc[i]| <= |MoImage(kenc, venc)|
    ensures MoImage(kenc, venc)[Offset(venc, ValueStart(kenc), i)..Offset(venc, ValueStart(kenc), i) + |venc[i]|] == venc[i]
  {
    var tables := ImageParts(kenc, venc);
    ConcatSlice(venc, i);
    StringAt(MoImage(kenc, venc), tables + Concat(kenc), Concat(venc), [], venc[i], SumLen(venc[..i]), Offset(venc, ValueStart(kenc), i));
  }


  /** Eight bytes holding two packed words read back as those words. */
  lemma UnpackPair(b: seq<byte>, at: nat, x: int, y: int)
    requires IsU32(x) && IsU32(y) && at + 8 <= |b| && b[at..at + 8] == PackU32(x) + PackU32(y)
    ensures ReadU32(b, at) == x && ReadU32(b, at + 4) == y
  {
    assert b[at..at + 4] == PackU32(x) && b[at + 4..at + 8] == PackU32(y) by {
      assert b[at..at + 4] == b[at..at + 8][..4] && b[at + 4..at + 8] == b[at..at + 8][4..];
    }
    Unpack(b, at, x);
    Unpack(b, at + 4, y);
  }

  /**
   * Reading key descriptor i gives the length of key i and the offset where it starts,
   * and the bytes there are key i.
   */
  lemma KeyRoundTrip(kenc: seq<seq<byte>>, venc: seq<seq<byte>>, i: nat)
    requires |kenc| == |venc| && FileFits(kenc, venc) && i < |kenc|
    ensures FitsAt(kenc, KeyStart(kenc), i)
    ensures StoredAt(MoImage(kenc, venc), HEADER_SIZE + 8 * i, kenc[i], Offset(kenc, KeyStart(kenc), i))
  {
    KeyDescriptor(kenc, venc, i);
    KeyBytes(kenc, venc, i);
    ReadString(MoImage(kenc, venc), HEADER_SIZE + 8 * i, kenc[i], Offset(kenc, KeyStart(kenc), i));
  }


  /**
   * Reading value descriptor i gives the length of value i and the offset where it starts,
   * and the bytes there are value i.
   */
  lemma ValueRoundTrip(kenc: seq<seq<byte>>, venc: seq<seq<byte>>, i: nat)
    requires |kenc| == |venc| && FileFits(kenc, venc) && i < |venc|
    ensures FitsAt(venc, ValueStart(kenc), i)
    ensures StoredAt(MoImage(kenc, venc), HEADER_SIZE + 8 * |kenc| + 8 * i, venc[i], Offset(venc, ValueStart(kenc), i))
  {
    ValueDescriptor(kenc, venc, i);
    ValueBytes(kenc, venc, i);
    ReadString(MoImage(kenc, venc), HEADER_SIZE + 8 * |kenc| + 8 * i, venc[i], Offset(venc, ValueStart(kenc), i));
  }


  /** The descriptor at `at` reads back as the length of `enc` and `off`, and `enc` sits at `off`. */
  predicate StoredAt(img: seq<byte>, at: nat, enc: seq<byte>, off: int) {
    at + 8 <= |img| && ReadU32(img, at) == |enc| && ReadU32(img, at + 4) == off
    && 0 <= off && off + |enc| <= |img| && img[off..off + |enc|] == enc
  }

  /** A descriptor that packs a string's length and offset reads back as both. */
  lemma ReadString(img: seq<byte>, at: nat, enc: seq<byte>, off: int)
    requires IsU32(|enc|) && IsU32(off) && at + 8 <= |img| && img[at..at + 8] == PackU32(|enc|) + PackU32(off)
    requires off + |enc| <= |img| && img[off..off + |enc|] == enc
    ensures StoredAt(img, at, enc, off)
  {
    UnpackPair(img, at, |enc|, off);
  }

  /** Four bytes that pack `x` unpack to `x` wherever they sit. */
  lemma Unpack(b: seq<byte>, at: nat, x: int)
    requires IsU32(x) && at + 4 <= |b| && b[at..at + 4] == PackU32(x)
    ensures ReadU32(b, at) == x
  {
    ReadPackedAt(b[..at], x, b[at + 4..]);
    assert b == b[..at] + PackU32(x) + b[at + 4..];
  }

  /** Key i of the file is the i-th key in sorted order, and value i is the value stored under it. */
  lemma BuildPairs(ms: Messages, i: nat)
    requires UniqueKeys(ms) && i < |ms|
    ensures var (keys, values) := SortedEntries(ms);
      Sorted(keys) && (keys[i], values[i]) in ms && multiset(keys) == multiset(Keys(ms))
  {
  }
}
