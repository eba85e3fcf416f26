/**
 * Terminal output of `autohack.core.util`: standard output is an appended buffer,
 * and `write`, `outputEndl`, `clearLine`, `prevLine`, `hideCursor`, `showCursor`
 * append to it the text they compose. `highlightText` wraps a message in the
 * ANSI codes for bold red and reset.
 */
module Terminal {
  import opened Wrappers
  import opened Text

  const CLEAR_LINE: string := "\U{001B}[2K\r"
  const PREV_LINE: string := "\U{001B}[1A"
  const HIDE_CURSOR: string := "\U{001B}[?25l"
  const SHOW_CURSOR: string := "\U{001B}[?25h"
  const HIGHLIGHT_ON: string := "\U{001B}[1;31m"
  const HIGHLIGHT_OFF: string := "\U{001B}[0m"

  /** `highlightText(message)`. */
  function HighlightText(message: string): (r: string) {
    HIGHLIGHT_ON + message + HIGHLIGHT_OFF
  }

  /** Removes the highlight codes again, if the text carries them. */
  function Unhighlight(text: string): (r: Option<string>) {
    var n := |HIGHLIGHT_ON| + |HIGHLIGHT_OFF|;
    if |text| >= n && text[..|HIGHLIGHT_ON|] == HIGHLIGHT_ON && text[|text| - |HIGHLIGHT_OFF|..] == HIGHLIGHT_OFF
    then Some(text[|HIGHLIGHT_ON|..|text| - |HIGHLIGHT_OFF|])
    else None
  }

  /** The highlighted text is the message between the two codes, and the message can be read back. */
  lemma HighlightRoundTrip(message: string)
    ensures |HighlightText(message)| == |message| + |HIGHLIGHT_ON| + |HIGHLIGHT_OFF|
    ensures Unhighlight(HighlightText(message)) == Some(message)
  {
    var r := HighlightText(message);
    assert r[..|HIGHLIGHT_ON|] == HIGHLIGHT_ON;
    assert r[|r| - |HIGHLIGHT_OFF|..] == HIGHLIGHT_OFF;
    assert r[|HIGHLIGHT_ON|..|r| - |HIGHLIGHT_OFF|] == message;
  }

  /** Highlighting is injective: different messages never look the same on screen. */
  lemma HighlightInjective(m1: string, m2: string)
    requires HighlightText(m1) == HighlightText(m2)
    ensures m1 == m2
  {
    HighlightRoundTrip(m1);
    HighlightRoundTrip(m2);
  }

  /** `"\n" * count`. */
  function Newlines(count: int): (r: string)
    ensures |r| == if count <= 0 then 0 else count
    ensures forall i :: 0 <= i < |r| ==> r[i] == '\n'
  {
    RepeatChar('\n', count);
    Repeat("\n", count)
  }

  /** What one `write(message, endl, clear, highlight)` call puts on the screen. */
  function Rendered(message: string, endl: int, clear: bool, highlight: bool): string {
    (if clear then CLEAR_LINE else "") + (if highlight then HighlightText(message) else message) + Newlines(endl)
  }

  /** The parts of a written text, in order: clear prefix, the (highlighted) message, the newlines. */
  lemma RenderedParts(message: string, endl: int, clear: bool, highlight: bool)
    ensures var r := Rendered(message, endl, clear, highlight);
      var pre := if clear then |CLEAR_LINE| else 0;
      var body := if highlight then HighlightText(message) else message;
      |r| == pre + |body| + (if endl <= 0 then 0 else endl)
      && (clear ==> r[..pre] == CLEAR_LINE)
      && r[pre..pre + |body|] == body
      && (forall i :: pre + |body| <= i < |r| ==> r[i] == '\n')
  {
    var r := Rendered(message, endl, clear, highlight);
    var pre := if clear then |CLEAR_LINE| else 0;
    var body := if highlight then HighlightText(message) else message;
    assert r == (if clear then CLEAR_LINE else "") + body + Newlines(endl);
    assert forall i :: pre + |body| <= i < |r| ==> r[i] == Newlines(endl)[i - pre - |body|];
  }

  /** `write` with `clear` is `clearLine()` followed by the same `write` without it. */
  lemma ClearIsClearLineFirst(message: string, endl: int, highlight: bool)
    ensures Rendered(message, endl, true, highlight) == Rendered(CLEAR_LINE, 0, false, false) + Rendered(message, endl, false, highlight)
  {
  }

  /** `write` with `highlight` writes the highlighted message in plain. */
  lemma HighlightIsPlainWriteOfHighlighted(message: string, endl: int, clear: bool)
    ensures Rendered(message, endl, clear, true) == Rendered(HighlightText(message), endl, clear, false)
  {
  }

  /** Standard output, as the text written to it so far. */
  class Stdout {
    var written: string

    constructor ()
      ensures written == ""
    {
      written := "";
    }

    /** `outputEndl(count)`. */
    method OutputEndl(count: int)
      modifies this
      ensures written == old(written) + Newlines(count)
    {
      written := written + Newlines(count);
    }

    /** `write(message, endl, clear, highlight)`; `clearLine` is itself a `write`. */
    method Write(message: string, endl: int, clear: bool, highlight: bool)
      modifies this
      ensures written == old(written) + Rendered(message, endl, clear, highlight)
      decreases if clear then 2 else 0
    {
      if clear {
        ClearLine();
      }
      var text := message;
      if highlight {
        text := HighlightText(text);
      }
      written := written + text;
      OutputEndl(endl);
    }

    /** `clearLine()`. */
    method ClearLine()
      modifies this
      ensures written == old(written) + CLEAR_LINE
      decreases 1
    {
      Write(CLEAR_LINE, 0, false, false);
    }

    /** `prevLine()`. */
    method PrevLine()
      modifies this
      ensures written == old(written) + PREV_LINE
    {
      Write(PREV_LINE, 0, false, false);
    }

    /** `hideCursor()`. */
    method HideCursor()
      modifies this
      ensures written == old(written) + HIDE_CURSOR
    {
      Write(HIDE_CURSOR, 0, false, false);
    }

    /** `showCursor()`. */
    method ShowCursor()
      modifies this
      ensures written == old(written) + SHOW_CURSOR
    {
      Write(SHOW_CURSOR, 0, false, false);
    }
  }
}
