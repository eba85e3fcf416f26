/**
 * The cursor of `selectionMenu(selectionList)`: it starts on the first item, Up or
 * "k" moves it up and Down or "j" moves it down, both wrapping around at the ends;
 * Enter returns the current index and Esc ends the program with status 0. The keys
 * `readchar.readkey` returns are given as a sequence; any other key leaves the
 * cursor where it is.
 */
module SelectionMenu {

  datatype Key = Up | Down | Enter | Esc | Other(text: string)

  /** How the menu loop ends: a selection, `exitProgram(0)`, or the given keys ran out first. */
  datatype MenuEnd = Selected(index: int) | Exited(code: int) | KeysExhausted(cursor: int)

  predicate IsUp(k: Key) {
    k == Up || k == Other("k")
  }

  predicate IsDown(k: Key) {
    k == Down || k == Other("j")
  }

  /** The cursor after one key that neither selects nor exits, with `n` items listed. */
  function Move(cursor: int, n: nat, k: Key): int {
    if IsUp(k) then (if cursor > 0 then cursor - 1 else n - 1)
    else if IsDown(k) then (if cursor < n - 1 then cursor + 1 else 0)
    else cursor
  }

  /** The end of the menu loop from `cursor` on, reading `keys` in order. */
  function Menu(n: nat, keys: seq<Key>, cursor: int): MenuEnd
    decreases |keys|
  {
    if keys == [] then KeysExhausted(cursor)
    else if !IsUp(keys[0]) && !IsDown(keys[0]) && keys[0] == Enter then Selected(cursor)
    else if !IsUp(keys[0]) && !IsDown(keys[0]) && keys[0] == Esc then Exited(0)
    else Menu(n, keys[1..], Move(cursor, n, keys[0]))
  }

  /** `selectionMenu(selectionList)` without its screen output. */
  method SelectionMenu(selectionList: seq<string>, keys: seq<Key>) returns (r: MenuEnd)
    ensures r == Menu(|selectionList|, keys, 0)
  {
    var n := |selectionList|;
    var currentSelection := 0;
    var i := 0;
    while i < |keys|
      invariant 0 <= i <= |keys|
      invariant Menu(n, keys[i..], currentSelection) == Menu(n, keys, 0)
    {
      assert keys[i..][1..] == keys[i + 1..];
      var k := keys[i];
      if k == Up || k == Other("k") {
        currentSelection := if currentSelection > 0 then currentSelection - 1 else n - 1;
      } else if k == Down || k == Other("j") {
        currentSelection := if currentSelection < n - 1 then currentSelection + 1 else 0;
      } else if k == Enter {
        return Selected(currentSelection);
      } else if k == Esc {
        return Exited(0);
      }
      i := i + 1;
    }
    return KeysExhausted(currentSelection);
  }

  /** Up at the first item wraps to the last; elsewhere it moves one up. */
  lemma UpWraps(cursor: int, n: nat)
    requires 0 <= cursor < n
    ensures Move(cursor, n, Up) == Move(cursor, n, Other("k"))
    ensures Move(cursor, n, Up) == if cursor == 0 then n - 1 else cursor - 1
  {
  }

  /** Down at the last item wraps to the first; elsewhere it moves one down. */
  lemma DownWraps(cursor: int, n: nat)
    requires 0 <= cursor < n
    ensures Move(cursor, n, Down) == Move(cursor, n, Other("j"))
    ensures Move(cursor, n, Down) == if cursor == n - 1 then 0 else cursor + 1
  {
  }

  /** Down undoes Up and Up undoes Down on a non-empty list. */
  lemma UpDownInverse(cursor: int, n: nat)
    requires 0 <= cursor < n
    ensures Move(Move(cursor, n, Up), n, Down) == cursor
    ensures Move(Move(cursor, n, Down), n, Up) == cursor
  {
  }

  /** The cursor after pressing Down `times` times. */
  function DownTimes(cursor: int, n: nat, times: nat): int
    decreases times
  {
    if times == 0 then cursor else DownTimes(Move(cursor, n, Down), n, times - 1)
  }

  /** Pressing Down `a + b` times is pressing it `a` times, then `b` times. */
  lemma {:induction false} DownTimesSplit(cursor: int, n: nat, a: nat, b: nat)
    ensures DownTimes(cursor, n, a + b) == DownTimes(DownTimes(cursor, n, a), n, b)
    decreases a
  {
    if a > 0 {
      DownTimesSplit(Move(cursor, n, Down), n, a - 1, b);
    }
  }

  /** Below the last item, Down moves one step at a time without wrapping. */
  lemma {:induction false} DownTimesStraight(cursor: int, n: nat, times: nat)
    requires 0 <= cursor && cursor + times < n
    ensures DownTimes(cursor, n, times) == cursor + times
    decreases times
  {
    if times > 0 {
      DownTimesStraight(cursor + 1, n, times - 1);
    }
  }

  /** `n` presses of Down on a list of `n` items bring the cursor back to where it was. */
  lemma DownCycle(cursor: int, n: nat)
    requires 0 <= cursor < n
    ensures DownTimes(cursor, n, n) == cursor
  {
    DownTimesSplit(cursor, n, n - 1 - cursor, 1 + cursor);
    DownTimesStraight(cursor, n, n - 1 - cursor);
    DownTimesSplit(n - 1, n, 1, cursor);
    assert DownTimes(n - 1, n, 1) == 0;
    DownTimesStraight(0, n, cursor);
  }

  /** On a non-empty list every index the menu returns or holds is a valid item. */
  lemma {:induction false} MenuInRange(n: nat, keys: seq<Key>, cursor: int)
    requires 0 <= cursor < n
    ensures Menu(n, keys, cursor).Selected? ==> 0 <= Menu(n, keys, cursor).index < n
    ensures Menu(n, keys, cursor).KeysExhausted? ==> 0 <= Menu(n, keys, cursor).cursor < n
    decreases |keys|
  {
    if keys != [] {
      MenuInRange(n, keys[1..], Move(cursor, n, keys[0]));
    }
  }

  /** Keys the menu does not know leave the cursor where it is. */
  lemma {:induction false} UnknownKeysIgnored(n: nat, keys: seq<Key>, cursor: int)
    requires forall i :: 0 <= i < |keys| ==> keys[i].Other? && keys[i] != Other("k") && keys[i] != Other("j")
    ensures Menu(n, keys, cursor) == KeysExhausted(cursor)
    decreases |keys|
  {
    if keys != [] {
      UnknownKeysIgnored(n, keys[1..], cursor);
    }
  }

  /** Enter right away selects the first item; Esc right away exits with status 0. */
  lemma FirstKey(n: nat, rest: seq<Key>)
    ensures Menu(n, [Enter] + rest, 0) == Selected(0)
    ensures Menu(n, [Esc] + rest, 0) == Exited(0)
  {
  }
}
