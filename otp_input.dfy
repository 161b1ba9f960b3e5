/**
 * The one-time-password input: a row of single-character cells, as many as the
 * `length` prop asked for when the input was mounted. Typing writes the last
 * character typed into its cell, moves the focus on, and reports the joined code
 * once it is as long as the current `length` prop; clicking past an empty cell and
 * backspacing in an empty cell move the focus back.
 */
module OtpInput {
  import opened Wrappers
  import opened Text
  import opened Lists

  /** `s.substring(start)` for a start that may lie outside the string: it is clamped into range. */
  function Substring(s: string, start: int): (r: string)
    ensures |r| <= |s| && r == s[|s| - |r|..]
  {
    if start < 0 then s else if start > |s| then [] else s[start..]
  }

  /** `value.substring(value.length - 1)`: the last character, or nothing for an empty value. */
  lemma LastCharacter(value: string)
    ensures |Substring(value, |value| - 1)| <= 1
    ensures value == [] ==> Substring(value, |value| - 1) == []
    ensures value != [] ==> Substring(value, |value| - 1) == [value[|value| - 1]]
  {
  }

  /** `cells.join('')`. */
  function Join(cells: seq<string>): string {
    if cells == [] then [] else Join(cells[..|cells| - 1]) + cells[|cells| - 1]
  }

  predicate AtMostOneChar(cells: seq<string>) {
    forall i :: 0 <= i < |cells| ==> |cells[i]| <= 1
  }

  predicate AllFilled(cells: seq<string>) {
    forall i :: 0 <= i < |cells| ==> cells[i] != []
  }

  /** The number of cells that hold something. */
  function FilledCount(cells: seq<string>): (n: nat)
    ensures n <= |cells|
  {
    if cells == [] then 0 else FilledCount(cells[..|cells| - 1]) + (if cells[|cells| - 1] != [] then 1 else 0)
  }

  /**
   * With at most one character per cell, the joined code has one character per
   * filled cell, and every cell is filled exactly when the count reaches the number of cells.
   */
  lemma {:induction false} JoinLength(cells: seq<string>)
    requires AtMostOneChar(cells)
    ensures |Join(cells)| == FilledCount(cells)
    ensures FilledCount(cells) == |cells| <==> AllFilled(cells)
  {
    if cells != [] {
      var p := cells[..|cells| - 1];
      assert AtMostOneChar(p);
      JoinLength(p);
      if AllFilled(cells) {
        assert AllFilled(p);
      }
      if FilledCount(cells) == |cells| {
        assert FilledCount(p) == |p| && cells[|cells| - 1] != [];
        forall i | 0 <= i < |cells| ensures cells[i] != [] {
          if i < |p| {
            assert cells[i] == p[i];
          }
        }
      }
    }
  }

  /** With at most one character per cell, the joined code has full length exactly when no cell is empty. */
  lemma JoinFull(cells: seq<string>)
    requires AtMostOneChar(cells)
    ensures |Join(cells)| <= |cells|
    ensures |Join(cells)| == |cells| <==> AllFilled(cells)
  {
    JoinLength(cells);
  }

  /**
   * The input's state. `cells` is the `otp` array of `useState(new Array(length).fill(''))`:
   * its size is fixed by the `length` prop of the first render. `length` is the
   * prop of the latest render, which the handlers read; a parent may change it later.
   */
  class OtpBoxes {
    var length: nat
    const cells: array<string>
    var focus: int

    predicate Valid()
      reads this, cells
    {
      AtMostOneChar(cells[..]) && (cells.Length == 0 || 0 <= focus < cells.Length)
    }

    /** `length` empty cells, the first one focused. */
    constructor(n: nat)
      ensures Valid() && fresh(cells)
      ensures length == n && cells.Length == n && cells[..] == seq(n, i => []) && focus == 0
    {
      length := n;
      cells := new string[n](i => []);
      focus := 0;
    }

    /** A re-render with another `length` prop: the handlers see the new value; the cells stay as mounted. */
    method SetLength(n: nat)
      modifies this
      ensures length == n && focus == old(focus)
    {
      length := n;
    }

    /**
     * Typing into cell `index`. A value that fails the number check is ignored.
     * Otherwise the cell receives the value's last character, the joined code is
     * returned when it is exactly as long as the current `length` prop, and a
     * non-empty value moves the focus to the next cell when `length` and the
     * rendered cells both have one.
     */
    method HandleChange(index: int, value: string) returns (completed: Option<string>)
      requires Valid() && 0 <= index < cells.Length
      modifies this, cells
      ensures Valid() && length == old(length)
      ensures !IsNumericText(value) ==> cells[..] == old(cells[..]) && focus == old(focus)
      ensures IsNumericText(value) ==> cells[..] == old(cells[..])[index := Substring(value, |value| - 1)]
      ensures completed.Some? <==> IsNumericText(value) && FilledCount(cells[..]) == length
      ensures completed.Some? ==> completed.value == Join(cells[..]) && |completed.value| == length
      ensures cells.Length == length ==> (completed.Some? <==> IsNumericText(value) && AllFilled(cells[..]))
      ensures focus == (if IsNumericText(value) && value != [] && index < length - 1 && index + 1 < cells.Length
                        then index + 1 else old(focus))
    {
      completed := None;
      if !IsNumericText(value) {
        return;
      }
      LastCharacter(value);
      cells[index] := Substring(value, |value| - 1);
      var combined := Join(cells[..]);
      JoinLength(cells[..]);
      if |combined| == length {
        completed := Some(combined);
      }
      if value != [] && index < length - 1 && index + 1 < cells.Length {
        focus := index + 1;
      }
    }

    /**
     * Clicking cell `index` focuses it, unless the cell before it is empty: then the
     * first empty cell gets the focus instead.
     */
    method HandleClick(index: int)
      requires Valid() && 0 <= index < cells.Length
      modifies this
      ensures Valid() && length == old(length)
      ensures index > 0 && cells[index - 1] == [] ==> [] in cells[..] && focus == FirstIndex(cells[..], [])
      ensures !(index > 0 && cells[index - 1] == []) ==> focus == index
    {
      focus := index;
      if index > 0 && cells[index - 1] == [] {
        assert cells[..][index - 1] == [];
        focus := FirstIndex(cells[..], []);
      }
    }

    /** Backspace in an empty cell other than the first moves the focus one cell back. */
    method HandleKeyDown(index: int, key: string)
      requires Valid() && 0 <= index < cells.Length
      modifies this
      ensures Valid() && length == old(length)
      ensures key == "Backspace" && cells[index] == [] && index > 0 ==> focus == index - 1
      ensures !(key == "Backspace" && cells[index] == [] && index > 0) ==> focus == old(focus)
    {
      if key == "Backspace" && cells[index] == [] && index > 0 {
        focus := index - 1;
      }
    }

    /** The joined code. */
    function Code(): string
      reads this, cells
    {
      Join(cells[..])
    }
  }

  /** A first empty cell lies at or before any empty cell, so clicking never moves the focus forward. */
  lemma ClickMovesBack(cells: seq<string>, index: int)
    requires 0 < index <= |cells| && cells[index - 1] == []
    ensures [] in cells && FirstIndex(cells, []) <= index - 1
  {
    assert cells[index - 1] in cells;
  }
}
