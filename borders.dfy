/** Box-drawing borders for the terminal (the `Borders` helpers of src/cli/colors.rs). */
module Borders {
  import opened Text

  /** `usize::saturating_sub`. */
  function SaturatingSub(a: nat, b: nat): nat {
    if a >= b then a - b else 0
  }

  /** `Borders::top`: a corner, `width - 2` horizontal bars, a corner; never shorter than the two corners. */
  function Top(width: nat): (r: string)
    ensures |r| == if width < 2 then 2 else width
    ensures r[0] == '╔' && r[|r| - 1] == '╗'
    ensures forall i :: 0 < i < |r| - 1 ==> r[i] == '═'
  {
    "╔" + Repeat('═', SaturatingSub(width, 2)) + "╗"
  }

  /** `Borders::bottom`: the mirror of `Top`, with the same length. */
  function Bottom(width: nat): (r: string)
    ensures |r| == |Top(width)|
    ensures r[0] == '╚' && r[|r| - 1] == '╝'
    ensures forall i :: 0 < i < |r| - 1 ==> r[i] == '═'
  {
    "╚" + Repeat('═', SaturatingSub(width, 2)) + "╝"
  }

  /** `Borders::separator`: exactly `width` thin bars. */
  function Separator(width: nat): (r: string)
    ensures |r| == width && forall i :: 0 <= i < width ==> r[i] == '─'
  {
    Repeat('─', width)
  }

  /**
    * `Borders::box_line`: the content between "║ " and " ║" with spaces between.
    * It is exactly `width` long when the content leaves room for five frame characters,
    * and the content is never truncated.
    */
  function BoxLine(content: string, width: nat): (r: string)
    ensures |content| + 5 <= width ==> |r| == width
    ensures |r| >= |content| + 5
    ensures r[..2] == "║ " && r[2..2 + |content|] == content && r[|r| - 2..] == " ║"
  {
    var padding := SaturatingSub(width, |content| + 4);
    "║ " + content + " " + Repeat(' ', SaturatingSub(padding, 1)) + "" + " ║"
  }

  /**
    * `Borders::box_line_left`: the content left-aligned between "║ " and " ║", padded with
    * spaces to `width` when it fits, otherwise exactly four characters longer than the content.
    */
  function BoxLineLeft(content: string, width: nat): (r: string)
    ensures |r| == if |content| + 4 <= width then width else |content| + 4
    ensures r[..2] == "║ " && r[2..2 + |content|] == content && r[|r| - 2..] == " ║"
    ensures forall i :: 2 + |content| <= i < |r| - 2 ==> r[i] == ' '
  {
    var padding := SaturatingSub(width, |content| + 4);
    "║ " + content + Repeat(' ', padding) + " ║"
  }
}
