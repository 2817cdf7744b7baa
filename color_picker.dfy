/** The colour picker: the custom hex input's gate, the palette swatches and which of
    them is marked as the current colour. */
module ColorPicker {
  import opened Base
  import opened Strings

  // ---------------------------------------------------------------- the hex gate

  /** `[0-9A-F]` under the `i` flag. */
  predicate IsHexDigit(c: char)
  {
    '0' <= c <= '9' || 'a' <= c <= 'f' || 'A' <= c <= 'F'
  }

  /** `/^#[0-9A-F]{6}$/i`: a hash and exactly six hex digits, in either case. */
  predicate ValidHex(s: string)
  {
    |s| == 7 && s[0] == '#' && forall i :: 1 <= i < 7 ==> IsHexDigit(s[i])
  }

  /** The value of one hex digit. */
  function DigitValue(c: char): (r: nat)
    requires IsHexDigit(c)
    ensures r < 16
  {
    if '0' <= c <= '9' then c as nat - '0' as nat
    else if 'a' <= c <= 'f' then c as nat - 'a' as nat + 10
    else c as nat - 'A' as nat + 10
  }

  /** The lower-case digit for a value below 16. */
  function Digit(n: nat): (c: char)
    requires n < 16
  {
    if n < 10 then ('0' as nat + n) as char else ('a' as nat + n - 10) as char
  }

  /** The 24-bit colour a valid hex string denotes. */
  function HexValue(s: string): nat
    requires ValidHex(s)
  {
    ((((DigitValue(s[1]) * 16 + DigitValue(s[2])) * 16 + DigitValue(s[3])) * 16
      + DigitValue(s[4])) * 16 + DigitValue(s[5])) * 16 + DigitValue(s[6])
  }

  /** The lower-case `#rrggbb` spelling of a 24-bit colour, digit by digit from the right. */
  function HexOf(n: nat): string
    requires n < 0x1000000
  {
    var q1 := n / 16; var q2 := q1 / 16; var q3 := q2 / 16; var q4 := q3 / 16; var q5 := q4 / 16;
    ['#', Digit(q5 % 16), Digit(q4 % 16), Digit(q3 % 16), Digit(q2 % 16), Digit(q1 % 16), Digit(n % 16)]
  }

  /** A digit reads back as the value it was written for. */
  lemma DigitRoundTrip(n: nat)
    requires n < 16
    ensures IsHexDigit(Digit(n)) && DigitValue(Digit(n)) == n
  {
  }

  /** Every 24-bit colour has a spelling the gate accepts, and that spelling denotes it. */
  lemma HexRoundTrip(n: nat)
    requires n < 0x1000000
    ensures ValidHex(HexOf(n)) && HexValue(HexOf(n)) == n
  {
    var q1 := n / 16; var q2 := q1 / 16; var q3 := q2 / 16; var q4 := q3 / 16; var q5 := q4 / 16;
    DigitRoundTrip(q5 % 16);
    DigitRoundTrip(q4 % 16);
    DigitRoundTrip(q3 % 16);
    DigitRoundTrip(q2 % 16);
    DigitRoundTrip(q1 % 16);
    DigitRoundTrip(n % 16);
    var h := HexOf(n);
    assert q5 < 16 && q5 % 16 == q5;
    assert DigitValue(h[1]) * 16 + DigitValue(h[2]) == q4;
    assert q4 * 16 + DigitValue(h[3]) == q3;
    assert q3 * 16 + DigitValue(h[4]) == q2;
    assert q2 * 16 + DigitValue(h[5]) == q1;
    assert q1 * 16 + DigitValue(h[6]) == n;
  }

  /** Every string the gate accepts denotes a 24-bit colour, and the gate ignores case. */
  lemma ValidHexMeaning(s: string)
    ensures ValidHex(s) ==> HexValue(s) < 0x1000000 && ValidHex(Lower(s)) && HexValue(Lower(s)) == HexValue(s)
  {
  }

  /** What an edit of the custom input does: the text is kept whatever it is, and the
      colour is forwarded to `onChange` only when it passes the gate. */
  datatype Reaction = Reaction(customColor: string, forwarded: Option<string>)

  /** `handleCustomColorChange`. */
  function CustomColorChange(value: string): (r: Reaction)
    ensures r.customColor == value
    ensures r.forwarded.Some? <==> ValidHex(value)
    ensures r.forwarded.Some? ==> r.forwarded.value == value
  {
    Reaction(value, if ValidHex(value) then Some(value) else None)
  }

  /** `handleColorClick`: a palette (or transparent) colour is forwarded and mirrored into
      the custom input, without passing the gate. */
  function ColorClick(newColor: string): (r: Reaction)
    ensures r.customColor == newColor && r.forwarded == Some(newColor)
  {
    Reaction(newColor, Some(newColor))
  }

  /** Whatever the user types, a forwarded colour is always one `HexOf` can spell, up to
      case. */
  lemma ForwardedIsColor(value: string)
    ensures CustomColorChange(value).forwarded.Some? ==>
      HexValue(value) < 0x1000000 && Lower(HexOf(HexValue(value))) == HexOf(HexValue(value))
  {
    if ValidHex(value) {
      var s := HexOf(HexValue(value));
      assert forall i :: 0 <= i < 7 ==> LowerChar(s[i]) == s[i];
    }
  }

  // ---------------------------------------------------------------- swatches

  /** `isColorSelected`: equality after lower-casing both sides. */
  predicate IsColorSelected(color: string, paletteColor: string)
  {
    Lower(color) == Lower(paletteColor)
  }

  /** The marking is an equivalence: every colour marks itself, the test is symmetric, and
      two spellings that differ only in letter case mark each other. */
  lemma IsColorSelectedMeaning(a: string, b: string, c: string)
    ensures IsColorSelected(a, a)
    ensures IsColorSelected(a, b) ==> IsColorSelected(b, a)
    ensures IsColorSelected(a, b) && IsColorSelected(b, c) ==> IsColorSelected(a, c)
    ensures IsColorSelected(a, b) <==> |a| == |b| && forall i :: 0 <= i < |a| ==> LowerChar(a[i]) == LowerChar(b[i])
  {
    if |a| == |b| && forall i :: 0 <= i < |a| ==> LowerChar(a[i]) == LowerChar(b[i]) {
      assert Lower(a) == Lower(b);
    }
  }

  /** How many rows compact mode shows before the expander. */
  const QuickRowCount: nat := 3
  /** How many swatches a row shows at most. */
  const RowWidth: nat := 6

  /** The smaller of two counts. */
  function Least(a: nat, b: nat): nat
  {
    if a <= b then a else b
  }

  /** `array.slice(0, n)`: the first n entries, or all of them when there are fewer. */
  function Take<T>(s: seq<T>, n: nat): (r: seq<T>)
    ensures |r| == Least(|s|, n) && r == s[..|r|]
  {
    if |s| <= n then s else s[..n]
  }

  /** `array.slice(n)`: what is left after the first n entries. */
  function Drop<T>(s: seq<T>, n: nat): (r: seq<T>)
    ensures |r| == |s| - Least(|s|, n) && r == s[|s| - |r|..]
  {
    if |s| <= n then [] else s[n..]
  }

  /** The swatches of a list of rows, row after row, each row cut to its first six. */
  function Swatches(rows: seq<seq<string>>): seq<string>
  {
    if rows == [] then [] else Take(rows[0], RowWidth) + Swatches(rows[1..])
  }

  /** Swatches of rows laid end to end are the swatches of each part, in order. */
  lemma {:induction false} SwatchesAppend(a: seq<seq<string>>, b: seq<seq<string>>)
    ensures Swatches(a + b) == Swatches(a) + Swatches(b)
  {
    if a == [] {
      assert a + b == b;
    } else {
      SwatchesAppend(a[1..], b);
      ConsConcat(a, b);
      ConcatAssoc(Take(a[0], RowWidth), Swatches(a[1..]), Swatches(b));
    }
  }

  /** The main grid: the first three rows in compact mode, every row otherwise. */
  function QuickSwatches(palette: seq<seq<string>>, compact: bool): seq<string>
  {
    Swatches(if compact then Take(palette, QuickRowCount) else palette)
  }

  /** The expander's grid: rows three onward, shown only in compact mode and while
      expanded. */
  function MoreSwatches(palette: seq<seq<string>>, compact: bool, showAll: bool): seq<string>
  {
    if showAll && compact then Swatches(Drop(palette, QuickRowCount)) else []
  }

  /** Expanded compact mode shows the same swatches as full mode, in the same order; the
      expander shows nothing outside compact mode. */
  lemma ExpandedShowsAll(palette: seq<seq<string>>)
    ensures QuickSwatches(palette, true) + MoreSwatches(palette, true, true) == QuickSwatches(palette, false)
    ensures forall showAll :: MoreSwatches(palette, false, showAll) == []
  {
    assert Take(palette, QuickRowCount) + Drop(palette, QuickRowCount) == palette;
    SwatchesAppend(Take(palette, QuickRowCount), Drop(palette, QuickRowCount));
  }

  /** A colour is among the swatches exactly when it sits in one of the first six columns of
      some row. */
  lemma {:induction false} SwatchesMembers(rows: seq<seq<string>>)
    ensures forall c :: c in Swatches(rows) <==>
      exists r, k :: 0 <= r < |rows| && 0 <= k < Least(|rows[r]|, RowWidth) && rows[r][k] == c
  {
    if rows != [] {
      SwatchesMembers(rows[1..]);
      var head := Take(rows[0], RowWidth);
      forall c | c in Swatches(rows)
        ensures exists r, k :: 0 <= r < |rows| && 0 <= k < Least(|rows[r]|, RowWidth) && rows[r][k] == c
      {
        if c in head {
          var k :| 0 <= k < |head| && head[k] == c;
          assert rows[0][k] == c;
        } else {
          assert c in Swatches(rows[1..]);
          var r, k :| 0 <= r < |rows[1..]| && 0 <= k < Least(|rows[1..][r]|, RowWidth) && rows[1..][r][k] == c;
          assert rows[r + 1][k] == c;
        }
      }
      forall r, k | 0 <= r < |rows| && 0 <= k < Least(|rows[r]|, RowWidth)
        ensures rows[r][k] in Swatches(rows)
      {
        if r == 0 {
          assert head[k] == rows[0][k];
        } else {
          assert rows[1..][r - 1][k] == rows[r][k];
        }
      }
    }
  }
}
