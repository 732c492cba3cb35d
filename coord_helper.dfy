/**
 * Conversion of a Go Text Protocol (version 2) vertex — a column letter
 * from A to Z without I, then a row number counted from the bottom — into
 * an SGF (FF[4]) point, two letters from `a-zA-Z` giving column and line
 * counted from the top-left corner.
 */
module CoordHelper {
  import opened JsText

  /** The `i`-th column letter: `A` to `H`, then `J` to `Z` (there is no column `I`). */
  function GtpLetter(i: int): char {
    if 0 <= i < 8 then ('A' as int + i) as char
    else if 8 <= i < 25 then ('A' as int + i + 1) as char
    else 'A'
  }

  /** The `i`-th SGF coordinate letter: `a` to `z`, then `A` to `Z`. */
  function SgfLetter(i: int): char {
    if 0 <= i < 26 then ('a' as int + i) as char
    else if 26 <= i < 52 then ('A' as int + i - 26) as char
    else 'a'
  }

  /** The letters `GtpAlpha` holds. */
  predicate IsGtpLetter(c: char) {
    'A' <= c <= 'Z' && c != 'I'
  }

  /** The letters `SgfAlpha` holds. */
  predicate IsSgfLetter(c: char) {
    'a' <= c <= 'z' || 'A' <= c <= 'Z'
  }

  /** `ABCDEFGHJKLMNOPQRSTUVWXYZ` */
  function GtpAlpha(): string { seq(25, GtpLetter) }
  /** `abcdefghijklmnopqrstuvwxyzABCDEFGHIJKLMNOPQRSTUVWXYZ` */
  function SgfAlpha(): string { seq(52, SgfLetter) }

  /** `gtpAlpha.indexOf(c)` for an upper-case letter: its place in the alphabet, one less after `I`. */
  lemma GtpColumnIndex(c: char)
    requires 'A' <= c <= 'Z' && c != 'I'
    ensures IndexOf(GtpAlpha(), c) == if c < 'I' then c as int - 'A' as int else c as int - 'A' as int - 1
  {
    var k := if c < 'I' then c as int - 'A' as int else c as int - 'A' as int - 1;
    assert GtpAlpha()[k] == c;
  }

  /** `sgfAlpha.indexOf` recovers the position of each of its letters. */
  lemma SgfLetterIndex(k: int)
    requires 0 <= k < |SgfAlpha()|
    ensures IndexOf(SgfAlpha(), SgfAlpha()[k]) == k
  {
    var r := IndexOf(SgfAlpha(), SgfAlpha()[k]);
    assert SgfAlpha()[r] as int == SgfAlpha()[k] as int;
  }

  /**
   * The vertex texts the conversion is defined on: `pass`, or a column
   * character followed by a (possibly empty) run of decimal digits. For an
   * empty text the source reads past the end of the string. Unary `+` also
   * reads other rows as numbers: `-1`, ` 5`, `0x10` and `1e1` give integer
   * rows (so `A-1` on 19x19 yields `au`), `1.5` gives a fractional index,
   * and only a truly non-numeric row gives `NaN`, which every comparison in
   * the range guard lets through, so the result ends in `undefined`. These
   * JavaScript number syntaxes are not modelled.
   */
  predicate WellFormedVertex(coord: string) {
    coord == "pass" || (|coord| >= 1 && AllDecimalDigits(coord[1..]))
  }

  /** The row number of a vertex: the value of its digits (`+''` is 0). */
  function Row(coord: string): nat
    requires |coord| >= 1
  {
    DigitsValue(coord[1..], 10)
  }

  /** Position of the (upper-cased) column character in `GtpAlpha`, or -1. */
  function Column(coord: string): int
    requires |coord| >= 1
  {
    IndexOf(GtpAlpha(), ToUpperAscii(coord[0]))
  }

  /** The vertex names a point of the board: known column and `size - row` an SGF index. */
  predicate OnBoard(coord: string, size: int)
    requires |coord| >= 1
  {
    Column(coord) >= 0 && 0 <= size - Row(coord) < |SgfAlpha()|
  }

  /**
   * `coord2point(coord, size)`: the SGF point of a vertex on a board of the
   * given size, or the empty string for `pass` and for any vertex off the
   * board (unknown column letter, row above `size`, or line beyond `z`/`Z`).
   */
  function Coord2Point(coord: string, size: int): (point: string)
    requires WellFormedVertex(coord)
    ensures point == "" || (|point| == 2 && IsSgfLetter(point[0]) && IsSgfLetter(point[1]))
  {
    if coord == "pass" then ""
    else
      var x := Column(coord);
      var y := size - Row(coord);
      if x < 0 || y < 0 || x >= |SgfAlpha()| || y >= |SgfAlpha()| then ""
      else [SgfAlpha()[x], SgfAlpha()[y]]
  }

  /** A point is produced exactly for an on-board vertex other than `pass`, and it is built from the column index and `size - row`. */
  lemma Coord2PointCharacterised(coord: string, size: int)
    requires WellFormedVertex(coord)
    ensures Coord2Point(coord, size) != "" <==> coord != "pass" && OnBoard(coord, size)
    ensures Coord2Point(coord, size) != "" ==>
              Coord2Point(coord, size) == [SgfAlpha()[Column(coord)], SgfAlpha()[size - Row(coord)]]
  {
    if coord != "pass" {
      assert Column(coord) < |GtpAlpha()| < |SgfAlpha()|;
    }
  }

  /** `pass` has no point. */
  lemma PassHasNoPoint(size: int)
    ensures Coord2Point("pass", size) == ""
  {
  }

  /** The column letter is read without regard to case. */
  lemma ColumnCaseInsensitive(coord: string, size: int)
    requires WellFormedVertex(coord) && coord != "pass"
    requires 'a' <= coord[0] <= 'z'
    ensures var upper := [ToUpperAscii(coord[0])] + coord[1..];
            WellFormedVertex(upper) && Coord2Point(coord, size) == Coord2Point(upper, size)
  {
    var upper := [ToUpperAscii(coord[0])] + coord[1..];
    assert upper[1..] == coord[1..];
    assert upper != "pass" by { assert upper[0] != 'p'; }
  }

  /** `I` (in either case) and every character outside `GtpAlpha` give no point. */
  lemma UnknownColumnHasNoPoint(coord: string, size: int)
    requires WellFormedVertex(coord) && coord != "pass"
    requires !IsGtpLetter(ToUpperAscii(coord[0]))
    ensures Coord2Point(coord, size) == ""
  {
  }

  /** A row above the board size gives no point. */
  lemma RowAboveBoardHasNoPoint(coord: string, size: int)
    requires WellFormedVertex(coord) && coord != "pass"
    requires Row(coord) > size
    ensures Coord2Point(coord, size) == ""
  {
  }

  /** Where in `SgfAlpha` a point letter stands. */
  function SgfIndex(c: char): int {
    IndexOf(SgfAlpha(), c)
  }

  /**
   * The inverse direction: a produced point determines the column letter
   * (upper case) and the row number of the vertex it came from.
   */
  lemma {:induction false} PointDeterminesVertex(coord: string, size: int)
    requires WellFormedVertex(coord)
    requires Coord2Point(coord, size) != ""
    ensures var p := Coord2Point(coord, size);
            && GtpAlpha()[SgfIndex(p[0])] == ToUpperAscii(coord[0])
            && size - SgfIndex(p[1]) == Row(coord)
  {
    Coord2PointCharacterised(coord, size);
    var x, y := Column(coord), size - Row(coord);
    SgfLetterIndex(x);
    SgfLetterIndex(y);
  }

  /** The point of an on-board vertex, from its column index and row. */
  lemma PointFromIndices(coord: string, size: int, x: int, y: int)
    requires WellFormedVertex(coord) && coord != "pass"
    requires Column(coord) == x && size - Row(coord) == y
    requires 0 <= x < 25 && 0 <= y < 26
    ensures Coord2Point(coord, size) == [SgfLetter(x), SgfLetter(y)]
  {
  }

  /** Worked values on the 19x19 board: the corners A19 and T1, and the star point Q16. */
  lemma Board19Corners()
    ensures Coord2Point("A19", 19) == "aa"
    ensures Coord2Point("T1", 19) == "ss"
  {
    TopLeftCorner();
    BottomRightCorner();
  }

  /** A column character and two digits: the row is their two-digit value. */
  lemma TwoDigitRow(coord: string)
    requires |coord| == 3 && IsDecimalDigit(coord[1]) && IsDecimalDigit(coord[2])
    ensures WellFormedVertex(coord)
    ensures Row(coord) == DigitValue(coord[1]) * 10 + DigitValue(coord[2])
  {
    var z := coord[1..];
    var w := z[..1];
    assert w[..0] == [] && w[0] == coord[1];
    assert DigitsValue(w, 10) == DigitValue(coord[1]);
    assert z[..|z| - 1] == w && z[|z| - 1] == coord[2];
  }

  lemma TopLeftCorner()
    ensures Coord2Point("A19", 19) == "aa"
  {
    TwoDigitRow("A19");
    assert Column("A19") == 0 by { GtpColumnIndex('A'); }
    PointFromIndices("A19", 19, 0, 0);
  }

  lemma BottomRightCorner()
    ensures Coord2Point("T1", 19) == "ss"
  {
    assert WellFormedVertex("T1") && Row("T1") == 1 by {
      assert "T1"[1..] == "1" && "1"[..0] == "";
    }
    assert Column("T1") == 18 by { GtpColumnIndex('T'); }
    PointFromIndices("T1", 19, 18, 18);
  }

  lemma Board19StarPoint()
    ensures Coord2Point("Q16", 19) == "pd"
    ensures Coord2Point("q16", 19) == "pd"
  {
    UpperStarPoint();
    LowerStarPoint();
  }

  lemma UpperStarPoint()
    ensures Coord2Point("Q16", 19) == "pd"
  {
    TwoDigitRow("Q16");
    assert Column("Q16") == 15 by { GtpColumnIndex('Q'); }
    PointFromIndices("Q16", 19, 15, 3);
  }

  lemma LowerStarPoint()
    ensures Coord2Point("q16", 19) == "pd"
  {
    TwoDigitRow("q16");
    assert Column("q16") == 15 by {
      assert ToUpperAscii('q') == 'Q';
      GtpColumnIndex('Q');
    }
    PointFromIndices("q16", 19, 15, 3);
  }
}
