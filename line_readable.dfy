/**
 * Line framing of a byte stream (`LineReadable`, and the identical
 * `LineReader`): every incoming chunk has its carriage returns removed and is
 * appended to a buffer; everything up to the last newline of the buffer is
 * split into lines, each emitted with its newline, and the text after that
 * newline stays buffered for the next chunk.
 */
module LineSplitting {
  import opened JsText

  /** One emitted line: text without `nl`, then `nl`. */
  predicate IsLine(l: string, nl: char) {
    |l| > 0 && l[|l| - 1] == nl && nl !in l[..|l| - 1]
  }

  predicate AllLines(ls: seq<string>, nl: char) {
    forall i :: 0 <= i < |ls| ==> IsLine(ls[i], nl)
  }

  /** The split pieces with the newline put back on each (`line + newline`). */
  function Terminated(pieces: seq<string>, nl: char): (lines: seq<string>)
    ensures |lines| == |pieces|
  {
    if pieces == [] then [] else [pieces[0] + [nl]] + Terminated(pieces[1..], nl)
  }

  /**
   * The lines emitted for the buffered text `text`: nothing when it holds no
   * newline, otherwise the pieces of the text before its last newline.
   */
  function CompleteLines(text: string, nl: char): seq<string> {
    var k := LastIndexOf(text, nl);
    if k < 0 then [] else Terminated(Split(text[..k], [nl]), nl)
  }

  /** What stays buffered: the text after the last newline, or all of it. */
  function Remainder(text: string, nl: char): (rest: string)
    ensures nl !in rest
    ensures |rest| <= |text| && rest == text[|text| - |rest|..]
    ensures nl !in text ==> rest == text
  {
    var k := LastIndexOf(text, nl);
    if k < 0 then text else text[k + 1..]
  }

  lemma {:induction false} FlattenTerminated(parts: seq<string>, nl: char)
    requires |parts| > 0
    ensures Flatten(Terminated(parts, nl)) == Join(parts, [nl]) + [nl]
    decreases |parts|
  {
    if |parts| > 1 {
      FlattenTerminated(parts[1..], nl);
    }
  }

  lemma {:induction false} TerminatedLines(parts: seq<string>, nl: char)
    requires forall i :: 0 <= i < |parts| ==> nl !in parts[i]
    ensures AllLines(Terminated(parts, nl), nl)
    decreases |parts|
  {
    if parts != [] {
      TerminatedLines(parts[1..], nl);
      var l := parts[0] + [nl];
      assert l[..|l| - 1] == parts[0];
      assert IsLine(l, nl);
      var ls := Terminated(parts, nl);
      assert ls == [l] + Terminated(parts[1..], nl);
      forall i | 0 <= i < |ls|
        ensures IsLine(ls[i], nl)
      {
        if i > 0 {
          assert ls[i] == Terminated(parts[1..], nl)[i - 1];
        }
      }
    }
  }

  /** The buffered text splits at its last newline. */
  lemma SplitAtLast(text: string, nl: char)
    requires LastIndexOf(text, nl) >= 0
    ensures var k := LastIndexOf(text, nl);
            text == text[..k] + [nl] + text[k + 1..]
  {
    var k := LastIndexOf(text, nl);
    assert text == text[..k] + text[k..];
    assert text[k..] == [nl] + text[k + 1..];
  }

  /** Emitted lines followed by the new buffer are exactly the buffered text: nothing is lost, duplicated or reordered. */
  lemma LinesReassemble(text: string, nl: char)
    ensures Flatten(CompleteLines(text, nl)) + Remainder(text, nl) == text
  {
    var k := LastIndexOf(text, nl);
    if k >= 0 {
      JoinSplit(text[..k], [nl]);
      FlattenTerminated(Split(text[..k], [nl]), nl);
      SplitAtLast(text, nl);
    }
  }

  /** Every emitted item is one line ending in the newline with no other newline inside it. */
  lemma LinesWellFormed(text: string, nl: char)
    ensures AllLines(CompleteLines(text, nl), nl)
  {
    var k := LastIndexOf(text, nl);
    if k >= 0 {
      SplitPiecesFree(text[..k], nl);
      TerminatedLines(Split(text[..k], [nl]), nl);
    }
  }

  /** One line is emitted per newline in the buffered text. */
  lemma LineCount(text: string, nl: char)
    ensures |CompleteLines(text, nl)| == CountChar(text, nl)
  {
    var k := LastIndexOf(text, nl);
    if k < 0 {
      CountCharAbsent(text, nl);
    } else {
      SplitPieceCount(text[..k], nl);
      SplitAtLast(text, nl);
      CountCharAppend(text[..k] + [nl], text[k + 1..], nl);
      CountCharAppend(text[..k], [nl], nl);
      CountCharAbsent(text[k + 1..], nl);
    }
  }

  /** The first newline of a text that begins with a line is that line's last character. */
  lemma LineEndsAtFirstNewline(l: string, rest: string, nl: char)
    requires IsLine(l, nl)
    ensures IndexOf(l + rest, nl) == |l| - 1
  {
    var s := l + rest;
    assert s[|l| - 1] == nl;
    assert s[..|l| - 1] == l[..|l| - 1];
  }

  /** Text that begins with at least one line holds a newline. */
  lemma NewlineInLines(ls: seq<string>, rest: string, nl: char)
    requires AllLines(ls, nl) && ls != []
    ensures nl in Flatten(ls) + rest
  {
    var l := ls[0];
    assert IsLine(l, nl);
    assert Flatten(ls) + rest == l + (Flatten(ls[1..]) + rest);
    assert (l + (Flatten(ls[1..]) + rest))[|l| - 1] == nl;
  }

  /** A text has only one way of being read as lines followed by a newline-free rest. */
  lemma {:induction false} DecompositionUnique(a: seq<string>, ra: string, b: seq<string>, rb: string, nl: char)
    requires AllLines(a, nl) && AllLines(b, nl) && nl !in ra && nl !in rb
    requires Flatten(a) + ra == Flatten(b) + rb
    ensures a == b && ra == rb
    decreases |a|
  {
    if a == [] && b == [] {
      assert Flatten(a) + ra == ra && Flatten(b) + rb == rb;
    } else if a == [] {
      assert Flatten(a) + ra == ra;
      NewlineInLines(b, rb, nl);
      assert false;
    } else if b == [] {
      assert Flatten(b) + rb == rb;
      NewlineInLines(a, ra, nl);
      assert false;
    } else {
      var s := Flatten(a) + ra;
      assert s == a[0] + (Flatten(a[1..]) + ra);
      assert s == b[0] + (Flatten(b[1..]) + rb);
      LineEndsAtFirstNewline(a[0], Flatten(a[1..]) + ra, nl);
      LineEndsAtFirstNewline(b[0], Flatten(b[1..]) + rb, nl);
      assert a[0] == s[..|a[0]|] == b[0];
      assert AllLines(a[1..], nl) by {
        forall i | 0 <= i < |a| - 1 ensures IsLine(a[1..][i], nl) { assert a[1..][i] == a[i + 1]; }
      }
      assert AllLines(b[1..], nl) by {
        forall i | 0 <= i < |b| - 1 ensures IsLine(b[1..][i], nl) { assert b[1..][i] == b[i + 1]; }
      }
      DecompositionUnique(a[1..], ra, b[1..], rb, nl);
      assert a == [a[0]] + a[1..];
      assert b == [b[0]] + b[1..];
    }
  }

  /**
   * The emitted lines and the new buffer are characterised by the text
   * alone: they are the one way of writing it as whole lines followed by a
   * newline-free rest.
   */
  lemma CompleteLinesCharacterised(text: string, nl: char, lines: seq<string>, rest: string)
    requires AllLines(lines, nl) && nl !in rest
    ensures Flatten(lines) + rest == text <==> lines == CompleteLines(text, nl) && rest == Remainder(text, nl)
  {
    LinesReassemble(text, nl);
    LinesWellFormed(text, nl);
    if Flatten(lines) + rest == text {
      DecompositionUnique(lines, rest, CompleteLines(text, nl), Remainder(text, nl), nl);
    }
  }

  lemma AllLinesAppend(a: seq<string>, b: seq<string>, nl: char)
    requires AllLines(a, nl) && AllLines(b, nl)
    ensures AllLines(a + b, nl)
  {
    forall i | 0 <= i < |a + b| ensures IsLine((a + b)[i], nl) {
      if i >= |a| { assert (a + b)[i] == b[i - |a|]; }
    }
  }

  /** Lines of a first text followed by those of its leftover plus more text are lines of the whole. */
  lemma Glue(l1: seq<string>, r1: string, l2: seq<string>, r2: string, t1: string, t2: string, nl: char)
    requires Flatten(l1) + r1 == t1 && Flatten(l2) + r2 == r1 + t2
    requires AllLines(l1, nl) && AllLines(l2, nl)
    ensures Flatten(l1 + l2) + r2 == t1 + t2 && AllLines(l1 + l2, nl)
  {
    FlattenAppend(l1, l2);
    AllLinesAppend(l1, l2, nl);
    calc {
      Flatten(l1 + l2) + r2;
      Flatten(l1) + (Flatten(l2) + r2);
      Flatten(l1) + (r1 + t2);
      (Flatten(l1) + r1) + t2;
    }
  }

  /**
   * How the text is cut into chunks does not matter: framing `t1` and then
   * the leftover followed by `t2` emits the same lines and leaves the same
   * buffer as framing `t1 + t2` at once.
   */
  lemma ChunkingInvariant(t1: string, t2: string, whole: string, nl: char)
    requires whole == t1 + t2
    ensures CompleteLines(t1, nl) + CompleteLines(Remainder(t1, nl) + t2, nl) == CompleteLines(whole, nl)
    ensures Remainder(Remainder(t1, nl) + t2, nl) == Remainder(whole, nl)
  {
    var l1, r1 := CompleteLines(t1, nl), Remainder(t1, nl);
    var l2, r2 := CompleteLines(r1 + t2, nl), Remainder(r1 + t2, nl);
    LinesReassemble(t1, nl);
    LinesReassemble(r1 + t2, nl);
    LinesWellFormed(t1, nl);
    LinesWellFormed(r1 + t2, nl);
    Glue(l1, r1, l2, r2, t1, t2, nl);
    CompleteLinesCharacterised(whole, nl, l1 + l2, r2);
  }

  /** A line framer over one stream: `LineReadable` and `LineReader`. */
  class LineReadable {
    /** Received text after the last newline seen so far. */
    var buffer: string
    /** The line terminator, `\n` unless configured. */
    const newline: char

    /** A new framer: empty buffer, the given terminator. */
    constructor(newline: char)
      ensures buffer == "" && this.newline == newline
    {
      this.buffer := "";
      this.newline := newline;
    }

    /**
     * The `data` handler: appends the chunk without carriage returns and
     * emits, in order, each complete line of the buffer.
     */
    method OnData(chunk: string) returns (emitted: seq<string>)
      modifies this
      ensures emitted == CompleteLines(old(buffer) + StripCR(chunk), newline)
      ensures buffer == Remainder(old(buffer) + StripCR(chunk), newline)
    {
      buffer := buffer + StripCR(chunk);
      var newlineIndex := LastIndexOf(buffer, newline);
      if newlineIndex < 0 {
        return [];
      }
      var lines := Split(buffer[..newlineIndex], [newline]);
      emitted := [];
      var i := 0;
      while i < |lines|
        invariant 0 <= i <= |lines|
        invariant emitted + Terminated(lines[i..], newline) == Terminated(lines, newline)
      {
        assert lines[i..] == [lines[i]] + lines[i + 1..];
        emitted := emitted + [lines[i] + [newline]];
        i := i + 1;
      }
      buffer := buffer[newlineIndex + 1..];
    }
  }

  /**
   * Two chunks delivered one after the other emit the same lines and leave
   * the same buffer as their concatenation delivered at once.
   */
  lemma OnDataChunking(buffer: string, c1: string, c2: string, nl: char)
    ensures var t1 := buffer + StripCR(c1);
            CompleteLines(t1, nl) + CompleteLines(Remainder(t1, nl) + StripCR(c2), nl)
              == CompleteLines(buffer + StripCR(c1 + c2), nl)
    ensures var t1 := buffer + StripCR(c1);
            Remainder(Remainder(t1, nl) + StripCR(c2), nl) == Remainder(buffer + StripCR(c1 + c2), nl)
  {
    var t1 := buffer + StripCR(c1);
    var t2 := StripCR(c2);
    var whole := buffer + StripCR(c1 + c2);
    assert whole == t1 + t2 by {
      StripCRAppend(c1, c2);
    }
    ChunkingInvariant(t1, t2, whole, nl);
  }
}
