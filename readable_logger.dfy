/**
 * `ReadableLogger`: records the lines a `LineReadable` emits, with carriage
 * returns removed, between a `start` and a `stop`.
 */
module Logging {
  import opened JsText
  import opened LineSplitting

  class ReadableLogger {
    /** Whether incoming lines are recorded. */
    var enabled: bool
    /** What has been recorded since the last `start`. */
    var log: string
    /** The chunks received while enabled since the last `start`. */
    ghost var captured: seq<string>

    /** The log is the captured chunks, in order, without carriage returns. */
    ghost predicate Valid()
      reads this
    {
      log == StripCR(Flatten(captured))
    }

    /** A new logger: disabled, empty log. */
    constructor()
      ensures Valid() && !enabled && log == "" && captured == []
    {
      enabled := false;
      log := "";
      captured := [];
    }

    /** The `data` handler: ignored when disabled, otherwise appends the chunk without carriage returns. */
    method OnData(chunk: string)
      requires Valid()
      modifies this
      ensures Valid()
      ensures enabled == old(enabled)
      ensures log == if old(enabled) then old(log) + StripCR(chunk) else old(log)
      ensures captured == if old(enabled) then old(captured) + [chunk] else old(captured)
    {
      if !enabled {
        return;
      }
      FlattenAppend(captured, [chunk]);
      StripCRAppend(Flatten(captured), chunk);
      assert Flatten([chunk]) == chunk by { assert [chunk][1..] == []; }
      log := log + StripCR(chunk);
      captured := captured + [chunk];
    }

    /** `start()`: enables recording and clears the log. */
    method Start()
      modifies this
      ensures Valid() && enabled && log == "" && captured == []
    {
      enabled := true;
      log := "";
      captured := [];
    }

    /** `stop()`: disables recording and keeps what was recorded. */
    method Stop()
      requires Valid()
      modifies this
      ensures Valid() && !enabled && log == old(log) && captured == old(captured)
    {
      enabled := false;
    }
  }

  /**
   * A logger enabled over a freshly framed stream records exactly the
   * received text up to and including its last newline: the lines, joined,
   * with nothing altered (the framer has already removed carriage returns).
   */
  lemma {:induction false} LogOfFramedText(received: string, nl: char)
    ensures var text := StripCR(received);
            StripCR(Flatten(CompleteLines(text, nl))) + Remainder(text, nl) == text
  {
    var text := StripCR(received);
    LinesReassemble(text, nl);
    var prefix := Flatten(CompleteLines(text, nl));
    assert prefix == text[..|prefix|];
    assert '\r' !in prefix by {
      forall i | 0 <= i < |prefix| ensures prefix[i] != '\r' {
        assert prefix[i] == text[i];
      }
    }
  }
}
