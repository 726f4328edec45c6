/** Four incremental splitters of the same stream, each proved to depend on
    the bytes alone and not on how they were cut into chunks. */
module SseReaders {
  import opened Basics
  import opened Lines

  const DATA: Bytes := "data:"
  const DONE: Bytes := "[DONE]"

  // ----------------------------------------------- one line at a time

  /** The payload of a line, if it has one; `loads` is JSON parsing, None for
      anything but an object. */
  function Payload<J>(loads: Bytes -> Option<J>, line: Bytes): Option<J> {
    var stripped := Strip(line);
    if !StartsWith(stripped, DATA) then None
    else
      var data := Strip(stripped[|DATA|..]);
      if data == [] || data == DONE then None else loads(data)
  }

  function Payloads<J>(loads: Bytes -> Option<J>, lines: seq<Bytes>): seq<J> {
    if lines == [] then []
    else
      var rest := Payloads(loads, lines[..|lines| - 1]);
      match Payload(loads, lines[|lines| - 1])
      case Some(j) => rest + [j]
      case None => rest
  }

  /** Only `data:` lines are rewritten. */
  function Rewritten(mask: Bytes -> Bytes, line: Bytes): Bytes { if StartsWith(line, DATA) then mask(line) else line }

  function RewrittenAll(mask: Bytes -> Bytes, lines: seq<Bytes>): seq<Bytes> {
    if lines == [] then [] else RewrittenAll(mask, lines[..|lines| - 1]) + [Rewritten(mask, lines[|lines| - 1])]
  }

  /** The whole masked stream. */
  function Masked(mask: Bytes -> Bytes, s: Bytes): Bytes {
    Join(RewrittenAll(mask, Terminated(s))) + if Tail(s) == [] then [] else Rewritten(mask, Tail(s))
  }

  function DropCr(line: Bytes): Bytes { if line != [] && line[|line| - 1] == CR then line[..|line| - 1] else line }

  function DropCrs(lines: seq<Bytes>): seq<Bytes> {
    if lines == [] then [] else DropCrs(lines[..|lines| - 1]) + [DropCr(lines[|lines| - 1])]
  }

  predicate DataLine(line: Bytes) { StartsWith(Strip(line), DATA) }

  predicate DoneLine(line: Bytes) { DataLine(line) && Strip(Strip(line)[|DATA|..]) == DONE }

  const FINISH: Bytes := "\"finish_reason\":\""
  const FINISH_SPACED: Bytes := "\"finish_reason\": \""

  predicate FinishLine(line: Bytes) {
    DataLine(line) && !DoneLine(line) && (Contains(Strip(line), FINISH) || Contains(Strip(line), FINISH_SPACED))
  }

  predicate AnyFinish(lines: seq<Bytes>) { lines != [] && (FinishLine(lines[|lines| - 1]) || AnyFinish(lines[..|lines| - 1])) }

  predicate AnyDone(lines: seq<Bytes>) { lines != [] && (DoneLine(lines[|lines| - 1]) || AnyDone(lines[..|lines| - 1])) }

  // ------------------------------------------------------ the loops' step

  /** `rest` is what remains of `total` after its first lines `done`. */
  ghost predicate Consumed(total: Bytes, done: seq<Bytes>, rest: Bytes) {
    Terminated(total) == done + Terminated(rest) && Tail(total) == Tail(rest)
  }

  lemma {:induction false} FeedChunk(before: Bytes, buffer: Bytes, chunk: Bytes)
    requires Consumed(before, Terminated(before), buffer) && NlFree(buffer)
    ensures Consumed(before + chunk, Terminated(before), buffer + chunk)
  {
    NoLine(buffer);
    Concat(before, chunk);
  }

  lemma {:induction false} TakeLine(total: Bytes, done: seq<Bytes>, rest: Bytes)
    requires Consumed(total, done, rest) && !NlFree(rest)
    ensures Consumed(total, done + [SplitOnce(rest).0], SplitOnce(rest).1)
  {
    FirstLine(SplitOnce(rest).0, SplitOnce(rest).1);
  }

  lemma {:induction false} ChunkDone(total: Bytes, done: seq<Bytes>, rest: Bytes)
    requires Consumed(total, done, rest) && NlFree(rest)
    ensures done == Terminated(total) && rest == Tail(total)
  {
    NoLine(rest);
  }

  /** Where an outer loop stands after `k` chunks. */
  ghost predicate AfterChunks(chunks: seq<Bytes>, k: nat, done: seq<Bytes>, buffer: Bytes)
    requires k <= |chunks|
  {
    NlFree(buffer) && done == Terminated(Flatten(chunks[..k])) && buffer == Tail(Flatten(chunks[..k]))
  }

  lemma {:induction false} NextChunk(chunks: seq<Bytes>, k: nat, done: seq<Bytes>, buffer: Bytes)
    requires k < |chunks| && AfterChunks(chunks, k, done, buffer)
    ensures Consumed(Flatten(chunks[..k + 1]), done, buffer + chunks[k])
  {
    FlattenSnoc(chunks, k);
    NoLine(buffer);
    FeedChunk(Flatten(chunks[..k]), buffer, chunks[k]);
  }

  lemma {:induction false} AfterAllChunks(chunks: seq<Bytes>, done: seq<Bytes>, buffer: Bytes)
    requires AfterChunks(chunks, |chunks|, done, buffer)
    ensures done == Terminated(Flatten(chunks)) && buffer == Tail(Flatten(chunks))
  {
    assert chunks[..|chunks|] == chunks;
  }

  // ---------------------------------------------------------- the four loops

  lemma {:induction false} PayloadsSnoc<J>(loads: Bytes -> Option<J>, lines: seq<Bytes>, line: Bytes)
    ensures Payloads(loads, lines + [line]) ==
      Payloads(loads, lines) + if Payload(loads, line).Some? then [Payload(loads, line).value] else []
  {
    assert (lines + [line])[..|lines|] == lines;
  }

  method ParseSseChunks<J>(chunks: seq<Bytes>, loads: Bytes -> Option<J>) returns (out: seq<J>)
    ensures out == Payloads(loads, AllLines(Flatten(chunks)))
  {
    var buffer: Bytes := [];
    out := [];
    ghost var done: seq<Bytes> := [];
    for k := 0 to |chunks|
      invariant AfterChunks(chunks, k, done, buffer) && out == Payloads(loads, done)
    {
      NextChunk(chunks, k, done, buffer);
      buffer := buffer + chunks[k];
      while NL in buffer
        invariant Consumed(Flatten(chunks[..k + 1]), done, buffer) && out == Payloads(loads, done)
        decreases |buffer|
      {
        TakeLine(Flatten(chunks[..k + 1]), done, buffer);
        var (line, rest) := SplitOnce(buffer);
        PayloadsSnoc(loads, done, line);
        done := done + [line];
        buffer := rest;
        var data := Payload(loads, line);
        if data.Some? { out := out + [data.value]; }
      }
      ChunkDone(Flatten(chunks[..k + 1]), done, buffer);
    }
    AfterAllChunks(chunks, done, buffer);
    PayloadsSnoc(loads, done, buffer);
    assert done + [] == done;
    if buffer != [] {
      var data := Payload(loads, buffer);
      if data.Some? { out := out + [data.value]; }
    }
  }

  lemma {:induction false} RewrittenSnoc(mask: Bytes -> Bytes, lines: seq<Bytes>, line: Bytes)
    ensures RewrittenAll(mask, lines + [line]) == RewrittenAll(mask, lines) + [Rewritten(mask, line)]
    ensures Join(RewrittenAll(mask, lines + [line])) == Join(RewrittenAll(mask, lines)) + Rewritten(mask, line) + [NL]
  {
    assert (lines + [line])[..|lines|] == lines;
    var all := RewrittenAll(mask, lines);
    assert (all + [Rewritten(mask, line)])[..|all|] == all;
  }

  method MaskModelField(chunks: seq<Bytes>, mask: Bytes -> Bytes) returns (out: Bytes)
    ensures out == Masked(mask, Flatten(chunks))
  {
    var buffer: Bytes := [];
    out := [];
    ghost var done: seq<Bytes> := [];
    for k := 0 to |chunks|
      invariant AfterChunks(chunks, k, done, buffer) && out == Join(RewrittenAll(mask, done))
    {
      NextChunk(chunks, k, done, buffer);
      if chunks[k] == [] {
        assert buffer + chunks[k] == buffer;
        ChunkDone(Flatten(chunks[..k + 1]), done, buffer);
        continue;
      }
      buffer := buffer + chunks[k];
      while NL in buffer
        invariant Consumed(Flatten(chunks[..k + 1]), done, buffer) && out == Join(RewrittenAll(mask, done))
        decreases |buffer|
      {
        TakeLine(Flatten(chunks[..k + 1]), done, buffer);
        var (line, rest) := SplitOnce(buffer);
        RewrittenSnoc(mask, done, line);
        done := done + [line];
        buffer := rest;
        out := out + Rewritten(mask, line) + [NL];
      }
      ChunkDone(Flatten(chunks[..k + 1]), done, buffer);
    }
    AfterAllChunks(chunks, done, buffer);
    if buffer != [] { out := out + Rewritten(mask, buffer); }
  }

  lemma {:induction false} DropCrsSnoc(lines: seq<Bytes>, line: Bytes)
    ensures DropCrs(lines + [line]) == DropCrs(lines) + [DropCr(line)]
  {
    assert (lines + [line])[..|lines|] == lines;
  }

  method AiterLines(chunks: seq<Bytes>) returns (out: seq<Bytes>)
    ensures out == DropCrs(AllLines(Flatten(chunks)))
  {
    var buf: Bytes := [];
    out := [];
    ghost var done: seq<Bytes> := [];
    for k := 0 to |chunks|
      invariant AfterChunks(chunks, k, done, buf) && out == DropCrs(done)
    {
      NextChunk(chunks, k, done, buf);
      buf := buf + chunks[k];
      while NL in buf
        invariant Consumed(Flatten(chunks[..k + 1]), done, buf) && out == DropCrs(done)
        decreases |buf|
      {
        TakeLine(Flatten(chunks[..k + 1]), done, buf);
        var (line, rest) := SplitOnce(buf);
        DropCrsSnoc(done, line);
        done := done + [line];
        buf := rest;
        if line != [] && line[|line| - 1] == CR { line := line[..|line| - 1]; }
        out := out + [line];
      }
      ChunkDone(Flatten(chunks[..k + 1]), done, buf);
    }
    AfterAllChunks(chunks, done, buf);
    DropCrsSnoc(done, buf);
    assert done + [] == done;
    if buf != [] {
      if buf[|buf| - 1] == CR { buf := buf[..|buf| - 1]; }
      out := out + [buf];
    }
  }

  // ------------------------------------------------------ what a line says

  /** `data:`, blanks, a text and blanks: the payload is what the text parses
      to, unless the text is the end mark. */
  lemma {:induction false} PayloadMeans<J>(loads: Bytes -> Option<J>, p: Bytes, q: Bytes, x: Bytes, r: Bytes)
    requires Blank(p) && Blank(q) && Blank(r) && x != [] && !White(x[0]) && !White(x[|x| - 1])
    ensures var line := p + ("data:" + q + x) + r;
      && Payload(loads, line) == (if x == "[DONE]" then None else loads(x))
      && (DoneLine(line) <==> x == "[DONE]")
      && (FinishLine(line) <==> x != "[DONE]" && (Contains("data:" + q + x, FINISH) || Contains("data:" + q + x, FINISH_SPACED)))
  {
    var core: Bytes := DATA + q + x;
    assert core[|core| - 1] == x[|x| - 1] && core[0] == 'd';
    StripPadded(p, core, r);
    assert core[..5] == DATA && core[5..] == q + x + [];
    StripPadded(q, x, []);
  }

  /** Any other text, or none, carries nothing and counts for nothing. */
  lemma {:induction false} OtherLinesMeanNothing<J>(loads: Bytes -> Option<J>, p: Bytes, x: Bytes, r: Bytes)
    requires Blank(p) && Blank(r) && x != [] && !White(x[0]) && !White(x[|x| - 1]) && !StartsWith(x, "data:")
    ensures Payload(loads, p + x + r) == None && !DoneLine(p + x + r) && !FinishLine(p + x + r)
  {
    StripPadded(p, x, r);
  }

  /** The payloads of a stream are those of its lines, in order. */
  lemma {:induction false} PayloadsInOrder<J>(loads: Bytes -> Option<J>, a: seq<Bytes>, line: Bytes, b: seq<Bytes>)
    ensures Payloads(loads, a + [line] + b) ==
      Payloads(loads, a) + (if Payload(loads, line).Some? then [Payload(loads, line).value] else []) + Payloads(loads, b)
  {
    if b == [] {
      assert a + [line] + b == a + [line];
      PayloadsSnoc(loads, a, line);
    } else {
      var front, last := b[..|b| - 1], b[|b| - 1];
      PayloadsInOrder(loads, a, line, front);
      assert b == front + [last] && a + [line] + b == a + [line] + front + [last];
      PayloadsSnoc(loads, a + [line] + front, last);
      PayloadsSnoc(loads, front, last);
    }
  }

  /** A stream holds a marker exactly when one of its lines does. */
  lemma {:induction false} FlagsExactly(lines: seq<Bytes>)
    ensures AnyFinish(lines) <==> exists k :: 0 <= k < |lines| && FinishLine(lines[k])
    ensures AnyDone(lines) <==> exists k :: 0 <= k < |lines| && DoneLine(lines[k])
  {
    if lines != [] {
      var n := |lines| - 1;
      FlagsExactly(lines[..n]);
      assert forall k :: 0 <= k < n ==> lines[..n][k] == lines[k];
    }
  }

  /** The decoded lines are the lines, each without one carriage return at its
      end. */
  lemma {:induction false} DroppedExactly(lines: seq<Bytes>, k: nat)
    requires k < |lines|
    ensures |DropCrs(lines)| == |lines|
    ensures var line, out := lines[k], DropCrs(lines)[k]; out == line || out + [CR] == line
    ensures var line, out := lines[k], DropCrs(lines)[k]; out == line <==> line == [] || line[|line| - 1] != CR
  {
    var n := |lines| - 1;
    if n > 0 { DroppedExactly(lines[..n], if k < n then k else 0); }
  }

  // ------------------------------------------------- how the four relate

  lemma {:induction false} StripIgnoresCr(line: Bytes)
    ensures Strip(DropCr(line)) == Strip(line)
  {
    if line != [] && line[|line| - 1] == CR {
      StripIgnoresTrailing(line[..|line| - 1], CR);
      assert line == line[..|line| - 1] + [CR];
    }
  }

  /** Reading the lines of the subprocess transport or the raw bytes gives the
      same payloads: carriage returns do not matter. */
  lemma {:induction false} TransportsAgree<J>(loads: Bytes -> Option<J>, lines: seq<Bytes>)
    ensures Payloads(loads, DropCrs(lines)) == Payloads(loads, lines)
  {
    if lines != [] {
      var front, last := lines[..|lines| - 1], lines[|lines| - 1];
      TransportsAgree(loads, front);
      StripIgnoresCr(last);
      PayloadsSnoc(loads, DropCrs(front), DropCr(last));
      PayloadsSnoc(loads, front, last);
      assert lines == front + [last];
    }
  }

  lemma {:induction false} RewrittenFacts(mask: Bytes -> Bytes, lines: seq<Bytes>)
    requires forall line: Bytes :: NlFree(line) ==> NlFree(mask(line))
    requires forall k :: 0 <= k < |lines| ==> NlFree(lines[k])
    ensures var r := RewrittenAll(mask, lines);
      && |r| == |lines| && forall k :: 0 <= k < |lines| ==> r[k] == Rewritten(mask, lines[k]) && NlFree(r[k])
  {
    if lines != [] { RewrittenFacts(mask, lines[..|lines| - 1]); }
  }

  /** Masking maps lines to lines: the client sees as many lines as upstream
      sent, the masked form of each that starts with `data:` and every other
      exactly as it was; the unfinished one likewise. */
  lemma {:induction false} MaskingKeepsLines(mask: Bytes -> Bytes, s: Bytes)
    requires forall line: Bytes :: NlFree(line) ==> NlFree(mask(line))
    ensures var before, after := Terminated(s), Terminated(Masked(mask, s));
      && |after| == |before|
      && forall k :: 0 <= k < |before| ==> after[k] == if StartsWith(before[k], "data:") then mask(before[k]) else before[k]
    ensures Tail(Masked(mask, s)) == if StartsWith(Tail(s), "data:") then mask(Tail(s)) else Tail(s)
  {
    SplitIsInverse(s);
    RewrittenFacts(mask, Terminated(s));
    SplitIsUnique(RewrittenAll(mask, Terminated(s)), if Tail(s) == [] then [] else Rewritten(mask, Tail(s)));
  }

  /** What the mask takes out of every data line is in no data line the client
      reads. */
  lemma {:induction false} MaskedIsGone(mask: Bytes -> Bytes, s: Bytes, secret: Bytes, line: Bytes)
    requires forall l: Bytes :: NlFree(l) ==> NlFree(mask(l)) && !Contains(mask(l), secret)
    requires line in AllLines(Masked(mask, s)) && StartsWith(line, "data:")
    ensures !Contains(line, secret)
  {
    MaskingKeepsLines(mask, s);
    LinesAreFree(s);
    var after := Terminated(Masked(mask, s));
    if line in after {
      var k :| 0 <= k < |after| && after[k] == line;
      assert NlFree(Terminated(s)[k]);
    }
  }

  lemma {:induction false} NothingRewritten(mask: Bytes -> Bytes, lines: seq<Bytes>)
    requires forall line: Bytes :: mask(line) == line
    ensures RewrittenAll(mask, lines) == lines
  {
    if lines != [] {
      NothingRewritten(mask, lines[..|lines| - 1]);
      assert lines == lines[..|lines| - 1] + [lines[|lines| - 1]];
    }
  }

  /** A mask with nothing to hide passes the bytes through untouched. */
  lemma {:induction false} NothingToMask(mask: Bytes -> Bytes, s: Bytes)
    requires forall line: Bytes :: mask(line) == line
    ensures Masked(mask, s) == s
  {
    SplitIsInverse(s);
    NothingRewritten(mask, Terminated(s));
  }

  lemma {:induction false} FlagsAppend(a: seq<Bytes>, b: seq<Bytes>)
    ensures AnyFinish(a + b) <==> AnyFinish(a) || AnyFinish(b)
    ensures AnyDone(a + b) <==> AnyDone(a) || AnyDone(b)
  {
    if b == [] {
      assert a + b == a;
    } else {
      FlagsAppend(a, b[..|b| - 1]);
      assert (a + b)[..|a + b| - 1] == a + b[..|b| - 1];
    }
  }

  /** A line that ends the stream carries no payload for the parsers. */
  lemma {:induction false} DoneCarriesNothing<J>(loads: Bytes -> Option<J>, line: Bytes)
    requires DoneLine(line)
    ensures Payload(loads, line).None?
  {
  }
}
