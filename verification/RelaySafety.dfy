/** What a client of the streaming relay can rely on. */
module RelaySafety {
  import opened Basics
  import opened Lines
  import opened SseReaders
  import opened StreamRelays

  // ------------------------------------------------------------- the report

  /** Success is reported exactly when the body ended cleanly with a finish
      marker and the consumer took all of it, whether or not it stayed for the
      terminator. */
  lemma {:induction false} CompletedExactly(body: seq<Bytes>, ending: Ending, patience: nat, json: Bytes)
    ensures Relayed(body, ending, patience, json).reported.Completed? <==>
      patience > |body| && ending.Eof? && AnyFinish(AllLines(Flatten(body)))
  {
  }

  /** A hang-up is reported only before the end of the body was seen. */
  lemma {:induction false} DisconnectedExactly(body: seq<Bytes>, ending: Ending, patience: nat, json: Bytes)
    ensures Relayed(body, ending, patience, json).reported.Disconnected? <==> patience <= |body| || ending.OtherFault?
  {
  }

  /** The other endings, for a consumer that took the whole body: a clean end
      without a finish marker is a cut, silence a stall, a broken transport an
      interruption, and a fault of any other kind is raised. */
  lemma {:induction false} OtherEndingsExactly(body: seq<Bytes>, ending: Ending, patience: nat, json: Bytes)
    ensures var d := Relayed(body, ending, patience, json); var whole := patience > |body|;
      && (d.reported.Cut? <==> whole && ending.Eof? && !AnyFinish(AllLines(Flatten(body))))
      && (d.reported.Stalled? <==> whole && ending.NoBytes?)
      && (d.reported.Interrupted? <==> whole && ending.TransportError?)
      && (d.raised <==> whole && ending.OtherFault?)
  {
  }

  /** A consumer that leaves has got the first chunks of what one that stays
      gets. */
  lemma {:induction false} LeavingTakesPrefix(body: seq<Bytes>, ending: Ending, patience: nat, more: nat, json: Bytes)
    requires patience <= more
    ensures var all := Relayed(body, ending, more, json).chunks;
      Relayed(body, ending, patience, json).chunks == all[..if patience <= |all| then patience else |all|]
  {
  }

  // --------------------------------------------------------------- the bytes

  lemma {:induction false} FlattenAppend(a: seq<Bytes>, b: seq<Bytes>)
    ensures Flatten(a + b) == Flatten(a) + Flatten(b)
  {
    if b == [] {
      assert a + b == a;
    } else {
      var front, last := b[..|b| - 1], b[|b| - 1];
      FlattenAppend(a, front);
      assert b == front + [last] && a + b == (a + front) + [last];
      FlattenSnoc(a + front, last);
      Chained(Flatten(a), Flatten(front), last);
    }
  }

  lemma {:induction false} FlattenSnoc(a: seq<Bytes>, x: Bytes)
    ensures Flatten(a + [x]) == Flatten(a) + x
  {
    assert (a + [x])[..|a|] == a;
  }

  lemma {:induction false} Chained(a: Bytes, b: Bytes, c: Bytes)
    ensures (a + b) + c == a + (b + c)
  {
  }

  /** A consumer that stays gets every upstream byte in order, then the
      terminator. */
  lemma {:induction false} EveryByteInOrder(body: seq<Bytes>, ending: Ending, patience: nat, json: Bytes)
    requires patience > |body| + 1 && !ending.OtherFault?
    ensures Flatten(Relayed(body, ending, patience, json).chunks) ==
      Flatten(body) + Flatten(Terminator(AllLines(Flatten(body)), json))
  {
    var tail := Terminator(AllLines(Flatten(body)), json);
    assert tail[..|tail|] == tail;
    FlattenAppend(body, tail);
  }

  // ---------------------------------------------------- the terminator lines

  const DONE_TEXT: Bytes := "data: [DONE]"

  function FinishText(json: Bytes): Bytes { var head: Bytes := "data: "; head + json }

  /** Text glued to an unfinished line is read with it. */
  lemma {:induction false} GluedStrip(p: Bytes, x: Bytes)
    requires StartsWith(x, DATA) && !White(x[|x| - 1])
    ensures Strip(p + x) == LStrip(p) + x
  {
    LStripAppend(p, x);
  }

  lemma {:induction false} GluedIsData(p: Bytes, x: Bytes)
    requires StartsWith(x, DATA) && !White(x[|x| - 1])
    ensures DataLine(p + x) <==> LStrip(p) == [] || StartsWith(LStrip(p), DATA)
  {
    GluedStrip(p, x);
    var q := LStrip(p);
    assert x[0] == 'd';
    if q == [] {
      assert q + x == x;
    } else if |q| < |DATA| {
      assert (q + x)[|q|] == 'd';
      assert DATA[1] == 'a' && DATA[2] == 't' && DATA[3] == 'a' && DATA[4] == ':';
      assert (q + x)[..5][|q|] == 'd' && DATA[|q|] != 'd';
    } else {
      assert (q + x)[..5] == q[..5];
    }
  }

  /** Glued behind other data, the text is read as the end of its payload. */
  lemma {:induction false} GluedPayload(p: Bytes, x: Bytes)
    requires StartsWith(x, DATA) && !White(x[|x| - 1]) && StartsWith(LStrip(p), DATA)
    ensures StartsWith(Strip(p + x), DATA) && Strip(Strip(p + x)[|DATA|..]) == LStrip(LStrip(p)[|DATA|..]) + x
  {
    GluedStrip(p, x);
    var q := LStrip(p);
    assert (q + x)[5..] == q[5..] + x;
    GluedStrip(q[5..], x);
  }

  lemma {:induction false} PlainDone()
    ensures DoneLine(DONE_TEXT)
  {
    StripPlain(DONE_TEXT);
    var rest: Bytes := " [DONE]";
    assert DONE_TEXT[5..] == rest;
    assert rest[1..] == DONE;
    StripPlain(DONE);
    assert LStrip(rest) == LStrip(DONE) == DONE;
  }

  lemma {:induction false} PlainFinish(json: Bytes)
    requires TerminatorJson(json)
    ensures FinishLine(FinishText(json)) && Strip(FinishText(json)) == FinishText(json)
    ensures Strip(FinishText(json)[|DATA|..]) == json
  {
    var text := FinishText(json);
    StripPlain(text);
    var rest: Bytes := text[5..];
    assert rest[0] == ' ' && rest[1..] == json;
    StripPlain(json);
    assert LStrip(rest) == LStrip(json) == json;
    assert Strip(rest)[0] == '{' && DONE[0] == '[';
    var head: Bytes := "data: ";
    ContainsInWhole(head, json, [], FINISH);
    assert head + json + [] == text;
  }

  lemma {:induction false} GluedDone(p: Bytes)
    ensures DoneLine(p + DONE_TEXT) <==> Blank(p)
  {
    LStripFacts(p);
    GluedIsData(p, DONE_TEXT);
    GluedStrip(p, DONE_TEXT);
    PlainDone();
    StripPlain(DONE_TEXT);
    if Blank(p) {
      assert [] + DONE_TEXT == DONE_TEXT;
    } else if StartsWith(LStrip(p), DATA) {
      GluedPayload(p, DONE_TEXT);
    }
  }

  lemma {:induction false} GluedFinish(p: Bytes, json: Bytes)
    requires TerminatorJson(json)
    ensures FinishLine(p + FinishText(json)) <==> Blank(p) || StartsWith(LStrip(p), DATA)
    ensures !DoneLine(p + FinishText(json))
  {
    var text := FinishText(json);
    LStripFacts(p);
    PlainFinish(json);
    GluedIsData(p, text);
    GluedStrip(p, text);
    if Blank(p) {
      assert [] + text == text;
    } else if StartsWith(LStrip(p), DATA) {
      GluedPayload(p, text);
      var head: Bytes := "data: ";
      ContainsInWhole(LStrip(p) + head, json, [], FINISH);
      assert LStrip(p) + head + json + [] == LStrip(p) + text;
    }
  }

  lemma {:induction false} BlankIsNothing(p: Bytes)
    requires Blank(p)
    ensures !FinishLine(p) && !DoneLine(p)
  {
    LStripFacts(p);
  }

  lemma {:induction false} NewlineEnds(line: Bytes, more: Bytes)
    requires NlFree(line)
    ensures Terminated(line + [NL] + [NL] + more) == [line, []] + Terminated(more) && Tail(line + [NL] + [NL] + more) == Tail(more)
  {
    FirstLine(line, [NL] + more);
    FirstLine([], more);
    assert [] + [NL] + more == [NL] + more;
    assert line + [NL] + [NL] + more == line + [NL] + ([NL] + more);
    assert [line] + ([[]] + Terminated(more)) == [line, []] + Terminated(more);
  }

  lemma {:induction false} TailIsPlain(b: Bytes)
    ensures NlFree(Tail(b))
  {
    SplitIsInverse(b);
  }

  lemma {:induction false} GluedBytes(p: Bytes, text: Bytes, more: Bytes)
    ensures p + (text + [NL] + [NL] + more) == p + text + [NL] + [NL] + more
  {
  }

  lemma {:induction false} GluedBlocks(a: seq<Bytes>, b: seq<Bytes>, c: seq<Bytes>)
    ensures a + (b + c) == a + b + c
  {
  }

  /** The lines of a body followed by a block of text and more. */
  lemma {:induction false} GluedLines(b: Bytes, text: Bytes, more: Bytes)
    requires NlFree(text)
    ensures Terminated(b + (text + [NL] + [NL] + more)) == Terminated(b) + [Tail(b) + text, []] + Terminated(more)
    ensures Tail(b + (text + [NL] + [NL] + more)) == Tail(more)
  {
    Concat(b, text + [NL] + [NL] + more);
    TailIsPlain(b);
    NewlineEnds(Tail(b) + text, more);
    GluedBytes(Tail(b), text, more);
    GluedBlocks(Terminated(b), [Tail(b) + text, []], Terminated(more));
  }

  /** The gateway's own scan finds both marks. */
  ghost predicate Marked(s: Bytes) { AnyFinish(AllLines(s)) && AnyDone(AllLines(s)) }

  // ------------------------------------------------------ the reader's view

  /** JSON parsing, and which objects end a completion. */
  datatype Reader<!J> = Reader(loads: Bytes -> Option<J>, ends: J -> bool)

  /** A client that parses the line reads a finish reason in it. */
  predicate Reads<J>(rd: Reader<J>, line: Bytes) { Payload(rd.loads, line).Some? && rd.ends(Payload(rd.loads, line).value) }

  predicate AnyRead<J>(rd: Reader<J>, lines: seq<Bytes>) {
    lines != [] && (Reads(rd, lines[|lines| - 1]) || AnyRead(rd, lines[..|lines| - 1]))
  }

  /** The terminator parses and ends a completion; with anything in front of
      its `data:` it is no JSON text, inside a string or out. */
  ghost predicate ReadsTerminator<J>(rd: Reader<J>, json: Bytes) {
    rd.loads(json).Some? && rd.ends(rd.loads(json).value) && forall head: Bytes :: rd.loads(head + FinishText(json)).None?
  }

  /** A client reads a finish reason and an end mark. */
  ghost predicate WellEnded<J>(rd: Reader<J>, s: Bytes) { AnyRead(rd, AllLines(s)) && AnyDone(AllLines(s)) }

  lemma {:induction false} GluedRead<J>(rd: Reader<J>, p: Bytes, json: Bytes)
    requires TerminatorJson(json) && ReadsTerminator(rd, json)
    ensures Reads(rd, p + FinishText(json)) <==> Blank(p)
  {
    var text := FinishText(json);
    LStripFacts(p);
    PlainFinish(json);
    GluedIsData(p, text);
    GluedStrip(p, text);
    if Blank(p) {
      assert [] + text == text;
      assert json[0] == '{' && DONE[0] == '[';
    } else if StartsWith(LStrip(p), DATA) {
      GluedPayload(p, text);
    }
  }

  lemma {:induction false} BlankReadsNothing<J>(rd: Reader<J>, p: Bytes)
    requires Blank(p)
    ensures !Reads(rd, p)
  {
    LStripFacts(p);
  }

  lemma {:induction false} ReadsOfBlock<J>(rd: Reader<J>, lines: seq<Bytes>, x: Bytes)
    ensures AnyRead(rd, lines + [x, []]) <==> AnyRead(rd, lines) || Reads(rd, x)
  {
    BlankReadsNothing(rd, []);
    assert (lines + [x, []])[..|lines| + 1] == lines + [x];
    assert (lines + [x])[..|lines|] == lines;
  }

  lemma {:induction false} ReadsOfBody<J>(rd: Reader<J>, b: Bytes)
    ensures AnyRead(rd, AllLines(b)) <==> AnyRead(rd, Terminated(b)) || Reads(rd, Tail(b))
  {
    BlankReadsNothing(rd, []);
    if Tail(b) == [] {
      assert AllLines(b) == Terminated(b);
    } else {
      assert AllLines(b)[..|Terminated(b)|] == Terminated(b);
    }
  }

  lemma {:induction false} EmptyLine()
    ensures !FinishLine([]) && !DoneLine([])
  {
  }

  /** Flags of `lines + [x, []]`. */
  lemma {:induction false} FlagsOfBlock(lines: seq<Bytes>, x: Bytes)
    ensures AnyFinish(lines + [x, []]) <==> AnyFinish(lines) || FinishLine(x)
    ensures AnyDone(lines + [x, []]) <==> AnyDone(lines) || DoneLine(x)
  {
    EmptyLine();
    assert (lines + [x, []])[..|lines| + 1] == lines + [x];
    assert (lines + [x])[..|lines|] == lines;
  }

  lemma {:induction false} FlagsOfBody(b: Bytes)
    ensures AnyFinish(AllLines(b)) <==> AnyFinish(Terminated(b)) || FinishLine(Tail(b))
    ensures AnyDone(AllLines(b)) <==> AnyDone(Terminated(b)) || DoneLine(Tail(b))
  {
    EmptyLine();
    FlagsAppend(Terminated(b), if Tail(b) == [] then [] else [Tail(b)]);
    assert [Tail(b)][..0] == [];
  }

  lemma {:induction false} LinesAfterDone(b: Bytes)
    ensures AllLines(b + DONE_CHUNK) == Terminated(b) + [Tail(b) + DONE_TEXT, []]
  {
    GluedLines(b, DONE_TEXT, []);
    assert DONE_CHUNK == DONE_TEXT + [NL] + [NL] + [];
    assert Terminated(b) + [Tail(b) + DONE_TEXT, []] + [] == Terminated(b) + [Tail(b) + DONE_TEXT, []];
  }

  lemma {:induction false} LinesAfterFinish(b: Bytes, json: Bytes)
    requires NlFree(json)
    ensures AllLines(b + FinishChunk(json)) == Terminated(b) + [Tail(b) + FinishText(json), []]
    ensures Terminated(b + FinishChunk(json)) == Terminated(b) + [Tail(b) + FinishText(json), []] && Tail(b + FinishChunk(json)) == []
  {
    GluedLines(b, FinishText(json), []);
    assert FinishChunk(json) == FinishText(json) + [NL] + [NL] + [];
    assert Terminated(b) + [Tail(b) + FinishText(json), []] + [] == Terminated(b) + [Tail(b) + FinishText(json), []];
  }

  /** The stream a client receives in full. */
  function Wire(b: Bytes, json: Bytes): Bytes { b + Flatten(Terminator(AllLines(b), json)) }

  lemma {:induction false} WireCases(b: Bytes, json: Bytes)
    ensures var f, d := AnyFinish(AllLines(b)), AnyDone(AllLines(b));
      Wire(b, json) == (if f && d then b else if f then b + DONE_CHUNK else if d then b + FinishChunk(json)
                        else b + FinishChunk(json) + DONE_CHUNK)
  {
    var lines := AllLines(b);
    var first := if AnyFinish(lines) then [] else [FinishChunk(json)];
    var second := if AnyDone(lines) then [] else [DONE_CHUNK];
    FlattenAppend(first, second);
    assert [FinishChunk(json)][..0] == [] && [DONE_CHUNK][..0] == [];
    assert Flatten([FinishChunk(json)]) == FinishChunk(json) && Flatten([DONE_CHUNK]) == DONE_CHUNK;
    assert b + (FinishChunk(json) + DONE_CHUNK) == b + FinishChunk(json) + DONE_CHUNK;
  }

  /** What the wire's lines are, and which of them count, for each of the four
      things the gateway may add. */
  lemma {:induction false} WireMarks(b: Bytes, json: Bytes)
    requires TerminatorJson(json)
    ensures var f, d, p := AnyFinish(AllLines(b)), AnyDone(AllLines(b)), Tail(b);
      && (AnyDone(AllLines(Wire(b, json))) <==> if d then f || AnyDone(Terminated(b)) else !f || Blank(p))
      && (Blank(p) ==> Marked(Wire(b, json)))
  {
    var f, d, p := AnyFinish(AllLines(b)), AnyDone(AllLines(b)), Tail(b);
    WireCases(b, json);
    FlagsOfBody(b);
    GluedDone(p);
    GluedFinish(p, json);
    if Blank(p) { BlankIsNothing(p); }
    if f && !d {
      LinesAfterDone(b);
      FlagsOfBlock(Terminated(b), p + DONE_TEXT);
    } else if !f {
      LinesAfterFinish(b, json);
      FlagsOfBlock(Terminated(b), p + FinishText(json));
      if !d {
        LinesAfterDone(b + FinishChunk(json));
        PlainDone();
        assert [] + DONE_TEXT == DONE_TEXT;
        FlagsOfBlock(Terminated(b) + [p + FinishText(json), []], DONE_TEXT);
      }
    }
  }

  /** With a finish already in the body at most an end mark is added. */
  lemma {:induction false} FinishedWireReads<J>(rd: Reader<J>, b: Bytes, json: Bytes)
    requires TerminatorJson(json) && AnyFinish(AllLines(b))
    ensures AnyDone(AllLines(b)) || Blank(Tail(b)) ==> AnyRead(rd, AllLines(Wire(b, json))) == AnyRead(rd, AllLines(b))
  {
    var p := Tail(b);
    WireCases(b, json);
    ReadsOfBody(rd, b);
    if !AnyDone(AllLines(b)) && Blank(p) {
      BlankReadsNothing(rd, p);
      LinesAfterDone(b);
      ReadsOfBlock(rd, Terminated(b), p + DONE_TEXT);
      GluedDone(p);
      DoneCarriesNothing(rd.loads, p + DONE_TEXT);
    }
  }

  /** Without one, the added finish is read where it is not glued. */
  lemma {:induction false} UnfinishedWireReads<J>(rd: Reader<J>, b: Bytes, json: Bytes)
    requires TerminatorJson(json) && ReadsTerminator(rd, json) && !AnyFinish(AllLines(b))
    ensures AnyRead(rd, AllLines(Wire(b, json))) <==> AnyRead(rd, Terminated(b)) || Blank(Tail(b))
  {
    var p := Tail(b);
    WireCases(b, json);
    LinesAfterFinish(b, json);
    GluedRead(rd, p, json);
    ReadsOfBlock(rd, Terminated(b), p + FinishText(json));
    if !AnyDone(AllLines(b)) {
      LinesAfterDone(b + FinishChunk(json));
      PlainDone();
      DoneCarriesNothing(rd.loads, DONE_TEXT);
      assert [] + DONE_TEXT == DONE_TEXT;
      ReadsOfBlock(rd, Terminated(b) + [p + FinishText(json), []], DONE_TEXT);
    }
  }

  lemma {:induction false} WireReads<J>(rd: Reader<J>, b: Bytes, json: Bytes)
    requires TerminatorJson(json) && ReadsTerminator(rd, json)
    ensures var f, d, p := AnyFinish(AllLines(b)), AnyDone(AllLines(b)), Tail(b);
      && (f && (d || Blank(p)) ==> AnyRead(rd, AllLines(Wire(b, json))) == AnyRead(rd, AllLines(b)))
      && (!f ==> (AnyRead(rd, AllLines(Wire(b, json))) <==> AnyRead(rd, Terminated(b)) || Blank(p)))
  {
    if AnyFinish(AllLines(b)) { FinishedWireReads(rd, b, json); } else { UnfinishedWireReads(rd, b, json); }
  }

  /** When does a client read a finish and an end mark?  The marker the gateway
      went by must be a real one, and a terminator must not land behind an
      unfinished line: glued there, a client reads neither. */
  lemma {:induction false} WellEndedExactly<J>(rd: Reader<J>, b: Bytes, json: Bytes)
    requires TerminatorJson(json) && ReadsTerminator(rd, json)
    ensures var f, d := AnyFinish(AllLines(b)), AnyDone(AllLines(b));
      WellEnded(rd, Wire(b, json)) <==>
        && (f ==> AnyRead(rd, AllLines(b)))
        && (Blank(Tail(b)) || (f && d) || (!f && AnyRead(rd, Terminated(b)) && (d ==> AnyDone(Terminated(b)))))
  {
    WireMarks(b, json);
    WireReads(rd, b, json);
    FlagsOfBody(b);
    if Blank(Tail(b)) { BlankIsNothing(Tail(b)); }
  }

  lemma {:induction false} ScanAgrees<J>(rd: Reader<J>, lines: seq<Bytes>)
    requires forall k :: 0 <= k < |lines| ==> (FinishLine(lines[k]) <==> Reads(rd, lines[k]))
    ensures AnyFinish(lines) <==> AnyRead(rd, lines)
  {
    if lines != [] { ScanAgrees(rd, lines[..|lines| - 1]); }
  }

  /** With an upstream whose finish reasons the scan recognises: exactly when
      the last line is blank, or both marks were there already. */
  lemma {:induction false} PlainUpstreamExactly<J>(rd: Reader<J>, b: Bytes, json: Bytes)
    requires TerminatorJson(json) && ReadsTerminator(rd, json)
    requires forall k :: 0 <= k < |AllLines(b)| ==> (FinishLine(AllLines(b)[k]) <==> Reads(rd, AllLines(b)[k]))
    ensures WellEnded(rd, Wire(b, json)) <==> Blank(Tail(b)) || Marked(b)
  {
    WellEndedExactly(rd, b, json);
    ScanAgrees(rd, AllLines(b));
    ReadsOfBody(rd, b);
  }

  lemma {:induction false} EndedIsMarked(b: Bytes, json: Bytes)
    requires TerminatorJson(json) && (b == [] || b[|b| - 1] == NL)
    ensures Marked(Wire(b, json)) && Blank(Tail(b))
  {
    WireMarks(b, json);
  }

  lemma {:induction false} TerminatorSize(lines: seq<Bytes>, json: Bytes)
    ensures |Terminator(lines, json)| == (if AnyFinish(lines) then 0 else 1) + (if AnyDone(lines) then 0 else 1)
  {
  }

  lemma {:induction false} FullReader(body: seq<Bytes>, ending: Ending, patience: nat, json: Bytes)
    requires patience > |body| + 1 && !ending.OtherFault?
    ensures var out, tail := Relayed(body, ending, patience, json).chunks, Terminator(AllLines(Flatten(body)), json);
      Flatten(out) == Wire(Flatten(body), json) && |out| == |body| + |tail|
  {
    EveryByteInOrder(body, ending, patience, json);
  }

  /** A body that is empty or ends its last line always gets both marks, and
      each part is added only where it was missing. */
  lemma {:induction false} TerminatorAlwaysSupplied(body: seq<Bytes>, ending: Ending, patience: nat, json: Bytes)
    requires TerminatorJson(json) && patience > |body| + 1 && !ending.OtherFault?
    requires var b := Flatten(body); b == [] || b[|b| - 1] == NL
    ensures var out, lines := Relayed(body, ending, patience, json).chunks, AllLines(Flatten(body));
      && Marked(Flatten(out))
      && |out| == |body| + (if AnyFinish(lines) then 0 else 1) + (if AnyDone(lines) then 0 else 1)
  {
    FullReader(body, ending, patience, json);
    EndedIsMarked(Flatten(body), json);
    TerminatorSize(AllLines(Flatten(body)), json);
  }

  /** Such a body is read as ended by every client, unless the gateway went by a
      marker that is none. */
  lemma {:induction false} TerminatorIsRead<J>(rd: Reader<J>, body: seq<Bytes>, ending: Ending, patience: nat, json: Bytes)
    requires TerminatorJson(json) && ReadsTerminator(rd, json) && patience > |body| + 1 && !ending.OtherFault?
    requires var b := Flatten(body); b == [] || b[|b| - 1] == NL
    ensures var lines := AllLines(Flatten(body));
      WellEnded(rd, Flatten(Relayed(body, ending, patience, json).chunks)) <==> (AnyFinish(lines) ==> AnyRead(rd, lines))
  {
    FullReader(body, ending, patience, json);
    EndedIsMarked(Flatten(body), json);
    WellEndedExactly(rd, Flatten(body), json);
  }

  lemma {:induction false} Colon(b: Bytes)
    requires |b| == 1 && b[0] == ':'
    ensures NlFree(b) && !Blank(b) && !FinishLine(b) && !DoneLine(b)
  {
    StripPlain(b);
  }

  /** The glue is real: a body cut inside a comment line hides the finish ... */
  lemma {:induction false} CutCommentHidesFinish<J>(rd: Reader<J>, json: Bytes)
    requires TerminatorJson(json) && ReadsTerminator(rd, json)
    ensures var b: Bytes := ":"; !WellEnded(rd, Wire(b, json))
  {
    var b: Bytes := ":";
    Colon(b);
    OneLine(rd, b);
    WellEndedExactly(rd, b, json);
  }

  lemma {:induction false} ShortHasNone(s: Bytes, p: Bytes)
    requires |s| < |p|
    ensures !Contains(s, p)
  {
    if s != [] { ShortHasNone(s[1..], p); }
  }

  /** ... and so does any body cut inside a data line before it has finished,
      although the gateway's own scan still sees the finish there. */
  lemma {:induction false} CutDataHidesFinish<J>(rd: Reader<J>, b: Bytes, json: Bytes)
    requires TerminatorJson(json) && ReadsTerminator(rd, json) && StartsWith(LStrip(Tail(b)), DATA)
    requires !AnyFinish(AllLines(b)) && !AnyDone(AllLines(b)) && !AnyRead(rd, Terminated(b))
    ensures !WellEnded(rd, Wire(b, json)) && Marked(Wire(b, json))
  {
    LStripFacts(Tail(b));
    WellEndedExactly(rd, b, json);
    CutDataIsMarked(b, json);
  }

  /** A data line broken off right behind its opening brace. */
  lemma {:induction false} OpeningBrace(b: Bytes)
    requires |b| == 7 && b[..5] == DATA && b[5] == ' ' && b[6] == '{'
    ensures NlFree(b) && LStrip(b) == b && StartsWith(b, DATA) && !FinishLine(b) && !DoneLine(b)
  {
    assert forall i :: 0 <= i < 5 ==> b[i] == b[..5][i];
    StripPlain(b);
    ShortHasNone(b, FINISH);
    ShortHasNone(b, FINISH_SPACED);
    NotTheMark(b);
  }

  lemma {:induction false} NotTheMark(b: Bytes)
    requires |b| == 7 && Strip(b) == b
    ensures !DoneLine(b)
  {
    StripIsShort(b[5..]);
  }

  lemma {:induction false} StripIsShort(s: Bytes)
    ensures |Strip(s)| <= |s|
  {
    LStripIsShort(s);
    RStripIsShort(LStrip(s));
  }

  lemma {:induction false} LStripIsShort(s: Bytes)
    ensures |LStrip(s)| <= |s|
  {
    if s != [] && White(s[0]) { LStripIsShort(s[1..]); }
  }

  lemma {:induction false} RStripIsShort(s: Bytes)
    ensures |RStrip(s)| <= |s|
  {
    if s != [] && White(s[|s| - 1]) { RStripIsShort(s[..|s| - 1]); }
  }

  lemma {:induction false} OneLine<J>(rd: Reader<J>, b: Bytes)
    requires NlFree(b) && b != []
    ensures Tail(b) == b && Terminated(b) == [] && !AnyRead(rd, Terminated(b))
    ensures (AnyFinish(AllLines(b)) <==> FinishLine(b)) && (AnyDone(AllLines(b)) <==> DoneLine(b))
  {
    NoLine(b);
    FlagsOfBody(b);
  }

  /** The shortest such input: a body that is just an opened data line. */
  lemma {:induction false} CutJsonHidesFinish<J>(rd: Reader<J>, json: Bytes)
    requires TerminatorJson(json) && ReadsTerminator(rd, json)
    ensures var b: Bytes := "data: {"; !WellEnded(rd, Wire(b, json)) && Marked(Wire(b, json))
  {
    var b: Bytes := "data: {";
    assert b[..5] == DATA;
    OpeningBrace(b);
    OneLine(rd, b);
    CutDataHidesFinish(rd, b, json);
  }

  lemma {:induction false} CutDataIsMarked(b: Bytes, json: Bytes)
    requires TerminatorJson(json) && StartsWith(LStrip(Tail(b)), DATA)
    requires !AnyFinish(AllLines(b)) && !AnyDone(AllLines(b))
    ensures Marked(Wire(b, json))
  {
    WireMarks(b, json);
    WireCases(b, json);
    GluedFinish(Tail(b), json);
    LinesAfterFinish(b, json);
    LinesAfterDone(b + FinishChunk(json));
    FlagsOfBlock(Terminated(b), Tail(b) + FinishText(json));
    FlagsOfBlock(Terminated(b) + [Tail(b) + FinishText(json), []], [] + DONE_TEXT);
  }
}
