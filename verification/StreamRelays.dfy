/** The streaming relay: upstream bytes passed on as they come, a terminator
    supplied when upstream leaves one out, one report to the egress pool. */
module StreamRelays {
  import opened Basics
  import opened Lines
  import opened SseReaders

  /** How upstream stops; the last is a fault of any other kind. */
  datatype Ending = Eof | NoBytes | TransportError | OtherFault

  datatype Outcome = Completed | Disconnected | Cut | Stalled | Interrupted

  const DONE_CHUNK: Bytes := "data: [DONE]\n\n"

  /** The terminator chunk for a JSON text. */
  function FinishChunk(json: Bytes): Bytes {
    var head: Bytes := "data: ";
    var end: Bytes := "\n\n";
    head + json + end
  }

  /** What the serialiser is known to give for the terminator. */
  ghost predicate TerminatorJson(json: Bytes) {
    |json| >= 2 && json[0] == '{' && json[|json| - 1] == '}' && NlFree(json) && Contains(json, FINISH)
  }

  /** The chunks added after the body. */
  function Terminator(lines: seq<Bytes>, json: Bytes): seq<Bytes> {
    (if AnyFinish(lines) then [] else [FinishChunk(json)]) + (if AnyDone(lines) then [] else [DONE_CHUNK])
  }

  datatype Delivery = Delivery(chunks: seq<Bytes>, reported: Outcome, raised: bool)

  /** A consumer takes `patience` chunks and then closes the stream, or is
      cancelled while it waits for the next; one with more patience than there
      are chunks reads to the end. */
  function Relayed(body: seq<Bytes>, ending: Ending, patience: nat, json: Bytes): Delivery {
    var lines := AllLines(Flatten(body));
    if patience <= |body| then Delivery(body[..patience], Disconnected, false)
    else if ending.OtherFault? then Delivery(body, Disconnected, true)
    else
      var tail := Terminator(lines, json);
      Delivery(body + tail[..Min(|tail|, patience - |body|)],
               match ending
               case NoBytes => Stalled
               case TransportError => Interrupted
               case _ => if AnyFinish(lines) then Completed else Cut,
               false)
  }

  class StreamRelay {
    var endReason: Option<Outcome>
    var streamCut: bool
    var armed: bool
    var reports: seq<Outcome>      // what the close hook was called with

    constructor ()
      ensures endReason.None? && !streamCut && armed && reports == []
    {
      endReason, streamCut, armed, reports := None, false, true, [];
    }

    method Close()
      modifies this
      ensures !armed && endReason == old(endReason)
      ensures reports == old(reports) + if old(armed) then [if old(endReason).Some? then old(endReason).value else Disconnected] else []
    {
      if !armed { return; }
      armed := false;
      reports := reports + [if endReason.Some? then endReason.value else Disconnected];
    }

    /** The reading loop, up to the end of the body or the consumer's exit. */
    method Pump(body: seq<Bytes>, patience: nat) returns (out: seq<Bytes>, finish: bool, done: bool)
      ensures out == body[..Min(|body|, patience)]
      ensures patience > |body| ==> finish == AnyFinish(AllLines(Flatten(body))) && done == AnyDone(AllLines(Flatten(body)))
    {
      var pending: Bytes := [];
      finish, done := false, false;
      out := [];
      for k := 0 to |body|
        invariant out == body[..k] && k <= patience && pending == Tail(Flatten(body[..k]))
        invariant finish == AnyFinish(Terminated(Flatten(body[..k]))) && done == AnyDone(Terminated(Flatten(body[..k])))
      {
        if k == patience { return; }
        FlattenSnoc(body, k);
        Concat(Flatten(body[..k]), body[k]);
        var lines := Terminated(pending + body[k]);
        pending := Tail(pending + body[k]);
        FlagsAppend(Terminated(Flatten(body[..k])), lines);
        var f, d := ScanLines(lines);
        finish, done := finish || f, done || d;
        out := out + [body[k]];
      }
      assert body[..|body|] == body;
      FlagsAppend(Terminated(Flatten(body)), [pending]);
      assert Terminated(Flatten(body)) + [] == Terminated(Flatten(body));
      if pending != [] {
        var f, d := ScanLines([pending]);
        finish, done := finish || f, done || d;
      }
    }

    /** The producer: stops early when the consumer closes it at a chunk. */
    method Stream(body: seq<Bytes>, ending: Ending, patience: nat, json: Bytes) returns (out: seq<Bytes>, raised: bool)
      requires endReason.None?
      modifies `endReason, `streamCut
      ensures out == Relayed(body, ending, patience, json).chunks && raised == Relayed(body, ending, patience, json).raised
      ensures (if endReason.Some? then endReason.value else Disconnected) == Relayed(body, ending, patience, json).reported
    {
      var sawFinish, sawDone;
      out, sawFinish, sawDone := Pump(body, patience);
      raised := false;
      if patience <= |body| { return; }
      if ending.OtherFault? {
        raised := true;
        return;
      }
      if ending.NoBytes? { endReason := Some(Stalled); }
      if ending.TransportError? { endReason := Some(Interrupted); }
      if endReason.None? { endReason := Some(if sawFinish then Completed else Cut); }
      if !sawFinish {
        streamCut := true;
        out := out + [FinishChunk(json)];
        if |out| == patience { return; }
      }
      if !sawDone { out := out + [DONE_CHUNK]; }
    }

    /** The failover wrapper gives up on the first chunk: closing the stream
        reports before the wrapper writes its own verdict down. */
    method GiveUpOnFirstChunk()
      requires endReason.None? && armed
      modifies this
      ensures reports == old(reports) + [Disconnected] && endReason == Some(Stalled) && !armed
    {
      Close();
      endReason := Some(Stalled);
      Close();
    }

    /** `chunks()`: run the producer, then report exactly once. */
    method Chunks(body: seq<Bytes>, ending: Ending, patience: nat, json: Bytes) returns (out: seq<Bytes>, raised: bool)
      requires endReason.None?
      modifies this
      ensures var d := Relayed(body, ending, patience, json);
        && out == d.chunks && raised == d.raised
        && reports == old(reports) + if old(armed) then [d.reported] else []
      ensures !armed
    {
      out, raised := Stream(body, ending, patience, json);
      Close();
    }
  }

  method ScanLines(lines: seq<Bytes>) returns (finish: bool, done: bool)
    ensures finish == AnyFinish(lines) && done == AnyDone(lines)
  {
    finish, done := false, false;
    for k := 0 to |lines|
      invariant finish == AnyFinish(lines[..k]) && done == AnyDone(lines[..k])
    {
      assert lines[..k + 1][..k] == lines[..k];
      var stripped := Strip(lines[k]);
      if StartsWith(stripped, DATA) {
        if Strip(stripped[|DATA|..]) == DONE { done := true; }
        else if Contains(stripped, FINISH) || Contains(stripped, FINISH_SPACED) { finish := true; }
      }
    }
    assert lines[..|lines|] == lines;
  }
}
