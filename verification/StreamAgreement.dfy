/** The three readings of one upstream stream say the same thing. */
module StreamAgreement {
  import opened Basics
  import opened Transcript
  import opened Aggregator
  import A = AnthropicEvents
  import AS = AnthropicSafety
  import R = ResponsesEvents
  import RS = ResponsesSafety
  import RC = ResponsesClosing

  // ---------------------------------------- the strict Responses client

  /** The arguments the client was handed for call `i`, as deltas and as the
      closing text. */
  ghost predicate Handed(restore: map<string, string>, s: seq<Atom>, c: R.Client, i: int) {
    var b := RS.IndexOf(restore, s, i);
    && b < |c.tracks| && c.tracks[b].heard == ArgsOf(s, i)
    && c.tracks[b].closed == Some(R.FunctionCall(i, IdOf(s, i), R.Restored(restore, NameOf(s, i)), ArgsOf(s, i)))
  }

  lemma {:induction false} HandedOne(restore: map<string, string>, s: seq<Atom>, st: R.State, b: R.Client, d: R.Client, i: int)
    requires st == R.Fold(restore, s) && RS.Good(s, st, b)
    requires RS.ShutCalls(R.CloseMessage(st), restore, RS.MessageShut(st, b), Sorted(st.order), d)
    requires Seen(s, i) && R.Introduced(s, i)
    ensures Handed(restore, s, d, i)
  {
    SortedFacts(st.order);
    RS.KnownTables(s, st);
    assert RS.KnowsCall(s, st, i);
    RS.AnnouncedCall(s, st, b, i);
    RS.ShutAs(R.CloseMessage(st), restore, RS.MessageShut(st, b), Sorted(st.order), d, i);
    HeardInFull(s, st, b, i);
    RS.ShutHeard(st, restore, b, Sorted(st.order), d, st.slots[i].item);
  }

  lemma {:induction false} HeardInFull(s: seq<Atom>, st: R.State, b: R.Client, i: int)
    requires RS.Good(s, st, b) && R.Introduced(s, i) && i in st.announced
    ensures i in st.slots && st.slots[i].item < |b.tracks| && b.tracks[st.slots[i].item].heard == ArgsOf(s, i)
  {
    assert RS.HeardRest(s, st, b, i);
    var heard := b.tracks[st.slots[i].item].heard;
    assert "" + heard == heard;
  }

  /** Whenever a client that checks everything can read the stream to the end, it
      too ends up with the text, the usage and every call in full. */
  lemma {:induction false} StrictClientIsFaithful(restore: map<string, string>, s: seq<Atom>) returns (c: R.Client)
    requires R.Replay(R.Ended(R.Fold(restore, s), restore).out).Some?
    ensures R.Replay(R.Ended(R.Fold(restore, s), restore).out) == Some(c)
    ensures RS.MessageText(c.tracks) == TextOf(s) && c.usage == UsageOf(s)
    ensures forall i :: Seen(s, i) ==> Handed(restore, s, c, i)
  {
    RS.ReadableExactly(restore, s);
    var b, d := RS.ReadableIfIntroduced(restore, s);
    var st := R.Fold(restore, s);
    c := d.(number := d.number + 1, output := Some(R.FinalOutput(st)), usage := st.usage);
    RS.MessageHeard(s, st, b);
    RS.ShutSameHeard(st, restore, b, Sorted(st.order), d);
    forall i | Seen(s, i) ensures Handed(restore, s, c, i) {
      HandedOne(restore, s, st, b, d, i);
      assert Handed(restore, s, d, i);
    }
  }

  // ------------------------------------------------------ after the end mark

  lemma {:induction false} Joined(a: seq<Atom>, b: seq<Atom>, c: seq<Atom>)
    ensures (a + b) + c == a + (b + c)
  {
  }

  lemma {:induction false} OfChunksAppend(a: seq<Chunk>, b: seq<Chunk>)
    ensures OfChunks(a + b) == OfChunks(a) + OfChunks(b)
  {
    if b == [] {
      assert a + b == a;
    } else {
      var front, last := b[..|b| - 1], b[|b| - 1];
      OfChunksAppend(a, front);
      assert (a + b)[..|a + b| - 1] == a + front && (a + b)[|a + b| - 1] == last;
      Joined(OfChunks(a), OfChunks(front), OfChunk(last));
    }
  }

  lemma {:induction false} NoCallNoArgs(s: seq<Atom>, i: int)
    requires !HasCall(s)
    ensures ArgsOf(s, i) == "" && !Seen(s, i)
  {
    if s != [] { NoCallNoArgs(s[..|s| - 1], i); }
  }

  lemma {:induction false} SeenAppend(s: seq<Atom>, t: seq<Atom>, i: int)
    ensures Seen(s + t, i) <==> Seen(s, i) || Seen(t, i)
  {
    if t == [] {
      assert s + t == s;
    } else {
      SeenAppend(s, t[..|t| - 1], i);
      Regroup(s, t);
      Snoc(s + t[..|t| - 1], t[|t| - 1]);
    }
  }

  lemma {:induction false} NoCallNoName(s: seq<Atom>, a: seq<Atom>, i: int)
    requires !HasCall(a)
    ensures IdOf(s + a, i) == IdOf(s, i) && NameOf(s + a, i) == NameOf(s, i)
  {
    if a == [] {
      assert s + a == s;
    } else {
      NoCallNoName(s, a[..|a| - 1], i);
      Regroup(s, a);
      Snoc(s + a[..|a| - 1], a[|a| - 1]);
      assert NameOf(s, i) + "" == NameOf(s, i);
    }
  }

  /** Chunks that add nothing to what was said. */
  predicate Silent(s: seq<Atom>) { TextOf(s) == "" && ThoughtOf(s) == "" && UsageOf(s).None? && !HasCall(s) }

  /** Only the aggregator stops at the end mark; it hears the same text as the
      streaming converters exactly when no text follows the mark. */
  lemma {:induction false} TextAgreesExactly(rs: seq<Record>)
    ensures TextOf(OfChunks(BeforeMark(rs))) == TextOf(OfChunks(AllData(rs))) <==> TextOf(OfChunks(AfterMark(rs))) == ""
  {
    MarkSplits(rs);
    OfChunksAppend(BeforeMark(rs), AfterMark(rs));
    AppendText(OfChunks(BeforeMark(rs)), OfChunks(AfterMark(rs)));
  }

  lemma {:induction false} SameSayings(rs: seq<Record>, i: int)
    requires Silent(OfChunks(AfterMark(rs)))
    ensures var s, t := OfChunks(BeforeMark(rs)), OfChunks(AllData(rs));
      && TextOf(t) == TextOf(s) && ThoughtOf(t) == ThoughtOf(s) && UsageOf(t) == UsageOf(s)
      && ArgsOf(t, i) == ArgsOf(s, i) && IdOf(t, i) == IdOf(s, i) && NameOf(t, i) == NameOf(s, i) && (Seen(t, i) <==> Seen(s, i))
  {
    var s, a := OfChunks(BeforeMark(rs)), OfChunks(AfterMark(rs));
    MarkSplits(rs);
    OfChunksAppend(BeforeMark(rs), AfterMark(rs));
    AppendText(s, a);
    AppendThought(s, a);
    AppendArgs(s, a, i);
    AppendUsage(s, a);
    SeenAppend(s, a, i);
    NoCallNoArgs(a, i);
    NoCallNoName(s, a, i);
  }

  /** The aggregated answer's call number `k` has the arguments both streams
      delivered for it, and its entry in the completed output. */
  ghost predicate CallAgrees(t: seq<Atom>, keys: seq<int>, r: Completion, c: A.Client, d: RC.Digest, k: nat)
    requires k < |keys| == |r.tools|
  {
    var i, call := keys[k], r.tools[k];
    && AS.BlockOf(t, i) < |c.blocks| && c.blocks[AS.BlockOf(t, i)].text == call.args
    && i in d.args && d.args[i] == call.args
    && d.output.Some? && R.FunctionCall(i, call.id, call.name, call.args) in d.output.value
  }

  lemma {:induction false} SameNumber(a: seq<int>, b: seq<int>)
    requires Unrepeated(a) && Unrepeated(b) && forall i :: i in a <==> i in b
    ensures |a| == |b|
  {
    var all := set i | i in a;
    RS.UnrepeatedSize(a, all);
    RS.UnrepeatedSize(b, all);
  }

  lemma {:induction false} AnswersAgree(restore: map<string, string>, s: seq<Atom>, t: seq<Atom>, keys: seq<int>, r: Completion,
                                        c: A.Client, d: RC.Digest, k: nat)
    requires Answers(s, keys, r) && k < |keys| && AS.Delivered(t, c, keys[k]) && RC.ClosesAll(restore, t, d) && Seen(t, keys[k])
    requires ArgsOf(t, keys[k]) == ArgsOf(s, keys[k]) && IdOf(t, keys[k]) == IdOf(s, keys[k]) && NameOf(t, keys[k]) == NameOf(s, keys[k])
    requires d.output.Some? && RC.Listed(t, keys[k]) in d.output.value
    ensures CallAgrees(t, keys, r, c, d, k)
  {
  }

  /** With nothing said after the end mark, the aggregated answer, the client of
      the Anthropic stream and the closing events of the Responses stream agree
      on the text, the usage and the arguments of every call, and the completed
      output lists the answer's calls once each; the first two agree on the
      thinking as well. */
  lemma {:induction false} ThreeReadingsAgree(restore: map<string, string>, rs: seq<Record>, keys: seq<int>, r: Completion) returns (c: A.Client)
    requires Answers(OfChunks(BeforeMark(rs)), keys, r) && Silent(OfChunks(AfterMark(rs)))
    ensures var t := OfChunks(AllData(rs)); var d := RC.Digested(R.Ended(R.Fold(restore, t), restore).out);
      && A.Replay(A.Ended(A.Fold(t)).out) == Some(c)
      && r.content == A.TextIn(c.blocks) == d.streamed == d.text
      && r.reasoning == A.ThoughtIn(c.blocks)
      && r.usage == c.usage == d.usage
      && |keys| == |r.tools| && (forall k :: 0 <= k < |keys| ==> CallAgrees(t, keys, r, c, d, k))
      && d.output.Some? && |d.output.value| == |keys| + (if r.content != "" || keys == [] then 1 else 0)
  {
    var s, t := OfChunks(BeforeMark(rs)), OfChunks(AllData(rs));
    c := AS.AnthropicStreamIsFaithful(t);
    var again := RC.ClosingEventsAreFaithful(restore, t);
    var d := RC.Digested(R.Ended(R.Fold(restore, t), restore).out);
    SameSayings(rs, 0);
    forall i ensures i in keys <==> i in again { SameSayings(rs, i); }
    SameNumber(keys, again);
    forall k | 0 <= k < |keys| ensures CallAgrees(t, keys, r, c, d, k) {
      assert keys[k] in keys;
      SameSayings(rs, keys[k]);
      assert AS.Delivered(t, c, keys[k]) && RC.Listed(t, keys[k]) in d.output.value;
      AnswersAgree(restore, s, t, keys, r, c, d, k);
    }
  }
}
