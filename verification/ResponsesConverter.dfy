/** The Responses converter as a mutable object fed chunk by chunk, proved
    against `ResponsesEvents`. */
module ResponsesConverter {
  import opened Basics
  import opened Transcript
  import opened ResponsesEvents

  lemma {:induction false} FoldSnoc(restore: map<string, string>, s: seq<Atom>, a: Atom)
    ensures Fold(restore, s + [a]) == Next(Fold(restore, s), restore, a)
  {
    Snoc(s, a);
  }

  lemma {:induction false} FoldWords(restore: map<string, string>, s: seq<Atom>, c: Choice)
    ensures Fold(restore, s + [Finish(c.finish), Think(c.reasoning), Say(c.content)]) == OnText(Fold(restore, s), c.content)
  {
    FoldSnoc(restore, s, Finish(c.finish));
    FoldSnoc(restore, s + [Finish(c.finish)], Think(c.reasoning));
    FoldSnoc(restore, s + [Finish(c.finish)] + [Think(c.reasoning)], Say(c.content));
    assert s + [Finish(c.finish)] + [Think(c.reasoning)] + [Say(c.content)] == s + [Finish(c.finish), Think(c.reasoning), Say(c.content)];
  }

  lemma {:induction false} FoldCall(restore: map<string, string>, s: seq<Atom>, ts: seq<ToolDelta>, k: nat)
    requires k < |ts|
    ensures Fold(restore, s + Calls(ts[..k + 1])) == OnTool(Fold(restore, s + Calls(ts[..k])), restore, ts[k])
  {
    NextCall(ts, k);
    FoldSnoc(restore, s + Calls(ts[..k]), Call(ts[k]));
    assert s + Calls(ts[..k + 1]) == s + Calls(ts[..k]) + [Call(ts[k])];
  }

  class StreamState {
    const restore: map<string, string>
    var seqNumber: nat
    var msgIndex: Option<nat>
    var textBuf: string
    var toolCalls: map<int, Slot>
    var toolOrder: seq<int>        // the dictionary's insertion order
    var toolAnnounced: set<int>
    var nextItemIndex: nat
    var usage: Option<Usage>
    var out: seq<Event>

    constructor (restore: map<string, string>)
      ensures View() == Begun() && this.restore == restore
    {
      this.restore := restore;
      seqNumber, msgIndex, textBuf, toolCalls, toolOrder, toolAnnounced := 0, None, "", map[], [], {};
      nextItemIndex, usage, out := 0, None, [];
      new;
      Send(Created);
      Send(InProgress);
    }

    function View(): State
      reads this
    {
      State(seqNumber, msgIndex, textBuf, toolCalls, toolOrder, toolAnnounced, nextItemIndex, usage, out)
    }

    method Send(body: Body)
      modifies `seqNumber, `out
      ensures View() == Emit(old(View()), body)
    {
      seqNumber := seqNumber + 1;
      out := out + [Event(seqNumber, body)];
    }

    method AllocItemIndex() returns (index: nat)
      modifies `nextItemIndex
      ensures index == old(nextItemIndex) && nextItemIndex == index + 1
    {
      index := nextItemIndex;
      nextItemIndex := nextItemIndex + 1;
    }

    method Content(text: string)
      modifies this
      ensures View() == OnText(old(View()), text)
    {
      if text == "" { return; }
      if msgIndex.None? {
        var index := AllocItemIndex();
        msgIndex := Some(index);
        Send(ItemAdded(index, Message("")));
        Send(PartAdded(index));
      }
      textBuf := textBuf + text;
      Send(TextDelta(msgIndex.value, text));
    }

    method Store(d: ToolDelta)
      modifies `toolCalls, `toolOrder
      ensures View() == Stored(old(View()), d)
    {
      if d.index !in toolCalls {
        toolOrder := toolOrder + [d.index];
        toolCalls := toolCalls[d.index := Slot("", "", "", 0)];
      }
      var slot := toolCalls[d.index];
      if d.id != "" { slot := slot.(id := d.id); }
      toolCalls := toolCalls[d.index := Slot(slot.id, slot.name + d.name, slot.args + d.args, slot.item)];
    }

    method Announce(i: int)
      requires i in toolCalls
      modifies this
      ensures View() == Announced(old(View()), restore, i)
    {
      var slot := toolCalls[i];
      if i in toolAnnounced || (slot.id == "" && slot.name == "") { return; }
      toolAnnounced := toolAnnounced + {i};
      var index := AllocItemIndex();
      toolCalls := toolCalls[i := slot.(item := index)];
      Send(ItemAdded(index, FunctionCall(i, slot.id, Restored(restore, slot.name), "")));
    }

    method ToolCall(d: ToolDelta)
      modifies this
      ensures View() == OnTool(old(View()), restore, d)
    {
      Store(d);
      Announce(d.index);
      if d.args != "" && d.index in toolAnnounced { Send(ArgsDelta(toolCalls[d.index].item, d.index, d.args)); }
    }

    method Tools(ts: seq<ToolDelta>, ghost s: seq<Atom>)
      requires View() == Fold(restore, s)
      modifies this
      ensures View() == Fold(restore, s + Calls(ts))
    {
      assert s + Calls(ts[..0]) == s;
      for k := 0 to |ts|
        invariant View() == Fold(restore, s + Calls(ts[..k]))
      {
        ToolCall(ts[k]);
        FoldCall(restore, s, ts, k);
      }
      assert ts[..|ts|] == ts;
    }

    method Choice(c: Transcript.Choice, ghost s: seq<Atom>)
      requires View() == Fold(restore, s)
      modifies this
      ensures View() == Fold(restore, s + OfChoice(c))
    {
      Content(c.content);
      FoldWords(restore, s, c);
      Tools(c.tools, s + [Finish(c.finish), Think(c.reasoning), Say(c.content)]);
      ChoiceAtoms(s, c);
    }

    method Choices(cs: seq<Transcript.Choice>, ghost s: seq<Atom>)
      requires View() == Fold(restore, s)
      modifies this
      ensures View() == Fold(restore, s + OfChoices(cs))
    {
      AllChoices(s, cs);
      for k := 0 to |cs|
        invariant View() == Fold(restore, s + OfChoices(cs[..k]))
      {
        Choice(cs[k], s + OfChoices(cs[..k]));
        AfterChoice(s, cs, k);
      }
    }

    method Feed(chunk: Chunk, ghost s: seq<Atom>)
      requires View() == Fold(restore, s)
      modifies this
      ensures View() == Fold(restore, s + OfChunk(chunk))
    {
      if chunk.usage.Some? { usage := chunk.usage; }
      FoldSnoc(restore, s, Used(chunk.usage));
      Choices(chunk.choices, s + [Used(chunk.usage)]);
      ChunkAtoms(s, chunk);
    }

    method CloseText()
      modifies `seqNumber, `out
      ensures View() == CloseMessage(old(View()))
    {
      if msgIndex.None? { return; }
      Send(TextDone(msgIndex.value, textBuf));
      Send(PartDone(msgIndex.value, textBuf));
      Send(ItemDone(msgIndex.value, Message(textBuf)));
    }

    method CloseFunctionCalls(keys: seq<int>)
      modifies `seqNumber, `out
      ensures View() == CloseCalls(old(View()), restore, keys)
    {
      assert keys[..0] == [];
      for k := 0 to |keys|
        invariant View() == CloseCalls(old(View()), restore, keys[..k])
      {
        assert keys[..k + 1][..k] == keys[..k];
        var i := keys[k];
        if i in toolCalls {
          var slot := toolCalls[i];
          Send(ArgsDone(slot.item, i, slot.args));
          Send(ItemDone(slot.item, FunctionCall(i, slot.id, Restored(restore, slot.name), slot.args)));
        }
      }
      assert keys[..|keys|] == keys;
    }

    method End()
      modifies `seqNumber, `out
      ensures View() == Ended(old(View()), restore)
    {
      ghost var before := View();
      CloseText();
      CloseFunctionCalls(Sorted(toolOrder));
      Send(Completed(FinalOutput(View()), usage));
      SameOutput(before, restore);
    }
  }

  /** Closing events do not change what the final output is built from. */
  lemma {:induction false} SameOutput(st: State, restore: map<string, string>)
    ensures FinalOutput(CloseCalls(CloseMessage(st), restore, Sorted(st.order))) == FinalOutput(st)
    ensures CloseCalls(CloseMessage(st), restore, Sorted(st.order)).usage == st.usage
  {
    var v := CloseCalls(CloseMessage(st), restore, Sorted(st.order));
    TablesKept(CloseMessage(st), restore, Sorted(st.order));
    SamePairs(st, v, Sorted(st.order));
  }

  lemma {:induction false} TablesKept(st: State, restore: map<string, string>, keys: seq<int>)
    ensures var v := CloseCalls(st, restore, keys);
      v.slots == st.slots && v.order == st.order && v.message == st.message && v.text == st.text && v.usage == st.usage
  {
    if keys != [] { TablesKept(st, restore, keys[..|keys| - 1]); }
  }

  lemma {:induction false} SamePairs(st: State, v: State, keys: seq<int>)
    requires v.slots == st.slots
    ensures CallPairs(v, keys) == CallPairs(st, keys)
  {
    if keys != [] { SamePairs(st, v, keys[..|keys| - 1]); }
  }

  method StreamResponsesEvents(chunks: seq<Chunk>, restore: map<string, string>) returns (events: seq<Event>)
    ensures events == Ended(Fold(restore, OfChunks(chunks)), restore).out
  {
    var st := new StreamState(restore);
    for k := 0 to |chunks|
      invariant st.View() == Fold(restore, OfChunks(chunks[..k])) && fresh(st)
    {
      st.Feed(chunks[k], OfChunks(chunks[..k]));
      NextChunk(chunks, k);
    }
    assert chunks[..|chunks|] == chunks;
    st.End();
    events := st.out;
  }
}
