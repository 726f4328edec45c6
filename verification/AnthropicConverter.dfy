/** The Anthropic converter as a mutable object fed chunk by chunk, proved
    against `AnthropicEvents`. */
module AnthropicConverter {
  import opened Basics
  import opened Transcript
  import opened AnthropicEvents

  lemma {:induction false} FoldSnoc(s: seq<Atom>, a: Atom)
    ensures Fold(s + [a]) == Next(Fold(s), a)
  {
    Snoc(s, a);
  }

  lemma {:induction false} FoldWords(s: seq<Atom>, c: Choice)
    ensures Fold(s + [Finish(c.finish), Think(c.reasoning), Say(c.content)]) ==
      Next(Next(Next(Fold(s), Finish(c.finish)), Think(c.reasoning)), Say(c.content))
  {
    FoldSnoc(s, Finish(c.finish));
    FoldSnoc(s + [Finish(c.finish)], Think(c.reasoning));
    FoldSnoc(s + [Finish(c.finish)] + [Think(c.reasoning)], Say(c.content));
    assert s + [Finish(c.finish)] + [Think(c.reasoning)] + [Say(c.content)] == s + [Finish(c.finish), Think(c.reasoning), Say(c.content)];
  }

  lemma {:induction false} FoldCall(s: seq<Atom>, ts: seq<ToolDelta>, k: nat)
    requires k < |ts|
    ensures Fold(s + Calls(ts[..k + 1])) == Next(Fold(s + Calls(ts[..k])), Call(ts[k]))
  {
    NextCall(ts, k);
    FoldSnoc(s + Calls(ts[..k]), Call(ts[k]));
    assert s + Calls(ts[..k + 1]) == s + Calls(ts[..k]) + [Call(ts[k])];
  }

  class AnthropicStreamState {
    var blockIndex: int
    var openType: Open
    var toolBlocks: map<int, Slot>
    var toolOrder: seq<int>        // the dictionary's insertion order
    var usage: Option<Usage>
    var finishReason: string
    var out: seq<Event>

    constructor ()
      ensures Valid() && View() == INITIAL
    {
      blockIndex, openType, toolBlocks, toolOrder := -1, Closed, map[], [];
      usage, finishReason, out := None, "", [MessageStart];
    }

    predicate Valid()
      reads this
    {
      blockIndex >= -1
    }

    function View(): State
      reads this
      requires Valid()
    {
      State(blockIndex + 1, openType, toolBlocks, toolOrder, usage, finishReason, out)
    }

    method NextBlock() returns (index: int)
      requires Valid()
      modifies `blockIndex
      ensures Valid() && index == blockIndex == old(blockIndex) + 1
    {
      blockIndex := blockIndex + 1;
      index := blockIndex;
    }

    method CloseOpenBlock()
      requires Valid()
      modifies this
      ensures Valid() && View() == Close(old(View()))
    {
      if openType == Closed { return; }
      out := out + [BlockStop(blockIndex)];
      openType := Closed;
    }

    method Start(open: Open, block: Block)
      requires Valid()
      modifies this
      ensures Valid() && View() == StartBlock(old(View()), open, block)
    {
      CloseOpenBlock();
      var index := NextBlock();
      openType := open;
      out := out + [BlockStart(index, block)];
    }

    method Reasoning(text: string)
      requires Valid()
      modifies this
      ensures Valid() && View() == OnThink(old(View()), text)
    {
      if text == "" { return; }
      if openType != OpenThinking { Start(OpenThinking, ThinkingBlock); }
      out := out + [ThinkingDelta(blockIndex, text)];
    }

    method Content(text: string)
      requires Valid()
      modifies this
      ensures Valid() && View() == OnText(old(View()), text)
    {
      if text == "" { return; }
      if openType != OpenText { Start(OpenText, TextBlock); }
      out := out + [TextDelta(blockIndex, text)];
    }

    method Register(d: ToolDelta)
      requires Valid()
      modifies this
      ensures Valid() && View() == Registered(old(View()), d)
    {
      if d.index in toolBlocks { return; }
      toolBlocks := toolBlocks[d.index := Slot(d.id, "", false, 0)];
      toolOrder := toolOrder + [d.index];
    }

    method Name(d: ToolDelta)
      requires Valid() && d.index in toolBlocks
      modifies this
      ensures Valid() && View() == Renamed(old(View()), d)
    {
      var slot := toolBlocks[d.index];
      if slot.started { return; }
      toolBlocks := toolBlocks[d.index := slot.(name := slot.name + d.name)];
    }

    method Announce(d: ToolDelta)
      requires Valid() && d.index in toolBlocks
      modifies this
      ensures Valid() && View() == Announced(old(View()), d)
    {
      var slot := toolBlocks[d.index];
      if slot.started || d.args == "" { return; }
      Start(OpenTool, ToolBlock(d.index, slot.id, slot.name));
      toolBlocks := toolBlocks[d.index := slot.(block := blockIndex, started := true)];
    }

    method ToolCall(d: ToolDelta)
      requires Valid()
      modifies this
      ensures Valid() && View() == OnTool(old(View()), d)
    {
      Register(d);
      Name(d);
      Announce(d);
      if toolBlocks[d.index].started && d.args != "" { out := out + [JsonDelta(toolBlocks[d.index].block, d.args)]; }
    }

    method Words(c: Transcript.Choice)
      requires Valid()
      modifies this
      ensures Valid() && View() == OnText(OnThink(Next(old(View()), Finish(c.finish)), c.reasoning), c.content)
    {
      if c.finish != "" { finishReason := c.finish; }
      Reasoning(c.reasoning);
      Content(c.content);
    }

    method Tools(ts: seq<ToolDelta>, ghost s: seq<Atom>)
      requires Valid() && View() == Fold(s)
      modifies this
      ensures Valid() && View() == Fold(s + Calls(ts))
    {
      assert s + Calls(ts[..0]) == s;
      for k := 0 to |ts|
        invariant Valid() && View() == Fold(s + Calls(ts[..k]))
      {
        ToolCall(ts[k]);
        FoldCall(s, ts, k);
      }
      assert ts[..|ts|] == ts;
    }

    method Choice(c: Transcript.Choice, ghost s: seq<Atom>)
      requires Valid() && View() == Fold(s)
      modifies this
      ensures Valid() && View() == Fold(s + OfChoice(c))
    {
      Words(c);
      FoldWords(s, c);
      Tools(c.tools, s + [Finish(c.finish), Think(c.reasoning), Say(c.content)]);
      ChoiceAtoms(s, c);
    }

    method Choices(cs: seq<Transcript.Choice>, ghost s: seq<Atom>)
      requires Valid() && View() == Fold(s)
      modifies this
      ensures Valid() && View() == Fold(s + OfChoices(cs))
    {
      AllChoices(s, cs);
      for k := 0 to |cs|
        invariant Valid() && View() == Fold(s + OfChoices(cs[..k]))
      {
        Choice(cs[k], s + OfChoices(cs[..k]));
        AfterChoice(s, cs, k);
      }
    }

    method Feed(chunk: Chunk, ghost s: seq<Atom>)
      requires Valid() && View() == Fold(s)
      modifies this
      ensures Valid() && View() == Fold(s + OfChunk(chunk))
    {
      if chunk.usage.Some? { usage := chunk.usage; }
      FoldSnoc(s, Used(chunk.usage));
      Choices(chunk.choices, s + [Used(chunk.usage)]);
      ChunkAtoms(s, chunk);
    }

    method End()
      requires Valid()
      modifies this
      ensures Valid() && View() == Ended(old(View()))
    {
      CloseOpenBlock();
      ghost var closed := View();
      for k := 0 to |toolOrder|
        invariant Valid() && View() == Flush(closed, closed.order[..k]) && toolOrder == closed.order
        invariant finishReason == closed.finish && usage == closed.usage
      {
        assert closed.order[..k + 1][..k] == closed.order[..k];
        var i := toolOrder[k];
        if i in toolBlocks && !toolBlocks[i].started {
          var index := NextBlock();
          var slot := toolBlocks[i].(block := index, started := true);
          toolBlocks := toolBlocks[i := slot];
          out := out + [BlockStart(index, ToolBlock(i, slot.id, slot.name))];
          out := out + [BlockStop(index)];
        }
      }
      assert closed.order[..|closed.order|] == closed.order;
      out := out + [MessageDelta(StopReason(finishReason, toolOrder != []), usage)];
      out := out + [MessageStop];
    }
  }

  method StreamAnthropicEvents(chunks: seq<Chunk>) returns (events: seq<Event>)
    ensures events == Ended(Fold(OfChunks(chunks))).out
  {
    var st := new AnthropicStreamState();
    for k := 0 to |chunks|
      invariant st.Valid() && st.View() == Fold(OfChunks(chunks[..k])) && fresh(st)
    {
      st.Feed(chunks[k], OfChunks(chunks[..k]));
      NextChunk(chunks, k);
    }
    assert chunks[..|chunks|] == chunks;
    st.End();
    events := st.out;
  }
}
