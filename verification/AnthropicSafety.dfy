/** Every event stream the Anthropic converter emits is well formed and says
    what the upstream stream said. */
module AnthropicSafety {
  import opened Basics
  import opened Transcript
  import opened AnthropicEvents

  // ------------------------------------------- converter and client in step

  /** The client has read everything so far and is where the converter is. */
  ghost predicate InStep(st: State, c: Client) { Replay(st.out) == Some(c) && Aligned(st, c) }

  ghost predicate Aligned(st: State, c: Client) {
    && c.phase == Streaming && |c.blocks| == st.blocks
    && c.open == (if st.open == Closed then None else Some(st.blocks - 1))
    && (st.open != Closed ==> st.blocks > 0)
    && (st.open == OpenText ==> c.blocks[st.blocks - 1].block.TextBlock?)
    && (st.open == OpenThinking ==> c.blocks[st.blocks - 1].block.ThinkingBlock?)
    && (st.open == OpenTool ==> c.blocks[st.blocks - 1].block.ToolBlock?)
  }

  function Shut(c: Client): Client { c.(open := None) }

  function Opened(c: Client, block: Block): Client { c.(open := Some(|c.blocks|), blocks := c.blocks + [Content(block, "")]) }

  lemma {:induction false} CloseInStep(st: State, c: Client)
    requires InStep(st, c)
    ensures InStep(Close(st), Shut(c))
  {
    ReplaySnoc(st.out, BlockStop(st.blocks - 1));
  }

  ghost predicate Fits(open: Open, block: Block) {
    match open
    case Closed => false
    case OpenThinking => block.ThinkingBlock?
    case OpenText => block.TextBlock?
    case OpenTool => block.ToolBlock?
  }

  lemma {:induction false} StartInStep(st: State, c: Client, open: Open, block: Block)
    requires InStep(st, c) && Fits(open, block)
    ensures InStep(StartBlock(st, open, block), Opened(c, block))
  {
    CloseInStep(st, c);
    ReplaySnoc(Close(st).out, BlockStart(st.blocks, block));
  }

  /** The client after `Ensure`. */
  function Ensured(st: State, c: Client, open: Open, block: Block): Client { if st.open == open then c else Opened(c, block) }

  lemma {:induction false} EnsureInStep(st: State, c: Client, open: Open, block: Block)
    requires InStep(st, c) && Fits(open, block)
    ensures InStep(Ensure(st, open, block), Ensured(st, c, open, block))
  {
    if st.open != open { StartInStep(st, c, open, block); }
  }

  lemma {:induction false} DeltaInStep(st: State, c: Client, e: Event, i: nat, text: string)
    requires InStep(st, c) && i < |c.blocks|
    requires || (e == TextDelta(i, text) && c.blocks[i].block.TextBlock?)
             || (e == ThinkingDelta(i, text) && c.blocks[i].block.ThinkingBlock?)
             || (e == JsonDelta(i, text) && c.blocks[i].block.ToolBlock?)
    ensures InStep(Emit(st, e), Extend(c, i, text))
  {
    ReplaySnoc(st.out, e);
  }

  // ------------------------------------------------------ what blocks say

  lemma {:induction false} WordsAfterOpen(bs: seq<Content>, block: Block)
    ensures TextIn(bs + [Content(block, "")]) == TextIn(bs) && ThoughtIn(bs + [Content(block, "")]) == ThoughtIn(bs)
  {
    assert (bs + [Content(block, "")])[..|bs|] == bs;
    assert TextIn(bs) + "" == TextIn(bs) && ThoughtIn(bs) + "" == ThoughtIn(bs);
  }

  /** The blocks after a delta into the last one. */
  function Grown(bs: seq<Content>, text: string): seq<Content>
    requires bs != []
  {
    bs[|bs| - 1 := bs[|bs| - 1].(text := bs[|bs| - 1].text + text)]
  }

  lemma {:induction false} Assoc(a: string, b: string, c: string)
    ensures a + (b + c) == a + b + c
  {
  }

  lemma {:induction false} TextAfterLast(bs: seq<Content>, text: string)
    requires bs != []
    ensures TextIn(Grown(bs, text)) == TextIn(bs) + (if bs[|bs| - 1].block.TextBlock? then text else "")
  {
    var front, last := bs[..|bs| - 1], bs[|bs| - 1];
    var after := Grown(bs, text);
    assert after[..|after| - 1] == front && after[|after| - 1] == last.(text := last.text + text);
    Assoc(TextIn(front), last.text, text);
  }

  lemma {:induction false} ThoughtAfterLast(bs: seq<Content>, text: string)
    requires bs != []
    ensures ThoughtIn(Grown(bs, text)) == ThoughtIn(bs) + (if bs[|bs| - 1].block.ThinkingBlock? then text else "")
  {
    var front, last := bs[..|bs| - 1], bs[|bs| - 1];
    var after := Grown(bs, text);
    assert after[..|after| - 1] == front && after[|after| - 1] == last.(text := last.text + text);
    Assoc(ThoughtIn(front), last.text, text);
  }

  lemma {:induction false} WordsAfterTool(bs: seq<Content>, k: nat, text: string)
    requires k < |bs| && bs[k].block.ToolBlock?
    ensures var after := bs[k := bs[k].(text := text)]; TextIn(after) == TextIn(bs) && ThoughtIn(after) == ThoughtIn(bs)
  {
    var after := bs[k := bs[k].(text := text)];
    var n := |bs| - 1;
    if k < n {
      WordsAfterTool(bs[..n], k, text);
      assert after[..n] == bs[..n][k := bs[k].(text := text)];
    } else {
      assert after[..n] == bs[..n];
    }
  }

  // -------------------------------------------------------- calls and blocks

  /** What the converter knows of call `i` is what was said of it so far. */
  ghost predicate KnowsCall(s: seq<Atom>, st: State, i: int) {
    && (i in st.order <==> i in st.slots) && (i in st.slots <==> Seen(s, i))
    && (i in st.slots ==> Tells(s, st.slots[i], i))
  }

  ghost predicate Tells(s: seq<Atom>, slot: Slot, i: int) {
    slot.id == FirstId(s, i) && slot.name == EarlyName(s, i) && (slot.started <==> ArgsOf(s, i) != "")
  }

  /** The converter knows exactly the calls mentioned so far. */
  ghost predicate Known(s: seq<Atom>, st: State) { Unrepeated(st.order) && forall i :: KnowsCall(s, st, i) }

  /** A started call has its block. */
  ghost predicate Owns(s: seq<Atom>, slot: Slot, bs: seq<Content>, i: int) {
    slot.started ==> slot.block < |bs| && bs[slot.block] == Content(ToolBlock(i, slot.id, slot.name), ArgsOf(s, i))
  }

  /** A tool block has its started call. */
  ghost predicate Owned(slots: map<int, Slot>, bs: seq<Content>, b: nat)
    requires b < |bs|
  {
    bs[b].block.ToolBlock? ==> var i := bs[b].block.slot; i in slots && slots[i].started && slots[i].block == b
  }

  /** Started calls and tool blocks are matched one to one. */
  ghost predicate Matched(s: seq<Atom>, slots: map<int, Slot>, bs: seq<Content>) {
    && (forall i :: i in slots ==> Owns(s, slots[i], bs, i)) && (forall b :: 0 <= b < |bs| ==> Owned(slots, bs, b))
  }

  lemma {:induction false} UnseenName(s: seq<Atom>, i: int)
    requires !Seen(s, i)
    ensures FirstId(s, i) == "" && EarlyName(s, i) == "" && ArgsOf(s, i) == ""
  {
    if s != [] { UnseenName(s[..|s| - 1], i); }
  }

  /** What an atom adds to what is known of call `i`. */
  lemma {:induction false} KnownOf(s: seq<Atom>, a: Atom, i: int)
    ensures Seen(s + [a], i) <==> Mentions(a, i) || Seen(s, i)
    ensures ArgsOf(s + [a], i) == ArgsOf(s, i) + Argued(a, i)
    ensures FirstId(s + [a], i) == if Seen(s, i) then FirstId(s, i) else if Mentions(a, i) then a.delta.id else ""
    ensures EarlyName(s + [a], i) == if ArgsOf(s, i) != "" then EarlyName(s, i) else EarlyName(s, i) + Named(a, i)
    ensures !Mentions(a, i) ==> ArgsOf(s + [a], i) == ArgsOf(s, i) && FirstId(s + [a], i) == FirstId(s, i) && EarlyName(s + [a], i) == EarlyName(s, i)
  {
    Snoc(s, a);
    if !Seen(s, i) { UnseenName(s, i); }
  }

  /** An atom that does not mention call `i` tells nothing new about it. */
  lemma {:induction false} KnowsOther(s: seq<Atom>, st: State, a: Atom, v: State, i: int)
    requires KnowsCall(s, st, i) && !Mentions(a, i)
    requires (i in v.slots <==> i in st.slots) && (i in v.order <==> i in st.order) && (i in st.slots ==> v.slots[i] == st.slots[i])
    ensures KnowsCall(s + [a], v, i)
  {
    KnownOf(s, a, i);
  }

  lemma {:induction false} KnownAfterQuiet(s: seq<Atom>, st: State, a: Atom, v: State)
    requires Known(s, st) && !a.Call? && v.slots == st.slots && v.order == st.order
    ensures Known(s + [a], v)
  {
    forall i ensures KnowsCall(s + [a], v, i) {
      assert KnowsCall(s, st, i);
      KnowsOther(s, st, a, v, i);
    }
  }

  /** The call's own slot after its delta. */
  function Entry(st: State, d: ToolDelta): Slot {
    var was := if d.index in st.slots then st.slots[d.index] else Slot(d.id, "", false, 0);
    var named := if was.started then was else was.(name := was.name + d.name);
    if named.started || d.args == "" then named else named.(started := true, block := st.blocks)
  }

  lemma {:induction false} OnToolSlots(st: State, d: ToolDelta)
    ensures OnTool(st, d).slots == st.slots[d.index := Entry(st, d)]
    ensures OnTool(st, d).order == if d.index in st.slots then st.order else st.order + [d.index]
  {
  }

  lemma {:induction false} EntryIsRight(s: seq<Atom>, st: State, d: ToolDelta)
    requires KnowsCall(s, st, d.index)
    ensures Tells(s + [Call(d)], Entry(st, d), d.index)
  {
    KnownOf(s, Call(d), d.index);
    if d.index !in st.slots {
      UnseenName(s, d.index);
      assert "" + d.name == d.name && "" + d.args == d.args;
    }
  }

  lemma {:induction false} KnowsEntry(s: seq<Atom>, st: State, d: ToolDelta, v: State)
    requires KnowsCall(s, st, d.index) && d.index in v.slots && v.slots[d.index] == Entry(st, d) && d.index in v.order
    ensures KnowsCall(s + [Call(d)], v, d.index)
  {
    EntryIsRight(s, st, d);
    KnownOf(s, Call(d), d.index);
  }

  lemma {:induction false} KnownWithEntry(s: seq<Atom>, st: State, d: ToolDelta, v: State)
    requires Known(s, st)
    requires v.slots == st.slots[d.index := Entry(st, d)]
    requires v.order == if d.index in st.slots then st.order else st.order + [d.index]
    ensures Known(s + [Call(d)], v)
  {
    assert KnowsCall(s, st, d.index);
    KnowsEntry(s, st, d, v);
    forall i | i != d.index ensures KnowsCall(s + [Call(d)], v, i) {
      assert KnowsCall(s, st, i);
      KnowsOther(s, st, Call(d), v, i);
    }
  }

  lemma {:induction false} KnownAfterCall(s: seq<Atom>, st: State, d: ToolDelta)
    requires Known(s, st)
    ensures Known(s + [Call(d)], OnTool(st, d))
  {
    OnToolSlots(st, d);
    KnownWithEntry(s, st, d, OnTool(st, d));
  }

  /** A block of a call `a` does not mention stays that call's. */
  lemma {:induction false} OwnsStill(s: seq<Atom>, a: Atom, slot: Slot, bs: seq<Content>, more: seq<Content>, i: int)
    requires Owns(s, slot, bs, i) && Argued(a, i) == ""
    requires slot.started && slot.block < |bs| ==> slot.block < |more| && more[slot.block] == bs[slot.block]
    ensures Owns(s + [a], slot, more, i)
  {
    KnownOf(s, a, i);
    assert ArgsOf(s, i) + "" == ArgsOf(s, i);
  }

  lemma {:induction false} MatchedAfterWords(s: seq<Atom>, a: Atom, slots: map<int, Slot>, bs: seq<Content>, more: seq<Content>)
    requires Matched(s, slots, bs) && !a.Call? && |bs| <= |more|
    requires forall b :: 0 <= b < |more| ==> if b < |bs| && bs[b].block.ToolBlock? then more[b] == bs[b] else !more[b].block.ToolBlock?
    ensures Matched(s + [a], slots, more)
  {
    forall i | i in slots ensures Owns(s + [a], slots[i], more, i) {
      assert Owns(s, slots[i], bs, i);
      OwnsStill(s, a, slots[i], bs, more, i);
    }
    forall b | 0 <= b < |more| ensures Owned(slots, more, b) {
      if b < |bs| { assert Owned(slots, bs, b); }
    }
  }

  /** A delta without arguments leaves the blocks alone. */
  lemma {:induction false} MatchedAfterMention(s: seq<Atom>, st: State, bs: seq<Content>, d: ToolDelta, slots: map<int, Slot>)
    requires Matched(s, st.slots, bs) && d.args == "" && slots == st.slots[d.index := Entry(st, d)]
    ensures Matched(s + [Call(d)], slots, bs)
  {
    forall i | i in slots ensures Owns(s + [Call(d)], slots[i], bs, i) {
      if i in st.slots {
        assert Owns(s, st.slots[i], bs, i);
        OwnsStill(s, Call(d), st.slots[i], bs, bs, i);
      }
    }
    forall b | 0 <= b < |bs| ensures Owned(slots, bs, b) {
      assert Owned(st.slots, bs, b);
    }
  }

  /** The block a call opens with its first arguments. */
  function FirstBlock(e: Slot, d: ToolDelta): Content { Content(ToolBlock(d.index, e.id, e.name), "" + d.args) }

  lemma {:induction false} OwnsFirst(s: seq<Atom>, e: Slot, bs: seq<Content>, d: ToolDelta)
    requires ArgsOf(s, d.index) == "" && e.block == |bs|
    ensures Owns(s + [Call(d)], e, bs + [FirstBlock(e, d)], d.index)
  {
    KnownOf(s, Call(d), d.index);
  }

  lemma {:induction false} MatchedAfterStart(s: seq<Atom>, st: State, bs: seq<Content>, d: ToolDelta, e: Slot, slots: map<int, Slot>)
    requires Matched(s, st.slots, bs) && ArgsOf(s, d.index) == "" && e.started && e.block == |bs|
    requires slots == st.slots[d.index := e] && (d.index !in st.slots || !st.slots[d.index].started)
    ensures Matched(s + [Call(d)], slots, bs + [FirstBlock(e, d)])
  {
    var more := bs + [FirstBlock(e, d)];
    OwnsFirst(s, e, bs, d);
    forall i | i in slots && i != d.index ensures Owns(s + [Call(d)], slots[i], more, i) {
      assert Owns(s, st.slots[i], bs, i);
      OwnsStill(s, Call(d), slots[i], bs, more, i);
    }
    forall b | 0 <= b < |more| ensures Owned(slots, more, b) {
      if b < |bs| { assert Owned(st.slots, bs, b); }
    }
  }

  /** The blocks after more arguments in block `k`. */
  function Fed(bs: seq<Content>, k: nat, text: string): seq<Content>
    requires k < |bs|
  {
    bs[k := bs[k].(text := bs[k].text + text)]
  }

  lemma {:induction false} OwnsMore(s: seq<Atom>, slot: Slot, bs: seq<Content>, d: ToolDelta)
    requires Owns(s, slot, bs, d.index) && slot.started
    ensures slot.block < |bs| && Owns(s + [Call(d)], slot, Fed(bs, slot.block, d.args), d.index)
  {
    KnownOf(s, Call(d), d.index);
  }

  lemma {:induction false} MatchedAfterMore(s: seq<Atom>, slots: map<int, Slot>, bs: seq<Content>, d: ToolDelta)
    requires Matched(s, slots, bs) && d.index in slots && slots[d.index].started
    ensures slots[d.index].block < |bs| && Matched(s + [Call(d)], slots, Fed(bs, slots[d.index].block, d.args))
  {
    assert Owns(s, slots[d.index], bs, d.index);
    OwnsMore(s, slots[d.index], bs, d);
    var k := slots[d.index].block;
    var more := Fed(bs, k, d.args);
    forall i | i in slots && i != d.index ensures Owns(s + [Call(d)], slots[i], more, i) {
      assert Owns(s, slots[i], bs, i);
      OwnsStill(s, Call(d), slots[i], bs, more, i);
    }
    forall b | 0 <= b < |more| ensures Owned(slots, more, b) {
      assert Owned(slots, bs, b);
    }
  }

  // --------------------------------------------------------- text and order

  ghost predicate Worded(s: seq<Atom>, st: State, c: Client) {
    && TextIn(c.blocks) == TextOf(s) && ThoughtIn(c.blocks) == ThoughtOf(s)
    && st.usage == UsageOf(s) && st.finish == FinishOf(s)
  }

  /** Which block is open follows from who wrote last, as long as nobody was
      interrupted; and the client saw strict nesting exactly as long. */
  ghost predicate Disciplined(s: seq<Atom>, st: State, c: Client) {
    && (c.strict <==> Orderly(s))
    && (Orderly(s) ==>
          match LastSpeaker(s)
          case Nobody => st.open == Closed
          case Thinker => st.open == OpenThinking
          case Teller => st.open == OpenText
          case Tool(i) => st.open == OpenTool && 0 < st.blocks <= |c.blocks| && c.blocks[st.blocks - 1].block.ToolBlock?
                          && c.blocks[st.blocks - 1].block.slot == i)
  }

  ghost predicate Good(s: seq<Atom>, st: State, c: Client) {
    InStep(st, c) && Known(s, st) && Matched(s, st.slots, c.blocks) && Worded(s, st, c) && Disciplined(s, st, c)
  }

  predicate Quiet(a: Atom) { a.Used? || a.Finish? || a == Think("") || a == Say("") }

  /** An atom with nothing to say. */
  lemma {:induction false} QuietAtom(s: seq<Atom>, a: Atom)
    requires Quiet(a)
    ensures TextOf(s + [a]) == TextOf(s) && ThoughtOf(s + [a]) == ThoughtOf(s)
    ensures LastSpeaker(s + [a]) == LastSpeaker(s) && (Orderly(s + [a]) <==> Orderly(s))
    ensures UsageOf(s + [a]) == if a.Used? && a.usage.Some? then a.usage else UsageOf(s)
    ensures FinishOf(s + [a]) == if a.Finish? && a.reason != "" then a.reason else FinishOf(s)
  {
    Snoc(s, a);
    assert TextOf(s) + "" == TextOf(s) && ThoughtOf(s) + "" == ThoughtOf(s);
  }

  lemma {:induction false} QuietShape(st: State, a: Atom)
    requires Quiet(a)
    ensures var v := Next(st, a);
      && v == st.(usage := v.usage, finish := v.finish)
      && v.usage == (if a.Used? && a.usage.Some? then a.usage else st.usage)
      && v.finish == (if a.Finish? && a.reason != "" then a.reason else st.finish)
  {
  }

  lemma {:induction false} QuietWords(s: seq<Atom>, st: State, c: Client, a: Atom, v: State)
    requires Worded(s, st, c) && Disciplined(s, st, c) && Quiet(a) && v == Next(st, a)
    ensures Worded(s + [a], v, c) && Disciplined(s + [a], v, c)
  {
    QuietAtom(s, a);
    QuietShape(st, a);
  }

  lemma {:induction false} QuietKeepsGood(s: seq<Atom>, st: State, c: Client, a: Atom)
    requires Good(s, st, c) && Quiet(a)
    ensures Good(s + [a], Next(st, a), c)
  {
    var v := Next(st, a);
    QuietShape(st, a);
    KnownAfterQuiet(s, st, a, v);
    MatchedAfterWords(s, a, st.slots, c.blocks, c.blocks);
    QuietWords(s, st, c, a, v);
  }

  /** The client after a text or thinking fragment. */
  function Spoke(st: State, c: Client, open: Open, block: Block, text: string): Client
    requires st.open == open ==> c.blocks != []
  {
    var e := Ensured(st, c, open, block);
    Extend(e, |e.blocks| - 1, text)
  }

  lemma {:induction false} SpokeWords(st: State, c: Client, open: Open, block: Block, text: string)
    requires InStep(st, c) && Fits(open, block) && !block.ToolBlock?
    ensures var d := Spoke(st, c, open, block, text);
      && TextIn(d.blocks) == TextIn(c.blocks) + (if block.TextBlock? then text else "")
      && ThoughtIn(d.blocks) == ThoughtIn(c.blocks) + (if block.ThinkingBlock? then text else "")
  {
    var e := Ensured(st, c, open, block);
    if st.open != open { WordsAfterOpen(c.blocks, block); }
    TextAfterLast(e.blocks, text);
    ThoughtAfterLast(e.blocks, text);
    assert Spoke(st, c, open, block, text).blocks == Grown(e.blocks, text);
  }

  /** Opening a block changes nothing but where the two are. */
  lemma {:induction false} EnsureKeeps(st: State, c: Client, open: Open, block: Block, o: State, e: Client)
    requires InStep(st, c) && Fits(open, block) && o == Ensure(st, open, block) && e == Ensured(st, c, open, block)
    ensures InStep(o, e) && o.open == open && 0 < o.blocks == |e.blocks| && e.open == Some(o.blocks - 1) && e.strict == c.strict
    ensures o.slots == st.slots && o.order == st.order && o.usage == st.usage && o.finish == st.finish
    ensures Fits(open, e.blocks[o.blocks - 1].block)
  {
    EnsureInStep(st, c, open, block);
  }

  lemma {:induction false} SpeakStep(o: State, e: Client, ev: Event, text: string, v: State, d: Client)
    requires InStep(o, e) && 0 < o.blocks && e.open == Some(o.blocks - 1)
    requires v == Emit(o, ev) && d == Extend(e, o.blocks - 1, text)
    requires || (ev == TextDelta(o.blocks - 1, text) && e.blocks[o.blocks - 1].block.TextBlock?)
             || (ev == ThinkingDelta(o.blocks - 1, text) && e.blocks[o.blocks - 1].block.ThinkingBlock?)
    ensures InStep(v, d) && d.strict == e.strict && v == o.(out := v.out)
  {
    DeltaInStep(o, e, ev, o.blocks - 1, text);
  }

  lemma {:induction false} ThinkSteps(st: State, c: Client, text: string)
    requires InStep(st, c) && text != ""
    ensures var v, d := OnThink(st, text), Spoke(st, c, OpenThinking, ThinkingBlock, text);
      InStep(v, d) && d.strict == c.strict && v.open == OpenThinking && v.slots == st.slots && v.order == st.order
      && v.usage == st.usage && v.finish == st.finish
  {
    var o, e := Ensure(st, OpenThinking, ThinkingBlock), Ensured(st, c, OpenThinking, ThinkingBlock);
    EnsureKeeps(st, c, OpenThinking, ThinkingBlock, o, e);
    SpeakStep(o, e, ThinkingDelta(o.blocks - 1, text), text, OnThink(st, text), Spoke(st, c, OpenThinking, ThinkingBlock, text));
  }

  lemma {:induction false} SaySteps(st: State, c: Client, text: string)
    requires InStep(st, c) && text != ""
    ensures var v, d := OnText(st, text), Spoke(st, c, OpenText, TextBlock, text);
      InStep(v, d) && d.strict == c.strict && v.open == OpenText && v.slots == st.slots && v.order == st.order
      && v.usage == st.usage && v.finish == st.finish
  {
    var o, e := Ensure(st, OpenText, TextBlock), Ensured(st, c, OpenText, TextBlock);
    EnsureKeeps(st, c, OpenText, TextBlock, o, e);
    SpeakStep(o, e, TextDelta(o.blocks - 1, text), text, OnText(st, text), Spoke(st, c, OpenText, TextBlock, text));
  }

  /** A fragment of text or thinking. */
  lemma {:induction false} SpokenAtom(s: seq<Atom>, a: Atom)
    requires (a.Think? || a.Say?) && a.text != ""
    ensures TextOf(s + [a]) == TextOf(s) + Spoken(a) && ThoughtOf(s + [a]) == ThoughtOf(s) + Thought(a)
    ensures LastSpeaker(s + [a]) == (if a.Think? then Thinker else Teller) && (Orderly(s + [a]) <==> Orderly(s))
    ensures UsageOf(s + [a]) == UsageOf(s) && FinishOf(s + [a]) == FinishOf(s)
  {
    Snoc(s, a);
  }

  lemma {:induction false} SpokeTools(st: State, c: Client, open: Open, block: Block, text: string, b: nat)
    requires Aligned(st, c) && Fits(open, block) && !block.ToolBlock?
    requires b < |Spoke(st, c, open, block, text).blocks|
    ensures var bs, more := c.blocks, Spoke(st, c, open, block, text).blocks;
      |bs| <= |more| && if b < |bs| && bs[b].block.ToolBlock? then more[b] == bs[b] else !more[b].block.ToolBlock?
  {
  }

  lemma {:induction false} SpokeMatched(s: seq<Atom>, st: State, c: Client, a: Atom, d: Client, open: Open, block: Block, text: string)
    requires Aligned(st, c) && Matched(s, st.slots, c.blocks) && Fits(open, block) && !block.ToolBlock? && !a.Call?
    requires d == Spoke(st, c, open, block, text)
    ensures Matched(s + [a], st.slots, d.blocks)
  {
    forall b | 0 <= b < |d.blocks|
      ensures if b < |c.blocks| && c.blocks[b].block.ToolBlock? then d.blocks[b] == c.blocks[b] else !d.blocks[b].block.ToolBlock?
    {
      SpokeTools(st, c, open, block, text, b);
    }
    MatchedAfterWords(s, a, st.slots, c.blocks, d.blocks);
  }

  lemma {:induction false} SpokeWorded(s: seq<Atom>, st: State, c: Client, a: Atom, v: State, d: Client, open: Open, block: Block)
    requires InStep(st, c) && Worded(s, st, c) && Disciplined(s, st, c) && Fits(open, block)
    requires (a.Think? && block.ThinkingBlock?) || (a.Say? && block.TextBlock?)
    requires a.text != "" && d == Spoke(st, c, open, block, a.text) && d.strict == c.strict
    requires v.open == open && v.usage == st.usage && v.finish == st.finish
    ensures Worded(s + [a], v, d) && Disciplined(s + [a], v, d)
  {
    SpokeWords(st, c, open, block, a.text);
    SpokenAtom(s, a);
  }

  /** A text or thinking fragment, once its effect is known. */
  lemma {:induction false} SpokeKeepsGood(s: seq<Atom>, st: State, c: Client, a: Atom, v: State, d: Client, open: Open, block: Block)
    requires Good(s, st, c) && InStep(v, d) && Fits(open, block)
    requires (a.Think? && block.ThinkingBlock?) || (a.Say? && block.TextBlock?)
    requires a.text != "" && d == Spoke(st, c, open, block, a.text) && d.strict == c.strict
    requires v.open == open && v.slots == st.slots && v.order == st.order && v.usage == st.usage && v.finish == st.finish
    ensures Good(s + [a], v, d)
  {
    KnownAfterQuiet(s, st, a, v);
    SpokeMatched(s, st, c, a, d, open, block, a.text);
    SpokeWorded(s, st, c, a, v, d, open, block);
  }

  /** The client after a call's delta. */
  function Handed(st: State, c: Client, d: ToolDelta): Client
    requires |c.blocks| == st.blocks
    requires d.index in st.slots && st.slots[d.index].started ==> st.slots[d.index].block < |c.blocks|
  {
    var e := Entry(st, d);
    if d.args == "" then c
    else if d.index in st.slots && st.slots[d.index].started then Extend(c, st.slots[d.index].block, d.args)
    else Extend(Opened(c, ToolBlock(d.index, e.id, e.name)), st.blocks, d.args)
  }

  lemma {:induction false} NamingInStep(st: State, c: Client, d: ToolDelta)
    requires InStep(st, c)
    ensures var r := Renamed(Registered(st, d), d);
      InStep(r, c) && r.out == st.out && r.blocks == st.blocks && r.open == st.open && r.usage == st.usage && r.finish == st.finish
  {
  }

  /** Call `d.index` has a block already. */
  predicate Going(st: State, d: ToolDelta) { d.index in st.slots && st.slots[d.index].started }

  /** The tool block's delta, after the block has been opened if need be. */
  lemma {:induction false} OpenedByCall(r: State, c: Client, d: ToolDelta, slot: Slot)
    requires InStep(r, c) && d.index in r.slots && r.slots[d.index] == slot && !slot.started && d.args != ""
    ensures InStep(Announced(r, d), Opened(c, ToolBlock(d.index, slot.id, slot.name)))
    ensures Announced(r, d).slots[d.index].started && Announced(r, d).slots[d.index].block == r.blocks
    ensures Announced(r, d).usage == r.usage && Announced(r, d).finish == r.finish
  {
    StartInStep(r, c, OpenTool, ToolBlock(d.index, slot.id, slot.name));
  }

  lemma {:induction false} CallInStep(s: seq<Atom>, st: State, c: Client, d: ToolDelta)
    requires InStep(st, c) && (Going(st, d) ==> Owns(s, st.slots[d.index], c.blocks, d.index))
    ensures InStep(OnTool(st, d), Handed(st, c, d))
    ensures OnTool(st, d).usage == st.usage && OnTool(st, d).finish == st.finish
  {
    var r := Renamed(Registered(st, d), d);
    NamingInStep(st, c, d);
    if d.args != "" {
      var slot := r.slots[d.index];
      if slot.started {
        DeltaInStep(r, c, JsonDelta(slot.block, d.args), slot.block, d.args);
      } else {
        OpenedByCall(r, c, d, slot);
        DeltaInStep(Announced(r, d), Opened(c, ToolBlock(d.index, slot.id, slot.name)), JsonDelta(st.blocks, d.args), st.blocks, d.args);
      }
    }
  }

  /** The blocks after a call's delta. */
  lemma {:induction false} HandedBlocks(st: State, c: Client, d: ToolDelta)
    requires |c.blocks| == st.blocks && (Going(st, d) ==> st.slots[d.index].block < |c.blocks|)
    ensures Handed(st, c, d).blocks ==
      if d.args == "" then c.blocks
      else if Going(st, d) then Fed(c.blocks, st.slots[d.index].block, d.args)
      else c.blocks + [FirstBlock(Entry(st, d), d)]
  {
    if d.args != "" && !Going(st, d) {
      assert Handed(st, c, d).blocks == c.blocks + [FirstBlock(Entry(st, d), d)];
    }
  }

  lemma {:induction false} CallMatched(s: seq<Atom>, st: State, c: Client, d: ToolDelta)
    requires KnowsCall(s, st, d.index) && Matched(s, st.slots, c.blocks) && |c.blocks| == st.blocks
    ensures Going(st, d) ==> st.slots[d.index].block < |c.blocks|
    ensures Matched(s + [Call(d)], OnTool(st, d).slots, Handed(st, c, d).blocks)
  {
    OnToolSlots(st, d);
    if Going(st, d) { assert Owns(s, st.slots[d.index], c.blocks, d.index); }
    HandedBlocks(st, c, d);
    UnseenArgs(s, d.index);
    if d.args == "" { MatchedAfterMention(s, st, c.blocks, d, OnTool(st, d).slots); }
    else if Going(st, d) {
      MatchedAfterMore(s, st.slots, c.blocks, d);
      assert Entry(st, d) == st.slots[d.index];
      assert OnTool(st, d).slots == st.slots;
    }
    else { MatchedAfterStart(s, st, c.blocks, d, Entry(st, d), OnTool(st, d).slots); }
  }

  lemma {:induction false} FedWords(bs: seq<Content>, k: nat, text: string)
    requires k < |bs| && bs[k].block.ToolBlock?
    ensures TextIn(Fed(bs, k, text)) == TextIn(bs) && ThoughtIn(Fed(bs, k, text)) == ThoughtIn(bs)
  {
    WordsAfterTool(bs, k, bs[k].text + text);
  }

  lemma {:induction false} ToolSaysNothing(bs: seq<Content>, x: Content)
    requires x.block.ToolBlock?
    ensures TextIn(bs + [x]) == TextIn(bs) && ThoughtIn(bs + [x]) == ThoughtIn(bs)
  {
    assert (bs + [x])[..|bs|] == bs;
    assert TextIn(bs) + "" == TextIn(bs) && ThoughtIn(bs) + "" == ThoughtIn(bs);
  }

  lemma {:induction false} CallWords(s: seq<Atom>, st: State, c: Client, d: ToolDelta)
    requires |c.blocks| == st.blocks && (Going(st, d) ==> Owns(s, st.slots[d.index], c.blocks, d.index))
    ensures TextIn(Handed(st, c, d).blocks) == TextIn(c.blocks) && ThoughtIn(Handed(st, c, d).blocks) == ThoughtIn(c.blocks)
  {
    HandedBlocks(st, c, d);
    if Going(st, d) {
      FedWords(c.blocks, st.slots[d.index].block, d.args);
    } else {
      ToolSaysNothing(c.blocks, FirstBlock(Entry(st, d), d));
    }
  }

  /** The open block is the call's own exactly when nobody spoke after it. */
  lemma {:induction false} OpenIsOwn(s: seq<Atom>, st: State, c: Client, i: int)
    requires Aligned(st, c) && i in st.slots && st.slots[i].started && Owns(s, st.slots[i], c.blocks, i) && Orderly(s) && Disciplined(s, st, c)
    requires st.blocks > 0 ==> Owned(st.slots, c.blocks, st.blocks - 1)
    ensures c.open == Some(st.slots[i].block) <==> LastSpeaker(s) == Tool(i)
    ensures LastSpeaker(s) == Tool(i) ==> st.open == OpenTool && st.slots[i].block == st.blocks - 1
  {
  }

  /** Where the converter is after a call's delta. */
  lemma {:induction false} OnToolPlace(st: State, d: ToolDelta)
    ensures var v := OnTool(st, d);
      if d.args == "" || Going(st, d) then v.open == st.open && v.blocks == st.blocks else v.open == OpenTool && v.blocks == st.blocks + 1
  {
  }

  lemma {:induction false} OrderlyAfter(s: seq<Atom>, d: ToolDelta)
    ensures Orderly(s + [Call(d)]) <==> Orderly(s) && !Interrupted(s, Call(d))
    ensures LastSpeaker(s + [Call(d)]) == if d.args != "" then Tool(d.index) else LastSpeaker(s)
  {
    Snoc(s, Call(d));
  }

  /** A call that goes on speaking. */
  lemma {:induction false} MoreDisciplined(s: seq<Atom>, st: State, c: Client, d: ToolDelta, v: State, e: Client)
    requires Aligned(st, c) && Disciplined(s, st, c) && Going(st, d) && d.args != "" && ArgsOf(s, d.index) != ""
    requires Owns(s, st.slots[d.index], c.blocks, d.index) && (st.blocks > 0 ==> Owned(st.slots, c.blocks, st.blocks - 1))
    requires e == Extend(c, st.slots[d.index].block, d.args) && v.open == st.open && v.blocks == st.blocks
    ensures Disciplined(s + [Call(d)], v, e)
  {
    OrderlyAfter(s, d);
    if Orderly(s) { OpenIsOwn(s, st, c, d.index); }
  }

  /** A call that starts to speak, or says nothing yet. */
  lemma {:induction false} FirstDisciplined(s: seq<Atom>, st: State, c: Client, d: ToolDelta, v: State, e: Client)
    requires Aligned(st, c) && Disciplined(s, st, c) && (d.args == "" || (!Going(st, d) && ArgsOf(s, d.index) == ""))
    requires d.args == "" ==> e == c && v.open == st.open && v.blocks == st.blocks
    requires d.args != "" ==> v.open == OpenTool && v.blocks == st.blocks + 1
    requires d.args != "" ==> e == Extend(Opened(c, ToolBlock(d.index, Entry(st, d).id, Entry(st, d).name)), st.blocks, d.args)
    ensures Disciplined(s + [Call(d)], v, e)
  {
    OrderlyAfter(s, d);
  }

  lemma {:induction false} CallDisciplined(s: seq<Atom>, st: State, c: Client, d: ToolDelta)
    requires Aligned(st, c) && KnowsCall(s, st, d.index) && Disciplined(s, st, c) && (st.blocks > 0 ==> Owned(st.slots, c.blocks, st.blocks - 1))
    requires Going(st, d) ==> Owns(s, st.slots[d.index], c.blocks, d.index)
    ensures Disciplined(s + [Call(d)], OnTool(st, d), Handed(st, c, d))
  {
    UnseenArgs(s, d.index);
    OnToolPlace(st, d);
    if d.args != "" && Going(st, d) {
      MoreDisciplined(s, st, c, d, OnTool(st, d), Handed(st, c, d));
    } else {
      FirstDisciplined(s, st, c, d, OnTool(st, d), Handed(st, c, d));
    }
  }

  lemma {:induction false} UnseenArgs(s: seq<Atom>, i: int)
    ensures !Seen(s, i) ==> ArgsOf(s, i) == ""
  {
    if !Seen(s, i) { UnseenName(s, i); }
  }

  lemma {:induction false} CallAtom(s: seq<Atom>, d: ToolDelta)
    ensures TextOf(s + [Call(d)]) == TextOf(s) && ThoughtOf(s + [Call(d)]) == ThoughtOf(s)
    ensures UsageOf(s + [Call(d)]) == UsageOf(s) && FinishOf(s + [Call(d)]) == FinishOf(s)
  {
    Snoc(s, Call(d));
    assert TextOf(s) + "" == TextOf(s) && ThoughtOf(s) + "" == ThoughtOf(s);
  }

  lemma {:induction false} CallKeepsGood(s: seq<Atom>, st: State, c: Client, d: ToolDelta)
    requires Good(s, st, c)
    ensures Going(st, d) ==> st.slots[d.index].block < |c.blocks|
    ensures Good(s + [Call(d)], OnTool(st, d), Handed(st, c, d))
  {
    assert KnowsCall(s, st, d.index);
    if Going(st, d) { assert Owns(s, st.slots[d.index], c.blocks, d.index); }
    if st.blocks > 0 { assert Owned(st.slots, c.blocks, st.blocks - 1); }
    KnownAfterCall(s, st, d);
    CallInStep(s, st, c, d);
    CallMatched(s, st, c, d);
    CallWords(s, st, c, d);
    CallDisciplined(s, st, c, d);
    CallAtom(s, d);
  }

  lemma {:induction false} NextKeepsGood(s: seq<Atom>, st: State, c: Client, a: Atom) returns (d: Client)
    requires Good(s, st, c)
    ensures Good(s + [a], Next(st, a), d)
  {
    if a.Call? {
      CallKeepsGood(s, st, c, a.delta);
      d := Handed(st, c, a.delta);
    } else if a.Think? && a.text != "" {
      d := Spoke(st, c, OpenThinking, ThinkingBlock, a.text);
      ThinkSteps(st, c, a.text);
      SpokeKeepsGood(s, st, c, a, OnThink(st, a.text), d, OpenThinking, ThinkingBlock);
    } else if a.Say? && a.text != "" {
      d := Spoke(st, c, OpenText, TextBlock, a.text);
      SaySteps(st, c, a.text);
      SpokeKeepsGood(s, st, c, a, OnText(st, a.text), d, OpenText, TextBlock);
    } else {
      QuietKeepsGood(s, st, c, a);
      d := c;
    }
  }

  lemma {:induction false} FoldIsGood(s: seq<Atom>) returns (c: Client)
    ensures Good(s, Fold(s), c)
  {
    if s == [] {
      c := Client(Streaming, [], None, true, "", None);
      ReplaySnoc([], MessageStart);
      assert [] + [MessageStart] == [MessageStart];
    } else {
      var b := FoldIsGood(s[..|s| - 1]);
      c := NextKeepsGood(s[..|s| - 1], Fold(s[..|s| - 1]), b, s[|s| - 1]);
      assert s == s[..|s| - 1] + [s[|s| - 1]];
    }
  }

  // ------------------------------------------------------------- the ending

  /** What is known of call `i` once the upstream stream has ended; its block may
      have been opened empty. */
  ghost predicate Settled(s: seq<Atom>, slots: map<int, Slot>, i: int) {
    && (i in slots <==> Seen(s, i))
    && (i in slots ==> slots[i].id == FirstId(s, i) && slots[i].name == EarlyName(s, i) && (slots[i].started || ArgsOf(s, i) == ""))
  }

  /** Like `Good`, while empty blocks are being handed to the calls left over. */
  ghost predicate Closing(s: seq<Atom>, st: State, c: Client) {
    && InStep(st, c) && st.open == Closed && Matched(s, st.slots, c.blocks)
    && TextIn(c.blocks) == TextOf(s) && ThoughtIn(c.blocks) == ThoughtOf(s) && (c.strict <==> Orderly(s))
    && forall i :: Settled(s, st.slots, i)
  }

  lemma {:induction false} CloseKeeps(s: seq<Atom>, st: State, c: Client)
    requires Good(s, st, c)
    ensures Closing(s, Close(st), Shut(c))
  {
    CloseInStep(st, c);
    forall i ensures Settled(s, st.slots, i) { assert KnowsCall(s, st, i); }
  }

  function Flushed(st: State, c: Client, i: int): Client {
    if i !in st.slots || st.slots[i].started then c
    else c.(blocks := c.blocks + [Content(ToolBlock(i, st.slots[i].id, st.slots[i].name), "")])
  }

  lemma {:induction false} FlushInStep(st: State, c: Client, i: int)
    requires InStep(st, c) && st.open == Closed
    ensures InStep(FlushSlot(st, i), Flushed(st, c, i)) && FlushSlot(st, i).open == Closed
  {
    if i in st.slots && !st.slots[i].started {
      var slot := st.slots[i];
      var start := BlockStart(st.blocks, ToolBlock(i, slot.id, slot.name));
      ReplaySnoc(st.out, start);
      ReplaySnoc(st.out + [start], BlockStop(st.blocks));
    }
  }

  lemma {:induction false} FlushMatched(s: seq<Atom>, slots: map<int, Slot>, bs: seq<Content>, i: int, e: Slot)
    requires Matched(s, slots, bs) && i in slots && !slots[i].started && ArgsOf(s, i) == "" && e == slots[i].(started := true, block := |bs|)
    ensures Matched(s, slots[i := e], bs + [Content(ToolBlock(i, e.id, e.name), "")])
  {
    var after, more := slots[i := e], bs + [Content(ToolBlock(i, e.id, e.name), "")];
    forall j | j in after ensures Owns(s, after[j], more, j) {
      if j != i { assert Owns(s, slots[j], bs, j); }
    }
    forall b | 0 <= b < |more| ensures Owned(after, more, b) {
      if b < |bs| { assert Owned(slots, bs, b); }
    }
  }

  lemma {:induction false} FlushSettles(s: seq<Atom>, slots: map<int, Slot>, i: int, e: Slot, after: map<int, Slot>)
    requires i in slots && e == slots[i].(started := true, block := e.block) && after == slots[i := e] && forall j :: Settled(s, slots, j)
    ensures forall j :: Settled(s, after, j)
  {
    forall j ensures Settled(s, after, j) { assert Settled(s, slots, j); }
  }

  lemma {:induction false} FlushKeeps(s: seq<Atom>, st: State, c: Client, i: int)
    requires Closing(s, st, c)
    ensures Closing(s, FlushSlot(st, i), Flushed(st, c, i))
  {
    FlushInStep(st, c, i);
    if i in st.slots && !st.slots[i].started {
      assert Settled(s, st.slots, i);
      var e := st.slots[i].(started := true, block := st.blocks);
      FlushMatched(s, st.slots, c.blocks, i, e);
      FlushSettles(s, st.slots, i, e, FlushSlot(st, i).slots);
      ToolSaysNothing(c.blocks, Content(ToolBlock(i, e.id, e.name), ""));
    }
  }

  lemma {:induction false} FlushStarts(st: State, order: seq<int>)
    ensures Flush(st, order).slots.Keys == st.slots.Keys && Flush(st, order).finish == st.finish && Flush(st, order).usage == st.usage
    ensures forall k :: 0 <= k < |order| && order[k] in st.slots ==> Flush(st, order).slots[order[k]].started
  {
    if order != [] {
      var front := order[..|order| - 1];
      FlushStarts(st, front);
      forall k | 0 <= k < |order| - 1 && order[k] in st.slots ensures Flush(st, order).slots[order[k]].started {
        assert front[k] == order[k];
      }
    }
  }

  lemma {:induction false} FlushAllKeeps(s: seq<Atom>, st: State, c: Client, order: seq<int>) returns (d: Client)
    requires Closing(s, st, c)
    ensures Closing(s, Flush(st, order), d)
  {
    if order == [] {
      d := c;
    } else {
      var b := FlushAllKeeps(s, st, c, order[..|order| - 1]);
      var mid := Flush(st, order[..|order| - 1]);
      FlushKeeps(s, mid, b, order[|order| - 1]);
      d := Flushed(mid, b, order[|order| - 1]);
    }
  }

  /** The state once every call has its block. */
  function Complete(s: seq<Atom>): State { Flush(Close(Fold(s)), Fold(s).order) }

  /** The block that belongs to call `i`. */
  function BlockOf(s: seq<Atom>, i: int): nat { if i in Complete(s).slots then Complete(s).slots[i].block else 0 }

  lemma {:induction false} CompleteIsClosing(s: seq<Atom>) returns (c: Client)
    ensures Closing(s, Complete(s), c)
    ensures forall i :: i in Complete(s).slots ==> Complete(s).slots[i].started
    ensures Complete(s).usage == Fold(s).usage == UsageOf(s) && Complete(s).finish == Fold(s).finish == FinishOf(s)
  {
    var b := FoldIsGood(s);
    var st := Fold(s);
    CloseKeeps(s, st, b);
    c := FlushAllKeeps(s, Close(st), Shut(b), st.order);
    FlushStarts(Close(st), st.order);
    forall i | i in Complete(s).slots ensures Complete(s).slots[i].started {
      assert KnowsCall(s, st, i);
      var k :| 0 <= k < |st.order| && st.order[k] == i;
      assert Complete(s).slots[st.order[k]].started;
    }
  }

  lemma {:induction false} HasCallExactly(s: seq<Atom>)
    ensures Fold(s).order != [] <==> HasCall(s)
  {
    if s != [] {
      HasCallExactly(s[..|s| - 1]);
      var st, a := Fold(s[..|s| - 1]), s[|s| - 1];
      if a.Call? { OnToolSlots(st, a.delta); FoldKnowsOrder(s[..|s| - 1]); }
    }
  }

  lemma {:induction false} FoldKnowsOrder(s: seq<Atom>)
    ensures forall i :: i in Fold(s).slots ==> i in Fold(s).order
  {
    var c := FoldIsGood(s);
    forall i | i in Fold(s).slots ensures i in Fold(s).order { assert KnowsCall(s, Fold(s), i); }
  }

  lemma {:induction false} EndingReads(st: State, c: Client, stop: string)
    requires InStep(st, c) && st.open == Closed
    ensures Replay(Emit(Emit(st, MessageDelta(stop, st.usage)), MessageStop).out)
         == Some(c.(phase := Done, stop := stop, usage := st.usage))
  {
    ReplaySnoc(st.out, MessageDelta(stop, st.usage));
    ReplaySnoc(st.out + [MessageDelta(stop, st.usage)], MessageStop);
  }

  /** Call `i`'s block holds its first id, its early name, its whole argument
      string. */
  ghost predicate Delivered(s: seq<Atom>, c: Client, i: int) {
    && BlockOf(s, i) < |c.blocks|
    && c.blocks[BlockOf(s, i)] == Content(ToolBlock(i, FirstId(s, i), EarlyName(s, i)), ArgsOf(s, i))
  }

  /** Block `b`, if it is a call's, is that call's one block. */
  ghost predicate Belongs(s: seq<Atom>, c: Client, b: nat)
    requires b < |c.blocks|
  {
    c.blocks[b].block.ToolBlock? ==> Seen(s, c.blocks[b].block.slot) && BlockOf(s, c.blocks[b].block.slot) == b
  }

  lemma {:induction false} ClosingDelivers(s: seq<Atom>, c: Client)
    requires Closing(s, Complete(s), c) && forall i :: i in Complete(s).slots ==> Complete(s).slots[i].started
    ensures forall i :: Seen(s, i) ==> Delivered(s, c, i)
    ensures forall b :: 0 <= b < |c.blocks| ==> Belongs(s, c, b)
  {
    var st := Complete(s);
    forall i | Seen(s, i) ensures Delivered(s, c, i) {
      assert Settled(s, st.slots, i) && Owns(s, st.slots[i], c.blocks, i);
    }
    forall b | 0 <= b < |c.blocks| ensures Belongs(s, c, b) {
      assert Owned(st.slots, c.blocks, b);
      if c.blocks[b].block.ToolBlock? { assert Settled(s, st.slots, c.blocks[b].block.slot); }
    }
  }

  /** The stop reason a finish reason is told as. */
  ghost predicate StopFits(finish: string, stop: string) {
    && (finish == "length" || finish == "max_tokens" ==> stop == "max_tokens")
    && (finish == "tool_calls" || finish == "tool_use" ==> stop == "tool_use")
    && (finish == "content_filter" ==> stop == "refusal")
    && (finish !in {"length", "max_tokens", "tool_calls", "tool_use", "content_filter"} ==> stop == "end_turn")
  }

  lemma {:induction false} StopIsTold(finish: string)
    ensures StopReason(finish, true) == "tool_use" && StopFits(finish, StopReason(finish, false))
  {
  }

  /** Whatever upstream sends, the client can read the whole stream: blocks
      numbered from 0, each started and stopped before the next; it hears the
      same text, thinking and usage; every call has exactly one block, with its
      full argument string; every delta fell inside its open block exactly when
      no call was interrupted; and the stop reason says that there were calls,
      or else what the finish reason was. */
  lemma {:induction false} AnthropicStreamIsFaithful(s: seq<Atom>) returns (c: Client)
    ensures Replay(Ended(Fold(s)).out) == Some(c) && c.phase == Done && c.open.None?
    ensures TextIn(c.blocks) == TextOf(s) && ThoughtIn(c.blocks) == ThoughtOf(s)
    ensures forall i :: Seen(s, i) ==> Delivered(s, c, i)
    ensures forall b :: 0 <= b < |c.blocks| ==> Belongs(s, c, b)
    ensures c.strict <==> Orderly(s)
    ensures c.usage == UsageOf(s) && if HasCall(s) then c.stop == "tool_use" else StopFits(FinishOf(s), c.stop)
  {
    var e := CompleteIsClosing(s);
    var st := Complete(s);
    var stop := StopReason(st.finish, Fold(s).order != []);
    EndingReads(st, e, stop);
    ClosingDelivers(s, e);
    HasCallExactly(s);
    StopIsTold(st.finish);
    c := e.(phase := Done, stop := stop, usage := st.usage);
    forall i | Seen(s, i) ensures Delivered(s, c, i) { assert Delivered(s, e, i); }
    forall b | 0 <= b < |c.blocks| ensures Belongs(s, c, b) { assert Belongs(s, e, b); }
  }
}
