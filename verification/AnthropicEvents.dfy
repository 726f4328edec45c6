/** The Anthropic event stream: what the converter emits, and what a client that
    follows the protocol reads out of it. */
module AnthropicEvents {
  import opened Basics
  import opened Transcript

  /** A tool block carries its call's id, the upstream one or one made up for
      the call; `slot` says which call that is. */
  datatype Block = TextBlock | ThinkingBlock | ToolBlock(slot: int, id: string, name: string)

  datatype Event =
    | MessageStart
    | BlockStart(index: int, block: Block)
    | TextDelta(index: int, text: string)
    | ThinkingDelta(index: int, text: string)
    | JsonDelta(index: int, text: string)
    | BlockStop(index: int)
    | MessageDelta(stop: string, usage: Option<Usage>)
    | MessageStop

  // ----------------------------------------------------------- the converter

  datatype Open = Closed | OpenThinking | OpenText | OpenTool

  datatype Slot = Slot(id: string, name: string, started: bool, block: nat)

  /** `blocks` is the next block index. */
  datatype State = State(blocks: nat, open: Open, slots: map<int, Slot>, order: seq<int>,
                         usage: Option<Usage>, finish: string, out: seq<Event>)

  const INITIAL := State(0, Closed, map[], [], None, "", [MessageStart])

  function Emit(st: State, e: Event): State { st.(out := st.out + [e]) }

  function Close(st: State): State {
    if st.open == Closed then st else Emit(st.(open := Closed), BlockStop(st.blocks - 1))
  }

  function StartBlock(st: State, open: Open, block: Block): State {
    Emit(Close(st).(open := open, blocks := st.blocks + 1), BlockStart(st.blocks, block))
  }

  function Ensure(st: State, open: Open, block: Block): State { if st.open == open then st else StartBlock(st, open, block) }

  function OnThink(st: State, text: string): State {
    if text == "" then st
    else
      var o := Ensure(st, OpenThinking, ThinkingBlock);
      Emit(o, ThinkingDelta(o.blocks - 1, text))
  }

  function OnText(st: State, text: string): State {
    if text == "" then st
    else
      var o := Ensure(st, OpenText, TextBlock);
      Emit(o, TextDelta(o.blocks - 1, text))
  }

  /** The slot of a call, made on first mention. */
  function Registered(st: State, d: ToolDelta): State {
    if d.index in st.slots then st
    else st.(slots := st.slots[d.index := Slot(d.id, "", false, 0)], order := st.order + [d.index])
  }

  /** The name grows until the block is announced. */
  function Renamed(st: State, d: ToolDelta): State
    requires d.index in st.slots
  {
    var slot := st.slots[d.index];
    if slot.started then st else st.(slots := st.slots[d.index := slot.(name := slot.name + d.name)])
  }

  /** The block opens with the first argument fragment. */
  function Announced(st: State, d: ToolDelta): State
    requires d.index in st.slots
  {
    var slot := st.slots[d.index];
    if slot.started || d.args == "" then st
    else StartBlock(st, OpenTool, ToolBlock(d.index, slot.id, slot.name)).(
           slots := st.slots[d.index := slot.(started := true, block := st.blocks)])
  }

  function OnTool(st: State, d: ToolDelta): State {
    var a := Announced(Renamed(Registered(st, d), d), d);
    if a.slots[d.index].started && d.args != "" then Emit(a, JsonDelta(a.slots[d.index].block, d.args)) else a
  }

  function Next(st: State, a: Atom): State {
    match a
    case Used(u) => if u.Some? then st.(usage := u) else st
    case Finish(f) => if f != "" then st.(finish := f) else st
    case Think(t) => OnThink(st, t)
    case Say(t) => OnText(st, t)
    case Call(d) => OnTool(st, d)
  }

  function Fold(s: seq<Atom>): State { if s == [] then INITIAL else Next(Fold(s[..|s| - 1]), s[|s| - 1]) }

  /** A call that never received arguments still gets an empty block. */
  function FlushSlot(st: State, i: int): State {
    if i !in st.slots || st.slots[i].started then st
    else
      var slot := st.slots[i];
      Emit(Emit(st.(blocks := st.blocks + 1, slots := st.slots[i := slot.(started := true, block := st.blocks)]),
                BlockStart(st.blocks, ToolBlock(i, slot.id, slot.name))), BlockStop(st.blocks))
  }

  function Flush(st: State, order: seq<int>): State {
    if order == [] then st else FlushSlot(Flush(st, order[..|order| - 1]), order[|order| - 1])
  }

  function StopReason(finish: string, tools: bool): string {
    if tools then "tool_use"
    else if finish == "length" || finish == "max_tokens" then "max_tokens"
    else if finish == "tool_calls" || finish == "tool_use" then "tool_use"
    else if finish == "content_filter" then "refusal"
    else "end_turn"
  }

  function Ended(st: State): State {
    Emit(Emit(Flush(Close(st), st.order), MessageDelta(StopReason(st.finish, st.order != []), st.usage)), MessageStop)
  }

  // -------------------------------------------------------------- the client

  datatype Content = Content(block: Block, text: string)

  datatype Phase = Waiting | Streaming | Ending | Done

  /** `strict` says every delta so far fell inside its open block. */
  datatype Client = Client(phase: Phase, blocks: seq<Content>, open: Option<int>, strict: bool, stop: string, usage: Option<Usage>)

  function Extend(c: Client, i: nat, text: string): Client
    requires i < |c.blocks|
  {
    c.(blocks := c.blocks[i := c.blocks[i].(text := c.blocks[i].text + text)], strict := c.strict && c.open == Some(i))
  }

  /** One event read by a client; None if the protocol does not allow it. */
  function Read(c: Client, e: Event): Option<Client> {
    match e
    case MessageStart => if c.phase.Waiting? then Some(c.(phase := Streaming)) else None
    case BlockStart(i, b) =>
      if c.phase.Streaming? && c.open.None? && i == |c.blocks|
      then Some(c.(blocks := c.blocks + [Content(b, "")], open := Some(i))) else None
    case TextDelta(i, t) =>
      if c.phase.Streaming? && 0 <= i < |c.blocks| && c.blocks[i].block.TextBlock? then Some(Extend(c, i, t)) else None
    case ThinkingDelta(i, t) =>
      if c.phase.Streaming? && 0 <= i < |c.blocks| && c.blocks[i].block.ThinkingBlock? then Some(Extend(c, i, t)) else None
    case JsonDelta(i, t) =>
      if c.phase.Streaming? && 0 <= i < |c.blocks| && c.blocks[i].block.ToolBlock? then Some(Extend(c, i, t)) else None
    case BlockStop(i) => if c.phase.Streaming? && c.open == Some(i) then Some(c.(open := None)) else None
    case MessageDelta(stop, usage) =>
      if c.phase.Streaming? && c.open.None? then Some(c.(phase := Ending, stop := stop, usage := usage)) else None
    case MessageStop => if c.phase.Ending? then Some(c.(phase := Done)) else None
  }

  function Replay(es: seq<Event>): Option<Client> {
    if es == [] then Some(Client(Waiting, [], None, true, "", None))
    else
      match Replay(es[..|es| - 1])
      case None => None
      case Some(c) => Read(c, es[|es| - 1])
  }

  lemma {:induction false} ReplaySnoc(es: seq<Event>, e: Event)
    ensures Replay(es + [e]) == match Replay(es) case None => None case Some(c) => Read(c, e)
  {
    assert (es + [e])[..|es|] == es;
  }

  function TextPart(x: Content): string { if x.block.TextBlock? then x.text else "" }

  function ThoughtPart(x: Content): string { if x.block.ThinkingBlock? then x.text else "" }

  function TextIn(bs: seq<Content>): string { if bs == [] then "" else TextIn(bs[..|bs| - 1]) + TextPart(bs[|bs| - 1]) }

  function ThoughtIn(bs: seq<Content>): string { if bs == [] then "" else ThoughtIn(bs[..|bs| - 1]) + ThoughtPart(bs[|bs| - 1]) }

  // --------------------------------------------- reference: names and order

  /** The id a call was first mentioned with. */
  function FirstId(s: seq<Atom>, i: int): string {
    if s == [] then ""
    else if Seen(s[..|s| - 1], i) then FirstId(s[..|s| - 1], i)
    else if Mentions(s[|s| - 1], i) then s[|s| - 1].delta.id else ""
  }

  /** The name as far as it was known with the first argument fragment. */
  function EarlyName(s: seq<Atom>, i: int): string {
    if s == [] then ""
    else if ArgsOf(s[..|s| - 1], i) != "" then EarlyName(s[..|s| - 1], i)
    else EarlyName(s[..|s| - 1], i) + Named(s[|s| - 1], i)
  }

  datatype Speaker = Nobody | Thinker | Teller | Tool(index: int)

  /** Who wrote last. */
  function LastSpeaker(s: seq<Atom>): Speaker {
    if s == [] then Nobody
    else
      match s[|s| - 1]
      case Think(t) => if t != "" then Thinker else LastSpeaker(s[..|s| - 1])
      case Say(t) => if t != "" then Teller else LastSpeaker(s[..|s| - 1])
      case Call(d) => if d.args != "" then Tool(d.index) else LastSpeaker(s[..|s| - 1])
      case _ => LastSpeaker(s[..|s| - 1])
  }

  /** `a` goes on with a call that somebody else has spoken after. */
  predicate Interrupted(s: seq<Atom>, a: Atom) {
    a.Call? && a.delta.args != "" && ArgsOf(s, a.delta.index) != "" && LastSpeaker(s) != Tool(a.delta.index)
  }

  predicate Orderly(s: seq<Atom>) { s != [] ==> Orderly(s[..|s| - 1]) && !Interrupted(s[..|s| - 1], s[|s| - 1]) }
}
