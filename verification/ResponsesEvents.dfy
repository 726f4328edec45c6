/** The Responses event stream: what the converter emits, and what a client that
    checks everything it can reads out of it. */
module ResponsesEvents {
  import opened Basics
  import opened Transcript

  /** `slot` stands for the item id made up for the call. */
  datatype Item = Message(text: string) | FunctionCall(slot: int, callId: string, name: string, args: string)

  datatype Body =
    | Created
    | InProgress
    | ItemAdded(index: nat, item: Item)
    | PartAdded(index: nat)
    | TextDelta(index: nat, text: string)
    | ArgsDelta(index: nat, slot: int, text: string)
    | TextDone(index: nat, text: string)
    | PartDone(index: nat, text: string)
    | ArgsDone(index: nat, slot: int, args: string)
    | ItemDone(index: nat, item: Item)
    | Completed(output: seq<Item>, usage: Option<Usage>)

  datatype Event = Event(number: nat, body: Body)

  // ----------------------------------------------------------- the converter

  datatype Slot = Slot(id: string, name: string, args: string, item: nat)

  datatype State = State(number: nat, message: Option<nat>, text: string, slots: map<int, Slot>, order: seq<int>,
                         announced: set<int>, items: nat, usage: Option<Usage>, out: seq<Event>)

  function Emit(st: State, b: Body): State { st.(number := st.number + 1, out := st.out + [Event(st.number + 1, b)]) }

  const EMPTY := State(0, None, "", map[], [], {}, 0, None, [])

  function Begun(): State { Emit(Emit(EMPTY, Created), InProgress) }

  function Restored(restore: map<string, string>, name: string): string { if name in restore then restore[name] else name }

  function OpenMessage(st: State): State {
    if st.message.Some? then st
    else Emit(Emit(st.(message := Some(st.items), items := st.items + 1), ItemAdded(st.items, Message(""))), PartAdded(st.items))
  }

  function OnText(st: State, text: string): State {
    if text == "" then st
    else
      var o := OpenMessage(st);
      Emit(o.(text := o.text + text), TextDelta(if o.message.Some? then o.message.value else 0, text))
  }

  /** The call's slot with the delta merged in. */
  function Merged(st: State, d: ToolDelta): Slot {
    var was := if d.index in st.slots then st.slots[d.index] else Slot("", "", "", 0);
    Slot(if d.id != "" then d.id else was.id, was.name + d.name, was.args + d.args, was.item)
  }

  function Stored(st: State, d: ToolDelta): State {
    st.(slots := st.slots[d.index := Merged(st, d)], order := if d.index in st.slots then st.order else st.order + [d.index])
  }

  /** An item is added as soon as the call has an id or a name. */
  function Announced(st: State, restore: map<string, string>, i: int): State
    requires i in st.slots
  {
    var slot := st.slots[i];
    if i in st.announced || (slot.id == "" && slot.name == "") then st
    else Emit(st.(announced := st.announced + {i}, slots := st.slots[i := slot.(item := st.items)], items := st.items + 1),
              ItemAdded(st.items, FunctionCall(i, slot.id, Restored(restore, slot.name), "")))
  }

  function OnTool(st: State, restore: map<string, string>, d: ToolDelta): State {
    var a := Announced(Stored(st, d), restore, d.index);
    if d.args != "" && d.index in a.announced then Emit(a, ArgsDelta(a.slots[d.index].item, d.index, d.args)) else a
  }

  function Next(st: State, restore: map<string, string>, a: Atom): State {
    match a
    case Used(u) => if u.Some? then st.(usage := u) else st
    case Finish(_) => st
    case Think(_) => st
    case Say(t) => OnText(st, t)
    case Call(d) => OnTool(st, restore, d)
  }

  function Fold(restore: map<string, string>, s: seq<Atom>): State {
    if s == [] then Begun() else Next(Fold(restore, s[..|s| - 1]), restore, s[|s| - 1])
  }

  function CloseMessage(st: State): State {
    match st.message
    case None => st
    case Some(m) => Emit(Emit(Emit(st, TextDone(m, st.text)), PartDone(m, st.text)), ItemDone(m, Message(st.text)))
  }

  function CloseCall(st: State, restore: map<string, string>, i: int): State {
    if i !in st.slots then st
    else
      var slot := st.slots[i];
      Emit(Emit(st, ArgsDone(slot.item, i, slot.args)),
           ItemDone(slot.item, FunctionCall(i, slot.id, Restored(restore, slot.name), slot.args)))
  }

  function CloseCalls(st: State, restore: map<string, string>, keys: seq<int>): State {
    if keys == [] then st else CloseCall(CloseCalls(st, restore, keys[..|keys| - 1]), restore, keys[|keys| - 1])
  }

  // ------------------------------------------------------- the final output

  function InsertPair(ps: seq<(nat, Item)>, p: (nat, Item)): seq<(nat, Item)> {
    if ps == [] || p.0 < ps[0].0 then [p] + ps else [ps[0]] + InsertPair(ps[1..], p)
  }

  /** The stable sort by index. */
  function SortPairs(ps: seq<(nat, Item)>): seq<(nat, Item)> {
    if ps == [] then [] else InsertPair(SortPairs(ps[..|ps| - 1]), ps[|ps| - 1])
  }

  function Items(ps: seq<(nat, Item)>): seq<Item> { if ps == [] then [] else Items(ps[..|ps| - 1]) + [ps[|ps| - 1].1] }

  function CallPair(st: State, i: int): (nat, Item)
    requires i in st.slots
  {
    (st.slots[i].item, FunctionCall(i, st.slots[i].id, st.slots[i].name, st.slots[i].args))
  }

  function CallPairs(st: State, keys: seq<int>): seq<(nat, Item)> {
    if keys == [] then []
    else CallPairs(st, keys[..|keys| - 1]) + if keys[|keys| - 1] in st.slots then [CallPair(st, keys[|keys| - 1])] else []
  }

  function Pairs(st: State): seq<(nat, Item)> {
    (if st.text != "" || st.order == [] then [(if st.message.Some? then st.message.value else 0, Message(st.text))] else [])
    + CallPairs(st, Sorted(st.order))
  }

  function FinalOutput(st: State): seq<Item> { Items(SortPairs(Pairs(st))) }

  function Ended(st: State, restore: map<string, string>): State {
    Emit(CloseCalls(CloseMessage(st), restore, Sorted(st.order)), Completed(FinalOutput(st), st.usage))
  }

  // -------------------------------------------------------------- the client

  /** An item as added, what its deltas said, and how it was closed. */
  datatype Track = Track(added: Item, heard: string, closed: Option<Item>)

  datatype Client = Client(number: nat, tracks: seq<Track>, output: Option<seq<Item>>, usage: Option<Usage>)

  predicate IsMessage(c: Client, i: nat) { i < |c.tracks| && c.tracks[i].added.Message? && c.tracks[i].closed.None? }

  predicate IsCall(c: Client, i: nat, slot: int) {
    i < |c.tracks| && c.tracks[i].added.FunctionCall? && c.tracks[i].added.slot == slot && c.tracks[i].closed.None?
  }

  function Heard(c: Client, i: nat, text: string): Client
    requires i < |c.tracks|
  {
    c.(tracks := c.tracks[i := c.tracks[i].(heard := c.tracks[i].heard + text)])
  }

  /** One body read, the number already checked. */
  function ReadBody(c: Client, b: Body): Option<Client> {
    match b
    case Created => if c.number == 1 then Some(c) else None
    case InProgress => if c.number == 2 then Some(c) else None
    case ItemAdded(i, item) => if i == |c.tracks| then Some(c.(tracks := c.tracks + [Track(item, "", None)])) else None
    case PartAdded(i) => if IsMessage(c, i) then Some(c) else None
    case TextDelta(i, t) => if IsMessage(c, i) then Some(Heard(c, i, t)) else None
    case ArgsDelta(i, slot, t) => if IsCall(c, i, slot) then Some(Heard(c, i, t)) else None
    case TextDone(i, t) => if IsMessage(c, i) && t == c.tracks[i].heard then Some(c) else None
    case PartDone(i, t) => if IsMessage(c, i) && t == c.tracks[i].heard then Some(c) else None
    case ArgsDone(i, slot, a) => if IsCall(c, i, slot) && a == c.tracks[i].heard then Some(c) else None
    case ItemDone(i, item) =>
      if (item.Message? && IsMessage(c, i) && item.text == c.tracks[i].heard)
         || (item.FunctionCall? && IsCall(c, i, item.slot) && item.args == c.tracks[i].heard)
      then Some(c.(tracks := c.tracks[i := c.tracks[i].(closed := Some(item))])) else None
    case Completed(output, usage) => if c.output.None? then Some(c.(output := Some(output), usage := usage)) else None
  }

  function Read(c: Client, e: Event): Option<Client> {
    if e.number == c.number + 1 && c.output.None? then ReadBody(c.(number := e.number), e.body) else None
  }

  function Replay(es: seq<Event>): Option<Client> {
    if es == [] then Some(Client(0, [], None, None))
    else
      match Replay(es[..|es| - 1])
      case None => None
      case Some(c) => Read(c, es[|es| - 1])
  }

  lemma {:induction false} ReplaySnoc(es: seq<Event>, e: Event)
    ensures Replay(es + [e]) == match Replay(es) case None => None case Some(c) => Read(c, e)
  {
    assert (es + [e])[..|es|] == es;
  }

  // ---------------------------------------------------------- reference

  /** No delta has given call `i` an id or a name yet. */
  predicate Anonymous(s: seq<Atom>, i: int) {
    s != [] ==> Anonymous(s[..|s| - 1], i) && (Mentions(s[|s| - 1], i) ==> s[|s| - 1].delta.id == "" && s[|s| - 1].delta.name == "")
  }

  /** Arguments that arrived while the call was anonymous. */
  function LostArgs(s: seq<Atom>, i: int): string {
    if s == [] then "" else LostArgs(s[..|s| - 1], i) + if Anonymous(s, i) then Argued(s[|s| - 1], i) else ""
  }

  /** Call `i` was introduced before its first argument fragment. */
  predicate Introduced(s: seq<Atom>, i: int) { !Anonymous(s, i) && LostArgs(s, i) == "" }
}
