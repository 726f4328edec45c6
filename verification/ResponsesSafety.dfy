/** The Responses stream a client reads: always numbered and indexed without
    gaps, and readable to the end exactly when every call was introduced before
    its arguments. */
module ResponsesSafety {
  import opened Basics
  import opened Transcript
  import opened ResponsesEvents

  // ------------------------------------------- converter and client in step

  /** What the client tracks under call `i`'s index. */
  ghost predicate CallTracked(st: State, c: Client, i: int)
    requires i in st.announced
  {
    i in st.slots && IsCall(c, st.slots[i].item, i)
  }

  /** Index `b` belongs to the message, or to the call it names. */
  ghost predicate Attributed(st: State, c: Client, b: nat)
    requires b < |c.tracks|
  {
    match c.tracks[b].added
    case Message(_) => st.message == Some(b)
    case FunctionCall(i, _, _, _) => i in st.announced && i in st.slots && st.slots[i].item == b
  }

  ghost predicate InStep(st: State, c: Client) {
    && Replay(st.out) == Some(c) && c.number == st.number == |st.out| && st.number >= 2 && c.output.None? && |c.tracks| == st.items
    && MessageHeld(st.message, st.text, c)
  }

  /** The text so far is what the client heard under the message's index. */
  ghost predicate MessageHeld(message: Option<nat>, text: string, c: Client) {
    match message
    case None => text == ""
    case Some(m) => text != "" && IsMessage(c, m) && c.tracks[m].heard == text
  }

  ghost predicate Indexed(st: State, c: Client) {
    && (forall i :: i in st.announced ==> CallTracked(st, c, i)) && (forall b :: 0 <= b < |c.tracks| ==> Attributed(st, c, b))
    && st.items == |st.announced| + (if st.message.Some? then 1 else 0)
  }

  lemma {:induction false} EmitReads(st: State, c: Client, b: Body)
    requires Replay(st.out) == Some(c) && c.number == st.number && c.output.None?
    ensures Replay(Emit(st, b).out) == ReadBody(c.(number := st.number + 1), b)
  {
    ReplaySnoc(st.out, Event(st.number + 1, b));
  }

  lemma {:induction false} BegunInStep()
    ensures InStep(Begun(), Client(2, [], None, None)) && Indexed(Begun(), Client(2, [], None, None))
  {
    EmitReads(EMPTY, Client(0, [], None, None), Created);
    EmitReads(Emit(EMPTY, Created), Client(1, [], None, None), InProgress);
  }

  // ------------------------------------------------------------------- text

  function AfterOpen(st: State, c: Client): Client {
    if st.message.Some? then c else c.(number := c.number + 2, tracks := c.tracks + [Track(Message(""), "", None)])
  }

  /** Like InStep, just before the first text is stored. */
  ghost predicate OpenFor(o: State, e: Client) {
    && Replay(o.out) == Some(e) && e.number == o.number == |o.out| && e.output.None? && |e.tracks| == o.items
    && o.message.Some? && IsMessage(e, o.message.value) && e.tracks[o.message.value].heard == o.text
  }

  lemma {:induction false} OpenReads(st: State, c: Client)
    requires InStep(st, c)
    ensures OpenFor(OpenMessage(st), AfterOpen(st, c))
  {
    if st.message.None? {
      var m := st.(message := Some(st.items), items := st.items + 1);
      EmitReads(m, c, ItemAdded(st.items, Message("")));
      var added := c.(number := c.number + 1, tracks := c.tracks + [Track(Message(""), "", None)]);
      EmitReads(Emit(m, ItemAdded(st.items, Message(""))), added, PartAdded(st.items));
    }
  }

  lemma {:induction false} OpenIndexed(st: State, c: Client, o: State, e: Client)
    requires |c.tracks| == st.items && Indexed(st, c) && o == OpenMessage(st) && e == AfterOpen(st, c)
    ensures Indexed(o, e)
  {
    if st.message.None? {
      forall i | i in o.announced ensures CallTracked(o, e, i) { assert CallTracked(st, c, i); }
      forall b | 0 <= b < |e.tracks| ensures Attributed(o, e, b) {
        if b < |c.tracks| { assert Attributed(st, c, b); }
      }
    }
  }

  function AfterText(st: State, c: Client, text: string): Client
    requires st.message.Some? ==> st.message.value < |c.tracks|
    requires |c.tracks| == st.items
  {
    if text == "" then c
    else
      var e := AfterOpen(st, c);
      Heard(e.(number := e.number + 1), if st.message.Some? then st.message.value else st.items, text)
  }

  lemma {:induction false} TextReads(st: State, c: Client, text: string)
    requires InStep(st, c)
    ensures InStep(OnText(st, text), AfterText(st, c, text))
  {
    if text != "" {
      OpenReads(st, c);
      TextSpoken(OpenMessage(st), AfterOpen(st, c), text);
    }
  }

  lemma {:induction false} TextSpoken(o: State, e: Client, text: string)
    requires OpenFor(o, e) && o.number >= 2 && text != ""
    ensures InStep(Emit(o.(text := o.text + text), TextDelta(o.message.value, text)), Heard(e.(number := e.number + 1), o.message.value, text))
  {
    EmitReads(o.(text := o.text + text), e, TextDelta(o.message.value, text));
  }

  /** Text heard under the message's index moves nothing. */
  lemma {:induction false} HeardIndexed(o: State, e: Client, v: State, d: Client, m: nat)
    requires Indexed(o, e) && m < |e.tracks| == |d.tracks| && e.tracks[m].added.Message?
    requires v.slots == o.slots && v.announced == o.announced && v.message == o.message && v.items == o.items
    requires forall b :: 0 <= b < |e.tracks| ==> d.tracks[b].added == e.tracks[b].added && d.tracks[b].closed == e.tracks[b].closed
    ensures Indexed(v, d)
  {
    forall i | i in v.announced ensures CallTracked(v, d, i) { assert CallTracked(o, e, i); }
    forall b | 0 <= b < |d.tracks| ensures Attributed(v, d, b) { assert Attributed(o, e, b); }
  }

  lemma {:induction false} TextIndexed(st: State, c: Client, text: string)
    requires InStep(st, c) && Indexed(st, c)
    ensures Indexed(OnText(st, text), AfterText(st, c, text))
  {
    if text != "" {
      var o, e := OpenMessage(st), AfterOpen(st, c);
      OpenReads(st, c);
      OpenIndexed(st, c, o, e);
      HeardIndexed(o, e, OnText(st, text), AfterText(st, c, text), o.message.value);
    }
  }

  // ------------------------------------------------------------------ calls

  predicate Joins(st: State, d: ToolDelta) {
    d.index !in st.announced && (Merged(st, d).id != "" || Merged(st, d).name != "")
  }

  /** The call's own slot after its delta. */
  function Entry(st: State, d: ToolDelta): Slot { if Joins(st, d) then Merged(st, d).(item := st.items) else Merged(st, d) }

  lemma {:induction false} OnToolShape(st: State, restore: map<string, string>, d: ToolDelta)
    ensures var v := OnTool(st, restore, d);
      && v.slots == st.slots[d.index := Entry(st, d)]
      && v.order == (if d.index in st.slots then st.order else st.order + [d.index])
      && v.announced == st.announced + (if Joins(st, d) then {d.index} else {})
      && v.items == st.items + (if Joins(st, d) then 1 else 0)
      && v.message == st.message && v.text == st.text && v.usage == st.usage
  {
  }

  /** The client once the call has been announced, if it is to be. */
  function AfterJoin(st: State, c: Client, restore: map<string, string>, d: ToolDelta): Client {
    var e := Entry(st, d);
    if Joins(st, d) then
      c.(number := c.number + 1, tracks := c.tracks + [Track(FunctionCall(d.index, e.id, Restored(restore, e.name), ""), "", None)])
    else c
  }

  function AfterCall(st: State, c: Client, restore: map<string, string>, d: ToolDelta): Client
    requires |c.tracks| == st.items
    requires d.index in st.announced ==> d.index in st.slots && st.slots[d.index].item < |c.tracks|
  {
    var j := AfterJoin(st, c, restore, d);
    if d.args != "" && (d.index in st.announced || Joins(st, d)) then Heard(j.(number := j.number + 1), Entry(st, d).item, d.args) else j
  }

  /** The state as the item of a call is about to be added. */
  function Adding(v: State, i: int): State
    requires i in v.slots
  {
    v.(announced := v.announced + {i}, slots := v.slots[i := v.slots[i].(item := v.items)], items := v.items + 1)
  }

  lemma {:induction false} AnnouncedIs(st: State, restore: map<string, string>, d: ToolDelta, v: State, slot: Slot)
    requires v == Stored(st, d) && slot == v.slots[d.index]
    ensures Announced(v, restore, d.index) ==
      if Joins(st, d) then Emit(Adding(v, d.index), ItemAdded(v.items, FunctionCall(d.index, slot.id, Restored(restore, slot.name), ""))) else v
  {
  }

  lemma {:induction false} AfterJoinIs(st: State, c: Client, restore: map<string, string>, d: ToolDelta, slot: Slot)
    requires slot == Merged(st, d)
    ensures AfterJoin(st, c, restore, d) ==
      if Joins(st, d)
      then c.(number := c.number + 1, tracks := c.tracks + [Track(FunctionCall(d.index, slot.id, Restored(restore, slot.name), ""), "", None)])
      else c
  {
  }

  lemma {:induction false} JoinReads(st: State, c: Client, restore: map<string, string>, d: ToolDelta)
    requires InStep(st, c)
    ensures InStep(Announced(Stored(st, d), restore, d.index), AfterJoin(st, c, restore, d))
  {
    var v, slot := Stored(st, d), Merged(st, d);
    StoredReads(st, c, v);
    AnnouncedIs(st, restore, d, v, slot);
    AfterJoinIs(st, c, restore, d, slot);
    if Joins(st, d) { AddedReads(v, c, FunctionCall(d.index, slot.id, Restored(restore, slot.name), ""), Adding(v, d.index)); }
  }

  lemma {:induction false} StoredReads(st: State, c: Client, v: State)
    requires InStep(st, c) && v == st.(slots := v.slots, order := v.order)
    ensures InStep(v, c)
  {
  }

  lemma {:induction false} StillHeld(message: Option<nat>, text: string, c: Client, t: Track)
    requires MessageHeld(message, text, c)
    ensures MessageHeld(message, text, c.(number := c.number + 1, tracks := c.tracks + [t]))
  {
  }

  lemma {:induction false} AddedReads(v: State, c: Client, item: Item, next: State)
    requires InStep(v, c) && next == v.(announced := next.announced, slots := next.slots, items := v.items + 1)
    ensures InStep(Emit(next, ItemAdded(v.items, item)), c.(number := c.number + 1, tracks := c.tracks + [Track(item, "", None)]))
  {
    EmitReads(next, c, ItemAdded(v.items, item));
    StillHeld(v.message, v.text, c, Track(item, "", None));
  }

  /** The call's slot stored, and its item added if it is due. */
  lemma {:induction false} JoinIndexed(st: State, c: Client, restore: map<string, string>, d: ToolDelta)
    requires InStep(st, c) && Indexed(st, c)
    ensures Indexed(Announced(Stored(st, d), restore, d.index), AfterJoin(st, c, restore, d))
  {
    var v, e := Announced(Stored(st, d), restore, d.index), AfterJoin(st, c, restore, d);
    AnnouncedShape(st, restore, d);
    forall i | i in v.announced ensures CallTracked(v, e, i) {
      if i in st.announced { assert CallTracked(st, c, i); }
    }
    forall b | 0 <= b < |e.tracks| ensures Attributed(v, e, b) {
      if b < |c.tracks| { assert Attributed(st, c, b); }
    }
  }

  lemma {:induction false} AnnouncedShape(st: State, restore: map<string, string>, d: ToolDelta)
    ensures var v := Announced(Stored(st, d), restore, d.index);
      && v.slots == st.slots[d.index := Entry(st, d)] && v.message == st.message
      && v.announced == st.announced + (if Joins(st, d) then {d.index} else {})
      && v.items == st.items + (if Joins(st, d) then 1 else 0)
  {
  }

  /** An argument fragment under an announced call's index. */
  lemma {:induction false} FragmentReads(st: State, c: Client, i: int, text: string)
    requires InStep(st, c) && Indexed(st, c) && i in st.announced
    ensures i in st.slots && st.slots[i].item < |c.tracks|
    ensures var v, e := Emit(st, ArgsDelta(st.slots[i].item, i, text)), Heard(c.(number := c.number + 1), st.slots[i].item, text);
      InStep(v, e) && Indexed(v, e)
  {
    assert CallTracked(st, c, i);
    EmitReads(st, c, ArgsDelta(st.slots[i].item, i, text));
    var v, e := Emit(st, ArgsDelta(st.slots[i].item, i, text)), Heard(c.(number := c.number + 1), st.slots[i].item, text);
    forall j | j in v.announced ensures CallTracked(v, e, j) { assert CallTracked(st, c, j); }
    forall b | 0 <= b < |e.tracks| ensures Attributed(v, e, b) { assert Attributed(st, c, b); }
  }

  /** A call's delta is its announcement, if due, and then its fragment. */
  lemma {:induction false} CallIsJoinThenFragment(st: State, c: Client, restore: map<string, string>, d: ToolDelta)
    requires |c.tracks| == st.items && (d.index in st.announced ==> d.index in st.slots && st.slots[d.index].item < |c.tracks|)
    ensures var a, j := Announced(Stored(st, d), restore, d.index), AfterJoin(st, c, restore, d);
      var speaks := d.args != "" && d.index in a.announced;
      && d.index in a.slots && (speaks ==> a.slots[d.index].item < |j.tracks|)
      && OnTool(st, restore, d) == (if speaks then Emit(a, ArgsDelta(a.slots[d.index].item, d.index, d.args)) else a)
      && AfterCall(st, c, restore, d) == (if speaks then Heard(j.(number := j.number + 1), a.slots[d.index].item, d.args) else j)
  {
  }

  lemma {:induction false} CallReads(st: State, c: Client, restore: map<string, string>, d: ToolDelta)
    requires InStep(st, c) && Indexed(st, c)
    ensures d.index in st.announced ==> d.index in st.slots && st.slots[d.index].item < |c.tracks|
    ensures InStep(OnTool(st, restore, d), AfterCall(st, c, restore, d)) && Indexed(OnTool(st, restore, d), AfterCall(st, c, restore, d))
  {
    JoinReads(st, c, restore, d);
    JoinIndexed(st, c, restore, d);
    var a, j := Announced(Stored(st, d), restore, d.index), AfterJoin(st, c, restore, d);
    if d.index in st.announced { assert CallTracked(st, c, d.index); }
    CallIsJoinThenFragment(st, c, restore, d);
    if d.args != "" && d.index in a.announced { FragmentReads(a, j, d.index, d.args); }
  }

  // --------------------------------------------------- what the stream said

  /** What the converter knows of call `i` is what was said of it so far. */
  ghost predicate KnowsCall(s: seq<Atom>, st: State, i: int) {
    && (i in st.order <==> i in st.slots) && (i in st.slots <==> Seen(s, i))
    && (i in st.slots ==> Tells(s, st.slots[i], i))
    && (i in st.announced <==> Seen(s, i) && !Anonymous(s, i))
  }

  ghost predicate Tells(s: seq<Atom>, slot: Slot, i: int) {
    slot.id == IdOf(s, i) && slot.name == NameOf(s, i) && slot.args == ArgsOf(s, i)
  }

  ghost predicate Known(s: seq<Atom>, st: State) { Unrepeated(st.order) && forall i :: KnowsCall(s, st, i) }

  lemma {:induction false} KnownTables(s: seq<Atom>, st: State)
    requires Known(s, st)
    ensures forall i :: i in st.order <==> i in st.slots
    ensures forall i :: i in st.slots <==> Seen(s, i)
  {
    forall i ensures (i in st.order <==> i in st.slots) && (i in st.slots <==> Seen(s, i)) { assert KnowsCall(s, st, i); }
  }

  /** What the client heard of call `i` is its arguments, short of the lost ones. */
  ghost predicate HeardRest(s: seq<Atom>, st: State, c: Client, i: int)
    requires i in st.slots && st.slots[i].item < |c.tracks|
  {
    LostArgs(s, i) + c.tracks[st.slots[i].item].heard == ArgsOf(s, i)
  }

  ghost predicate HeardAll(s: seq<Atom>, st: State, c: Client) {
    forall i :: i in st.announced ==> i in st.slots && st.slots[i].item < |c.tracks| && HeardRest(s, st, c, i)
  }

  lemma {:induction false} AnonymousFacts(s: seq<Atom>, i: int)
    ensures Anonymous(s, i) <==> IdOf(s, i) == "" && NameOf(s, i) == ""
    ensures Anonymous(s, i) ==> LostArgs(s, i) == ArgsOf(s, i)
    ensures !Seen(s, i) ==> Anonymous(s, i)
  {
    if s != [] {
      AnonymousFacts(s[..|s| - 1], i);
      NameGrows(s, i);
    }
  }

  lemma {:induction false} NameGrows(s: seq<Atom>, i: int)
    requires s != []
    ensures NameOf(s, i) == "" <==> NameOf(s[..|s| - 1], i) == "" && Named(s[|s| - 1], i) == ""
  {
  }

  lemma {:induction false} AnonymousAfter(s: seq<Atom>, a: Atom, i: int)
    ensures Anonymous(s + [a], i) <==> Anonymous(s, i) && (Mentions(a, i) ==> a.delta.id == "" && a.delta.name == "")
    ensures LostArgs(s + [a], i) == LostArgs(s, i) + if Anonymous(s + [a], i) then Argued(a, i) else ""
    ensures ArgsOf(s + [a], i) == ArgsOf(s, i) + Argued(a, i) && NameOf(s + [a], i) == NameOf(s, i) + Named(a, i)
    ensures IdOf(s + [a], i) == if Mentions(a, i) && a.delta.id != "" then a.delta.id else IdOf(s, i)
    ensures Seen(s + [a], i) <==> Mentions(a, i) || Seen(s, i)
  {
    Snoc(s, a);
  }

  /** An atom that does not mention call `i` says nothing about it. */
  lemma {:induction false} Unmentioned(s: seq<Atom>, a: Atom, i: int)
    requires !Mentions(a, i)
    ensures Anonymous(s + [a], i) == Anonymous(s, i) && LostArgs(s + [a], i) == LostArgs(s, i) && ArgsOf(s + [a], i) == ArgsOf(s, i)
    ensures NameOf(s + [a], i) == NameOf(s, i) && IdOf(s + [a], i) == IdOf(s, i) && Seen(s + [a], i) == Seen(s, i)
  {
    AnonymousAfter(s, a, i);
    assert LostArgs(s, i) + "" == LostArgs(s, i) && ArgsOf(s, i) + "" == ArgsOf(s, i) && NameOf(s, i) + "" == NameOf(s, i);
  }

  lemma {:induction false} KnowsOther(s: seq<Atom>, st: State, a: Atom, v: State, i: int)
    requires KnowsCall(s, st, i) && !Mentions(a, i)
    requires (i in v.slots <==> i in st.slots) && (i in v.order <==> i in st.order) && (i in v.announced <==> i in st.announced)
    requires i in st.slots ==> v.slots[i] == st.slots[i]
    ensures KnowsCall(s + [a], v, i)
  {
    Unmentioned(s, a, i);
  }

  lemma {:induction false} KnownAfterQuiet(s: seq<Atom>, st: State, a: Atom, v: State)
    requires Known(s, st) && !a.Call? && v.slots == st.slots && v.order == st.order && v.announced == st.announced
    ensures Known(s + [a], v)
  {
    forall i ensures KnowsCall(s + [a], v, i) {
      assert KnowsCall(s, st, i);
      KnowsOther(s, st, a, v, i);
    }
  }

  lemma {:induction false} MergedIsRight(s: seq<Atom>, st: State, d: ToolDelta)
    requires KnowsCall(s, st, d.index)
    ensures Tells(s + [Call(d)], Merged(st, d), d.index)
    ensures Joins(st, d) || d.index in st.announced <==> !Anonymous(s + [Call(d)], d.index)
  {
    AnonymousAfter(s, Call(d), d.index);
    AnonymousFacts(s, d.index);
    AnonymousFacts(s + [Call(d)], d.index);
    if d.index !in st.slots {
      UnseenIsEmpty(s, d.index);
      assert "" + d.name == d.name && "" + d.args == d.args;
    }
  }

  lemma {:induction false} KnowsEntry(s: seq<Atom>, st: State, d: ToolDelta, v: State)
    requires KnowsCall(s, st, d.index) && d.index in v.slots && v.slots[d.index] == Entry(st, d) && d.index in v.order
    requires d.index in v.announced <==> d.index in st.announced || Joins(st, d)
    ensures KnowsCall(s + [Call(d)], v, d.index)
  {
    MergedIsRight(s, st, d);
    AnonymousAfter(s, Call(d), d.index);
  }

  lemma {:induction false} KnownWithEntry(s: seq<Atom>, st: State, d: ToolDelta, v: State)
    requires Known(s, st)
    requires v.slots == st.slots[d.index := Entry(st, d)] && v.order == (if d.index in st.slots then st.order else st.order + [d.index])
    requires v.announced == st.announced + (if Joins(st, d) then {d.index} else {})
    ensures Known(s + [Call(d)], v)
  {
    assert KnowsCall(s, st, d.index);
    KnowsEntry(s, st, d, v);
    forall i | i != d.index ensures KnowsCall(s + [Call(d)], v, i) {
      assert KnowsCall(s, st, i);
      KnowsOther(s, st, Call(d), v, i);
    }
  }

  lemma {:induction false} KnownAfterCall(s: seq<Atom>, st: State, restore: map<string, string>, d: ToolDelta)
    requires Known(s, st)
    ensures Known(s + [Call(d)], OnTool(st, restore, d))
  {
    OnToolShape(st, restore, d);
    KnownWithEntry(s, st, d, OnTool(st, restore, d));
  }

  lemma {:induction false} HeardOther(s: seq<Atom>, st: State, c: Client, a: Atom, v: State, d: Client, i: int)
    requires i in st.slots && st.slots[i].item < |c.tracks| && HeardRest(s, st, c, i) && !Mentions(a, i)
    requires i in v.slots && v.slots[i] == st.slots[i] && st.slots[i].item < |d.tracks|
    requires d.tracks[st.slots[i].item].heard == c.tracks[st.slots[i].item].heard
    ensures HeardRest(s + [a], v, d, i)
  {
    Unmentioned(s, a, i);
  }

  lemma {:induction false} HeardAfterQuiet(s: seq<Atom>, st: State, c: Client, a: Atom, v: State, d: Client)
    requires HeardAll(s, st, c) && !a.Call? && v.slots == st.slots && v.announced == st.announced && |c.tracks| <= |d.tracks|
    requires forall b :: 0 <= b < |c.tracks| && c.tracks[b].added.FunctionCall? ==> d.tracks[b] == c.tracks[b]
    requires forall i :: i in st.announced ==> CallTracked(st, c, i)
    ensures HeardAll(s + [a], v, d)
  {
    forall i | i in v.announced ensures i in v.slots && v.slots[i].item < |d.tracks| && HeardRest(s + [a], v, d, i) {
      assert CallTracked(st, c, i) && HeardRest(s, st, c, i);
      HeardOther(s, st, c, a, v, d, i);
    }
  }

  lemma {:induction false} ThenMore(lost: string, heard: string, args: string, more: string)
    requires lost + heard == args
    ensures lost + (heard + more) == args + more
  {
    assert lost + (heard + more) == (lost + heard) + more;
  }

  /** A call announced earlier. */
  lemma {:induction false} HeardMore(s: seq<Atom>, st: State, c: Client, restore: map<string, string>, d: ToolDelta)
    requires |c.tracks| == st.items && KnowsCall(s, st, d.index) && d.index in st.announced
    requires d.index in st.slots && st.slots[d.index].item < |c.tracks| && HeardRest(s, st, c, d.index)
    ensures var e, v := AfterCall(st, c, restore, d), Entry(st, d);
      v.item < |e.tracks| && LostArgs(s + [Call(d)], d.index) + e.tracks[v.item].heard == ArgsOf(s + [Call(d)], d.index)
  {
    var i := d.index;
    AnonymousAfter(s, Call(d), i);
    assert LostArgs(s, i) + "" == LostArgs(s, i);
    ThenMore(LostArgs(s, i), c.tracks[st.slots[i].item].heard, ArgsOf(s, i), d.args);
    assert c.tracks[st.slots[i].item].heard + "" == c.tracks[st.slots[i].item].heard;
  }

  lemma {:induction false} LostUpToNow(s: seq<Atom>, st: State, d: ToolDelta)
    requires KnowsCall(s, st, d.index) && Joins(st, d)
    ensures LostArgs(s + [Call(d)], d.index) == ArgsOf(s, d.index)
  {
    AnonymousAfter(s, Call(d), d.index);
    MergedIsRight(s, st, d);
    AnonymousFacts(s, d.index);
    assert LostArgs(s, d.index) + "" == LostArgs(s, d.index);
  }

  /** A call announced by this very delta. */
  lemma {:induction false} HeardFirst(s: seq<Atom>, st: State, c: Client, restore: map<string, string>, d: ToolDelta)
    requires |c.tracks| == st.items && KnowsCall(s, st, d.index) && Joins(st, d)
    ensures var e, v := AfterCall(st, c, restore, d), Entry(st, d);
      v.item < |e.tracks| && LostArgs(s + [Call(d)], d.index) + e.tracks[v.item].heard == ArgsOf(s + [Call(d)], d.index)
  {
    LostUpToNow(s, st, d);
    Snoc(s, Call(d));
    var e := AfterCall(st, c, restore, d);
    assert "" + d.args == d.args;
    assert e.tracks[st.items].heard == d.args;
  }

  /** The delta of another call leaves what was heard of call `i` alone. */
  lemma {:induction false} OthersHeard(st: State, c: Client, restore: map<string, string>, d: ToolDelta, i: int)
    requires |c.tracks| == st.items && i in st.announced && CallTracked(st, c, i) && i != d.index
    requires d.index in st.announced ==> CallTracked(st, c, d.index)
    ensures var e := AfterCall(st, c, restore, d); var b := st.slots[i].item; b < |e.tracks| && e.tracks[b].heard == c.tracks[b].heard
  {
  }

  lemma {:induction false} HeardAfterCall(s: seq<Atom>, st: State, c: Client, restore: map<string, string>, d: ToolDelta)
    requires InStep(st, c) && Indexed(st, c) && KnowsCall(s, st, d.index) && HeardAll(s, st, c)
    requires d.index in st.announced ==> d.index in st.slots && st.slots[d.index].item < |c.tracks|
    ensures HeardAll(s + [Call(d)], OnTool(st, restore, d), AfterCall(st, c, restore, d))
  {
    OnToolShape(st, restore, d);
    var v, e, t := OnTool(st, restore, d), AfterCall(st, c, restore, d), s + [Call(d)];
    if d.index in st.announced { assert CallTracked(st, c, d.index); }
    forall i | i in v.announced ensures i in v.slots && v.slots[i].item < |e.tracks| && HeardRest(t, v, e, i) {
      if i == d.index {
        OwnHeard(s, st, c, restore, d);
      } else {
        assert CallTracked(st, c, i) && HeardRest(s, st, c, i);
        OthersHeard(st, c, restore, d, i);
        HeardOther(s, st, c, Call(d), v, e, i);
      }
    }
  }

  lemma {:induction false} OwnHeard(s: seq<Atom>, st: State, c: Client, restore: map<string, string>, d: ToolDelta)
    requires |c.tracks| == st.items && KnowsCall(s, st, d.index) && (d.index in st.announced || Joins(st, d))
    requires d.index in st.announced ==> d.index in st.slots && st.slots[d.index].item < |c.tracks| && HeardRest(s, st, c, d.index)
    ensures var e, v := AfterCall(st, c, restore, d), Entry(st, d);
      v.item < |e.tracks| && LostArgs(s + [Call(d)], d.index) + e.tracks[v.item].heard == ArgsOf(s + [Call(d)], d.index)
  {
    if d.index in st.announced { HeardMore(s, st, c, restore, d); } else { HeardFirst(s, st, c, restore, d); }
  }

  ghost predicate Good(s: seq<Atom>, st: State, c: Client) {
    InStep(st, c) && Indexed(st, c) && Known(s, st) && HeardAll(s, st, c) && st.text == TextOf(s) && st.usage == UsageOf(s)
  }

  /** Text changes no call's table or track. */
  lemma {:induction false} TextLeavesCalls(st: State, c: Client, text: string)
    requires InStep(st, c)
    ensures var v, d := OnText(st, text), AfterText(st, c, text);
      && v.slots == st.slots && v.order == st.order && v.announced == st.announced && v.usage == st.usage && v.text == st.text + text
      && |c.tracks| <= |d.tracks| && forall b :: 0 <= b < |c.tracks| && c.tracks[b].added.FunctionCall? ==> d.tracks[b] == c.tracks[b]
  {
    if text == "" { assert st.text + "" == st.text; }
  }

  lemma {:induction false} TextAtom(s: seq<Atom>, text: string)
    ensures TextOf(s + [Say(text)]) == TextOf(s) + text && UsageOf(s + [Say(text)]) == UsageOf(s)
  {
    Snoc(s, Say(text));
  }

  lemma {:induction false} TextKeepsGood(s: seq<Atom>, st: State, c: Client, text: string)
    requires Good(s, st, c)
    ensures Good(s + [Say(text)], OnText(st, text), AfterText(st, c, text))
  {
    TextReads(st, c, text);
    TextIndexed(st, c, text);
    TextLeavesCalls(st, c, text);
    KnownAfterQuiet(s, st, Say(text), OnText(st, text));
    HeardAfterQuiet(s, st, c, Say(text), OnText(st, text), AfterText(st, c, text));
    TextAtom(s, text);
  }

  lemma {:induction false} CallSaysNothing(s: seq<Atom>, st: State, restore: map<string, string>, d: ToolDelta)
    requires st.text == TextOf(s) && st.usage == UsageOf(s)
    ensures OnTool(st, restore, d).text == TextOf(s + [Call(d)]) && OnTool(st, restore, d).usage == UsageOf(s + [Call(d)])
  {
    OnToolShape(st, restore, d);
    Snoc(s, Call(d));
    assert TextOf(s) + "" == TextOf(s);
  }

  lemma {:induction false} CallKeepsGood(s: seq<Atom>, st: State, b: Client, restore: map<string, string>, d: ToolDelta, v: State) returns (c: Client)
    requires Good(s, st, b) && v == OnTool(st, restore, d)
    ensures Good(s + [Call(d)], v, c)
  {
    assert KnowsCall(s, st, d.index);
    CallReads(st, b, restore, d);
    c := AfterCall(st, b, restore, d);
    KnownAfterCall(s, st, restore, d);
    HeardAfterCall(s, st, b, restore, d);
    CallSaysNothing(s, st, restore, d);
  }

  lemma {:induction false} QuietShape(st: State, restore: map<string, string>, a: Atom)
    requires a.Used? || a.Finish? || a.Think?
    ensures Next(st, restore, a) == st.(usage := if a.Used? && a.usage.Some? then a.usage else st.usage)
  {
  }

  lemma {:induction false} QuietAtom(s: seq<Atom>, a: Atom)
    requires a.Used? || a.Finish? || a.Think?
    ensures TextOf(s + [a]) == TextOf(s) && UsageOf(s + [a]) == if a.Used? && a.usage.Some? then a.usage else UsageOf(s)
  {
    Snoc(s, a);
    assert TextOf(s) + "" == TextOf(s);
  }

  lemma {:induction false} UsageMovesNothing(st: State, c: Client, v: State)
    requires InStep(st, c) && Indexed(st, c) && v == st.(usage := v.usage)
    ensures InStep(v, c) && Indexed(v, c)
  {
    forall i | i in v.announced ensures CallTracked(v, c, i) { assert CallTracked(st, c, i); }
    forall b | 0 <= b < |c.tracks| ensures Attributed(v, c, b) { assert Attributed(st, c, b); }
  }

  lemma {:induction false} QuietKeepsGood(s: seq<Atom>, st: State, c: Client, restore: map<string, string>, a: Atom)
    requires Good(s, st, c) && (a.Used? || a.Finish? || a.Think?)
    ensures Good(s + [a], Next(st, restore, a), c)
  {
    var v := Next(st, restore, a);
    QuietShape(st, restore, a);
    KnownAfterQuiet(s, st, a, v);
    HeardAfterQuiet(s, st, c, a, v, c);
    UsageMovesNothing(st, c, v);
    QuietAtom(s, a);
  }

  lemma {:induction false} SayingKeepsGood(restore: map<string, string>, s: seq<Atom>, st: State, b: Client, a: Atom) returns (c: Client)
    requires Good(s, st, b) && a.Say?
    ensures Good(s + [a], Next(st, restore, a), c)
  {
    TextKeepsGood(s, st, b, a.text);
    c := AfterText(st, b, a.text);
  }

  lemma {:induction false} NextKeepsGood(restore: map<string, string>, s: seq<Atom>, st: State, b: Client, a: Atom) returns (c: Client)
    requires Good(s, st, b)
    ensures Good(s + [a], Next(st, restore, a), c)
  {
    if a.Say? {
      c := SayingKeepsGood(restore, s, st, b, a);
    } else if a.Call? {
      c := CallKeepsGood(s, st, b, restore, a.delta, Next(st, restore, a));
    } else {
      QuietKeepsGood(s, st, b, restore, a);
      c := b;
    }
  }

  lemma {:induction false} NothingIsGood(restore: map<string, string>)
    ensures Good([], Fold(restore, []), Client(2, [], None, None))
  {
    BegunInStep();
  }

  lemma {:induction false} FoldIsGood(restore: map<string, string>, s: seq<Atom>) returns (c: Client)
    ensures Good(s, Fold(restore, s), c)
  {
    if s == [] {
      NothingIsGood(restore);
      c := Client(2, [], None, None);
    } else {
      var front, a := s[..|s| - 1], s[|s| - 1];
      var b := FoldIsGood(restore, front);
      assert s == front + [a];
      c := NextKeepsGood(restore, front, Fold(restore, front), b, a);
    }
  }

  /** The index call `i` was announced under. */
  function IndexOf(restore: map<string, string>, s: seq<Atom>, i: int): nat {
    if i in Fold(restore, s).slots then Fold(restore, s).slots[i].item else 0
  }

  /** The client follows call `i` and has heard its arguments, short of those
      sent while it had neither id nor name. */
  ghost predicate Followed(restore: map<string, string>, s: seq<Atom>, c: Client, i: int) {
    var b := IndexOf(restore, s, i);
    && b < |c.tracks| && c.tracks[b].added.FunctionCall? && c.tracks[b].added.slot == i
    && LostArgs(s, i) + c.tracks[b].heard == ArgsOf(s, i)
  }

  /** What the client heard under the message's index. */
  function MessageText(ts: seq<Track>): string {
    if ts == [] then ""
    else MessageText(ts[..|ts| - 1]) + if ts[|ts| - 1].added.Message? then ts[|ts| - 1].heard else ""
  }

  lemma {:induction false} OneMessage(st: State, c: Client, n: nat)
    requires n <= |c.tracks| && forall b :: 0 <= b < |c.tracks| ==> Attributed(st, c, b)
    ensures MessageText(c.tracks[..n]) ==
      if st.message.Some? && st.message.value < n && c.tracks[st.message.value].added.Message? then c.tracks[st.message.value].heard else ""
  {
    if n > 0 {
      OneMessage(st, c, n - 1);
      assert Attributed(st, c, n - 1);
      assert c.tracks[..n][..n - 1] == c.tracks[..n - 1];
    }
  }

  lemma {:induction false} SameHeard(a: seq<Track>, b: seq<Track>)
    requires |a| == |b| && forall k :: 0 <= k < |a| ==> a[k].added == b[k].added && a[k].heard == b[k].heard
    ensures MessageText(a) == MessageText(b)
  {
    if a != [] { SameHeard(a[..|a| - 1], b[..|b| - 1]); }
  }

  lemma {:induction false} MessageHeard(s: seq<Atom>, st: State, b: Client)
    requires Good(s, st, b)
    ensures MessageText(b.tracks) == TextOf(s)
  {
    OneMessage(st, b, |b.tracks|);
    assert b.tracks[..|b.tracks|] == b.tracks;
  }

  /** Before its closing events the stream is always readable: numbered and
      indexed without gaps, nothing under an index not yet added, and all the
      text so far heard. */
  lemma {:induction false} EveryPrefixReads(restore: map<string, string>, s: seq<Atom>) returns (c: Client)
    ensures Replay(Fold(restore, s).out) == Some(c) && c.number == |Fold(restore, s).out|
    ensures MessageText(c.tracks) == TextOf(s)
    ensures forall i :: Seen(s, i) && !Anonymous(s, i) ==> Followed(restore, s, c, i)
  {
    c := FoldIsGood(restore, s);
    var st := Fold(restore, s);
    MessageHeard(s, st, c);
    forall i | Seen(s, i) && !Anonymous(s, i) ensures Followed(restore, s, c, i) {
      assert KnowsCall(s, st, i);
      assert CallTracked(st, c, i) && HeardRest(s, st, c, i);
    }
  }

  // ---------------------------------------------------------------- closing

  function ShutTrack(c: Client, i: nat, item: Item, events: nat): Client
    requires i < |c.tracks|
  {
    c.(number := c.number + events, tracks := c.tracks[i := c.tracks[i].(closed := Some(item))])
  }

  /** The first two closing events of a message change nothing the client has. */
  lemma {:induction false} TextIsRight(st: State, c: Client, m: nat, b: Body)
    requires Replay(st.out) == Some(c) && c.number == st.number && c.output.None? && IsMessage(c, m)
    requires b == TextDone(m, c.tracks[m].heard) || b == PartDone(m, c.tracks[m].heard)
    ensures Replay(Emit(st, b).out) == Some(c.(number := c.number + 1))
  {
    EmitReads(st, c, b);
  }

  lemma {:induction false} MessageShuts(st: State, c: Client, m: nat)
    requires Replay(st.out) == Some(c) && c.number == st.number && c.output.None? && IsMessage(c, m)
    ensures Replay(Emit(st, ItemDone(m, Message(c.tracks[m].heard))).out) == Some(ShutTrack(c, m, Message(c.tracks[m].heard), 1))
  {
    EmitReads(st, c, ItemDone(m, Message(c.tracks[m].heard)));
  }

  lemma {:induction false} CloseMessageReads(st: State, c: Client)
    requires InStep(st, c)
    ensures Replay(CloseMessage(st).out) == Some(if st.message.Some? then ShutTrack(c, st.message.value, Message(st.text), 3) else c)
    ensures CloseMessage(st).number == st.number + if st.message.Some? then 3 else 0
  {
    if st.message.Some? {
      var m := st.message.value;
      var st1, c1 := Emit(st, TextDone(m, st.text)), c.(number := c.number + 1);
      TextIsRight(st, c, m, TextDone(m, st.text));
      var st2, c2 := Emit(st1, PartDone(m, st.text)), c.(number := c.number + 2);
      TextIsRight(st1, c1, m, PartDone(m, st.text));
      MessageShuts(st2, c2, m);
    }
  }

  /** The client can close call `i` under the index its events name. */
  predicate Closable(st: State, c: Client, i: int)
    requires i in st.slots
  {
    IsCall(c, st.slots[i].item, i) && c.tracks[st.slots[i].item].heard == st.slots[i].args
  }

  function Finished(st: State, restore: map<string, string>, i: int): Item
    requires i in st.slots
  {
    FunctionCall(i, st.slots[i].id, Restored(restore, st.slots[i].name), st.slots[i].args)
  }

  lemma {:induction false} CloseCallReads(st: State, c: Client, restore: map<string, string>, i: int)
    requires Replay(st.out) == Some(c) && c.number == st.number && c.output.None? && i in st.slots
    ensures Replay(CloseCall(st, restore, i).out) ==
      if Closable(st, c, i) then Some(ShutTrack(c, st.slots[i].item, Finished(st, restore, i), 2)) else None
  {
    var slot := st.slots[i];
    EmitReads(st, c, ArgsDone(slot.item, i, slot.args));
    var st1 := Emit(st, ArgsDone(slot.item, i, slot.args));
    if Closable(st, c, i) {
      EmitReads(st1, c.(number := c.number + 1), ItemDone(slot.item, Finished(st, restore, i)));
    } else {
      ReplaySnoc(st1.out, Event(st1.number + 1, ItemDone(slot.item, Finished(st, restore, i))));
    }
  }

  /** A stream that has become unreadable stays so. */
  lemma {:induction false} StaysUnreadable(st: State, restore: map<string, string>, i: int)
    requires Replay(st.out).None?
    ensures Replay(CloseCall(st, restore, i).out).None?
  {
    if i in st.slots {
      var slot := st.slots[i];
      ReplaySnoc(st.out, Event(st.number + 1, ArgsDone(slot.item, i, slot.args)));
      var st1 := Emit(st, ArgsDone(slot.item, i, slot.args));
      ReplaySnoc(st1.out, Event(st1.number + 1, ItemDone(slot.item, Finished(st, restore, i))));
    }
  }

  /** Closing leaves the converter's tables alone. */
  lemma {:induction false} ClosingKeepsTables(st: State, restore: map<string, string>, keys: seq<int>)
    ensures var v := CloseCalls(st, restore, keys);
      v.slots == st.slots && v.order == st.order && v.announced == st.announced && v.items == st.items
      && v.message == st.message && v.text == st.text && v.usage == st.usage
  {
    if keys != [] { ClosingKeepsTables(st, restore, keys[..|keys| - 1]); }
  }

  /** Track `k` of `b`, as `c` has it: shut if it is a call in `keys`, and
      nothing new heard. */
  ghost predicate TrackShut(st: State, restore: map<string, string>, b: Client, keys: seq<int>, c: Client, k: nat)
    requires k < |b.tracks| == |c.tracks|
  {
    var t, u := b.tracks[k], c.tracks[k];
    && u.added == t.added && u.heard == t.heard
    && u.closed == if t.added.FunctionCall? && t.added.slot in keys && t.added.slot in st.slots then Some(Finished(st, restore, t.added.slot)) else t.closed
  }

  /** From `b`, with the message shut, the client `c` has shut exactly the calls
      in `keys` and heard nothing new. */
  ghost predicate ShutCalls(st: State, restore: map<string, string>, b: Client, keys: seq<int>, c: Client) {
    && c.output.None? && c.usage == b.usage && |c.tracks| == |b.tracks|
    && forall k :: 0 <= k < |b.tracks| ==> TrackShut(st, restore, b, keys, c, k)
  }

  /** Calls have one track each. */
  ghost predicate OneTrackEach(st: State, b: Client) {
    forall k :: 0 <= k < |b.tracks| && b.tracks[k].added.FunctionCall? ==>
      b.tracks[k].added.slot in st.slots && st.slots[b.tracks[k].added.slot].item == k
  }

  lemma {:induction false} ShutOneMore(st: State, restore: map<string, string>, b: Client, keys: seq<int>, c: Client, i: int)
    requires OneTrackEach(st, b) && ShutCalls(st, restore, b, keys, c) && i in st.slots && Closable(st, c, i)
    ensures ShutCalls(st, restore, b, keys + [i], ShutTrack(c, st.slots[i].item, Finished(st, restore, i), 2))
  {
    var e := ShutTrack(c, st.slots[i].item, Finished(st, restore, i), 2);
    forall k | 0 <= k < |b.tracks| ensures TrackShut(st, restore, b, keys + [i], e, k) {
      assert TrackShut(st, restore, b, keys, c, k);
    }
  }

  /** All the calls in `keys` can be closed. */
  ghost predicate AllClosable(st: State, b: Client, keys: seq<int>) {
    forall k :: 0 <= k < |keys| ==> keys[k] in st.slots && Closable(st, b, keys[k])
  }

  lemma {:induction false} AllButLast(st: State, b: Client, keys: seq<int>)
    requires keys != [] && Unrepeated(keys) && AllClosable(st, b, keys)
    ensures var front, i := keys[..|keys| - 1], keys[|keys| - 1];
      Unrepeated(front) && AllClosable(st, b, front) && i in st.slots && Closable(st, b, i) && i !in front && front + [i] == keys
  {
    var front := keys[..|keys| - 1];
    forall k | 0 <= k < |front| ensures front[k] in st.slots && Closable(st, b, front[k]) && front[k] != keys[|keys| - 1] {
      assert front[k] == keys[k];
    }
  }

  lemma {:induction false} NothingShut(st: State, restore: map<string, string>, b: Client)
    requires b.output.None?
    ensures ShutCalls(st, restore, b, [], b)
  {
  }

  lemma {:induction false} CloseOneMore(st: State, restore: map<string, string>, b: Client, front: seq<int>, mid: Client, i: int) returns (c: Client)
    requires OneTrackEach(st, b) && ShutCalls(st, restore, b, front, mid) && i in st.slots && i !in front && Closable(st, b, i)
    requires Replay(CloseCalls(st, restore, front).out) == Some(mid) && mid.number == CloseCalls(st, restore, front).number
    ensures var v := CloseCall(CloseCalls(st, restore, front), restore, i);
      Replay(v.out) == Some(c) && c.number == v.number && ShutCalls(st, restore, b, front + [i], c)
  {
    ClosingKeepsTables(st, restore, front);
    StillClosable(st, restore, b, front, mid, i);
    CloseCallReads(CloseCalls(st, restore, front), mid, restore, i);
    ShutOneMore(st, restore, b, front, mid, i);
    c := ShutTrack(mid, st.slots[i].item, Finished(st, restore, i), 2);
  }

  /** Closing calls that can be closed shuts them all ... */
  lemma {:induction false} CloseCallsReads(st: State, restore: map<string, string>, b: Client, keys: seq<int>) returns (c: Client)
    requires Replay(st.out) == Some(b) && b.number == st.number && b.output.None? && OneTrackEach(st, b)
    requires Unrepeated(keys) && AllClosable(st, b, keys)
    ensures var v := CloseCalls(st, restore, keys);
      Replay(v.out) == Some(c) && c.number == v.number && ShutCalls(st, restore, b, keys, c)
  {
    if keys == [] {
      c := b;
      NothingShut(st, restore, b);
    } else {
      var front, i := keys[..|keys| - 1], keys[|keys| - 1];
      AllButLast(st, b, keys);
      var mid := CloseCallsReads(st, restore, b, front);
      c := CloseOneMore(st, restore, b, front, mid, i);
    }
  }

  lemma {:induction false} StillClosable(st: State, restore: map<string, string>, b: Client, keys: seq<int>, c: Client, i: int)
    requires ShutCalls(st, restore, b, keys, c) && i in st.slots && i !in keys
    ensures Closable(st, c, i) <==> Closable(st, b, i)
  {
    if st.slots[i].item < |b.tracks| { assert TrackShut(st, restore, b, keys, c, st.slots[i].item); }
  }

  /** ... and one that cannot be closed makes the stream unreadable. */
  lemma {:induction false} CloseCallsFails(st: State, restore: map<string, string>, b: Client, keys: seq<int>, j: nat)
    requires Replay(st.out) == Some(b) && b.number == st.number && b.output.None? && OneTrackEach(st, b)
    requires Unrepeated(keys) && forall k :: 0 <= k < |keys| ==> keys[k] in st.slots
    requires j < |keys| && !Closable(st, b, keys[j]) && forall k :: 0 <= k < j ==> Closable(st, b, keys[k])
    ensures Replay(CloseCalls(st, restore, keys).out).None?
    decreases |keys|, 1
  {
    if j < |keys| - 1 {
      FailsEarlier(st, restore, b, keys, j);
    } else {
      FailsLast(st, restore, b, keys[..j], keys[j]);
      assert keys[..|keys| - 1] == keys[..j];
    }
  }

  lemma {:induction false} FailsEarlier(st: State, restore: map<string, string>, b: Client, keys: seq<int>, j: nat)
    requires Replay(st.out) == Some(b) && b.number == st.number && b.output.None? && OneTrackEach(st, b)
    requires Unrepeated(keys) && forall k :: 0 <= k < |keys| ==> keys[k] in st.slots
    requires j < |keys| - 1 && !Closable(st, b, keys[j]) && forall k :: 0 <= k < j ==> Closable(st, b, keys[k])
    ensures Replay(CloseCalls(st, restore, keys).out).None?
    decreases |keys|, 0
  {
    var front := keys[..|keys| - 1];
    assert forall k :: 0 <= k < |front| ==> front[k] == keys[k];
    CloseCallsFails(st, restore, b, front, j);
    StaysUnreadable(CloseCalls(st, restore, front), restore, keys[|keys| - 1]);
  }

  lemma {:induction false} FailsLast(st: State, restore: map<string, string>, b: Client, front: seq<int>, i: int)
    requires Replay(st.out) == Some(b) && b.number == st.number && b.output.None? && OneTrackEach(st, b)
    requires Unrepeated(front) && i !in front && i in st.slots && !Closable(st, b, i)
    requires forall k :: 0 <= k < |front| ==> front[k] in st.slots && Closable(st, b, front[k])
    ensures Replay(CloseCall(CloseCalls(st, restore, front), restore, i).out).None?
  {
    var mid := CloseCallsReads(st, restore, b, front);
    CloseOneFails(st, restore, b, front, mid, i);
  }

  lemma {:induction false} CloseOneFails(st: State, restore: map<string, string>, b: Client, front: seq<int>, mid: Client, i: int)
    requires ShutCalls(st, restore, b, front, mid) && i in st.slots && i !in front && !Closable(st, b, i)
    requires Replay(CloseCalls(st, restore, front).out) == Some(mid) && mid.number == CloseCalls(st, restore, front).number
    ensures Replay(CloseCall(CloseCalls(st, restore, front), restore, i).out).None?
  {
    ClosingKeepsTables(st, restore, front);
    StillClosable(st, restore, b, front, mid, i);
    CloseCallReads(CloseCalls(st, restore, front), mid, restore, i);
  }

  lemma {:induction false} FirstUnclosable(st: State, b: Client, keys: seq<int>, j: nat) returns (first: nat)
    requires forall k :: 0 <= k < |keys| ==> keys[k] in st.slots
    requires j < |keys| && !Closable(st, b, keys[j])
    ensures first < |keys| && !Closable(st, b, keys[first]) && forall k :: 0 <= k < first ==> Closable(st, b, keys[k])
  {
    first := 0;
    while Closable(st, b, keys[first])
      invariant first <= j && forall k :: 0 <= k < first ==> Closable(st, b, keys[k])
      decreases j - first
    {
      first := first + 1;
    }
  }

  // ------------------------------------------------------- the final output

  ghost predicate Rising(ps: seq<(nat, Item)>) { forall j, k :: 0 <= j < k < |ps| ==> ps[j].0 < ps[k].0 }

  ghost predicate DistinctIndices(ps: seq<(nat, Item)>) { forall j, k :: 0 <= j < k < |ps| ==> ps[j].0 != ps[k].0 }

  lemma {:induction false} InsertPairFacts(ps: seq<(nat, Item)>, p: (nat, Item))
    requires Rising(ps) && forall k :: 0 <= k < |ps| ==> ps[k].0 != p.0
    ensures Rising(InsertPair(ps, p)) && |InsertPair(ps, p)| == |ps| + 1
    ensures forall q :: q in InsertPair(ps, p) <==> q == p || q in ps
  {
    if ps != [] && p.0 > ps[0].0 {
      var rest := InsertPair(ps[1..], p);
      InsertPairFacts(ps[1..], p);
      assert ps == [ps[0]] + ps[1..];
      forall k | 0 <= k < |rest| ensures ps[0].0 < rest[k].0 {
        assert rest[k] in rest;
      }
    }
  }

  lemma {:induction false} SortPairsFacts(ps: seq<(nat, Item)>)
    requires DistinctIndices(ps)
    ensures Rising(SortPairs(ps)) && |SortPairs(ps)| == |ps| && forall q :: q in SortPairs(ps) <==> q in ps
  {
    if ps != [] {
      var front, last := ps[..|ps| - 1], ps[|ps| - 1];
      SortPairsFacts(front);
      var sorted := SortPairs(front);
      forall k | 0 <= k < |sorted| ensures sorted[k].0 != last.0 {
        assert sorted[k] in front;
      }
      InsertPairFacts(sorted, last);
      assert ps == front + [last];
    }
  }

  /** Strictly rising indices below their number are 0, 1, 2, ... */
  lemma {:induction false} RisingFills(ps: seq<(nat, Item)>, k: nat)
    requires Rising(ps) && k < |ps| && forall j :: 0 <= j < |ps| ==> ps[j].0 < |ps|
    ensures ps[k].0 == k
  {
    AtLeast(ps, k);
    AtMost(ps, k);
  }

  lemma {:induction false} AtLeast(ps: seq<(nat, Item)>, k: nat)
    requires Rising(ps) && k < |ps|
    ensures ps[k].0 >= k
  {
    if k > 0 { AtLeast(ps, k - 1); }
  }

  lemma {:induction false} AtMost(ps: seq<(nat, Item)>, k: nat)
    requires Rising(ps) && k < |ps| && forall j :: 0 <= j < |ps| ==> ps[j].0 < |ps|
    ensures ps[k].0 <= k
    decreases |ps| - k
  {
    if k < |ps| - 1 { AtMost(ps, k + 1); }
  }

  lemma {:induction false} ItemsAt(ps: seq<(nat, Item)>, k: nat)
    requires k < |ps|
    ensures |Items(ps)| == |ps| && Items(ps)[k] == ps[k].1
  {
    var n := |ps| - 1;
    if n > 0 { ItemsAt(ps[..n], if k < n then k else 0); }
  }

  // ------------------------------------------------------------ main results

  function MessageShut(st: State, c: Client): Client
    requires st.message.Some? ==> st.message.value < |c.tracks|
  {
    if st.message.Some? then ShutTrack(c, st.message.value, Message(st.text), 3) else c
  }

  /** Where a client is once the message is closed. */
  ghost predicate ReadyForCalls(st: State, c: Client, m: State, b: Client) {
    && (st.message.Some? ==> st.message.value < |c.tracks|)
    && m == CloseMessage(st) && b == MessageShut(st, c) && m.slots == st.slots && m.order == st.order
    && Replay(m.out) == Some(b) && b.number == m.number && b.output.None? && OneTrackEach(m, b)
    && Unrepeated(Sorted(st.order)) && forall i :: i in Sorted(st.order) <==> i in st.slots
  }

  lemma {:induction false} TracksAreCalls(st: State, c: Client, m: State, b: Client)
    requires Indexed(st, c) && m.slots == st.slots && (st.message.Some? ==> st.message.value < |c.tracks|) && b == MessageShut(st, c)
    ensures OneTrackEach(m, b)
  {
    forall k | 0 <= k < |b.tracks| && b.tracks[k].added.FunctionCall?
      ensures b.tracks[k].added.slot in m.slots && m.slots[b.tracks[k].added.slot].item == k
    {
      assert Attributed(st, c, k);
    }
  }

  /** The stream up to and including the message's closing events. */
  lemma {:induction false} ReadyToCloseCalls(s: seq<Atom>, st: State, c: Client, m: State, b: Client)
    requires Good(s, st, c) && m == CloseMessage(st) && b == MessageShut(st, c)
    ensures ReadyForCalls(st, c, m, b)
  {
    CloseMessageReads(st, c);
    SortedFacts(st.order);
    KnownTables(s, st);
    TracksAreCalls(st, c, m, b);
  }

  lemma {:induction false} AnnouncedClosable(s: seq<Atom>, st: State, c: Client, m: State, b: Client, i: int)
    requires InStep(st, c) && b == MessageShut(st, c) && m.slots == st.slots && i in st.announced && CallTracked(st, c, i)
    requires HeardRest(s, st, c, i) && st.slots[i].args == ArgsOf(s, i)
    ensures Closable(m, b, i) <==> LostArgs(s, i) == ""
  {
    var heard := c.tracks[st.slots[i].item].heard;
    assert b.tracks[st.slots[i].item] == c.tracks[st.slots[i].item];
    if heard == st.slots[i].args { assert |LostArgs(s, i)| == 0; }
    assert "" + heard == heard;
  }

  lemma {:induction false} UnannouncedNotClosable(st: State, c: Client, m: State, b: Client, i: int)
    requires InStep(st, c) && b == MessageShut(st, c) && m.slots == st.slots && i in st.slots && i !in st.announced
    requires st.slots[i].item < |c.tracks| ==> Attributed(st, c, st.slots[i].item)
    ensures !Closable(m, b, i)
  {
  }

  /** A call can be closed exactly when it was introduced in time. */
  lemma {:induction false} ClosableExactly(s: seq<Atom>, st: State, c: Client, m: State, b: Client, i: int)
    requires Good(s, st, c) && i in st.slots && b == MessageShut(st, c) && m.slots == st.slots
    ensures Closable(m, b, i) <==> Introduced(s, i)
  {
    assert KnowsCall(s, st, i);
    if i in st.announced {
      assert CallTracked(st, c, i) && HeardRest(s, st, c, i);
      AnnouncedClosable(s, st, c, m, b, i);
    } else {
      if st.slots[i].item < |c.tracks| { assert Attributed(st, c, st.slots[i].item); }
      UnannouncedNotClosable(st, c, m, b, i);
    }
  }

  ghost predicate AllIntroduced(s: seq<Atom>) { forall i :: Seen(s, i) ==> Introduced(s, i) }

  /** The end of the stream from the message's closing on. */
  lemma {:induction false} EndIs(st: State, restore: map<string, string>, m: State)
    requires m == CloseMessage(st)
    ensures Ended(st, restore) == Emit(CloseCalls(m, restore, Sorted(st.order)), Completed(FinalOutput(st), st.usage))
  {
  }

  lemma {:induction false} CloseAndComplete(restore: map<string, string>, st: State, c: Client, m: State, b: Client) returns (d: Client)
    requires ReadyForCalls(st, c, m, b) && AllClosable(m, b, Sorted(st.order))
    ensures ShutCalls(m, restore, b, Sorted(st.order), d)
    ensures Replay(Ended(st, restore).out) == Some(d.(number := d.number + 1, output := Some(FinalOutput(st)), usage := st.usage))
  {
    EndIs(st, restore, m);
    d := CloseCallsReads(m, restore, b, Sorted(st.order));
    CompletedReads(CloseCalls(m, restore, Sorted(st.order)), d, FinalOutput(st), st.usage);
  }

  lemma {:induction false} CompletedReads(w: State, d: Client, output: seq<Item>, usage: Option<Usage>)
    requires Replay(w.out) == Some(d) && d.number == w.number && d.output.None?
    ensures Replay(Emit(w, Completed(output, usage)).out) == Some(d.(number := d.number + 1, output := Some(output), usage := usage))
  {
    EmitReads(w, d, Completed(output, usage));
  }

  lemma {:induction false} KeysAreClosable(s: seq<Atom>, st: State, c: Client, m: State, b: Client, keys: seq<int>)
    requires Good(s, st, c) && AllIntroduced(s) && b == MessageShut(st, c) && m.slots == st.slots && forall i :: i in keys ==> i in st.slots
    ensures AllClosable(m, b, keys)
  {
    forall k | 0 <= k < |keys| ensures keys[k] in m.slots && Closable(m, b, keys[k]) {
      var i := keys[k];
      assert i in keys && KnowsCall(s, st, i) && Introduced(s, i);
      ClosableExactly(s, st, c, m, b, i);
    }
  }

  lemma {:induction false} ReadableIfIntroduced(restore: map<string, string>, s: seq<Atom>) returns (b: Client, d: Client)
    requires AllIntroduced(s)
    ensures Good(s, Fold(restore, s), b)
    ensures var st := Fold(restore, s);
      && ShutCalls(CloseMessage(st), restore, MessageShut(st, b), Sorted(st.order), d)
      && Replay(Ended(st, restore).out) == Some(d.(number := d.number + 1, output := Some(FinalOutput(st)), usage := st.usage))
  {
    b := FoldIsGood(restore, s);
    d := ReadToTheEnd(restore, s, Fold(restore, s), b);
  }

  lemma {:induction false} ReadToTheEnd(restore: map<string, string>, s: seq<Atom>, st: State, c: Client) returns (d: Client)
    requires Good(s, st, c) && AllIntroduced(s)
    ensures ShutCalls(CloseMessage(st), restore, MessageShut(st, c), Sorted(st.order), d)
    ensures Replay(Ended(st, restore).out) == Some(d.(number := d.number + 1, output := Some(FinalOutput(st)), usage := st.usage))
  {
    var m, b := CloseMessage(st), MessageShut(st, c);
    ReadyToCloseCalls(s, st, c, m, b);
    KeysAreClosable(s, st, c, m, b, Sorted(st.order));
    d := CloseAndComplete(restore, st, c, m, b);
  }

  lemma {:induction false} EndUnreadable(restore: map<string, string>, st: State, c: Client, m: State, b: Client, j: nat)
    requires ReadyForCalls(st, c, m, b) && j < |Sorted(st.order)| && Sorted(st.order)[j] in m.slots && !Closable(m, b, Sorted(st.order)[j])
    ensures Replay(Ended(st, restore).out).None?
  {
    var keys := Sorted(st.order);
    forall k | 0 <= k < |keys| ensures keys[k] in m.slots {
      var i := keys[k];
      assert i in keys;
    }
    EndIs(st, restore, m);
    var first := FirstUnclosable(m, b, keys, j);
    CloseCallsFails(m, restore, b, keys, first);
    var v := CloseCalls(m, restore, keys);
    ReplaySnoc(v.out, Event(v.number + 1, Completed(FinalOutput(st), st.usage)));
  }

  lemma {:induction false} UnreadableOtherwise(restore: map<string, string>, s: seq<Atom>, st: State, c: Client, i: int)
    requires Good(s, st, c) && Seen(s, i) && !Introduced(s, i)
    ensures Replay(Ended(st, restore).out).None?
  {
    var m, b := CloseMessage(st), MessageShut(st, c);
    ReadyToCloseCalls(s, st, c, m, b);
    assert KnowsCall(s, st, i);
    ClosableExactly(s, st, c, m, b, i);
    var j :| 0 <= j < |Sorted(st.order)| && Sorted(st.order)[j] == i;
    EndUnreadable(restore, st, c, m, b, j);
  }

  /** The whole event stream can be read by a client that checks every number,
      index, id and text exactly when each call was given an id or a name no
      later than its first argument fragment. */
  lemma {:induction false} ReadableExactly(restore: map<string, string>, s: seq<Atom>)
    ensures Replay(Ended(Fold(restore, s), restore).out).Some? <==> AllIntroduced(s)
  {
    if AllIntroduced(s) {
      var b, d := ReadableIfIntroduced(restore, s);
    } else {
      var i :| Seen(s, i) && !Introduced(s, i);
      var c := FoldIsGood(restore, s);
      UnreadableOtherwise(restore, s, Fold(restore, s), c, i);
    }
  }

  lemma {:induction false} CallPairsAt(st: State, keys: seq<int>, k: nat)
    requires k < |keys| && forall j :: 0 <= j < |keys| ==> keys[j] in st.slots
    ensures |CallPairs(st, keys)| == |keys| && CallPairs(st, keys)[k] == CallPair(st, keys[k])
  {
    var n := |keys| - 1;
    if n > 0 { CallPairsAt(st, keys[..n], if k < n then k else 0); }
  }

  lemma {:induction false} UnrepeatedSize(keys: seq<int>, all: set<int>)
    requires Unrepeated(keys) && forall i :: i in keys <==> i in all
    ensures |all| == |keys|
  {
    if keys == [] {
      NoMembers(all);
    } else {
      var front, last := keys[..|keys| - 1], keys[|keys| - 1];
      forall i ensures i in front <==> i in all - {last} {
        assert keys == front + [last];
      }
      UnrepeatedSize(front, all - {last});
      assert last in keys;
    }
  }

  /** An entry of the final output is the item closed in the stream, except that
      a renamed call keeps its upstream name. */
  predicate Agrees(restore: map<string, string>, entry: Item, closed: Item) {
    match entry
    case Message(t) => closed == Message(t)
    case FunctionCall(slot, id, name, args) => closed == FunctionCall(slot, id, Restored(restore, name), args)
  }

  /** The pairs to be sorted are one for each index. */
  ghost predicate PairedUp(restore: map<string, string>, d: Client, ps: seq<(nat, Item)>) {
    && |ps| == |d.tracks| && DistinctIndices(ps)
    && forall k :: 0 <= k < |ps| ==> ps[k].0 < |d.tracks| && d.tracks[ps[k].0].closed.Some? && Agrees(restore, ps[k].1, d.tracks[ps[k].0].closed.value)
  }

  /** The calls' pairs, in key order. */
  /** How a call that was announced ends up in the client's hands. */
  lemma {:induction false} ShutAs(m: State, restore: map<string, string>, b: Client, keys: seq<int>, d: Client, i: int)
    requires ShutCalls(m, restore, b, keys, d) && i in keys && i in m.slots
    requires m.slots[i].item < |b.tracks| && b.tracks[m.slots[i].item].added.FunctionCall? && b.tracks[m.slots[i].item].added.slot == i
    ensures m.slots[i].item < |d.tracks| && d.tracks[m.slots[i].item].closed == Some(Finished(m, restore, i))
  {
    assert TrackShut(m, restore, b, keys, d, m.slots[i].item);
  }

  /** Shutting changes nothing that was heard. */
  lemma {:induction false} ShutHeard(st: State, restore: map<string, string>, c: Client, keys: seq<int>, d: Client, k: nat)
    requires k < |c.tracks| && (st.message.Some? ==> st.message.value < |c.tracks|)
    requires ShutCalls(CloseMessage(st), restore, MessageShut(st, c), keys, d)
    ensures k < |d.tracks| && d.tracks[k].added == c.tracks[k].added && d.tracks[k].heard == c.tracks[k].heard
  {
    assert TrackShut(CloseMessage(st), restore, MessageShut(st, c), keys, d, k);
  }

  lemma {:induction false} ShutSameHeard(st: State, restore: map<string, string>, c: Client, keys: seq<int>, d: Client)
    requires st.message.Some? ==> st.message.value < |c.tracks|
    requires ShutCalls(CloseMessage(st), restore, MessageShut(st, c), keys, d)
    ensures MessageText(d.tracks) == MessageText(c.tracks)
  {
    forall k | 0 <= k < |c.tracks|
      ensures k < |d.tracks| && d.tracks[k].added == c.tracks[k].added && d.tracks[k].heard == c.tracks[k].heard
    {
      ShutHeard(st, restore, c, keys, d, k);
    }
    SameHeard(c.tracks, d.tracks);
  }

  lemma {:induction false} AnnouncedCall(s: seq<Atom>, st: State, c: Client, i: int)
    requires Good(s, st, c) && Introduced(s, i) && i in st.slots
    ensures i in st.announced && CallTracked(st, c, i)
    ensures var b := MessageShut(st, c);
      st.slots[i].item < |b.tracks| && b.tracks[st.slots[i].item].added.FunctionCall? && b.tracks[st.slots[i].item].added.slot == i
  {
    assert KnowsCall(s, st, i);
    assert CallTracked(st, c, i);
  }

  lemma {:induction false} PairAt(st: State, keys: seq<int>, j: nat)
    requires j < |keys| && forall i :: i in keys ==> i in st.slots
    ensures |CallPairs(st, keys)| == |keys| && keys[j] in st.slots && CallPairs(st, keys)[j] == CallPair(st, keys[j])
  {
    forall k | 0 <= k < |keys| ensures keys[k] in st.slots {
      var i := keys[k];
      assert i in keys;
    }
    CallPairsAt(st, keys, j);
  }

  lemma {:induction false} CallPairsAgree(restore: map<string, string>, s: seq<Atom>, st: State, c: Client, d: Client, keys: seq<int>, j: nat)
    requires Good(s, st, c) && AllIntroduced(s) && j < |keys| && forall i :: i in keys ==> i in st.slots
    requires ShutCalls(CloseMessage(st), restore, MessageShut(st, c), keys, d)
    ensures var calls := CallPairs(st, keys);
      && |calls| == |keys| && keys[j] in st.announced && CallTracked(st, c, keys[j]) && calls[j] == CallPair(st, keys[j])
      && calls[j].0 < |d.tracks| && d.tracks[calls[j].0].closed.Some? && Agrees(restore, calls[j].1, d.tracks[calls[j].0].closed.value)
  {
    var i := keys[j];
    PairAt(st, keys, j);
    assert KnowsCall(s, st, i) && Introduced(s, i) && i in keys;
    AnnouncedCall(s, st, c, i);
    ShutAs(CloseMessage(st), restore, MessageShut(st, c), keys, d, i);
  }

  lemma {:induction false} CountsMatch(s: seq<Atom>, st: State, c: Client)
    requires Good(s, st, c) && AllIntroduced(s)
    ensures |st.announced| == |st.order| && |Sorted(st.order)| == |st.order| && |CallPairs(st, Sorted(st.order))| == |st.order|
  {
    SortedFacts(st.order);
    forall i ensures i in st.order <==> i in st.announced {
      assert KnowsCall(s, st, i);
      if i in st.order { assert Introduced(s, i); }
    }
    UnrepeatedSize(st.order, st.announced);
    var keys := Sorted(st.order);
    KnownTables(s, st);
    if keys == [] { assert CallPairs(st, keys) == []; } else { PairAt(st, keys, 0); }
  }

  /** All of `CallPairsAgree`, for all calls. */
  ghost predicate CallsAgree(restore: map<string, string>, st: State, c: Client, d: Client) {
    var calls, keys := CallPairs(st, Sorted(st.order)), Sorted(st.order);
    && |calls| == |keys| == |st.order| && Ascending(keys)
    && forall j :: 0 <= j < |calls| ==>
         && keys[j] in st.announced && CallTracked(st, c, keys[j]) && calls[j] == CallPair(st, keys[j])
         && calls[j].0 < |d.tracks| && d.tracks[calls[j].0].closed.Some? && Agrees(restore, calls[j].1, d.tracks[calls[j].0].closed.value)
  }

  lemma {:induction false} AllCallsAgree(restore: map<string, string>, s: seq<Atom>, st: State, c: Client, d: Client)
    requires Good(s, st, c) && AllIntroduced(s)
    requires ShutCalls(CloseMessage(st), restore, MessageShut(st, c), Sorted(st.order), d)
    ensures CallsAgree(restore, st, c, d)
  {
    CountsMatch(s, st, c);
    SortedFacts(st.order);
    KnownTables(s, st);
    var keys := Sorted(st.order);
    var calls := CallPairs(st, keys);
    forall j | 0 <= j < |calls|
      ensures keys[j] in st.announced && CallTracked(st, c, keys[j]) && calls[j] == CallPair(st, keys[j])
      ensures calls[j].0 < |d.tracks| && d.tracks[calls[j].0].closed.Some? && Agrees(restore, calls[j].1, d.tracks[calls[j].0].closed.value)
    {
      CallPairsAgree(restore, s, st, c, d, keys, j);
    }
  }

  lemma {:induction false} PairsAreOnePerIndex(restore: map<string, string>, s: seq<Atom>, st: State, c: Client, d: Client)
    requires Good(s, st, c) && st.items > 0 && AllIntroduced(s)
    requires ShutCalls(CloseMessage(st), restore, MessageShut(st, c), Sorted(st.order), d)
    ensures PairedUp(restore, d, Pairs(st))
  {
    CountsMatch(s, st, c);
    AllCallsAgree(restore, s, st, c, d);
    if st.message.Some? {
      PairsWithMessage(restore, st, c, d);
    } else {
      PairsWithoutMessage(restore, st, c, d);
    }
  }

  /** Two calls never share an index. */
  lemma {:induction false} CallsApart(st: State, c: Client, calls: seq<(nat, Item)>)
    requires |calls| == |Sorted(st.order)| && Ascending(Sorted(st.order))
    requires forall j :: 0 <= j < |calls| ==> Sorted(st.order)[j] in st.announced && CallTracked(st, c, Sorted(st.order)[j]) && calls[j] == CallPair(st, Sorted(st.order)[j])
    ensures DistinctIndices(calls)
  {
  }

  lemma {:induction false} PairsWithMessage(restore: map<string, string>, st: State, c: Client, d: Client)
    requires InStep(st, c) && st.message.Some? && |c.tracks| == |st.order| + 1 && CallsAgree(restore, st, c, d)
    requires ShutCalls(CloseMessage(st), restore, MessageShut(st, c), Sorted(st.order), d)
    ensures PairedUp(restore, d, Pairs(st))
  {
    var calls := CallPairs(st, Sorted(st.order));
    var first := (st.message.value, Message(st.text));
    CallsApart(st, c, calls);
    MessageApart(restore, st, c, d, calls);
    FirstPlusCalls(first, calls);
    assert Pairs(st) == [first] + calls;
  }

  lemma {:induction false} MessageApart(restore: map<string, string>, st: State, c: Client, d: Client, calls: seq<(nat, Item)>)
    requires InStep(st, c) && st.message.Some? && CallsAgree(restore, st, c, d) && calls == CallPairs(st, Sorted(st.order))
    requires ShutCalls(CloseMessage(st), restore, MessageShut(st, c), Sorted(st.order), d)
    ensures forall j :: 0 <= j < |calls| ==> calls[j].0 != st.message.value
    ensures st.message.value < |d.tracks| && d.tracks[st.message.value].closed == Some(Message(st.text))
  {
    assert TrackShut(CloseMessage(st), restore, MessageShut(st, c), Sorted(st.order), d, st.message.value);
  }

  lemma {:induction false} FirstPlusCalls(first: (nat, Item), calls: seq<(nat, Item)>)
    requires DistinctIndices(calls) && forall j :: 0 <= j < |calls| ==> calls[j].0 != first.0
    ensures DistinctIndices([first] + calls)
  {
  }

  lemma {:induction false} PairsWithoutMessage(restore: map<string, string>, st: State, c: Client, d: Client)
    requires InStep(st, c) && st.message.None? && |c.tracks| == |st.order| > 0 && CallsAgree(restore, st, c, d)
    requires |d.tracks| == |c.tracks|
    ensures PairedUp(restore, d, Pairs(st))
  {
    var calls := CallPairs(st, Sorted(st.order));
    CallsApart(st, c, calls);
    assert Pairs(st) == calls;
  }

  /** When each call was introduced in time and there is at least one item, the
      completed output lists at position k the item streamed under index k, and
      every item was closed with exactly what its deltas said. */
  lemma {:induction false} CompletedOutputMatches(restore: map<string, string>, s: seq<Atom>) returns (c: Client)
    requires Fold(restore, s).items > 0 && AllIntroduced(s)
    ensures Replay(Ended(Fold(restore, s), restore).out) == Some(c) && c.output.Some? && c.usage == UsageOf(s)
    ensures |c.output.value| == |c.tracks|
    ensures forall k :: 0 <= k < |c.tracks| ==> c.tracks[k].closed.Some? && Agrees(restore, c.output.value[k], c.tracks[k].closed.value)
  {
    var st := Fold(restore, s);
    var b, d := ReadableIfIntroduced(restore, s);
    c := d.(number := d.number + 1, output := Some(FinalOutput(st)), usage := st.usage);
    PairsAreOnePerIndex(restore, s, st, b, d);
    OutputByIndex(restore, st, d);
  }

  lemma {:induction false} OutputByIndex(restore: map<string, string>, st: State, d: Client)
    requires PairedUp(restore, d, Pairs(st))
    ensures |FinalOutput(st)| == |d.tracks|
    ensures forall k :: 0 <= k < |d.tracks| ==> d.tracks[k].closed.Some? && Agrees(restore, FinalOutput(st)[k], d.tracks[k].closed.value)
  {
    var ps := Pairs(st);
    var sorted := SortPairs(ps);
    SortPairsFacts(ps);
    forall k | 0 <= k < |sorted| ensures sorted[k].0 < |ps| {
      assert sorted[k] in sorted;
    }
    if sorted == [] { assert Items(sorted) == []; } else { ItemsAt(sorted, 0); }
    forall k | 0 <= k < |d.tracks| ensures d.tracks[k].closed.Some? && Agrees(restore, FinalOutput(st)[k], d.tracks[k].closed.value) {
      RisingFills(sorted, k);
      ItemsAt(sorted, k);
      assert sorted[k] in sorted;
      var j :| 0 <= j < |ps| && ps[j] == sorted[k];
    }
  }

  lemma {:induction false} OrderNotEmpty(restore: map<string, string>, s: seq<Atom>)
    ensures forall i :: i in Fold(restore, s).slots ==> Fold(restore, s).order != []
  {
    var c := FoldIsGood(restore, s);
    KnownTables(s, Fold(restore, s));
  }

  lemma {:induction false} OrderAfter(st: State, restore: map<string, string>, a: Atom, v: State)
    requires v == Next(st, restore, a) && forall i :: i in st.slots ==> st.order != []
    ensures v.order == [] <==> st.order == [] && !a.Call?
  {
    if a.Call? { OnToolShape(st, restore, a.delta); }
  }

  lemma {:induction false} NoCallNoItem(restore: map<string, string>, s: seq<Atom>)
    ensures Fold(restore, s).order == [] <==> !HasCall(s)
  {
    if s != [] {
      NoCallNoItem(restore, s[..|s| - 1]);
      OrderNotEmpty(restore, s[..|s| - 1]);
      OrderAfter(Fold(restore, s[..|s| - 1]), restore, s[|s| - 1], Fold(restore, s));
    }
  }

  lemma {:induction false} EmptyOutput(st: State)
    requires st.order == [] && st.text == "" && st.message.None?
    ensures FinalOutput(st) == [Message("")]
  {
    var p: (nat, Item) := (0, Message(""));
    var none: seq<(nat, Item)> := [];
    assert Pairs(st) == [p] + none;
    assert [p][..0] == none && InsertPair(none, p) == [p] + none;
    assert SortPairs([p]) == [p];
    assert Items([p]) == [Message("")];
  }

  /** An empty stream is the exception: its output has a message no event ever
      added. */
  lemma {:induction false} EmptyStreamInventsMessage(restore: map<string, string>, s: seq<Atom>)
    requires TextOf(s) == "" && !HasCall(s)
    ensures Fold(restore, s).items == 0 && FinalOutput(Fold(restore, s)) == [Message("")]
  {
    var c := FoldIsGood(restore, s);
    NoCallNoItem(restore, s);
    NothingAnnounced(s, Fold(restore, s), c);
    EmptyOutput(Fold(restore, s));
  }

  lemma {:induction false} NothingAnnounced(s: seq<Atom>, st: State, c: Client)
    requires Good(s, st, c) && st.order == [] && st.text == ""
    ensures st.items == 0 && st.message.None?
  {
    forall i ensures i !in st.announced { assert KnowsCall(s, st, i); }
    NoMembers(st.announced);
  }
}
