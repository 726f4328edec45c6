/** What the closing events of a Responses stream say, for every stream: a
    client that goes by the `done` events and the completed output needs no
    call to have been introduced in time. */
module ResponsesClosing {
  import opened Basics
  import opened Transcript
  import opened ResponsesEvents
  import opened ResponsesSafety

  /** The text as its deltas came, and as it was closed; the arguments and the
      item each call was closed with; the completed output. */
  datatype Digest = Digest(streamed: string, text: string, args: map<int, string>, closed: map<int, Item>,
                           output: Option<seq<Item>>, usage: Option<Usage>)

  const NOTHING := Digest("", "", map[], map[], None, None)

  function Noted(d: Digest, b: Body): Digest {
    match b
    case TextDelta(_, t) => d.(streamed := d.streamed + t)
    case TextDone(_, t) => d.(text := d.text + t)
    case ArgsDone(_, i, a) => d.(args := d.args[i := a])
    case ItemDone(_, FunctionCall(i, id, name, a)) => d.(closed := d.closed[i := FunctionCall(i, id, name, a)])
    case Completed(output, usage) => d.(output := Some(output), usage := usage)
    case _ => d
  }

  function Digested(es: seq<Event>): Digest {
    if es == [] then NOTHING else Noted(Digested(es[..|es| - 1]), es[|es| - 1].body)
  }

  lemma {:induction false} EmitNotes(st: State, b: Body)
    ensures Digested(Emit(st, b).out) == Noted(Digested(st.out), b)
  {
    var e := Event(st.number + 1, b);
    assert (st.out + [e])[..|st.out|] == st.out;
  }

  // ------------------------------------------------------ while it streams

  lemma {:induction false} TextNotes(st: State, text: string)
    ensures Digested(OnText(st, text).out) == Digested(st.out).(streamed := Digested(st.out).streamed + text)
  {
    if text == "" {
      assert Digested(st.out).streamed + "" == Digested(st.out).streamed;
    } else {
      var o := OpenMessage(st);
      if st.message.None? {
        var m := st.(message := Some(st.items), items := st.items + 1);
        EmitNotes(m, ItemAdded(st.items, Message("")));
        EmitNotes(Emit(m, ItemAdded(st.items, Message(""))), PartAdded(st.items));
      }
      EmitNotes(o.(text := o.text + text), TextDelta(if o.message.Some? then o.message.value else 0, text));
    }
  }

  lemma {:induction false} ToolNotesNothing(st: State, restore: map<string, string>, d: ToolDelta)
    ensures Digested(OnTool(st, restore, d).out) == Digested(st.out)
  {
    var v := Stored(st, d);
    var slot := v.slots[d.index];
    var a := Announced(v, restore, d.index);
    if !(d.index in v.announced || (slot.id == "" && slot.name == "")) {
      var next := v.(announced := v.announced + {d.index}, slots := v.slots[d.index := slot.(item := v.items)], items := v.items + 1);
      EmitNotes(next, ItemAdded(v.items, FunctionCall(d.index, slot.id, Restored(restore, slot.name), "")));
    }
    if d.args != "" && d.index in a.announced { EmitNotes(a, ArgsDelta(a.slots[d.index].item, d.index, d.args)); }
  }

  lemma {:induction false} NextStreams(restore: map<string, string>, st: State, a: Atom, v: State)
    requires v == Next(st, restore, a)
    ensures Digested(v.out) == Digested(st.out).(streamed := Digested(st.out).streamed + Spoken(a))
  {
    assert Digested(st.out).streamed + "" == Digested(st.out).streamed;
    match a
    case Say(t) => TextNotes(st, t);
    case Call(d) => ToolNotesNothing(st, restore, d);
    case _ =>
  }

  lemma {:induction false} BegunNotes()
    ensures Digested(Begun().out) == NOTHING
  {
    EmitNotes(EMPTY, Created);
    EmitNotes(Emit(EMPTY, Created), InProgress);
  }

  /** Until the end, all that has been heard is the text so far. */
  lemma {:induction false} StreamedSoFar(restore: map<string, string>, s: seq<Atom>)
    ensures Digested(Fold(restore, s).out) == NOTHING.(streamed := TextOf(s))
  {
    if s == [] {
      BegunNotes();
    } else {
      StreamedSoFar(restore, s[..|s| - 1]);
      NextStreams(restore, Fold(restore, s[..|s| - 1]), s[|s| - 1], Fold(restore, s));
    }
  }

  // --------------------------------------------------------------- closing

  lemma {:induction false} MessageNotes(st: State)
    requires st.message.None? ==> st.text == ""
    ensures Digested(CloseMessage(st).out) == Digested(st.out).(text := Digested(st.out).text + st.text)
  {
    if st.message.Some? {
      var m := st.message.value;
      EmitNotes(st, TextDone(m, st.text));
      var st1 := Emit(st, TextDone(m, st.text));
      EmitNotes(st1, PartDone(m, st.text));
      EmitNotes(Emit(st1, PartDone(m, st.text)), ItemDone(m, Message(st.text)));
    } else {
      assert Digested(st.out).text + "" == Digested(st.out).text;
    }
  }

  /** The calls in `keys` are the ones noted. */
  ghost predicate CallsNoted(st: State, restore: map<string, string>, keys: seq<int>, d: Digest) {
    && (forall i :: i in d.args <==> i in keys) && (forall i :: i in d.closed <==> i in keys)
    && forall i :: i in keys ==> i in st.slots && d.args[i] == st.slots[i].args && d.closed[i] == Finished(st, restore, i)
  }

  lemma {:induction false} NotedClose(d: Digest, slot: Slot, i: int, item: Item)
    requires item.FunctionCall? && item.slot == i
    ensures Noted(Noted(d, ArgsDone(slot.item, i, slot.args)), ItemDone(slot.item, item))
      == d.(args := d.args[i := slot.args], closed := d.closed[i := item])
  {
  }

  lemma {:induction false} CallNotes(st: State, restore: map<string, string>, i: int)
    requires i in st.slots
    ensures var d := Digested(st.out);
      Digested(CloseCall(st, restore, i).out) == d.(args := d.args[i := st.slots[i].args], closed := d.closed[i := Finished(st, restore, i)])
  {
    var slot := st.slots[i];
    var args, done := ArgsDone(slot.item, i, slot.args), ItemDone(slot.item, Finished(st, restore, i));
    EmitNotes(st, args);
    EmitNotes(Emit(st, args), done);
    NotedClose(Digested(st.out), st.slots[i], i, Finished(st, restore, i));
    assert CloseCall(st, restore, i) == Emit(Emit(st, args), done);
  }

  lemma {:induction false} OneMoreNoted(st: State, restore: map<string, string>, front: seq<int>, i: int, d: Digest)
    requires CallsNoted(st, restore, front, d) && i in st.slots
    ensures CallsNoted(st, restore, front + [i], d.(args := d.args[i := st.slots[i].args], closed := d.closed[i := Finished(st, restore, i)]))
  {
  }

  lemma {:induction false} CallsNotes(st: State, restore: map<string, string>, keys: seq<int>)
    requires Digested(st.out).args == map[] && Digested(st.out).closed == map[] && forall i :: i in keys ==> i in st.slots
    ensures var d := Digested(CloseCalls(st, restore, keys).out);
      CallsNoted(st, restore, keys, d) && d == Digested(st.out).(args := d.args, closed := d.closed)
  {
    if keys != [] {
      var front, i := keys[..|keys| - 1], keys[|keys| - 1];
      CallsNotes(st, restore, front);
      ClosingKeepsTables(st, restore, front);
      CallNotes(CloseCalls(st, restore, front), restore, i);
      OneMoreNoted(st, restore, front, i, Digested(CloseCalls(st, restore, front).out));
      assert front + [i] == keys;
    }
  }

  // ------------------------------------------------------ completed output

  lemma {:induction false} InsertPairMembers(ps: seq<(nat, Item)>, p: (nat, Item))
    ensures |InsertPair(ps, p)| == |ps| + 1 && forall q :: q in InsertPair(ps, p) <==> q == p || q in ps
  {
    if !(ps == [] || p.0 < ps[0].0) {
      InsertPairMembers(ps[1..], p);
      assert ps == [ps[0]] + ps[1..];
    }
  }

  lemma {:induction false} SortPairsMembers(ps: seq<(nat, Item)>)
    ensures |SortPairs(ps)| == |ps| && forall q :: q in SortPairs(ps) <==> q in ps
  {
    if ps != [] {
      SortPairsMembers(ps[..|ps| - 1]);
      InsertPairMembers(SortPairs(ps[..|ps| - 1]), ps[|ps| - 1]);
      assert ps == ps[..|ps| - 1] + [ps[|ps| - 1]];
    }
  }

  lemma {:induction false} ItemsMembers(ps: seq<(nat, Item)>, x: Item)
    ensures |Items(ps)| == |ps| && (x in Items(ps) <==> exists k :: 0 <= k < |ps| && ps[k].1 == x)
  {
    if ps != [] { ItemsMembers(ps[..|ps| - 1], x); }
  }

  /** A pair carries `x`. */
  ghost predicate Carried(ps: seq<(nat, Item)>, x: Item) { exists k :: 0 <= k < |ps| && ps[k].1 == x }

  lemma {:induction false} OutputIsPairs(st: State, x: Item)
    ensures |FinalOutput(st)| == |Pairs(st)| && (x in FinalOutput(st) <==> Carried(Pairs(st), x))
  {
    var ps := Pairs(st);
    SortPairsMembers(ps);
    ItemsMembers(SortPairs(ps), x);
    if Carried(ps, x) {
      var k :| 0 <= k < |ps| && ps[k].1 == x;
      assert ps[k] in SortPairs(ps);
    }
    if x in FinalOutput(st) {
      var k :| 0 <= k < |ps| && SortPairs(ps)[k].1 == x;
      assert SortPairs(ps)[k] in ps;
    }
  }

  /** Call `i` as the completed output has it. */
  function Listed(s: seq<Atom>, i: int): Item { FunctionCall(i, IdOf(s, i), NameOf(s, i), ArgsOf(s, i)) }

  /** The output is one entry per call, and the text unless there is none to
      tell among calls. */
  ghost predicate ListsAll(s: seq<Atom>, keys: seq<int>, output: seq<Item>) {
    && |output| == |keys| + (if TextOf(s) != "" || keys == [] then 1 else 0)
    && (forall i :: i in keys ==> Listed(s, i) in output)
    && (TextOf(s) != "" || keys == [] ==> Message(TextOf(s)) in output)
    && (forall x :: x in output ==> match x case Message(t) => t == TextOf(s) case FunctionCall(i, _, _, _) => i in keys && x == Listed(s, i))
  }

  lemma {:induction false} CallsCarried(s: seq<Atom>, st: State, keys: seq<int>, i: int)
    requires KnowsCall(s, st, i) && (forall j :: j in keys ==> j in st.slots) && i in keys
    ensures Carried(CallPairs(st, keys), Listed(s, i))
  {
    var k :| 0 <= k < |keys| && keys[k] == i;
    PairAt(st, keys, k);
  }

  lemma {:induction false} CarriedAreCalls(s: seq<Atom>, st: State, keys: seq<int>, x: Item)
    requires Known(s, st) && (forall j :: j in keys ==> j in st.slots) && Carried(CallPairs(st, keys), x)
    ensures x.FunctionCall? && x.slot in keys && x == Listed(s, x.slot)
  {
    var k :| 0 <= k < |CallPairs(st, keys)| && CallPairs(st, keys)[k].1 == x;
    if keys != [] { PairAt(st, keys, 0); }
    PairAt(st, keys, k);
    var i := keys[k];
    assert i in keys && KnowsCall(s, st, i);
  }

  lemma {:induction false} CarriedInSum(a: seq<(nat, Item)>, b: seq<(nat, Item)>, x: Item)
    ensures Carried(a + b, x) <==> Carried(a, x) || Carried(b, x)
  {
    if Carried(a, x) {
      var k :| 0 <= k < |a| && a[k].1 == x;
      assert (a + b)[k].1 == x;
    }
    if Carried(b, x) {
      var k :| 0 <= k < |b| && b[k].1 == x;
      assert (a + b)[|a| + k].1 == x;
    }
  }

  function TextPair(st: State): seq<(nat, Item)> {
    if st.text != "" || st.order == [] then [(if st.message.Some? then st.message.value else 0, Message(st.text))] else []
  }

  lemma {:induction false} CarriedByText(st: State, x: Item)
    ensures Carried(TextPair(st), x) <==> (st.text != "" || st.order == []) && x == Message(st.text)
  {
    if st.text != "" || st.order == [] { assert TextPair(st)[0].1 == Message(st.text); }
  }

  /** What the output has, before it is put in words about the stream. */
  lemma {:induction false} OutputHas(st: State, keys: seq<int>, x: Item)
    requires keys == Sorted(st.order)
    ensures x in FinalOutput(st) <==> Carried(CallPairs(st, keys), x) || ((st.text != "" || st.order == []) && x == Message(st.text))
  {
    assert Pairs(st) == TextPair(st) + CallPairs(st, keys);
    OutputIsPairs(st, x);
    CarriedInSum(TextPair(st), CallPairs(st, keys), x);
    CarriedByText(st, x);
  }

  lemma {:induction false} OutputSize(st: State, keys: seq<int>)
    requires keys == Sorted(st.order) && |keys| == |st.order| && forall i :: i in keys ==> i in st.slots
    ensures |FinalOutput(st)| == |keys| + (if st.text != "" || keys == [] then 1 else 0)
  {
    if keys != [] { PairAt(st, keys, 0); }
    assert Pairs(st) == TextPair(st) + CallPairs(st, keys);
    OutputIsPairs(st, Message(""));
  }

  lemma {:induction false} OutputListsAll(s: seq<Atom>, st: State)
    requires Known(s, st) && st.text == TextOf(s)
    ensures ListsAll(s, Sorted(st.order), FinalOutput(st))
  {
    var keys := Sorted(st.order);
    SortedFacts(st.order);
    KnownTables(s, st);
    OutputSize(st, keys);
    forall i | i in keys ensures Listed(s, i) in FinalOutput(st) {
      assert KnowsCall(s, st, i);
      CallsCarried(s, st, keys, i);
      OutputHas(st, keys, Listed(s, i));
    }
    OutputHas(st, keys, Message(TextOf(s)));
    forall x | x in FinalOutput(st)
      ensures match x case Message(t) => t == TextOf(s) case FunctionCall(i, _, _, _) => i in keys && x == Listed(s, i)
    {
      OutputHas(st, keys, x);
      if Carried(CallPairs(st, keys), x) { CarriedAreCalls(s, st, keys, x); }
    }
  }

  // ----------------------------------------------------------- main results

  /** The calls' closing events say everything. */
  ghost predicate ClosesAll(restore: map<string, string>, s: seq<Atom>, d: Digest) {
    && (forall i :: i in d.args <==> Seen(s, i)) && (forall i :: i in d.closed <==> Seen(s, i))
    && forall i :: Seen(s, i) ==>
         d.args[i] == ArgsOf(s, i) && d.closed[i] == FunctionCall(i, IdOf(s, i), Restored(restore, NameOf(s, i)), ArgsOf(s, i))
  }

  lemma {:induction false} NotedClosesAll(restore: map<string, string>, s: seq<Atom>, st: State, keys: seq<int>, d: Digest)
    requires Known(s, st) && (forall i :: i in keys <==> i in st.slots) && CallsNoted(st, restore, keys, d)
    ensures ClosesAll(restore, s, d)
  {
    KnownTables(s, st);
    forall i | Seen(s, i)
      ensures i in d.args && d.args[i] == ArgsOf(s, i)
      ensures i in d.closed && d.closed[i] == FunctionCall(i, IdOf(s, i), Restored(restore, NameOf(s, i)), ArgsOf(s, i))
    {
      assert KnowsCall(s, st, i) && i in keys;
    }
  }

  lemma {:induction false} ThenOutput(m: State, restore: map<string, string>, keys: seq<int>, before: Digest, w: State, output: seq<Item>)
    requires var d := Digested(w.out); CallsNoted(m, restore, keys, d) && d == before.(args := d.args, closed := d.closed)
    ensures var d := Digested(Emit(w, Completed(output, m.usage)).out);
      && CallsNoted(m, restore, keys, d)
      && d == before.(args := d.args, closed := d.closed, output := Some(output), usage := m.usage)
  {
    EmitNotes(w, Completed(output, m.usage));
  }

  lemma {:induction false} CallsThenOutput(m: State, restore: map<string, string>, keys: seq<int>, output: seq<Item>)
    requires Digested(m.out).args == map[] && Digested(m.out).closed == map[] && forall i :: i in keys ==> i in m.slots
    ensures var d := Digested(Emit(CloseCalls(m, restore, keys), Completed(output, m.usage)).out);
      && CallsNoted(m, restore, keys, d)
      && d == Digested(m.out).(args := d.args, closed := d.closed, output := Some(output), usage := m.usage)
  {
    CallsNotes(m, restore, keys);
    ThenOutput(m, restore, keys, Digested(m.out), CloseCalls(m, restore, keys), output);
  }

  lemma {:induction false} EndSteps(restore: map<string, string>, st: State) returns (m: State)
    requires st.message.None? ==> st.text == ""
    ensures Ended(st, restore) == Emit(CloseCalls(m, restore, Sorted(st.order)), Completed(FinalOutput(st), m.usage))
    ensures m.slots == st.slots && m.usage == st.usage
    ensures Digested(m.out) == Digested(st.out).(text := Digested(st.out).text + st.text)
  {
    m := CloseMessage(st);
    MessageNotes(st);
  }

  lemma {:induction false} EndNotes(restore: map<string, string>, st: State, m: State, v: State)
    requires v == Emit(CloseCalls(m, restore, Sorted(st.order)), Completed(FinalOutput(st), m.usage))
    requires m.slots == st.slots && Digested(m.out) == Digested(st.out).(text := Digested(st.out).text + st.text)
    requires Unrepeated(st.order) && forall i :: i in st.order <==> i in st.slots
    requires Digested(st.out) == NOTHING.(streamed := st.text)
    ensures var d := Digested(v.out);
      && CallsNoted(st, restore, Sorted(st.order), d)
      && d.streamed == d.text == st.text && d.output == Some(FinalOutput(st)) && d.usage == m.usage
  {
    SortedFacts(st.order);
    assert NOTHING.text + st.text == st.text;
    CallsThenOutput(m, restore, Sorted(st.order), FinalOutput(st));
  }

  /** Whatever upstream sends, and whenever ids and names come, the closing
      events give the whole text, every call with its whole arguments, and the
      last usage, and the completed output lists the same, once each. */
  lemma {:induction false} ClosingEventsAreFaithful(restore: map<string, string>, s: seq<Atom>) returns (keys: seq<int>)
    ensures Ascending(keys) && forall i :: Seen(s, i) <==> i in keys
    ensures var d := Digested(Ended(Fold(restore, s), restore).out);
      && d.streamed == d.text == TextOf(s) && d.usage == UsageOf(s) && ClosesAll(restore, s, d)
      && d.output.Some? && ListsAll(s, keys, d.output.value)
  {
    var c := FoldIsGood(restore, s);
    StreamedSoFar(restore, s);
    keys := ClosedFaithfully(restore, s, Fold(restore, s), c);
  }

  lemma {:induction false} ClosedFaithfully(restore: map<string, string>, s: seq<Atom>, st: State, c: Client) returns (keys: seq<int>)
    requires Good(s, st, c) && Digested(st.out) == NOTHING.(streamed := TextOf(s))
    ensures Ascending(keys) && forall i :: Seen(s, i) <==> i in keys
    ensures var d := Digested(Ended(st, restore).out);
      && d.streamed == d.text == TextOf(s) && d.usage == UsageOf(s) && ClosesAll(restore, s, d)
      && d.output.Some? && ListsAll(s, keys, d.output.value)
  {
    keys := Sorted(st.order);
    KnownTables(s, st);
    SortedFacts(st.order);
    var m := EndSteps(restore, st);
    EndNotes(restore, st, m, Ended(st, restore));
    OutputListsAll(s, st);
    NotedClosesAll(restore, s, st, keys, Digested(Ended(st, restore).out));
  }

  lemma {:induction false} SameNameExactly(restore: map<string, string>, s: seq<Atom>, keys: seq<int>, d: Digest, i: int)
    requires ClosesAll(restore, s, d) && d.output.Some? && ListsAll(s, keys, d.output.value) && i in keys && Seen(s, i)
    ensures d.closed[i] in d.output.value <==> Restored(restore, NameOf(s, i)) == NameOf(s, i)
  {
  }

  /** The completed output has every call just as it was closed. */
  ghost predicate OutputAsClosed(d: Digest) { d.output.Some? && forall i :: i in d.closed ==> d.closed[i] in d.output.value }

  ghost predicate NoneRenamed(restore: map<string, string>, s: seq<Atom>) {
    forall i :: Seen(s, i) ==> Restored(restore, NameOf(s, i)) == NameOf(s, i)
  }

  lemma {:induction false} SameNamesExactly(restore: map<string, string>, s: seq<Atom>, keys: seq<int>, d: Digest)
    requires ClosesAll(restore, s, d) && d.output.Some? && ListsAll(s, keys, d.output.value) && forall i :: Seen(s, i) <==> i in keys
    ensures OutputAsClosed(d) <==> NoneRenamed(restore, s)
  {
    if OutputAsClosed(d) {
      forall i | Seen(s, i) ensures Restored(restore, NameOf(s, i)) == NameOf(s, i) {
        assert i in d.closed;
        SameNameExactly(restore, s, keys, d, i);
      }
    }
    if NoneRenamed(restore, s) {
      forall i | i in d.closed ensures d.closed[i] in d.output.value {
        assert Seen(s, i);
        SameNameExactly(restore, s, keys, d, i);
      }
    }
  }

  /** The completed output names every call as its closing event did exactly
      when no call has a name that was renamed. */
  lemma {:induction false} OutputNamesExactly(restore: map<string, string>, s: seq<Atom>)
    ensures OutputAsClosed(Digested(Ended(Fold(restore, s), restore).out)) <==> NoneRenamed(restore, s)
  {
    var keys := ClosingEventsAreFaithful(restore, s);
    SameNamesExactly(restore, s, keys, Digested(Ended(Fold(restore, s), restore).out));
  }

  /** A renamed call is closed under the client's name and completed under
      upstream's. */
  lemma {:induction false} RenamedCallCompletesRenamed(upstream: string, client: string, id: string, args: string)
    requires upstream != client && upstream != ""
    ensures var restore, s := map[upstream := client], [Call(ToolDelta(0, id, "function", upstream, args))];
      var d := Digested(Ended(Fold(restore, s), restore).out);
      && 0 in d.closed && d.closed[0].FunctionCall? && d.closed[0].name == client
      && d.output.Some? && (exists x :: x in d.output.value && x.FunctionCall? && x.name == upstream) && d.closed[0] !in d.output.value
  {
    var restore := map[upstream := client];
    var call := Call(ToolDelta(0, id, "function", upstream, args));
    var s := [call];
    assert s == [] + [call];
    Snoc([], call);
    assert NameOf(s, 0) == upstream && Seen(s, 0) by { assert "" + upstream == upstream; }
    var keys := ClosingEventsAreFaithful(restore, s);
    NamesDiffer(restore, s, keys, Digested(Ended(Fold(restore, s), restore).out), 0);
  }

  lemma {:induction false} NamesDiffer(restore: map<string, string>, s: seq<Atom>, keys: seq<int>, d: Digest, i: int)
    requires ClosesAll(restore, s, d) && d.output.Some? && ListsAll(s, keys, d.output.value) && i in keys && Seen(s, i)
    requires Restored(restore, NameOf(s, i)) != NameOf(s, i)
    ensures d.closed[i].FunctionCall? && d.closed[i].name == Restored(restore, NameOf(s, i)) && d.closed[i] !in d.output.value
    ensures exists x :: x in d.output.value && x.FunctionCall? && x.name == NameOf(s, i)
  {
    SameNameExactly(restore, s, keys, d, i);
    assert Listed(s, i) in d.output.value;
  }
}
