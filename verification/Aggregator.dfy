/** Folding a whole stream into one completion, for clients that do not
    stream. */
module Aggregator {
  import opened Basics
  import opened Transcript

  datatype ToolCall = ToolCall(id: string, kind: string, name: string, args: string)

  datatype Completion = Completion(content: string, reasoning: string, tools: seq<ToolCall>, finish: string,
                                   usage: Option<Usage>, cut: bool)

  /** Tool `i` as the whole stream describes it. */
  function CallOf(s: seq<Atom>, i: int): ToolCall { ToolCall(IdOf(s, i), KindOf(s, i), NameOf(s, i), ArgsOf(s, i)) }

  /** `keys` is the tools of the stream in ascending order. */
  ghost predicate SortedTools(s: seq<Atom>, keys: seq<int>) { Ascending(keys) && forall i :: Seen(s, i) <==> i in keys }

  ghost predicate Answers(s: seq<Atom>, keys: seq<int>, r: Completion) {
    && SortedTools(s, keys)
    && r.content == TextOf(s) && r.reasoning == ThoughtOf(s) && r.usage == UsageOf(s)
    && |r.tools| == |keys| && (forall k :: 0 <= k < |keys| ==> r.tools[k] == CallOf(s, keys[k]))
    && r.finish == (if FinishOf(s) != "" then FinishOf(s) else if keys != [] then "tool_calls"
                    else if TextOf(s) != "" || ThoughtOf(s) != "" then "length" else "stop")
    && r.cut == (FinishOf(s) == "" && keys == [] && (TextOf(s) != "" || ThoughtOf(s) != ""))
  }

  /** Tool calls by index, remembering the order of first mention. */
  datatype Table = Table(calls: map<int, ToolCall>, order: seq<int>)

  /** The table has tool `i` just as the atoms describe it. */
  ghost predicate Entered(s: seq<Atom>, t: Table, i: int) {
    && (i in t.calls <==> Seen(s, i)) && (i in t.calls ==> t.calls[i] == CallOf(s, i)) && (i in t.order <==> i in t.calls)
  }

  /** The table is what the atoms say about their tools. */
  ghost predicate Tabled(s: seq<Atom>, t: Table) { Unrepeated(t.order) && forall i :: Entered(s, t, i) }

  /** The slot with the delta merged in. */
  function MergedCall(slot: ToolCall, d: ToolDelta): ToolCall {
    ToolCall(if d.id != "" then d.id else slot.id, if d.kind != "" then d.kind else slot.kind, slot.name + d.name, slot.args + d.args)
  }

  const FRESH_CALL := ToolCall("", "function", "", "")

  function SlotOf(t: Table, i: int): ToolCall { if i in t.calls then t.calls[i] else FRESH_CALL }

  lemma {:induction false} EnteredOther(s: seq<Atom>, t: Table, u: Table, a: Atom, i: int)
    requires Entered(s, t, i) && !Mentions(a, i)
    requires (i in u.calls <==> i in t.calls) && (i in t.calls ==> u.calls[i] == t.calls[i]) && (i in u.order <==> i in t.order)
    ensures Entered(s + [a], u, i)
  {
    Snoc(s, a);
    assert ArgsOf(s, i) + "" == ArgsOf(s, i) && NameOf(s, i) + "" == NameOf(s, i);
  }

  lemma {:induction false} EnteredOwn(s: seq<Atom>, t: Table, u: Table, d: ToolDelta)
    requires Entered(s, t, d.index)
    requires d.index in u.calls && u.calls[d.index] == MergedCall(SlotOf(t, d.index), d) && d.index in u.order
    ensures Entered(s + [Call(d)], u, d.index)
  {
    Snoc(s, Call(d));
    if d.index !in t.calls { UnseenIsEmpty(s, d.index); }
  }

  lemma {:induction false} TabledAfter(s: seq<Atom>, t: Table, u: Table, d: ToolDelta)
    requires Tabled(s, t) && u.calls == t.calls[d.index := MergedCall(SlotOf(t, d.index), d)]
    requires u.order == if d.index in t.calls then t.order else t.order + [d.index]
    ensures Tabled(s + [Call(d)], u)
  {
    assert Entered(s, t, d.index);
    EnteredOwn(s, t, u, d);
    forall i | i != d.index ensures Entered(s + [Call(d)], u, i) {
      assert Entered(s, t, i);
      EnteredOther(s, t, u, Call(d), i);
    }
  }

  lemma {:induction false} NothingAdded(slot: ToolCall)
    ensures slot.name + "" == slot.name && slot.args + "" == slot.args
  {
  }

  method MergeToolCallDelta(acc: Table, d: ToolDelta, ghost s: seq<Atom>) returns (out: Table)
    requires Tabled(s, acc)
    ensures Tabled(s + [Call(d)], out)
  {
    var calls, order := acc.calls, acc.order;
    if d.index !in calls {
      calls := calls[d.index := ToolCall("", "function", "", "")];
      order := order + [d.index];
    }
    var slot := calls[d.index];
    NothingAdded(slot);
    if d.id != "" { slot := slot.(id := d.id); }
    if d.kind != "" { slot := slot.(kind := d.kind); }
    if d.name != "" { slot := slot.(name := slot.name + d.name); }
    if d.args != "" { slot := slot.(args := slot.args + d.args); }
    out := Table(calls[d.index := slot], order);
    TabledAfter(s, acc, out, d);
  }

  datatype Totals = Totals(content: string, reasoning: string, tools: Table, finish: string, usage: Option<Usage>)

  /** What the loop has gathered is what the atoms so far amount to. */
  ghost predicate Gathered(s: seq<Atom>, t: Totals) {
    && t.content == TextOf(s) && t.reasoning == ThoughtOf(s) && t.finish == FinishOf(s) && t.usage == UsageOf(s) && Tabled(s, t.tools)
  }

  function Noted(t: Totals, a: Atom): Totals {
    Totals(t.content + Spoken(a), t.reasoning + Thought(a), t.tools,
           if a.Finish? && a.reason != "" then a.reason else t.finish,
           if a.Used? && a.usage.Some? then a.usage else t.usage)
  }

  lemma {:induction false} GatherWord(s: seq<Atom>, a: Atom, t: Totals)
    requires Gathered(s, t) && !a.Call?
    ensures Gathered(s + [a], Noted(t, a))
  {
    Snoc(s, a);
    TabledStill(s, t.tools, a);
  }

  lemma {:induction false} TabledStill(s: seq<Atom>, t: Table, a: Atom)
    requires Tabled(s, t) && !a.Call?
    ensures Tabled(s + [a], t)
  {
    forall i ensures Entered(s + [a], t, i) {
      assert Entered(s, t, i);
      EnteredOther(s, t, t, a, i);
    }
  }

  lemma {:induction false} GatherWords(s: seq<Atom>, c: Choice, t: Totals)
    requires Gathered(s, t)
    ensures Gathered(s + [Finish(c.finish), Think(c.reasoning), Say(c.content)],
                     Noted(Noted(Noted(t, Finish(c.finish)), Think(c.reasoning)), Say(c.content)))
  {
    var f, th, w := Finish(c.finish), Think(c.reasoning), Say(c.content);
    GatherWord(s, f, t);
    GatherWord(s + [f], th, Noted(t, f));
    GatherWord(s + [f] + [th], w, Noted(Noted(t, f), th));
    ThreeWords(s, f, th, w);
  }

  method MergeAll(ts: seq<ToolDelta>, before: Table, ghost s: seq<Atom>) returns (t: Table)
    requires Tabled(s, before)
    ensures Tabled(s + Calls(ts), t)
  {
    t := before;
    assert s + Calls(ts[..0]) == s;
    for k := 0 to |ts|
      invariant Tabled(s + Calls(ts[..k]), t)
    {
      t := MergeToolCallDelta(t, ts[k], s + Calls(ts[..k]));
      NextCall(ts, k);
      assert s + Calls(ts[..k + 1]) == s + Calls(ts[..k]) + [Call(ts[k])];
    }
    assert ts[..|ts|] == ts;
  }

  lemma {:induction false} CallIsSilent(s: seq<Atom>, d: ToolDelta)
    ensures TextOf(s + [Call(d)]) == TextOf(s) && ThoughtOf(s + [Call(d)]) == ThoughtOf(s)
    ensures FinishOf(s + [Call(d)]) == FinishOf(s) && UsageOf(s + [Call(d)]) == UsageOf(s)
  {
    Snoc(s, Call(d));
    assert TextOf(s) + "" == TextOf(s) && ThoughtOf(s) + "" == ThoughtOf(s);
  }

  /** Tool deltas say nothing else. */
  lemma {:induction false} CallsAreSilent(s: seq<Atom>, ts: seq<ToolDelta>)
    ensures TextOf(s + Calls(ts)) == TextOf(s) && ThoughtOf(s + Calls(ts)) == ThoughtOf(s)
    ensures FinishOf(s + Calls(ts)) == FinishOf(s) && UsageOf(s + Calls(ts)) == UsageOf(s)
  {
    if ts == [] {
      assert s + Calls(ts) == s;
    } else {
      var front := ts[..|ts| - 1];
      CallsAreSilent(s, front);
      CallIsSilent(s + Calls(front), ts[|ts| - 1]);
      Regroup(s, Calls(ts));
    }
  }

  lemma {:induction false} ToolsLast(s: seq<Atom>, ts: seq<ToolDelta>, t: Totals, tools: Table)
    requires Gathered(s, t) && Tabled(s + Calls(ts), tools)
    ensures Gathered(s + Calls(ts), t.(tools := tools))
  {
    CallsAreSilent(s, ts);
  }

  method NoteWords(c: Choice, before: Totals) returns (t: Totals)
    ensures t == Noted(Noted(Noted(before, Finish(c.finish)), Think(c.reasoning)), Say(c.content))
  {
    t := before;
    if c.finish != "" { t := t.(finish := c.finish); }
    if c.content != "" { t := t.(content := t.content + c.content); }
    if c.reasoning != "" { t := t.(reasoning := t.reasoning + c.reasoning); }
  }

  /** One choice of a chunk. */
  method GatherChoice(c: Choice, before: Totals, ghost s: seq<Atom>) returns (t: Totals)
    requires Gathered(s, before)
    ensures Gathered(s + OfChoice(c), t)
  {
    t := NoteWords(c, before);
    GatherWords(s, c, before);
    ghost var words := [Finish(c.finish), Think(c.reasoning), Say(c.content)];
    var tools := MergeAll(c.tools, t.tools, s + words);
    ToolsLast(s + words, c.tools, t, tools);
    t := t.(tools := tools);
    ChoiceAtoms(s, c);
  }

  method GatherChoices(cs: seq<Choice>, before: Totals, ghost s: seq<Atom>) returns (t: Totals)
    requires Gathered(s, before)
    ensures Gathered(s + OfChoices(cs), t)
  {
    t := before;
    AllChoices(s, cs);
    for k := 0 to |cs|
      invariant Gathered(s + OfChoices(cs[..k]), t)
    {
      t := GatherChoice(cs[k], t, s + OfChoices(cs[..k]));
      AfterChoice(s, cs, k);
    }
  }

  method NoteUsage(usage: Option<Usage>, before: Totals) returns (t: Totals)
    ensures t == Noted(before, Used(usage))
  {
    t := before;
    if usage.Some? { t := t.(usage := usage); }
    assert before.content + "" == before.content && before.reasoning + "" == before.reasoning;
  }

  method GatherChunk(chunk: Chunk, before: Totals, ghost s: seq<Atom>) returns (t: Totals)
    requires Gathered(s, before)
    ensures Gathered(s + OfChunk(chunk), t)
  {
    t := NoteUsage(chunk.usage, before);
    GatherWord(s, Used(chunk.usage), before);
    t := GatherChoices(chunk.choices, t, s + [Used(chunk.usage)]);
    ChunkAtoms(s, chunk);
  }

  /** The reading loop, up to the end mark. */
  method GatherRecords(records: seq<Record>) returns (t: Totals)
    ensures Gathered(OfChunks(BeforeMark(records)), t)
  {
    t := Totals("", "", Table(map[], []), "", None);
    assert Tabled([], t.tools);
    ghost var taken: seq<Chunk> := [];
    var i := 0;
    assert records[0..] == records;
    while i < |records| && !records[i].EndMark?
      invariant i <= |records| && BeforeMark(records) == taken + BeforeMark(records[i..])
      invariant Gathered(OfChunks(taken), t)
    {
      MarkStep(records, i, taken);
      if records[i].Data? {
        t := GatherChunk(records[i].chunk, t, OfChunks(taken));
        OneMoreChunk(taken, records[i].chunk);
        taken := taken + [records[i].chunk];
      } else {
        assert taken + [] == taken;
      }
      i := i + 1;
    }
    assert taken == BeforeMark(records);
  }

  lemma {:induction false} OrderIsTools(s: seq<Atom>, t: Table, order: seq<int>)
    requires Tabled(s, t) && forall i :: i in order <==> i in t.order
    ensures forall i :: Seen(s, i) <==> i in order
    ensures forall k :: 0 <= k < |order| ==> order[k] in t.calls && t.calls[order[k]] == CallOf(s, order[k])
  {
    forall i ensures Seen(s, i) <==> i in order { assert Entered(s, t, i); }
    forall k | 0 <= k < |order| ensures order[k] in t.calls && t.calls[order[k]] == CallOf(s, order[k]) {
      var i := order[k];
      assert i in order && Entered(s, t, i);
    }
  }

  /** Everything before the end mark, folded into one answer. */
  method AggregateSse(records: seq<Record>) returns (r: Completion)
    ensures exists keys :: Answers(OfChunks(BeforeMark(records)), keys, r)
  {
    var t := GatherRecords(records);
    SortedFacts(t.tools.order);
    var order := Sorted(t.tools.order);
    OrderIsTools(OfChunks(BeforeMark(records)), t.tools, order);
    var calls := ToolList(t.tools.calls, order);
    var finish := t.finish;
    if order != [] && finish == "" { finish := "tool_calls"; }
    var cut := finish == "" && (t.content != "" || t.reasoning != "");
    if finish == "" { finish := if cut then "length" else "stop"; }
    r := Completion(t.content, t.reasoning, calls, finish, t.usage, cut);
    assert Answers(OfChunks(BeforeMark(records)), order, r);
  }

  method ToolList(calls: map<int, ToolCall>, order: seq<int>) returns (list: seq<ToolCall>)
    requires forall k :: 0 <= k < |order| ==> order[k] in calls
    ensures |list| == |order| && forall k :: 0 <= k < |order| ==> list[k] == calls[order[k]]
  {
    list := [];
    for k := 0 to |order|
      invariant |list| == k && forall j :: 0 <= j < k ==> list[j] == calls[order[j]]
    {
      list := list + [calls[order[k]]];
    }
  }
}
