/** A completion stream after parsing, flattened to the things it says, and what
    a reader of the whole stream would make of it. */
module Transcript {
  import opened Basics

  datatype Usage = Usage(prompt: int, completion: int)

  /** Absent fields are the empty string. */
  datatype ToolDelta = ToolDelta(index: int, id: string, kind: string, name: string, args: string)

  datatype Choice = Choice(finish: string, reasoning: string, content: string, tools: seq<ToolDelta>)

  datatype Chunk = Chunk(usage: Option<Usage>, choices: seq<Choice>)

  datatype Atom = Used(usage: Option<Usage>) | Finish(reason: string) | Think(text: string) | Say(text: string) | Call(delta: ToolDelta)

  // -------------------------------------------------------- chunks to atoms

  function Calls(ts: seq<ToolDelta>): seq<Atom> {
    if ts == [] then [] else Calls(ts[..|ts| - 1]) + [Call(ts[|ts| - 1])]
  }

  function OfChoice(c: Choice): seq<Atom> { [Finish(c.finish), Think(c.reasoning), Say(c.content)] + Calls(c.tools) }

  function OfChoices(cs: seq<Choice>): seq<Atom> {
    if cs == [] then [] else OfChoices(cs[..|cs| - 1]) + OfChoice(cs[|cs| - 1])
  }

  function OfChunk(k: Chunk): seq<Atom> { [Used(k.usage)] + OfChoices(k.choices) }

  function OfChunks(ks: seq<Chunk>): seq<Atom> {
    if ks == [] then [] else OfChunks(ks[..|ks| - 1]) + OfChunk(ks[|ks| - 1])
  }

  // ------------------------------------------------- what the stream amounts to

  function Spoken(a: Atom): string { if a.Say? then a.text else "" }

  function Thought(a: Atom): string { if a.Think? then a.text else "" }

  function Argued(a: Atom, i: int): string { if a.Call? && a.delta.index == i then a.delta.args else "" }

  function Named(a: Atom, i: int): string { if a.Call? && a.delta.index == i then a.delta.name else "" }

  predicate Mentions(a: Atom, i: int) { a.Call? && a.delta.index == i }

  function TextOf(s: seq<Atom>): string { if s == [] then "" else TextOf(s[..|s| - 1]) + Spoken(s[|s| - 1]) }

  function ThoughtOf(s: seq<Atom>): string { if s == [] then "" else ThoughtOf(s[..|s| - 1]) + Thought(s[|s| - 1]) }

  function ArgsOf(s: seq<Atom>, i: int): string { if s == [] then "" else ArgsOf(s[..|s| - 1], i) + Argued(s[|s| - 1], i) }

  function NameOf(s: seq<Atom>, i: int): string { if s == [] then "" else NameOf(s[..|s| - 1], i) + Named(s[|s| - 1], i) }

  /** The last id, and the last kind, tool `i` was given. */
  function IdOf(s: seq<Atom>, i: int): string {
    if s == [] then ""
    else if Mentions(s[|s| - 1], i) && s[|s| - 1].delta.id != "" then s[|s| - 1].delta.id
    else IdOf(s[..|s| - 1], i)
  }

  function KindOf(s: seq<Atom>, i: int): string {
    if s == [] then "function"
    else if Mentions(s[|s| - 1], i) && s[|s| - 1].delta.kind != "" then s[|s| - 1].delta.kind
    else KindOf(s[..|s| - 1], i)
  }

  predicate Seen(s: seq<Atom>, i: int) { s != [] && (Mentions(s[|s| - 1], i) || Seen(s[..|s| - 1], i)) }

  predicate HasCall(s: seq<Atom>) { s != [] && (s[|s| - 1].Call? || HasCall(s[..|s| - 1])) }

  function UsageOf(s: seq<Atom>): Option<Usage> {
    if s == [] then None
    else if s[|s| - 1].Used? && s[|s| - 1].usage.Some? then s[|s| - 1].usage
    else UsageOf(s[..|s| - 1])
  }

  function FinishOf(s: seq<Atom>): string {
    if s == [] then ""
    else if s[|s| - 1].Finish? && s[|s| - 1].reason != "" then s[|s| - 1].reason
    else FinishOf(s[..|s| - 1])
  }

  lemma {:induction false} Snoc(s: seq<Atom>, a: Atom)
    ensures (s + [a])[..|s|] == s && (s + [a])[|s + [a]| - 1] == a
  {
  }

  lemma {:induction false} Regroup(s: seq<Atom>, t: seq<Atom>)
    requires t != []
    ensures s + t == (s + t[..|t| - 1]) + [t[|t| - 1]]
  {
  }

  lemma {:induction false} Glued(a: string, b: string, c: string)
    ensures (a + b) + c == a + (b + c)
  {
  }

  lemma {:induction false} AppendText(s: seq<Atom>, t: seq<Atom>)
    ensures TextOf(s + t) == TextOf(s) + TextOf(t)
  {
    if t == [] {
      assert s + t == s;
    } else {
      AppendText(s, t[..|t| - 1]);
      Regroup(s, t);
      Snoc(s + t[..|t| - 1], t[|t| - 1]);
      Glued(TextOf(s), TextOf(t[..|t| - 1]), Spoken(t[|t| - 1]));
    }
  }

  lemma {:induction false} AppendThought(s: seq<Atom>, t: seq<Atom>)
    ensures ThoughtOf(s + t) == ThoughtOf(s) + ThoughtOf(t)
  {
    if t == [] {
      assert s + t == s;
    } else {
      AppendThought(s, t[..|t| - 1]);
      Regroup(s, t);
      Snoc(s + t[..|t| - 1], t[|t| - 1]);
      Glued(ThoughtOf(s), ThoughtOf(t[..|t| - 1]), Thought(t[|t| - 1]));
    }
  }

  lemma {:induction false} AppendArgs(s: seq<Atom>, t: seq<Atom>, i: int)
    ensures ArgsOf(s + t, i) == ArgsOf(s, i) + ArgsOf(t, i)
  {
    if t == [] {
      assert s + t == s;
    } else {
      AppendArgs(s, t[..|t| - 1], i);
      Regroup(s, t);
      Snoc(s + t[..|t| - 1], t[|t| - 1]);
      Glued(ArgsOf(s, i), ArgsOf(t[..|t| - 1], i), Argued(t[|t| - 1], i));
    }
  }

  lemma {:induction false} AppendUsage(s: seq<Atom>, t: seq<Atom>)
    ensures UsageOf(s + t) == if UsageOf(t).Some? then UsageOf(t) else UsageOf(s)
  {
    if t == [] {
      assert s + t == s;
    } else {
      AppendUsage(s, t[..|t| - 1]);
      Regroup(s, t);
      Snoc(s + t[..|t| - 1], t[|t| - 1]);
    }
  }

  /** A tool never mentioned has nothing. */
  lemma {:induction false} UnseenIsEmpty(s: seq<Atom>, i: int)
    requires !Seen(s, i)
    ensures ArgsOf(s, i) == "" && NameOf(s, i) == "" && IdOf(s, i) == "" && KindOf(s, i) == "function"
  {
    if s != [] { UnseenIsEmpty(s[..|s| - 1], i); }
  }

  // ------------------------------------------------- loops over nested lists

  lemma {:induction false} NextCall(ts: seq<ToolDelta>, k: nat)
    requires k < |ts|
    ensures Calls(ts[..k + 1]) == Calls(ts[..k]) + [Call(ts[k])]
  {
    assert ts[..k + 1][..k] == ts[..k];
  }

  lemma {:induction false} NextChoice(cs: seq<Choice>, k: nat)
    requires k < |cs|
    ensures OfChoices(cs[..k + 1]) == OfChoices(cs[..k]) + OfChoice(cs[k])
  {
    assert cs[..k + 1][..k] == cs[..k];
  }

  lemma {:induction false} AfterChoice(s: seq<Atom>, cs: seq<Choice>, k: nat)
    requires k < |cs|
    ensures s + OfChoices(cs[..k + 1]) == s + OfChoices(cs[..k]) + OfChoice(cs[k])
  {
    NextChoice(cs, k);
  }

  lemma {:induction false} ChoiceAtoms(s: seq<Atom>, c: Choice)
    ensures s + [Finish(c.finish), Think(c.reasoning), Say(c.content)] + Calls(c.tools) == s + OfChoice(c)
  {
  }

  lemma {:induction false} ChunkAtoms(s: seq<Atom>, k: Chunk)
    ensures s + [Used(k.usage)] + OfChoices(k.choices) == s + OfChunk(k)
  {
  }

  lemma {:induction false} AllChoices(s: seq<Atom>, cs: seq<Choice>)
    ensures s + OfChoices(cs[..0]) == s && cs[..|cs|] == cs
  {
  }

  lemma {:induction false} NextChunk(ks: seq<Chunk>, k: nat)
    requires k < |ks|
    ensures OfChunks(ks[..k + 1]) == OfChunks(ks[..k]) + OfChunk(ks[k])
  {
    assert ks[..k + 1][..k] == ks[..k];
  }

  // ------------------------------------------------------------ sorted keys

  function Insert(keys: seq<int>, x: int): seq<int> {
    if keys == [] || x <= keys[0] then [x] + keys else [keys[0]] + Insert(keys[1..], x)
  }

  /** `sorted(d)` for a dictionary whose keys were added in this order. */
  function Sorted(keys: seq<int>): seq<int> {
    if keys == [] then [] else Insert(Sorted(keys[..|keys| - 1]), keys[|keys| - 1])
  }

  ghost predicate Ascending(keys: seq<int>) { forall j, k :: 0 <= j < k < |keys| ==> keys[j] < keys[k] }

  ghost predicate Unrepeated(keys: seq<int>) { forall j, k :: 0 <= j < k < |keys| ==> keys[j] != keys[k] }

  lemma {:induction false} InsertFacts(keys: seq<int>, x: int)
    requires Ascending(keys) && x !in keys
    ensures Ascending(Insert(keys, x)) && |Insert(keys, x)| == |keys| + 1
    ensures forall i :: i in Insert(keys, x) <==> i == x || i in keys
  {
    if keys != [] && x > keys[0] {
      InsertFacts(keys[1..], x);
      var rest := Insert(keys[1..], x);
      assert keys == [keys[0]] + keys[1..];
      forall k | 0 <= k < |rest| ensures keys[0] < rest[k] {
        assert rest[k] in rest;
      }
    }
  }

  lemma {:induction false} SortedFacts(keys: seq<int>)
    requires Unrepeated(keys)
    ensures Ascending(Sorted(keys)) && |Sorted(keys)| == |keys| && forall i :: i in Sorted(keys) <==> i in keys
  {
    if keys != [] {
      var front, last := keys[..|keys| - 1], keys[|keys| - 1];
      SortedFacts(front);
      assert last !in front;
      InsertFacts(Sorted(front), last);
      assert keys == front + [last];
    }
  }

  lemma {:induction false} ThreeWords(s: seq<Atom>, a: Atom, b: Atom, c: Atom)
    ensures s + [a] + [b] + [c] == s + [a, b, c]
  {
  }

  // --------------------------------------------------------- where to stop

  /** What the line parser makes of a data line. */
  datatype Record = Data(chunk: Chunk) | EndMark | Junk

  function BeforeMark(rs: seq<Record>): seq<Chunk> {
    if rs == [] || rs[0].EndMark? then []
    else (if rs[0].Data? then [rs[0].chunk] else []) + BeforeMark(rs[1..])
  }

  function AllData(rs: seq<Record>): seq<Chunk> {
    if rs == [] then [] else (if rs[0].Data? then [rs[0].chunk] else []) + AllData(rs[1..])
  }

  /** The chunks behind the first end mark. */
  function AfterMark(rs: seq<Record>): seq<Chunk> {
    if rs == [] then [] else if rs[0].EndMark? then AllData(rs[1..]) else AfterMark(rs[1..])
  }

  lemma {:induction false} MarkSplits(rs: seq<Record>)
    ensures AllData(rs) == BeforeMark(rs) + AfterMark(rs)
  {
    if rs != [] && !rs[0].EndMark? { MarkSplits(rs[1..]); }
  }

  /** One record read ahead of the end mark. */
  lemma {:induction false} MarkStep(rs: seq<Record>, i: nat, taken: seq<Chunk>)
    requires i < |rs| && !rs[i].EndMark? && BeforeMark(rs) == taken + BeforeMark(rs[i..])
    ensures BeforeMark(rs) == (taken + if rs[i].Data? then [rs[i].chunk] else []) + BeforeMark(rs[i + 1..])
  {
    assert rs[i..][1..] == rs[i + 1..] && rs[i..][0] == rs[i];
  }

  lemma {:induction false} OneMoreChunk(taken: seq<Chunk>, chunk: Chunk)
    ensures OfChunks(taken + [chunk]) == OfChunks(taken) + OfChunk(chunk)
  {
    assert (taken + [chunk])[..|taken|] == taken;
  }
}
