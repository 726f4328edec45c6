/** Composing an upstream body: builtin tools injected ahead of the client's,
    colliding client tools renamed, and the way back. */
module ToolGate {
  import opened Basics

  /** `fn` is the nested function object's name, if there is such an object;
      `top` the bare name; `rest` everything else. */
  datatype Tool = Tool(fn: Option<string>, top: string, rest: int)

  /** A historical call's function name, if it is an object with one. */
  datatype Call = Call(name: Option<string>, rest: int)

  datatype Turn = Turn(role: string, content: Option<string>, calls: Option<seq<Call>>, rest: int)

  function NameOf(t: Tool): string { if t.fn.Some? && t.fn.value != "" then t.fn.value else t.top }

  /** The names in a tool list, in order; nameless tools have none. */
  function Names(ts: seq<Tool>): seq<string> {
    if ts == [] then [] else Names(ts[..|ts| - 1]) + if NameOf(ts[|ts| - 1]) != "" then [NameOf(ts[|ts| - 1])] else []
  }

  function ClientName(name: string): string { "client_" + name }

  function Renamed(reserved: set<string>, name: string): string { if name in reserved then ClientName(name) else name }

  function RenameTool(reserved: set<string>, t: Tool): Tool {
    if NameOf(t) == "" || NameOf(t) !in reserved then t
    else if t.fn.Some? then t.(fn := Some(ClientName(NameOf(t)))) else t.(top := ClientName(NameOf(t)))
  }

  function RenameTools(reserved: set<string>, ts: seq<Tool>): seq<Tool> {
    if ts == [] then [] else RenameTools(reserved, ts[..|ts| - 1]) + [RenameTool(reserved, ts[|ts| - 1])]
  }

  ghost predicate OneToOne(mapping: map<string, string>) {
    forall a, b :: a in mapping && b in mapping && mapping[a] == mapping[b] ==> a == b
  }

  /** The renames a tool list needs; no two names become one. */
  function Mapping(reserved: set<string>, ts: seq<Tool>): (m: map<string, string>)
    ensures OneToOne(m) && forall n :: n in m ==> m[n] == ClientName(n)
  {
    if ts == [] then map[]
    else
      var m := Mapping(reserved, ts[..|ts| - 1]);
      var name := NameOf(ts[|ts| - 1]);
      var r := if name != "" && name in reserved then m[name := ClientName(name)] else m;
      RenamesAreOneToOne(r);
      r
  }

  lemma {:induction false} RenamesAreOneToOne(mapping: map<string, string>)
    requires forall n :: n in mapping ==> mapping[n] == ClientName(n)
    ensures OneToOne(mapping)
  {
    forall a, b | a in mapping && b in mapping && mapping[a] == mapping[b] ensures a == b { ClientNameInjective(a, b); }
  }

  function RenameCall(mapping: map<string, string>, c: Call): Call {
    if c.name.Some? && c.name.value in mapping then c.(name := Some(mapping[c.name.value])) else c
  }

  function RenameCalls(mapping: map<string, string>, cs: seq<Call>): seq<Call> {
    if cs == [] then [] else RenameCalls(mapping, cs[..|cs| - 1]) + [RenameCall(mapping, cs[|cs| - 1])]
  }

  function RenameTurn(mapping: map<string, string>, t: Turn): Turn {
    if t.calls.Some? then t.(calls := Some(RenameCalls(mapping, t.calls.value))) else t
  }

  function RenameTurns(mapping: map<string, string>, ts: seq<Turn>): seq<Turn> {
    if ts == [] then [] else RenameTurns(mapping, ts[..|ts| - 1]) + [RenameTurn(mapping, ts[|ts| - 1])]
  }

  /** The mapping with its keys and values swapped. */
  function Inverse(mapping: map<string, string>): map<string, string>
    requires OneToOne(mapping)
  {
    map k | k in mapping :: mapping[k] := k
  }

  /** The declared name behind a renamed one. */
  function Origin(renamed: string): string { if |renamed| >= 7 then renamed[7..] else renamed }

  function Restored(restore: map<string, string>, name: string): string { if name in restore then restore[name] else name }

  ghost predicate Distinct(names: seq<string>) { forall i, j :: 0 <= i < j < |names| ==> names[i] != names[j] }

  function Elements(names: seq<string>): set<string> { set n | n in names }

  // ----------------------------------------------------------------- lemmas

  lemma {:induction false} OriginIsInverse(name: string)
    ensures Origin(ClientName(name)) == name && ClientName(name) != name
  {
  }

  lemma {:induction false} MappingFacts(reserved: set<string>, ts: seq<Tool>)
    ensures forall n :: n in Mapping(reserved, ts) <==> n in Names(ts) && n in reserved
    ensures forall n :: n in Mapping(reserved, ts) ==> Mapping(reserved, ts)[n] == ClientName(n)
  {
    if ts != [] { MappingFacts(reserved, ts[..|ts| - 1]); }
  }

  lemma {:induction false} RenamedToolName(reserved: set<string>, t: Tool)
    ensures NameOf(RenameTool(reserved, t)) == if NameOf(t) == "" then "" else Renamed(reserved, NameOf(t))
  {
  }

  function RenamedAll(reserved: set<string>, names: seq<string>): seq<string> {
    if names == [] then [] else RenamedAll(reserved, names[..|names| - 1]) + [Renamed(reserved, names[|names| - 1])]
  }

  lemma {:induction false} RenamedAllAt(reserved: set<string>, names: seq<string>, k: nat)
    requires k < |names|
    ensures |RenamedAll(reserved, names)| == |names| && RenamedAll(reserved, names)[k] == Renamed(reserved, names[k])
  {
    var n := |names| - 1;
    if n > 0 { RenamedAllAt(reserved, names[..n], if k < n then k else 0); }
  }

  lemma {:induction false} RenamedNames(reserved: set<string>, ts: seq<Tool>)
    ensures Names(RenameTools(reserved, ts)) == RenamedAll(reserved, Names(ts))
  {
    if ts != [] {
      var front, last := ts[..|ts| - 1], ts[|ts| - 1];
      RenamedNames(reserved, front);
      RenamedToolName(reserved, last);
      var r := RenameTools(reserved, front);
      assert (r + [RenameTool(reserved, last)])[..|r|] == r;
      assert (Names(front) + [NameOf(last)])[..|Names(front)|] == Names(front);
      if NameOf(last) != "" {
        assert Names(ts) == Names(front) + [NameOf(last)];
        OriginIsInverse(NameOf(last));
        assert NameOf(RenameTool(reserved, last)) != "";
      } else {
        assert Names(front) + [] == Names(front) && Names(r) + [] == Names(r);
      }
    }
  }

  function NameList(t: Tool): seq<string> { if NameOf(t) != "" then [NameOf(t)] else [] }

  lemma {:induction false} NamesSnoc(ts: seq<Tool>, t: Tool)
    ensures Names(ts + [t]) == Names(ts) + NameList(t)
  {
    assert (ts + [t])[..|ts|] == ts;
  }

  lemma {:induction false} Chained(a: seq<string>, b: seq<string>, c: seq<string>)
    ensures (a + b) + c == a + (b + c)
  {
  }

  lemma {:induction false} NamesAppend(a: seq<Tool>, b: seq<Tool>)
    ensures Names(a + b) == Names(a) + Names(b)
  {
    if b == [] {
      assert a + b == a;
    } else {
      var front, last := b[..|b| - 1], b[|b| - 1];
      NamesAppend(a, front);
      assert b == front + [last] && a + b == (a + front) + [last];
      NamesSnoc(a + front, last);
      NamesSnoc(front, last);
      Chained(Names(a), Names(front), NameList(last));
    }
  }

  /** Names the client would see twice: it declares both a builtin's name and
      that builtin's renamed form. */
  ghost predicate Clashes(reserved: set<string>, declared: seq<string>) {
    exists i, j :: 0 <= i < |declared| && 0 <= j < |declared| && declared[i] in reserved && declared[j] == ClientName(declared[i])
  }

  /** What the builtin asset looks like. */
  ghost predicate ProperBuiltins(builtins: seq<string>) {
    Distinct(builtins) && forall i, j :: 0 <= i < |builtins| && 0 <= j < |builtins| ==> builtins[j] != ClientName(builtins[i])
  }

  lemma {:induction false} ClientNameInjective(a: string, b: string)
    requires ClientName(a) == ClientName(b)
    ensures a == b
  {
    OriginIsInverse(a);
    OriginIsInverse(b);
  }

  /** After renaming, the client's names are distinct exactly when they were
      declared distinct and none is the renamed form of another. */
  lemma {:induction false} RenamedDistinctExactly(builtins: seq<string>, declared: seq<string>)
    requires ProperBuiltins(builtins)
    ensures Distinct(RenamedAll(Elements(builtins), declared)) <==> Distinct(declared) && !Clashes(Elements(builtins), declared)
  {
    var reserved := Elements(builtins);
    var out := RenamedAll(reserved, declared);
    forall k | 0 <= k < |declared| ensures |out| == |declared| && out[k] == Renamed(reserved, declared[k]) { RenamedAllAt(reserved, declared, k); }
    if declared == [] { assert out == []; }
    if Clashes(reserved, declared) {
      var i, j :| 0 <= i < |declared| && 0 <= j < |declared| && declared[i] in reserved && declared[j] == ClientName(declared[i]);
      ClashCollides(builtins, declared[i]);
      assert i != j && out[i] == out[j];
      assert !Distinct(out) by {
        if i < j { assert out[i] == out[j]; } else { assert out[j] == out[i]; }
      }
    } else if !Distinct(declared) {
      var i, j :| 0 <= i < j < |declared| && declared[i] == declared[j];
      assert out[i] == out[j];
    } else {
      forall i, j | 0 <= i < j < |out| ensures out[i] != out[j] {
        if out[i] == out[j] { SameAfterRenaming(builtins, declared, i, j); }
      }
    }
  }

  /** A builtin's name and its renamed form end up the same. */
  lemma {:induction false} ClashCollides(builtins: seq<string>, name: string)
    requires ProperBuiltins(builtins) && name in Elements(builtins)
    ensures Renamed(Elements(builtins), ClientName(name)) == Renamed(Elements(builtins), name) && ClientName(name) != name
  {
    var b :| 0 <= b < |builtins| && builtins[b] == name;
    OriginIsInverse(name);
  }

  lemma {:induction false} SameAfterRenaming(builtins: seq<string>, declared: seq<string>, i: nat, j: nat)
    requires i < |declared| && j < |declared| && i != j
    requires Renamed(Elements(builtins), declared[i]) == Renamed(Elements(builtins), declared[j])
    ensures declared[i] == declared[j] || Clashes(Elements(builtins), declared)
  {
    if declared[i] in Elements(builtins) && declared[j] in Elements(builtins) {
      ClientNameInjective(declared[i], declared[j]);
    }
  }

  // ------------------------------------------------------ calls and the way back

  /** A declared name's counterpart is always in the composed list. */
  lemma {:induction false} DeclaredStaysNamed(reserved: set<string>, declared: seq<string>, name: string)
    requires name in declared
    ensures Renamed(reserved, name) in RenamedAll(reserved, declared)
  {
    var k :| 0 <= k < |declared| && declared[k] == name;
    RenamedAllAt(reserved, declared, k);
    assert RenamedAll(reserved, declared)[k] == Renamed(reserved, name);
  }

  /** A call `x` to a declared tool is sent as a call `y` to an offered one. */
  ghost predicate CallFollows(x: Call, y: Call, declared: seq<string>, offered: seq<string>) {
    x.name.Some? && x.name.value in declared ==> y.name.Some? && y.name.value in offered
  }

  ghost predicate TurnFollows(x: Turn, y: Turn, declared: seq<string>, offered: seq<string>) {
    x.calls.Some? ==>
      && y.calls.Some? && |y.calls.value| == |x.calls.value|
      && forall k :: 0 <= k < |x.calls.value| ==> CallFollows(x.calls.value[k], y.calls.value[k], declared, offered)
  }

  /** Turn by turn and call by call, what was declared is still offered. */
  ghost predicate TurnsFollow(xs: seq<Turn>, ys: seq<Turn>, declared: seq<string>, offered: seq<string>) {
    |ys| == |xs| && forall k :: 0 <= k < |xs| ==> TurnFollows(xs[k], ys[k], declared, offered)
  }

  /** Nothing but call names differs between a turn and what is sent for it. */
  ghost predicate SameButNames(x: Turn, y: Turn) {
    && y == x.(calls := y.calls) && (y.calls.Some? <==> x.calls.Some?)
    && (x.calls.Some? ==>
          && |y.calls.value| == |x.calls.value|
          && forall k :: 0 <= k < |x.calls.value| ==>
               && y.calls.value[k].rest == x.calls.value[k].rest
               && (y.calls.value[k].name.Some? <==> x.calls.value[k].name.Some?))
  }

  ghost predicate AllSameButNames(xs: seq<Turn>, ys: seq<Turn>) {
    |ys| == |xs| && forall k :: 0 <= k < |xs| ==> SameButNames(xs[k], ys[k])
  }

  lemma {:induction false} RenamedTurnIsSame(mapping: map<string, string>, t: Turn)
    ensures SameButNames(t, RenameTurn(mapping, t))
  {
    if t.calls.Some? {
      var cs := t.calls.value;
      forall k | 0 <= k < |cs| ensures |RenameCalls(mapping, cs)| == |cs| && RenameCalls(mapping, cs)[k] == RenameCall(mapping, cs[k]) {
        RenameCallsAt(mapping, cs, k);
      }
    }
  }

  lemma {:induction false} RenamedTurnsAreSame(mapping: map<string, string>, ts: seq<Turn>)
    ensures AllSameButNames(ts, RenameTurns(mapping, ts)) && AllSameButNames(ts, ts)
  {
    forall k | 0 <= k < |ts| ensures |RenameTurns(mapping, ts)| == |ts| && SameButNames(ts[k], RenameTurns(mapping, ts)[k]) {
      RenameTurnsAt(mapping, ts, k);
      RenamedTurnIsSame(mapping, ts[k]);
    }
  }

  /** Tool by tool, a reserved name gets its prefix and all else stays. */
  lemma {:induction false} ToolsRenamedExactly(reserved: set<string>, ts: seq<Tool>, k: nat)
    requires k < |ts|
    ensures |RenameTools(reserved, ts)| == |ts|
    ensures var x, y := ts[k], RenameTools(reserved, ts)[k];
      && y.rest == x.rest && (y.fn.Some? <==> x.fn.Some?)
      && NameOf(y) == (if NameOf(x) != "" && NameOf(x) in reserved then "client_" + NameOf(x) else NameOf(x))
      && (NameOf(x) !in reserved ==> y == x)
  {
    var n := |ts| - 1;
    if n > 0 { ToolsRenamedExactly(reserved, ts[..n], if k < n then k else 0); }
    RenamedToolName(reserved, ts[k]);
  }

  lemma {:induction false} RenamedCallFollows(injected: seq<Tool>, reserved: set<string>, tools: seq<Tool>, c: Call)
    ensures CallFollows(c, RenameCall(Mapping(reserved, tools), c), Names(tools), Names(injected + RenameTools(reserved, tools)))
  {
    if c.name.Some? && c.name.value in Names(tools) {
      MappingFacts(reserved, tools);
      DeclaredStaysNamed(reserved, Names(tools), c.name.value);
      RenamedNames(reserved, tools);
      NamesAppend(injected, RenameTools(reserved, tools));
    }
  }

  lemma {:induction false} RenameCallsAt(mapping: map<string, string>, cs: seq<Call>, k: nat)
    requires k < |cs|
    ensures |RenameCalls(mapping, cs)| == |cs| && RenameCalls(mapping, cs)[k] == RenameCall(mapping, cs[k])
  {
    var n := |cs| - 1;
    if n > 0 { RenameCallsAt(mapping, cs[..n], if k < n then k else 0); }
  }

  lemma {:induction false} RenameTurnsAt(mapping: map<string, string>, ts: seq<Turn>, k: nat)
    requires k < |ts|
    ensures |RenameTurns(mapping, ts)| == |ts| && RenameTurns(mapping, ts)[k] == RenameTurn(mapping, ts[k])
  {
    var n := |ts| - 1;
    if n > 0 { RenameTurnsAt(mapping, ts[..n], if k < n then k else 0); }
  }

  lemma {:induction false} RenamedTurnFollows(injected: seq<Tool>, reserved: set<string>, tools: seq<Tool>, t: Turn)
    ensures TurnFollows(t, RenameTurn(Mapping(reserved, tools), t), Names(tools), Names(injected + RenameTools(reserved, tools)))
  {
    if t.calls.Some? {
      var cs := t.calls.value;
      if cs == [] { assert RenameCalls(Mapping(reserved, tools), cs) == []; }
      forall k | 0 <= k < |cs|
        ensures |RenameCalls(Mapping(reserved, tools), cs)| == |cs|
        ensures CallFollows(cs[k], RenameCalls(Mapping(reserved, tools), cs)[k], Names(tools), Names(injected + RenameTools(reserved, tools)))
      {
        RenameCallsAt(Mapping(reserved, tools), cs, k);
        RenamedCallFollows(injected, reserved, tools, cs[k]);
      }
      if cs != [] { RenameCallsAt(Mapping(reserved, tools), cs, 0); }
    }
  }

  lemma {:induction false} RenamedTurnsFollow(injected: seq<Tool>, reserved: set<string>, tools: seq<Tool>, ts: seq<Turn>)
    ensures TurnsFollow(ts, RenameTurns(Mapping(reserved, tools), ts), Names(tools), Names(injected + RenameTools(reserved, tools)))
  {
    var out := RenameTurns(Mapping(reserved, tools), ts);
    if ts != [] { RenameTurnsAt(Mapping(reserved, tools), ts, 0); }
    forall k | 0 <= k < |ts| ensures TurnFollows(ts[k], out[k], Names(tools), Names(injected + RenameTools(reserved, tools))) {
      RenameTurnsAt(Mapping(reserved, tools), ts, k);
      RenamedTurnFollows(injected, reserved, tools, ts[k]);
    }
  }

  lemma {:induction false} NoChangeFollows(ts: seq<Turn>, tools: seq<Tool>)
    ensures TurnsFollow(ts, ts, Names(tools), Names(tools))
  {
  }

  lemma {:induction false} NoRenames(ts: seq<Turn>, k: nat)
    requires k < |ts|
    ensures RenameTurn(map[], ts[k]) == ts[k]
  {
    if ts[k].calls.Some? {
      var cs := ts[k].calls.value;
      forall j | 0 <= j < |cs| ensures |RenameCalls(map[], cs)| == |cs| && RenameCalls(map[], cs)[j] == cs[j] { RenameCallsAt(map[], cs, j); }
      assert RenameCalls(map[], cs) == cs;
    }
  }

  lemma {:induction false} NoRenamesAtAll(ts: seq<Turn>)
    ensures RenameTurns(map[], ts) == ts
  {
    forall k | 0 <= k < |ts| ensures |RenameTurns(map[], ts)| == |ts| && RenameTurns(map[], ts)[k] == ts[k] {
      RenameTurnsAt(map[], ts, k);
      NoRenames(ts, k);
    }
  }

  /** Whatever is injected, every historical call to a declared tool names a
      tool of the composed list. */
  lemma {:induction false} CallsFollowTools(mode: Mode, builtins: seq<Tool>, tools: seq<Tool>, turns: seq<Turn>)
    ensures var reserved := Elements(Names(builtins)); var mapping := Mapping(reserved, tools);
      var renamed := RenameTools(reserved, tools);
      TurnsFollow(turns, if mapping == map[] then turns else RenameTurns(mapping, turns),
                  Names(tools), Names(Injected(mode, builtins, Elements(Names(renamed))) + renamed))
  {
    var reserved := Elements(Names(builtins));
    NoRenamesAtAll(turns);
    RenamedTurnsFollow(Injected(mode, builtins, Elements(Names(RenameTools(reserved, tools)))), reserved, tools, turns);
  }

  lemma {:induction false} InverseFacts(reserved: set<string>, ts: seq<Tool>, name: string)
    ensures ClientName(name) in Inverse(Mapping(reserved, ts)) <==> name in Names(ts) && name in reserved
    ensures ClientName(name) in Inverse(Mapping(reserved, ts)) ==> Inverse(Mapping(reserved, ts))[ClientName(name)] == name
  {
    var m := Mapping(reserved, ts);
    MappingFacts(reserved, ts);
    OriginIsInverse(name);
    if ClientName(name) in Inverse(m) {
      var k :| k in m && m[k] == ClientName(name);
      ClientNameInjective(k, name);
    }
  }

  lemma {:induction false} InverseOnlyClientNames(reserved: set<string>, ts: seq<Tool>, name: string)
    requires name in Inverse(Mapping(reserved, ts))
    ensures name == ClientName(Origin(name)) && Origin(name) in Names(ts) && Origin(name) in reserved
  {
    var m := Mapping(reserved, ts);
    MappingFacts(reserved, ts);
    var k :| k in m && m[k] == name;
    OriginIsInverse(k);
  }

  /** Every declared name survives the trip to upstream and back exactly when no
      renamed form was declared beside its builtin. */
  lemma {:induction false} RoundTripExactly(reserved: set<string>, ts: seq<Tool>)
    ensures (forall n :: n in Names(ts) ==> Restored(Inverse(Mapping(reserved, ts)), Renamed(reserved, n)) == n) <==>
            (forall n :: n in Names(ts) && n in reserved && ClientName(n) in Names(ts) ==> ClientName(n) in reserved)
  {
    var back := Inverse(Mapping(reserved, ts));
    if forall n :: n in Names(ts) && n in reserved && ClientName(n) in Names(ts) ==> ClientName(n) in reserved {
      forall n | n in Names(ts) ensures Restored(back, Renamed(reserved, n)) == n {
        if n in reserved { InverseFacts(reserved, ts, n); }
        else if n in back { InverseOnlyClientNames(reserved, ts, n); }
      }
    } else {
      var n :| n in Names(ts) && n in reserved && ClientName(n) in Names(ts) && ClientName(n) !in reserved;
      InverseFacts(reserved, ts, n);
      OriginIsInverse(n);
      assert Restored(back, Renamed(reserved, ClientName(n))) == n;
    }
  }

  // ------------------------------------------------------------- composition

  const POOL := ["bash", "edit", "glob", "read", "todowrite", "skill", "task", "list", "webfetch", "websearch", "grep", "write"]

  const MINIMAL := {"bash", "edit", "glob", "read"}

  const MIN_INJECTED := 4

  datatype Mode = Full | Captured2 | Minimal

  /** The full list: every builtin name once, every client tool once, no two
      alike, exactly when the client's own list allows it. */
  lemma {:induction false} FullListDistinctExactly(builtins: seq<Tool>, tools: seq<Tool>)
    requires ProperBuiltins(Names(builtins))
    ensures var reserved := Elements(Names(builtins)); var renamed := RenameTools(reserved, tools);
      var all := Names(Injected(Full, builtins, Elements(Names(renamed))) + renamed);
      && all == Names(builtins) + RenamedAll(reserved, Names(tools))
      && (Distinct(all) <==> Distinct(Names(tools)) && !Clashes(reserved, Names(tools)))
  {
    var bs, ns := Names(builtins), Names(tools);
    var reserved := Elements(bs);
    var rs := RenamedAll(reserved, ns);
    RenamedNames(reserved, tools);
    NamesAppend(builtins, RenameTools(reserved, tools));
    RenamedDistinctExactly(bs, ns);
    forall k | 0 <= k < |ns| ensures |rs| == |ns| && rs[k] !in bs { RenamedAllAt(reserved, ns, k); RenamedLeavesBuiltins(bs, ns[k]); }
    if ns == [] { assert rs == []; } else { RenamedAllAt(reserved, ns, 0); }
    DistinctConcat(bs, rs);
  }

  lemma {:induction false} RenamedLeavesBuiltins(builtins: seq<string>, name: string)
    requires ProperBuiltins(builtins)
    ensures Renamed(Elements(builtins), name) !in builtins
  {
    if name in builtins {
      var i :| 0 <= i < |builtins| && builtins[i] == name;
    }
  }

  lemma {:induction false} DistinctConcat(a: seq<string>, b: seq<string>)
    requires Distinct(a) && forall k :: 0 <= k < |b| ==> b[k] !in a
    ensures Distinct(a + b) <==> Distinct(b)
  {
    if Distinct(a + b) {
      forall i, j | 0 <= i < j < |b| ensures b[i] != b[j] {
        assert (a + b)[|a| + i] != (a + b)[|a| + j];
      }
    }
    if Distinct(b) {
      forall i, j | 0 <= i < j < |a + b| ensures (a + b)[i] != (a + b)[j] {
        if i < |a| && j < |a| { assert a[i] != a[j]; }
        else if i < |a| { assert b[j - |a|] !in a; }
        else { assert b[i - |a|] != b[j - |a|]; }
      }
    }
  }

  /** Pool names the client does not use. */
  function Unclaimed(pool: seq<string>, claimed: set<string>): seq<string> {
    if pool == [] then []
    else Unclaimed(pool[..|pool| - 1], claimed) + if pool[|pool| - 1] !in claimed then [pool[|pool| - 1]] else []
  }

  function MinimalSchema(name: string): Tool { Tool(Some(name), "", 0) }

  function Schemas(names: seq<string>): seq<Tool> {
    if names == [] then [] else Schemas(names[..|names| - 1]) + [MinimalSchema(names[|names| - 1])]
  }

  /** Builtins kept in the reduced modes. */
  function Kept(builtins: seq<Tool>, banned: set<string>): seq<Tool> {
    if builtins == [] then []
    else
      var last := builtins[|builtins| - 1];
      Kept(builtins[..|builtins| - 1], banned) + if NameOf(last) in MINIMAL && NameOf(last) !in banned then [last] else []
  }

  /** What is put ahead of the client's tools. */
  function Injected(mode: Mode, builtins: seq<Tool>, claimed: set<string>): seq<Tool> {
    match mode
    case Full => builtins
    case Captured2 => Kept(builtins, claimed)
    case Minimal =>
      var free := Unclaimed(POOL, claimed);
      if |free| >= MIN_INJECTED then Schemas(free[..MIN_INJECTED]) else Kept(builtins, {})
  }

  lemma {:induction false} UnclaimedFacts(pool: seq<string>, claimed: set<string>)
    requires Distinct(pool)
    ensures Distinct(Unclaimed(pool, claimed)) && forall n :: n in Unclaimed(pool, claimed) <==> n in pool && n !in claimed
  {
    if pool != [] {
      UnclaimedFacts(pool[..|pool| - 1], claimed);
      assert pool == pool[..|pool| - 1] + [pool[|pool| - 1]];
      assert pool[|pool| - 1] !in pool[..|pool| - 1];
    }
  }

  lemma {:induction false} SchemaNames(names: seq<string>)
    requires forall k :: 0 <= k < |names| ==> names[k] != ""
    ensures Names(Schemas(names)) == names
  {
    if names != [] {
      SchemaNames(names[..|names| - 1]);
      var r := Schemas(names[..|names| - 1]);
      assert (r + [MinimalSchema(names[|names| - 1])])[..|r|] == r;
    }
  }

  lemma {:induction false} PoolIsDistinct()
    ensures Distinct(POOL) && forall k :: 0 <= k < |POOL| ==> POOL[k] != ""
  {
  }

  lemma {:induction false} PickFour(free: seq<string>, claimed: set<string>)
    requires |free| >= MIN_INJECTED && Distinct(free) && forall n :: n in free <==> n in POOL && n !in claimed
    ensures var names := free[..MIN_INJECTED]; Distinct(names) && forall k :: 0 <= k < |names| ==> names[k] in POOL && names[k] !in claimed
  {
    forall k | 0 <= k < MIN_INJECTED ensures free[..MIN_INJECTED][k] in POOL && free[..MIN_INJECTED][k] !in claimed {
      assert free[k] in free;
    }
  }

  lemma {:induction false} NonEmptyNames(names: seq<string>)
    requires forall k :: 0 <= k < |names| ==> names[k] in POOL
    ensures forall k :: 0 <= k < |names| ==> names[k] != ""
  {
    PoolIsDistinct();
  }

  /** In minimal mode, as long as four pool names are free, exactly four are
      injected, all distinct, all pool names, none the client's. */
  lemma {:induction false} MinimalInjectsFour(builtins: seq<Tool>, claimed: set<string>)
    requires |Unclaimed(POOL, claimed)| >= MIN_INJECTED
    ensures var names := Names(Injected(Minimal, builtins, claimed));
      |names| == MIN_INJECTED && Distinct(names) && forall k :: 0 <= k < |names| ==> names[k] in POOL && names[k] !in claimed
  {
    PoolIsDistinct();
    UnclaimedFacts(POOL, claimed);
    var free := Unclaimed(POOL, claimed);
    PickFour(free, claimed);
    NonEmptyNames(free[..MIN_INJECTED]);
    SchemaNames(free[..MIN_INJECTED]);
  }

  function Usable(t: Turn): bool { t.content.Some? || (t.calls.Some? && t.calls.value != []) }

  function Cleaned(ts: seq<Turn>): seq<Turn> {
    if ts == [] then [] else Cleaned(ts[..|ts| - 1]) + if Usable(ts[|ts| - 1]) then [ts[|ts| - 1]] else []
  }

  ghost predicate NoneUsable(ts: seq<Turn>) { forall k :: 0 <= k < |ts| ==> !Usable(ts[k]) }

  lemma {:induction false} EmptyExactly(ts: seq<Turn>)
    ensures Cleaned(ts) == [] <==> NoneUsable(ts)
  {
    if ts != [] {
      var front, last := ts[..|ts| - 1], ts[|ts| - 1];
      EmptyExactly(front);
      assert NoneUsable(ts) <==> NoneUsable(front) && !Usable(last) by {
        assert forall k :: 0 <= k < |front| ==> front[k] == ts[k];
      }
    }
  }

  lemma {:induction false} CleanedExactly(ts: seq<Turn>)
    ensures Cleaned(ts) == [] <==> NoneUsable(ts)
    ensures forall k :: 0 <= k < |Cleaned(ts)| ==> Usable(Cleaned(ts)[k]) && Cleaned(ts)[k] in ts
  {
    EmptyExactly(ts);
    if ts != [] {
      var front := ts[..|ts| - 1];
      CleanedExactly(front);
      forall k | 0 <= k < |Cleaned(ts)| ensures Usable(Cleaned(ts)[k]) && Cleaned(ts)[k] in ts {
        if k < |Cleaned(front)| { assert Cleaned(ts)[k] == Cleaned(front)[k] && Cleaned(front)[k] in front; }
      }
    }
  }

  ghost predicate Rising(ix: seq<nat>) { forall k, l :: 0 <= k < l < |ix| ==> ix[k] < ix[l] }

  /** Where `keep` holds, in order. */
  ghost function Places<T>(xs: seq<T>, keep: T -> bool): seq<nat> {
    if xs == [] then []
    else
      var n := |xs| - 1;
      var r := Places(xs[..n], keep);
      if keep(xs[n]) then r + [n] else r
  }

  lemma {:induction false} PlacesAt<T>(xs: seq<T>, keep: T -> bool, j: int)
    ensures j in Places(xs, keep) <==> 0 <= j < |xs| && keep(xs[j])
  {
    if xs != [] {
      var n := |xs| - 1;
      PlacesAt(xs[..n], keep, j);
      assert 0 <= j < n ==> xs[..n][j] == xs[j];
      InSnoc(Places(xs[..n], keep), n, j);
    }
  }

  lemma {:induction false} InSnoc(r: seq<nat>, n: nat, j: int)
    ensures j in r + [n] <==> j in r || j == n
  {
    if j in r {
      var k :| 0 <= k < |r| && r[k] == j;
      assert (r + [n])[k] == j;
    }
    assert (r + [n])[|r|] == n;
  }

  lemma {:induction false} PlacesRise<T>(xs: seq<T>, keep: T -> bool)
    ensures Rising(Places(xs, keep)) && forall k :: 0 <= k < |Places(xs, keep)| ==> Places(xs, keep)[k] < |xs|
  {
    if xs != [] { PlacesRise(xs[..|xs| - 1], keep); }
  }

  lemma {:induction false} PlacesFacts<T>(xs: seq<T>, keep: T -> bool)
    ensures Rising(Places(xs, keep)) && forall j :: j in Places(xs, keep) <==> 0 <= j < |xs| && keep(xs[j])
  {
    PlacesRise(xs, keep);
    forall j ensures j in Places(xs, keep) <==> 0 <= j < |xs| && keep(xs[j]) { PlacesAt(xs, keep, j); }
  }

  /** `out` is the elements of `xs` at these places. */
  ghost predicate TakenFrom<T>(xs: seq<T>, ix: seq<nat>, out: seq<T>) {
    |out| == |ix| && forall k :: 0 <= k < |ix| ==> ix[k] < |xs| && out[k] == xs[ix[k]]
  }

  lemma {:induction false} TakenSnoc<T>(xs: seq<T>, ix: seq<nat>, out: seq<T>, x: T)
    requires TakenFrom(xs, ix, out)
    ensures TakenFrom(xs + [x], ix, out) && TakenFrom(xs + [x], ix + [|xs|], out + [x])
  {
  }

  /** The places of the turns with content or calls, in order. */
  ghost predicate UsableAt(ts: seq<Turn>, ix: seq<nat>) {
    Rising(ix) && forall j: int :: j in ix <==> 0 <= j < |ts| && (ts[j].content.Some? || (ts[j].calls.Some? && ts[j].calls.value != []))
  }

  lemma {:induction false} CleanedIsTaken(ts: seq<Turn>)
    ensures TakenFrom(ts, Places(ts, Usable), Cleaned(ts))
  {
    if ts != [] {
      var front, last := ts[..|ts| - 1], ts[|ts| - 1];
      CleanedIsTaken(front);
      TakenSnoc(front, Places(front, Usable), Cleaned(front), last);
      assert front + [last] == ts;
    }
  }

  /** What is kept is exactly the turns with content or calls, in order. */
  lemma {:induction false} CleanedInOrder(ts: seq<Turn>) returns (ix: seq<nat>)
    ensures UsableAt(ts, ix) && TakenFrom(ts, ix, Cleaned(ts))
  {
    ix := Places(ts, Usable);
    CleanedIsTaken(ts);
    PlacesFacts(ts, Usable);
  }

  /** What goes ahead of the conversation. */
  function Lead(authFree: bool, marker: Option<Turn>): seq<Turn> { if authFree && marker.Some? then [marker.value] else [] }

  /** The turns of a body are `lead` and the usable turns of the request, in
      order, unchanged but for the names of calls. */
  ghost predicate SentFrom(ts: seq<Turn>, lead: seq<Turn>, ix: seq<nat>, out: seq<Turn>) {
    && UsableAt(ts, ix) && |out| == |lead| + |ix|
    && (forall k :: 0 <= k < |lead| ==> SameButNames(lead[k], out[k]))
    && (forall k :: 0 <= k < |ix| ==> ix[k] < |ts| && SameButNames(ts[ix[k]], out[|lead| + k]))
  }

  lemma {:induction false} SentInOrder(ts: seq<Turn>, lead: seq<Turn>, out: seq<Turn>)
    requires AllSameButNames(lead + Cleaned(ts), out)
    ensures exists ix :: SentFrom(ts, lead, ix, out)
  {
    var ix := CleanedInOrder(ts);
    forall k | 0 <= k < |lead| ensures SameButNames(lead[k], out[k]) { assert (lead + Cleaned(ts))[k] == lead[k]; }
    forall k | 0 <= k < |ix| ensures SameButNames(ts[ix[k]], out[|lead| + k]) {
      assert (lead + Cleaned(ts))[|lead| + k] == Cleaned(ts)[k];
    }
    assert SentFrom(ts, lead, ix, out);
  }

  function KeptTest(banned: set<string>): Tool -> bool { (t: Tool) => NameOf(t) in MINIMAL && NameOf(t) !in banned }

  predicate SmallTool(t: Tool) { NameOf(t) == "bash" || NameOf(t) == "edit" || NameOf(t) == "glob" || NameOf(t) == "read" }

  lemma {:induction false} KeptTestIs(banned: set<string>, t: Tool)
    ensures KeptTest(banned)(t) <==> SmallTool(t) && NameOf(t) !in banned
  {
  }

  lemma {:induction false} KeptIsTaken(builtins: seq<Tool>, banned: set<string>)
    ensures TakenFrom(builtins, Places(builtins, KeptTest(banned)), Kept(builtins, banned))
  {
    if builtins != [] {
      var front, last := builtins[..|builtins| - 1], builtins[|builtins| - 1];
      KeptIsTaken(front, banned);
      TakenSnoc(front, Places(front, KeptTest(banned)), Kept(front, banned), last);
      assert front + [last] == builtins;
    }
  }

  /** In captured mode exactly the four small builtins the client does not
      declare go ahead of its tools, in order; in minimal mode with fewer than
      four pool names free, all four of them. */
  lemma {:induction false} KeptInOrder(mode: Mode, builtins: seq<Tool>, claimed: set<string>) returns (ix: seq<nat>)
    requires mode.Captured2? || (mode.Minimal? && |Unclaimed(POOL, claimed)| < MIN_INJECTED)
    ensures Rising(ix) && TakenFrom(builtins, ix, Injected(mode, builtins, claimed))
    ensures forall j: int :: j in ix <==>
      0 <= j < |builtins| && SmallTool(builtins[j]) && (mode.Captured2? ==> NameOf(builtins[j]) !in claimed)
  {
    var banned := if mode.Captured2? then claimed else {};
    ix := Places(builtins, KeptTest(banned));
    KeptIsTaken(builtins, banned);
    PlacesFacts(builtins, KeptTest(banned));
    forall j: nat | j < |builtins| ensures KeptTest(banned)(builtins[j]) <==> SmallTool(builtins[j]) && NameOf(builtins[j]) !in banned {
      KeptTestIs(banned, builtins[j]);
    }
  }

  datatype Payload = Payload(turns: seq<Turn>, tools: seq<Tool>, toolChoice: Option<string>)

  datatype Built = InvalidRequest | Built(turns: seq<Turn>, tools: seq<Tool>, toolChoice: Option<string>)

  /** A request's context: the restore map lives as long as it does. */
  class RequestContext {
    var restore: map<string, string>

    constructor ()
      ensures restore == map[]
    {
      restore := map[];
    }

    method RenameCollisions(tools: seq<Tool>, turns: seq<Turn>, builtins: seq<Tool>) returns (outTools: seq<Tool>, outTurns: seq<Turn>)
      modifies this
      ensures var reserved := Elements(Names(builtins)); var mapping := Mapping(reserved, tools);
        && outTools == RenameTools(reserved, tools)
        && outTurns == (if mapping == map[] then turns else RenameTurns(mapping, turns))
        && restore == (if mapping == map[] then old(restore) else Inverse(mapping))
    {
      var reserved := ToolNames(builtins);
      var mapping: map<string, string> := map[];
      outTools := [];
      for k := 0 to |tools|
        invariant outTools == RenameTools(reserved, tools[..k]) && mapping == Mapping(reserved, tools[..k]) && restore == old(restore)
      {
        assert tools[..k + 1][..k] == tools[..k];
        var tool := tools[k];
        var name := NameOf(tool);
        if name != "" && name in reserved {
          mapping := mapping[name := ClientName(name)];
          tool := if tool.fn.Some? then tool.(fn := Some(ClientName(name))) else tool.(top := ClientName(name));
        }
        outTools := outTools + [tool];
      }
      assert tools[..|tools|] == tools;
      if mapping == map[] { return outTools, turns; }
      restore := Inverse(mapping);
      outTurns := [];
      for k := 0 to |turns|
        invariant outTurns == RenameTurns(mapping, turns[..k]) && restore == Inverse(mapping)
      {
        assert turns[..k + 1][..k] == turns[..k];
        var turn := turns[k];
        if turn.calls.Some? {
          var rewritten := RewriteCalls(mapping, turn.calls.value);
          turn := turn.(calls := Some(rewritten));
        }
        outTurns := outTurns + [turn];
      }
      assert turns[..|turns|] == turns;
    }

    method BuildBody(p: Payload, authFree: bool, marker: Option<Turn>, mode: Mode, builtins: seq<Tool>) returns (b: Built)
      modifies this
      ensures b.InvalidRequest? <==> Cleaned(p.turns) == []
      ensures b.InvalidRequest? || !authFree ==> restore == old(restore)
      ensures b.Built? && !authFree ==> b.turns == Cleaned(p.turns) && b.tools == p.tools
      ensures b.Built? && authFree ==>
        var reserved := Elements(Names(builtins)); var mapping := Mapping(reserved, p.tools);
        var turns := (if marker.Some? then [marker.value] else []) + Cleaned(p.turns);
        && b.tools == Injected(mode, builtins, Elements(Names(RenameTools(reserved, p.tools)))) + RenameTools(reserved, p.tools)
        && b.turns == (if mapping == map[] then turns else RenameTurns(mapping, turns))
        && restore == (if mapping == map[] then old(restore) else Inverse(mapping))
      ensures b.Built? ==> exists ix :: SentFrom(p.turns, Lead(authFree, marker), ix, b.turns)
      ensures b.Built? ==> TurnsFollow(Lead(authFree, marker) + Cleaned(p.turns), b.turns, Names(p.tools), Names(b.tools))
      ensures b.Built? ==> b.toolChoice == (if b.tools == [] then None else if p.toolChoice.None? && authFree then Some("auto") else p.toolChoice)
    {
      var turns := CleanMessages(p.turns);
      if turns == [] { return InvalidRequest; }
      ghost var lead := Lead(authFree, marker);
      ghost var given := lead + Cleaned(p.turns);
      var tools, choice := p.tools, p.toolChoice;
      if authFree {
        if marker.Some? { turns := [marker.value] + turns; }
        assert turns == given;
        RenamedTurnsAreSame(Mapping(Elements(Names(builtins)), tools), given);
        CallsFollowTools(mode, builtins, tools, turns);
        tools, turns := RenameCollisions(tools, turns, builtins);
        tools := MergeTools(tools, mode, builtins);
        if choice.None? && tools != [] { choice := Some("auto"); }
      }
      else {
        assert turns == given;
        RenamedTurnsAreSame(map[], given);
        NoChangeFollows(given, tools);
      }
      SentInOrder(p.turns, lead, turns);
      if tools == [] { choice := None; }
      b := Built(turns, tools, choice);
    }
  }

  method ToolNames(ts: seq<Tool>) returns (names: set<string>)
    ensures names == Elements(Names(ts))
  {
    names := {};
    for k := 0 to |ts|
      invariant names == Elements(Names(ts[..k]))
    {
      assert ts[..k + 1][..k] == ts[..k];
      if NameOf(ts[k]) != "" { names := names + {NameOf(ts[k])}; }
    }
    assert ts[..|ts|] == ts;
  }

  method RewriteCalls(mapping: map<string, string>, cs: seq<Call>) returns (out: seq<Call>)
    ensures out == RenameCalls(mapping, cs)
  {
    out := [];
    for k := 0 to |cs|
      invariant out == RenameCalls(mapping, cs[..k])
    {
      assert cs[..k + 1][..k] == cs[..k];
      var call := cs[k];
      if call.name.Some? && call.name.value in mapping { call := call.(name := Some(mapping[call.name.value])); }
      out := out + [call];
    }
    assert cs[..|cs|] == cs;
  }

  method CleanMessages(ts: seq<Turn>) returns (out: seq<Turn>)
    ensures out == Cleaned(ts) && exists ix :: UsableAt(ts, ix) && TakenFrom(ts, ix, out)
  {
    ghost var _ := CleanedInOrder(ts);
    out := [];
    for k := 0 to |ts|
      invariant out == Cleaned(ts[..k])
    {
      assert ts[..k + 1][..k] == ts[..k];
      if ts[k].content.None? && (ts[k].calls.None? || ts[k].calls.value == []) { continue; }
      out := out + [ts[k]];
    }
    assert ts[..|ts|] == ts;
  }

  lemma {:induction false} UnclaimedSnoc(k: nat, claimed: set<string>)
    requires k < |POOL|
    ensures Unclaimed(POOL[..k + 1], claimed) == Unclaimed(POOL[..k], claimed) + if POOL[k] !in claimed then [POOL[k]] else []
    ensures Unclaimed(POOL[..k + 1], claimed) <= Unclaimed(POOL, claimed)
    decreases |POOL| - k
  {
    assert POOL[..k + 1][..k] == POOL[..k];
    if k + 1 < |POOL| {
      UnclaimedSnoc(k + 1, claimed);
    } else {
      assert POOL[..k + 1] == POOL;
    }
  }

  method MergeTools(tools: seq<Tool>, mode: Mode, builtins: seq<Tool>) returns (out: seq<Tool>)
    ensures out == Injected(mode, builtins, Elements(Names(tools))) + tools
  {
    var claimed := ToolNames(tools);
    var injected := builtins;
    match mode {
      case Full =>
      case Captured2 => injected := KeepMinimal(builtins, claimed);
      case Minimal =>
        var picked := PickFree(claimed);
        if |picked| < MIN_INJECTED { injected := KeepMinimal(builtins, {}); } else { injected := Schemas(picked); }
    }
    out := injected + tools;
  }

  method PickFree(claimed: set<string>) returns (picked: seq<string>)
    ensures var free := Unclaimed(POOL, claimed); picked == if |free| >= MIN_INJECTED then free[..MIN_INJECTED] else free
  {
    var k := 0;
    picked := [];
    while k < |POOL| && |picked| < MIN_INJECTED
      invariant k <= |POOL| && picked == Unclaimed(POOL[..k], claimed) && |picked| <= MIN_INJECTED
      invariant picked <= Unclaimed(POOL, claimed)
    {
      UnclaimedSnoc(k, claimed);
      if POOL[k] !in claimed { picked := picked + [POOL[k]]; }
      k := k + 1;
    }
    if |picked| < MIN_INJECTED {
      assert POOL[..|POOL|] == POOL;
    } else {
      assert picked == Unclaimed(POOL, claimed)[..MIN_INJECTED];
    }
  }

  method KeepMinimal(builtins: seq<Tool>, banned: set<string>) returns (out: seq<Tool>)
    ensures out == Kept(builtins, banned)
  {
    out := [];
    for k := 0 to |builtins|
      invariant out == Kept(builtins[..k], banned)
    {
      assert builtins[..k + 1][..k] == builtins[..k];
      if NameOf(builtins[k]) in MINIMAL && NameOf(builtins[k]) !in banned { out := out + [builtins[k]]; }
    }
    assert builtins[..|builtins|] == builtins;
  }
}
