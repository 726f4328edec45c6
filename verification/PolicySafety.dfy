/** What the request policy guarantees: accepted requests fit the context, for
    exactly the models that leave room for it. */
module PolicySafety {
  import opened Basics
  import opened RequestPolicy

  // ------------------------------------------------------------- arithmetic

  /** The estimate of a text is its length over four, to the nearest. */
  lemma {:induction false} TextCostIsNearest(t: string)
    ensures |t| - 2 <= 4 * TextCost(t) <= |t| + 2
    ensures 4 * TextCost(t) == |t| + 2 || 4 * TextCost(t) == |t| - 2 ==> TextCost(t) % 2 == 0
  {
    var q, r := |t| / 4, |t| % 4;
    assert |t| == 4 * q + r;
  }

  lemma {:induction false} PaddedBounds(e: nat)
    ensures Padded(e) >= e && 20 * Padded(e) >= 23 * e && 20 * (Padded(e) - 1) < 23 * e
  {
    var n := 23 * e + 19;
    assert n == 20 * (n / 20) + n % 20;
  }

  lemma {:induction false} PaddedGrows(e: nat, f: nat)
    requires e <= f
    ensures Padded(e) <= Padded(f)
  {
    PaddedBounds(e);
    PaddedBounds(f);
  }

  /** A longer prompt never gets a larger budget. */
  lemma {:induction false} BudgetNeverGrows(l: Limits, e: nat, f: nat)
    requires e <= f
    ensures OutputBudget(l, f) <= OutputBudget(l, e)
  {
    PaddedGrows(e, f);
  }

  /** The budget is the largest number within the model's output limit and the
      overall maximum that is either the minimum or, on top of the estimate and
      115 percent of it, still within the context. */
  lemma {:induction false} BudgetIsLargest(l: Limits, e: nat, n: int)
    ensures n <= OutputBudget(l, e) <==>
      && n <= (if l.output > 0 then l.output else 32_000) && n <= 256_000
      && (l.context <= 0 || n <= 1_024 || 100 * e + 115 * e + 100 * n <= 100 * l.context)
  {
    PaddedBounds(e);
  }

  // --------------------------------------------------------- the estimate

  /** Every text of a request: what is said, the names and arguments of calls,
      and what is declared of each tool. */
  function CallTexts(cs: seq<(string, string)>): seq<string> {
    if cs == [] then [] else CallTexts(cs[..|cs| - 1]) + [cs[|cs| - 1].0, cs[|cs| - 1].1]
  }

  function MessageTexts(ms: seq<Message>): seq<string> {
    if ms == [] then [] else MessageTexts(ms[..|ms| - 1]) + ([ms[|ms| - 1].text] + CallTexts(ms[|ms| - 1].calls))
  }

  function ToolTexts(ts: seq<ToolDecl>): seq<string> {
    if ts == [] then []
    else
      var t := ts[|ts| - 1];
      ToolTexts(ts[..|ts| - 1]) + ([t.name, t.description] + if t.schema.Some? then [t.schema.value] else [])
  }

  function Characters(texts: seq<string>): nat { if texts == [] then 0 else Characters(texts[..|texts| - 1]) + |texts[|texts| - 1]| }

  /** A quarter of the characters, give or take half a token a text. */
  ghost predicate Near(cost: nat, texts: seq<string>) {
    Characters(texts) - 2 * |texts| <= 4 * cost <= Characters(texts) + 2 * |texts|
  }

  lemma {:induction false} CharactersAppend(a: seq<string>, b: seq<string>)
    ensures Characters(a + b) == Characters(a) + Characters(b)
  {
    if b == [] {
      assert a + b == a;
    } else {
      CharactersAppend(a, b[..|b| - 1]);
      assert (a + b)[..|a + b| - 1] == a + b[..|b| - 1];
    }
  }

  lemma {:induction false} NearOne(t: string)
    ensures Near(TextCost(t), [t])
  {
    TextCostIsNearest(t);
    assert [t][..0] == [] && Characters([t]) == |t|;
  }

  lemma {:induction false} NearBoth(a: nat, xs: seq<string>, b: nat, ys: seq<string>)
    requires Near(a, xs) && Near(b, ys)
    ensures Near(a + b, xs + ys)
  {
    CharactersAppend(xs, ys);
  }

  lemma {:induction false} NearTwo(t: string, u: string)
    ensures Near(TextCost(t) + TextCost(u), [t, u])
  {
    NearOne(t);
    NearOne(u);
    NearBoth(TextCost(t), [t], TextCost(u), [u]);
    assert [t] + [u] == [t, u];
  }

  lemma {:induction false} NearCalls(cs: seq<(string, string)>)
    ensures Near(CallsCost(cs), CallTexts(cs))
  {
    if cs != [] {
      var front, last := cs[..|cs| - 1], cs[|cs| - 1];
      NearCalls(front);
      NearTwo(last.0, last.1);
      NearBoth(CallsCost(front), CallTexts(front), TextCost(last.0) + TextCost(last.1), [last.0, last.1]);
    }
  }

  lemma {:induction false} NearMessages(ms: seq<Message>)
    ensures Near(MessagesCost(ms), MessageTexts(ms))
  {
    if ms != [] {
      var front, last := ms[..|ms| - 1], ms[|ms| - 1];
      NearMessages(front);
      NearOne(last.text);
      NearCalls(last.calls);
      NearBoth(TextCost(last.text), [last.text], CallsCost(last.calls), CallTexts(last.calls));
      NearBoth(MessagesCost(front), MessageTexts(front), TextCost(last.text) + CallsCost(last.calls), [last.text] + CallTexts(last.calls));
    }
  }

  lemma {:induction false} NearTool(t: ToolDecl)
    ensures Near(ToolCost(t), [t.name, t.description] + if t.schema.Some? then [t.schema.value] else [])
  {
    NearTwo(t.name, t.description);
    if t.schema.Some? {
      NearOne(t.schema.value);
      NearBoth(TextCost(t.name) + TextCost(t.description), [t.name, t.description], TextCost(t.schema.value), [t.schema.value]);
    } else {
      assert [t.name, t.description] + [] == [t.name, t.description];
    }
  }

  lemma {:induction false} NearTools(ts: seq<ToolDecl>)
    ensures Near(ToolsCost(ts), ToolTexts(ts))
  {
    if ts != [] {
      var front, last := ts[..|ts| - 1], ts[|ts| - 1];
      NearTools(front);
      NearTool(last);
      NearBoth(ToolsCost(front), ToolTexts(front), ToolCost(last), [last.name, last.description] + if last.schema.Some? then [last.schema.value] else []);
    }
  }

  /** The estimate is a quarter of all the characters of the request, give or
      take half a token for each text. */
  lemma {:induction false} EstimateIsQuarter(b: Body)
    ensures var texts := MessageTexts(b.messages) + ToolTexts(b.tools);
      Characters(texts) - 2 * |texts| <= 4 * EstimateOf(b) <= Characters(texts) + 2 * |texts|
  {
    NearMessages(b.messages);
    NearTools(b.tools);
    NearBoth(MessagesCost(b.messages), MessageTexts(b.messages), ToolsCost(b.tools), ToolTexts(b.tools));
  }

  // ------------------------------------------------------------- it fits

  ghost predicate Fits(p: Profile, s: Settings, b: Body) { OutcomeFits(p, Policy(Some(p), s, b)) }

  /** What an accepted request asks the model for, on top of its prompt. */
  ghost predicate OutcomeFits(p: Profile, o: Outcome) {
    o.Applied? ==>
      var field := BudgetField(o.body.fields);
      && field in o.body.fields && o.body.fields[field].Num?
      && o.estimate + o.body.fields[field].n <= p.limits.context
  }

  lemma {:induction false} BudgetFits(l: Limits, e: nat)
    requires l.context > 0 && l.input >= 0 && e <= Window(l) && Window(l) + Min(OUTPUT_TOKEN_MIN, Requested(l)) <= l.context
    ensures e + OutputBudget(l, e) <= l.context
  {
    PaddedBounds(e);
  }

  lemma {:induction false} FieldKeepsName(fields: map<string, Value>, n: int)
    ensures BudgetField(fields[BudgetField(fields) := Num(n)]) == BudgetField(fields)
  {
  }

  lemma {:induction false} GuardedFits(p: Profile, s: Settings, b: Body)
    requires s.guard && s.override == 0 && s.mode.Mirror? && p.limits.context > 0 && p.limits.input >= 0
    requires Window(p.limits) + Min(OUTPUT_TOKEN_MIN, Requested(p.limits)) <= p.limits.context
    ensures OutcomeFits(p, Guarded(p, s, b))
  {
    if !Overflows(s, p.limits, EstimateOf(b)) {
      BudgetFits(p.limits, EstimateOf(b));
      FieldKeepsName(b.fields, Budgeted(p, s.mode, b.fields, EstimateOf(b)).value);
    }
  }

  lemma {:induction false} FitsIfRoom(p: Profile, s: Settings, b: Body)
    requires s.guard && s.override == 0 && s.mode.Mirror? && p.limits.context > 0 && p.limits.input >= 0
    requires Window(p.limits) + Min(OUTPUT_TOKEN_MIN, Requested(p.limits)) <= p.limits.context
    ensures Fits(p, s, b)
  {
    GuardedFits(p, s, b.(fields := Screened(Some(p), s.reasoning, b.fields)));
  }

  function Filler(n: nat): string { seq(n, _ => 'a') }

  /** A request that fills the window to the last token. */
  function FullRequest(w: nat): Body { Body(map[], [Message(Filler(4 * w), [])], []) }

  lemma {:induction false} FullRequestCost(w: nat)
    ensures EstimateOf(FullRequest(w)) == w
  {
    var m := Message(Filler(4 * w), []);
    assert |m.text| == 4 * w && TextCost(m.text) == w;
    assert [m][..0] == [] && CallsCost(m.calls) == 0;
    assert MessagesCost([m]) == MessagesCost([m][..0]) + TextCost(m.text) + CallsCost(m.calls);
  }

  lemma {:induction false} OverrunIfNone(p: Profile, s: Settings)
    requires s.guard && s.override == 0 && s.mode.Mirror? && p.limits.context > 0 && p.limits.input >= 0
    requires Window(p.limits) + Min(OUTPUT_TOKEN_MIN, Requested(p.limits)) > p.limits.context
    ensures !Fits(p, s, FullRequest(Window(p.limits)))
  {
    var w := Window(p.limits);
    var b := FullRequest(w);
    FullRequestCost(w);
    PaddedBounds(w);
    var fields := Screened(Some(p), s.reasoning, b.fields);
    assert fields == map[];
    assert Budgeted(p, s.mode, fields, w) == Some(Min(Requested(p.limits), OUTPUT_TOKEN_MIN));
    FieldKeepsName(fields, Min(Requested(p.limits), OUTPUT_TOKEN_MIN));
  }

  /** In mirror mode with the guard on and no override, every accepted request
      fits the context exactly for the models whose window leaves room for the
      smallest budget. */
  lemma {:induction false} AcceptedFitsExactly(p: Profile, s: Settings)
    requires s.guard && s.override == 0 && s.mode.Mirror? && p.limits.context > 0 && p.limits.input >= 0
    ensures (forall b: Body :: Fits(p, s, b)) <==> Window(p.limits) + Min(OUTPUT_TOKEN_MIN, Requested(p.limits)) <= p.limits.context
  {
    if Window(p.limits) + Min(OUTPUT_TOKEN_MIN, Requested(p.limits)) <= p.limits.context {
      forall b: Body ensures Fits(p, s, b) { FitsIfRoom(p, s, b); }
    } else {
      OverrunIfNone(p, s);
    }
  }

  const BIG_PICKLE := Limits(262_139, 261_000, 32_000)
  const DEEPSEEK := Limits(200_000, 0, 32_000)
  const MUSE_SPARK := Limits(1_048_576, 0, 131_072)

  /** Of the published models, big-pickle is guarded in full; the ones without
      an input limit of their own accept requests that overrun. */
  lemma {:induction false} PublishedModels(p: Profile, s: Settings)
    requires s.guard && s.override == 0 && s.mode.Mirror?
    requires p.limits == BIG_PICKLE || p.limits == DEEPSEEK || p.limits == MUSE_SPARK
    ensures (forall b: Body :: Fits(p, s, b)) <==> p.limits == BIG_PICKLE
  {
    AcceptedFitsExactly(p, s);
  }

  // --------------------------------------------------------- once is enough

  lemma {:induction false} ScreeningSettles(p: Option<Profile>, policy: Reasoning, fields: map<string, Value>)
    ensures Screened(p, policy, Screened(p, policy, fields)) == Screened(p, policy, fields)
  {
  }

  /** Writing the output field does not disturb the screening. */
  lemma {:induction false} ScreenedStays(p: Option<Profile>, policy: Reasoning, fields: map<string, Value>, n: int)
    ensures var f := Screened(p, policy, fields); var g := f[BudgetField(f) := Num(n)]; Screened(p, policy, g) == g
  {
    ScreeningSettles(p, policy, fields);
    assert "max_tokens" !in CONTROL_FIELDS && "max_completion_tokens" !in CONTROL_FIELDS;
  }

  lemma {:induction false} BudgetSettles(p: Profile, mode: BudgetMode, fields: map<string, Value>, estimate: nat)
    requires Budgeted(p, mode, fields, estimate).Some?
    ensures var n := Budgeted(p, mode, fields, estimate).value; var g := fields[BudgetField(fields) := Num(n)];
      Budgeted(p, mode, g, estimate) == Some(n) && g[BudgetField(g) := Num(n)] == g
  {
    FieldKeepsName(fields, Budgeted(p, mode, fields, estimate).value);
  }

  lemma {:induction false} WritingSettles(p: Profile, s: Settings, fields: map<string, Value>, estimate: nat)
    ensures var f := Screened(Some(p), s.reasoning, fields); var g := Written(p, s.mode, f, estimate);
      Screened(Some(p), s.reasoning, g) == g && Written(p, s.mode, g, estimate) == g
  {
    var f := Screened(Some(p), s.reasoning, fields);
    ScreeningSettles(Some(p), s.reasoning, fields);
    var budget := Budgeted(p, s.mode, f, estimate);
    if budget.Some? {
      ScreenedStays(Some(p), s.reasoning, fields, budget.value);
      BudgetSettles(p, s.mode, f, estimate);
    }
  }

  lemma {:induction false} GuardSettles(p: Profile, s: Settings, b: Body)
    requires Written(p, s.mode, Written(p, s.mode, b.fields, EstimateOf(b)), EstimateOf(b)) == Written(p, s.mode, b.fields, EstimateOf(b))
    ensures Guarded(p, s, Guarded(p, s, b).body) == Guarded(p, s, b)
  {
  }

  /** The second pass, over what the first one left. */
  lemma {:induction false} SecondPass(p: Profile, s: Settings, b: Body, fields: map<string, Value>)
    requires b.fields == Screened(Some(p), s.reasoning, fields)
    ensures var o := Guarded(p, s, b); o.body.fields == Screened(Some(p), s.reasoning, o.body.fields) && Guarded(p, s, o.body) == o
  {
    ScreeningSettles(Some(p), s.reasoning, fields);
    WritingSettles(p, s, fields, EstimateOf(b));
    GuardSettles(p, s, b);
  }

  lemma {:induction false} PolicyIsGuarded(p: Profile, s: Settings, b: Body, screened: Body)
    requires screened == b.(fields := Screened(Some(p), s.reasoning, b.fields))
    ensures Policy(Some(p), s, b) == Guarded(p, s, screened)
  {
  }

  /** Applying the policy twice is applying it once, refusals included. */
  lemma {:induction false} PolicyIsIdempotent(p: Option<Profile>, s: Settings, b: Body)
    ensures Policy(p, s, Policy(p, s, b).body) == Policy(p, s, b)
  {
    if p.None? {
      ScreeningSettles(p, s.reasoning, b.fields);
    } else {
      var screened := b.(fields := Screened(p, s.reasoning, b.fields));
      var o := Guarded(p.value, s, screened);
      assert p == Some(p.value);
      SecondPass(p.value, s, screened, b.fields);
      PolicyIsGuarded(p.value, s, b, screened);
      PolicyIsGuarded(p.value, s, o.body, o.body);
    }
  }

  /** A thinking control reaches upstream exactly when the client's word is law,
      or it is a strength the model declares. */
  lemma {:induction false} ControlSurvivesExactly(p: Option<Profile>, s: Settings, b: Body, field: string)
    requires field in CONTROL_FIELDS
    ensures field in Policy(p, s, b).body.fields <==>
      && field in b.fields
      && (s.reasoning.ReasonClient?
          || (s.reasoning.ReasonMax? && p.Some? && field == "reasoning_effort" && b.fields[field].Text?
              && p.value.fold(b.fields[field].s) in p.value.efforts))
    ensures field in Policy(p, s, b).body.fields ==> Policy(p, s, b).body.fields[field] == b.fields[field]
  {
    assert "max_tokens" !in CONTROL_FIELDS && "max_completion_tokens" !in CONTROL_FIELDS;
  }

  /** A request is refused exactly when the guard is on, there is a limit, and
      the estimate is over it: the override, else the model's input limit, else
      its context.  A model without a profile refuses nothing. */
  lemma {:induction false} RefusesExactly(p: Option<Profile>, s: Settings, b: Body)
    ensures Policy(p, s, b).Overflow? <==>
      && p.Some? && s.guard
      && var l := p.value.limits;
         var limit := if s.override != 0 then s.override else if l.input != 0 then l.input else l.context;
         limit > 0 && EstimateOf(b) > limit
  {
  }

  /** The field a budget goes to: the newer name if the client sent it. */
  function OutputField(fields: map<string, Value>): string {
    if "max_completion_tokens" in fields then "max_completion_tokens" else "max_tokens"
  }

  /** What becomes of the output field `sent`; None leaves it out. */
  ghost predicate BudgetTold(p: Profile, mode: BudgetMode, sent: Option<Value>, budget: int, told: Option<Value>) {
    if mode.BudgetOff? || (mode.Clamp? && (sent == None || sent == Some(Null))) then told == sent
    else
      match sent
      case Some(Num(n)) => told == Some(Num(if n <= budget then n else budget))
      case Some(Text(t)) =>
        (match p.parse(t)
         case Some(n) => told == Some(Num(if n <= budget then n else budget))
         case None => told == Some(Num(budget)))
      case _ => told == Some(Num(budget))
  }

  function At(fields: map<string, Value>, name: string): Option<Value> { if name in fields then Some(fields[name]) else None }

  lemma {:induction false} ScreeningKeepsOutput(p: Option<Profile>, policy: Reasoning, fields: map<string, Value>)
    ensures var f := Screened(p, policy, fields);
      && OutputField(f) == OutputField(fields) && At(f, "max_tokens") == At(fields, "max_tokens")
      && At(f, "max_completion_tokens") == At(fields, "max_completion_tokens")
  {
    assert "max_tokens" !in CONTROL_FIELDS && "max_completion_tokens" !in CONTROL_FIELDS;
  }

  lemma {:induction false} WrittenMeans(p: Profile, mode: BudgetMode, fields: map<string, Value>, estimate: nat)
    ensures var w := Written(p, mode, fields, estimate); var name := OutputField(fields);
      && BudgetTold(p, mode, At(fields, name), OutputBudget(p.limits, estimate), At(w, name))
      && forall f :: f != name ==> At(w, f) == At(fields, f)
  {
  }

  /** What an accepted request's output field becomes, from what was sent: off
      leaves it; clamp leaves out what was not sent; otherwise a number, or a
      text that reads as one, is cut down to the budget, and anything else
      becomes the budget. */
  lemma {:induction false} BudgetMeans(p: Profile, s: Settings, b: Body)
    requires Policy(Some(p), s, b).Applied?
    ensures var o := Policy(Some(p), s, b); var name := OutputField(b.fields);
      && o.estimate == EstimateOf(b) && o.body.messages == b.messages && o.body.tools == b.tools
      && BudgetTold(p, s.mode, At(b.fields, name), OutputBudget(p.limits, EstimateOf(b)), At(o.body.fields, name))
  {
    ScreeningKeepsOutput(Some(p), s.reasoning, b.fields);
    WrittenMeans(p, s.mode, Screened(Some(p), s.reasoning, b.fields), EstimateOf(b));
  }

  /** A budget the client set never grows, and nothing else it sent changes. */
  lemma {:induction false} OnlyTightens(p: Profile, s: Settings, b: Body, field: string)
    requires field in b.fields && field !in CONTROL_FIELDS
    ensures var o := Policy(Some(p), s, b).body.fields;
      && field in o
      && (field != BudgetField(Screened(Some(p), s.reasoning, b.fields)) ==> o[field] == b.fields[field])
      && (o[field] != b.fields[field] && b.fields[field].Num? ==> o[field].Num? && o[field].n < b.fields[field].n)
  {
  }
}
