/** Fitting a request into a model's window: the prompt estimate, the output
    budget, and the rewrite of the outgoing body.  Shares of a budget are exact
    fractions. */
module RequestPolicy {
  import opened Basics

  const OUTPUT_TOKEN_MAX := 256_000
  const OUTPUT_TOKEN_MIN := 1_024
  const OUTPUT_TOKEN_FALLBACK := 32_000

  datatype Limits = Limits(context: int, input: int, output: int)

  function Window(l: Limits): int { if l.input != 0 then l.input else l.context }

  // ---------------------------------------------------------- the estimate

  /** `round(n / 4)`: to the nearest, halves to the even neighbour. */
  function QuarterRounded(n: nat): nat {
    var q, r := n / 4, n % 4;
    if r < 2 || (r == 2 && q % 2 == 0) then q else q + 1
  }

  datatype Message = Message(text: string, calls: seq<(string, string)>)

  /** `schema` is the compact JSON of the parameters, if there are any. */
  datatype ToolDecl = ToolDecl(name: string, description: string, schema: Option<string>)

  function TextCost(t: string): nat { QuarterRounded(|t|) }

  function CallsCost(cs: seq<(string, string)>): nat {
    if cs == [] then 0 else CallsCost(cs[..|cs| - 1]) + TextCost(cs[|cs| - 1].0) + TextCost(cs[|cs| - 1].1)
  }

  function MessagesCost(ms: seq<Message>): nat {
    if ms == [] then 0 else MessagesCost(ms[..|ms| - 1]) + TextCost(ms[|ms| - 1].text) + CallsCost(ms[|ms| - 1].calls)
  }

  function ToolCost(t: ToolDecl): nat {
    TextCost(t.name) + TextCost(t.description) + if t.schema.Some? then TextCost(t.schema.value) else 0
  }

  function ToolsCost(ts: seq<ToolDecl>): nat { if ts == [] then 0 else ToolsCost(ts[..|ts| - 1]) + ToolCost(ts[|ts| - 1]) }

  method EstimateRequest(ms: seq<Message>, ts: seq<ToolDecl>) returns (total: nat)
    ensures total == MessagesCost(ms) + ToolsCost(ts)
  {
    total := 0;
    for k := 0 to |ms|
      invariant total == MessagesCost(ms[..k])
    {
      assert ms[..k + 1][..k] == ms[..k];
      var cost := EstimateMessage(ms[k]);
      total := total + cost;
    }
    assert ms[..|ms|] == ms;
    for k := 0 to |ts|
      invariant total == MessagesCost(ms) + ToolsCost(ts[..k])
    {
      assert ts[..k + 1][..k] == ts[..k];
      total := total + TextCost(ts[k].name) + TextCost(ts[k].description);
      if ts[k].schema.Some? { total := total + TextCost(ts[k].schema.value); }
    }
    assert ts[..|ts|] == ts;
  }

  method EstimateMessage(m: Message) returns (total: nat)
    ensures total == TextCost(m.text) + CallsCost(m.calls)
  {
    total := TextCost(m.text);
    for k := 0 to |m.calls|
      invariant total == TextCost(m.text) + CallsCost(m.calls[..k])
    {
      assert m.calls[..k + 1][..k] == m.calls[..k];
      total := total + TextCost(m.calls[k].0);
      total := total + TextCost(m.calls[k].1);
    }
    assert m.calls[..|m.calls|] == m.calls;
  }

  // ----------------------------------------------------------- the budgets

  /** `ceil(estimate * 1.15)`. */
  function Padded(estimate: nat): nat { (23 * estimate + 19) / 20 }

  function Requested(l: Limits): int { Min(if l.output > 0 then l.output else OUTPUT_TOKEN_FALLBACK, OUTPUT_TOKEN_MAX) }

  function Room(l: Limits, estimate: nat): int { l.context - estimate - Padded(estimate) }

  function OutputBudget(l: Limits, estimate: nat): int {
    if l.context <= 0 then Requested(l) else Min(Requested(l), Max(OUTPUT_TOKEN_MIN, Room(l, estimate)))
  }

  // ---------------------------------------------------------------- the body

  datatype Value = Null | Bool(on: bool) | Num(n: int) | Frac | Text(s: string) | Other

  datatype Body = Body(fields: map<string, Value>, messages: seq<Message>, tools: seq<ToolDecl>)

  datatype Reasoning = ReasonMax | ReasonClient | ReasonOff

  datatype BudgetMode = Mirror | Clamp | BudgetOff

  /** `efforts` is the declared effort levels; `parse` reads an integer out of
      stripped text, `fold` strips and lower-cases. */
  datatype Profile = Profile(limits: Limits, efforts: set<string>, parse: string -> Option<int>, fold: string -> string)

  datatype Settings = Settings(reasoning: Reasoning, guard: bool, override: int, mode: BudgetMode)

  const CONTROL_FIELDS := ["reasoning_effort", "thinking", "reasoning", "include_reasoning", "budget_tokens"]

  predicate Keeps(p: Option<Profile>, policy: Reasoning, field: string, v: Value) {
    || policy.ReasonClient?
    || (policy.ReasonMax? && p.Some? && field == "reasoning_effort" && v.Text? && p.value.fold(v.s) in p.value.efforts)
  }

  function Screened(p: Option<Profile>, policy: Reasoning, fields: map<string, Value>): map<string, Value> {
    map f | f in fields && (f !in CONTROL_FIELDS || Keeps(p, policy, f, fields[f])) :: fields[f]
  }

  function Coerced(p: Profile, v: Value): Option<int> {
    match v
    case Num(n) => Some(n)
    case Text(s) => p.parse(s)
    case _ => None
  }

  function BudgetField(fields: map<string, Value>): string {
    if "max_completion_tokens" in fields then "max_completion_tokens" else "max_tokens"
  }

  predicate Unset(fields: map<string, Value>) { BudgetField(fields) !in fields || fields[BudgetField(fields)].Null? }

  /** The output field after the policy; None leaves the body alone. */
  function Budgeted(p: Profile, mode: BudgetMode, fields: map<string, Value>, estimate: nat): Option<int> {
    var budget := OutputBudget(p.limits, estimate);
    if mode.BudgetOff? then None
    else if Unset(fields) then if mode.Clamp? then None else Some(budget)
    else
      match Coerced(p, fields[BudgetField(fields)])
      case None => Some(budget)
      case Some(n) => Some(Min(n, budget))
  }

  /** The fields with the budget written in. */
  function Written(p: Profile, mode: BudgetMode, fields: map<string, Value>, estimate: nat): map<string, Value> {
    match Budgeted(p, mode, fields, estimate)
    case None => fields
    case Some(n) => fields[BudgetField(fields) := Num(n)]
  }

  datatype Outcome = Overflow(body: Body) | Applied(body: Body, estimate: nat)

  function EstimateOf(b: Body): nat { MessagesCost(b.messages) + ToolsCost(b.tools) }

  function Limit(s: Settings, l: Limits): int { if s.override != 0 then s.override else Window(l) }

  predicate Overflows(s: Settings, l: Limits, estimate: nat) { s.guard && Limit(s, l) > 0 && estimate > Limit(s, l) }

  /** The guard and the budget, for a body already screened. */
  function Guarded(p: Profile, s: Settings, b: Body): Outcome {
    var estimate := EstimateOf(b);
    if Overflows(s, p.limits, estimate) then Overflow(b)
    else Applied(b.(fields := Written(p, s.mode, b.fields, estimate)), estimate)
  }

  function Policy(p: Option<Profile>, s: Settings, b: Body): Outcome {
    var screened := b.(fields := Screened(p, s.reasoning, b.fields));
    if p.None? then Applied(screened, 0) else Guarded(p.value, s, screened)
  }

  /** The outgoing body, rewritten in place. */
  class Outgoing {
    var fields: map<string, Value>
    const messages: seq<Message>
    const tools: seq<ToolDecl>

    constructor (b: Body)
      ensures View() == b
    {
      fields, messages, tools := b.fields, b.messages, b.tools;
    }

    function View(): Body
      reads this
    {
      Body(fields, messages, tools)
    }

    method ApplyReasoningPolicy(p: Option<Profile>, policy: Reasoning)
      modifies this
      ensures fields == Screened(p, policy, old(fields))
    {
      for k := 0 to |CONTROL_FIELDS|
        invariant forall f :: f in fields <==> f in old(fields) && (f !in CONTROL_FIELDS[..k] || Keeps(p, policy, f, old(fields)[f]))
        invariant forall f :: f in fields ==> fields[f] == old(fields)[f]
      {
        var field := CONTROL_FIELDS[k];
        assert CONTROL_FIELDS[..k + 1] == CONTROL_FIELDS[..k] + [field];
        if field !in fields || policy.ReasonClient? { continue; }
        var value := fields[field];
        var keep := policy.ReasonMax? && p.Some? && p.value.efforts != {} && field == "reasoning_effort"
                    && value.Text? && p.value.fold(value.s) in p.value.efforts;
        if !keep { fields := fields - {field}; }
      }
      assert CONTROL_FIELDS[..|CONTROL_FIELDS|] == CONTROL_FIELDS;
    }

    method ApplyOutputBudget(p: Profile, estimate: nat, mode: BudgetMode)
      modifies this
      ensures fields == Written(p, mode, old(fields), estimate)
    {
      if mode.BudgetOff? { return; }
      var budget := OutputBudget(p.limits, estimate);
      var field := BudgetField(fields);
      if field !in fields || fields[field].Null? {
        if mode.Clamp? { return; }
        fields := fields[field := Num(budget)];
        return;
      }
      var current := Coerced(p, fields[field]);
      if current.None? || current.value > budget {
        fields := fields[field := Num(budget)];
        return;
      }
      fields := fields[field := Num(current.value)];
    }

    method ApplyRequestPolicy(p: Option<Profile>, s: Settings) returns (o: Outcome)
      modifies this
      ensures o == Policy(p, s, old(View())) && View() == o.body
    {
      ApplyReasoningPolicy(p, s.reasoning);
      if p.None? { return Applied(View(), 0); }
      var estimate := EstimateRequest(messages, tools);
      var limit := if s.override != 0 then s.override else Window(p.value.limits);
      if s.guard && limit > 0 && estimate > limit { return Overflow(View()); }
      ApplyOutputBudget(p.value, estimate, s.mode);
      return Applied(View(), estimate);
    }
  }
}
