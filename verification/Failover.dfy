/** The breaker and the daily budget of the backup chain, with any number of
    requests in flight. */
module Failover {
  import opened Basics

  datatype Policy = Policy(scoped: bool, hold: nat, recoverAfter: nat, dailyMax: nat)

  /** `until` is 0 while the breaker is closed; `day` is the UTC day `used` was
      counted on. */
  datatype Breaker = Breaker(policy: Policy, until: nat, streak: nat, used: nat, day: Option<int>)

  datatype PrimaryAnswer = BadRequest | Raised | Status(code: int)

  datatype BackupAnswer = Served | ErrorRelay | Unreachable

  /** What the client gets, or where the request goes next. */
  datatype Route = ToPrimary | ToBackup | BudgetRefusal | PrimaryRelayed | PrimaryRaised | BackupRelayed | BackupRefusal | BothDown

  predicate PassedThrough(code: int) { code in {400, 401, 404, 422} }

  predicate Fails(a: PrimaryAnswer) { a.Raised? || (a.Status? && a.code >= 400 && !PassedThrough(a.code)) }

  predicate Succeeds(a: PrimaryAnswer) { a.Status? && a.code < 400 }

  // ------------------------------------------------------------ one request

  function Today(b: Breaker, day: int): Breaker {
    if b.policy.dailyMax == 0 || b.day == Some(day) then b else b.(day := Some(day), used := 0)
  }

  predicate Blocked(b: Breaker, day: int) { b.policy.dailyMax > 0 && Today(b, day).used >= b.policy.dailyMax }

  function Charge(b: Breaker, day: int): Breaker {
    if b.policy.dailyMax == 0 then b else Today(b, day).(used := Today(b, day).used + 1)
  }

  function Trip(b: Breaker, now: nat): Breaker {
    b.(until := if b.policy.scoped then b.until else now + b.policy.hold, streak := 0)
  }

  function OnArrival(b: Breaker, now: nat, day: int): (Breaker, Route) {
    if now < b.until then (Today(b, day), if Blocked(b, day) then BudgetRefusal else ToBackup) else (b, ToPrimary)
  }

  predicate Closes(b: Breaker) { b.until != 0 && b.streak + 1 >= b.policy.recoverAfter }

  function OnPrimary(b: Breaker, a: PrimaryAnswer, now: nat, day: int): (Breaker, Route) {
    if Fails(a) then
      if Blocked(b, day) then (Today(b, day), if a.Raised? then PrimaryRaised else PrimaryRelayed)
      else (Trip(Today(b, day), now), ToBackup)
    else if Succeeds(a) then (if Closes(b) then b.(until := 0, streak := 0) else b.(streak := b.streak + 1), PrimaryRelayed)
    else (b, if a.BadRequest? then PrimaryRaised else PrimaryRelayed)
  }

  function OnBackup(b: Breaker, a: BackupAnswer, day: int): (Breaker, Route) {
    match a
    case Served => (Charge(b, day), BackupRelayed)
    case ErrorRelay => (b.(until := 0), BackupRefusal)
    case Unreachable => (b, BothDown)
  }

  // -------------------------------------------------------- all the requests

  datatype Note = Charged(day: int) | Succeeded | Tripped | Recovered

  /** `primary` and `backup` count the requests inside each chain; `peak` is
      the most that were ever inside the backup at once. */
  datatype World = World(breaker: Breaker, primary: nat, backup: nat, peak: nat, notes: seq<Note>)

  datatype Event =
    | Arrives
    | PrimaryAnswers(answer: PrimaryAnswer)
    | PrimaryCancelled
    | BackupAnswers(outcome: BackupAnswer)
    | BackupCancelled

  function Enter(w: World, b: Breaker, r: Route, notes: seq<Note>): World {
    var backup := w.backup + (if r.ToBackup? then 1 else 0);
    World(b, w.primary + (if r.ToPrimary? then 1 else 0), backup, Max(w.peak, backup), w.notes + notes)
  }

  function PrimaryNotes(b: Breaker, a: PrimaryAnswer, day: int): seq<Note> {
    if Fails(a) then if Blocked(b, day) then [] else [Tripped]
    else if Succeeds(a) then if Closes(b) then [Succeeded, Recovered] else [Succeeded]
    else []
  }

  function Step(w: World, now: nat, day: int, e: Event): World {
    match e
    case Arrives => var (b, r) := OnArrival(w.breaker, now, day); Enter(w, b, r, [])
    case PrimaryAnswers(a) =>
      if w.primary == 0 then w
      else
        var (b, r) := OnPrimary(w.breaker, a, now, day);
        Enter(w.(primary := w.primary - 1), b, r, PrimaryNotes(w.breaker, a, day))
    case PrimaryCancelled => if w.primary == 0 then w else w.(primary := w.primary - 1)
    case BackupAnswers(a) =>
      if w.backup == 0 then w
      else Enter(w.(backup := w.backup - 1), OnBackup(w.breaker, a, day).0, BackupRelayed, if a.Served? then [Charged(day)] else [])
    case BackupCancelled => if w.backup == 0 then w else w.(backup := w.backup - 1)
  }

  datatype Timed = At(now: nat, day: int, event: Event)

  function Start(policy: Policy): World { World(Breaker(policy, 0, 0, 0, None), 0, 0, 0, []) }

  function RunFrom(w: World, trace: seq<Timed>): World { Iterate(w, trace, (v: World, t: Timed) => Step(v, t.now, t.day, t.event)) }

  /** Backup answers served on `day`. */
  function Charges(notes: seq<Note>, day: int): nat {
    if notes == [] then 0 else Charges(notes[..|notes| - 1], day) + (if notes[|notes| - 1] == Charged(day) then 1 else 0)
  }

  /** Primary successes since the last trip or recovery. */
  function SuccessesSinceTrip(notes: seq<Note>): nat {
    if notes == [] then 0
    else
      match notes[|notes| - 1]
      case Charged(_) => SuccessesSinceTrip(notes[..|notes| - 1])
      case Succeeded => SuccessesSinceTrip(notes[..|notes| - 1]) + 1
      case Tripped => 0
      case Recovered => 0
  }

  lemma {:induction false} AfterNote(notes: seq<Note>, n: Note, day: int)
    ensures Charges(notes + [n], day) == Charges(notes, day) + (if n == Charged(day) then 1 else 0)
    ensures SuccessesSinceTrip(notes + [n]) ==
      match n
      case Charged(_) => SuccessesSinceTrip(notes)
      case Succeeded => SuccessesSinceTrip(notes) + 1
      case Tripped => 0
      case Recovered => 0
  {
    assert (notes + [n])[..|notes|] == notes;
  }

  lemma {:induction false} AfterNoteless(notes: seq<Note>)
    ensures notes + [] == notes
  {
  }

  // -------------------------------------------------------------- the budget

  /** `used` is the number of answers charged to its day, later days have none,
      and what is charged plus what is under way respects the peak. */
  ghost predicate BudgetOk(w: World, today: int) {
    var b := w.breaker;
    && b.policy.dailyMax > 0 && w.backup <= w.peak
    && (b.day.Some? ==> b.day.value <= today && b.used == Charges(w.notes, b.day.value))
    && (forall d :: (b.day.None? || d > b.day.value) ==> Charges(w.notes, d) == 0)
    && (forall d :: Charges(w.notes, d) > 0 ==> Charges(w.notes, d) + 1 <= b.policy.dailyMax + w.peak)
    && (b.day.Some? && w.backup > 0 ==> b.used + w.backup + 1 <= b.policy.dailyMax + w.peak)
    && (b.day.None? ==> w.backup == 0)
  }

  lemma {:induction false} TodayKeepsBudget(w: World, before: int, today: int)
    requires BudgetOk(w, before) && before <= today
    ensures BudgetOk(w.(breaker := Today(w.breaker, today)), today)
    ensures Today(w.breaker, today).day == Some(today)
  {
  }

  /** Entering the backup is only possible below the maximum. */
  lemma {:induction false} EnterKeepsBudget(w: World, today: int, b: Breaker)
    requires BudgetOk(w, today) && w.breaker.day == Some(today) && w.breaker.used < w.breaker.policy.dailyMax
    requires b == w.breaker.(until := b.until, streak := b.streak)
    ensures BudgetOk(Enter(w, b, ToBackup, []), today)
  {
    AfterNoteless(w.notes);
  }

  lemma {:induction false} ServedKeepsBudget(w: World, today: int)
    requires BudgetOk(w, today) && w.breaker.day == Some(today) && w.backup > 0
    ensures BudgetOk(Enter(w.(backup := w.backup - 1), w.breaker.(used := w.breaker.used + 1), BackupRelayed, [Charged(today)]), today)
  {
    forall d ensures Charges(w.notes + [Charged(today)], d) == Charges(w.notes, d) + (if d == today then 1 else 0) {
      AfterNote(w.notes, Charged(today), d);
    }
  }

  lemma {:induction false} QuietKeepsBudget(w: World, today: int, v: World, n: Note)
    requires BudgetOk(w, today) && !n.Charged?
    requires v == w.(breaker := v.breaker, primary := v.primary, notes := w.notes + [n])
    requires v.breaker == w.breaker.(until := v.breaker.until, streak := v.breaker.streak)
    ensures BudgetOk(v, today)
  {
    forall d ensures Charges(v.notes, d) == Charges(w.notes, d) { AfterNote(w.notes, n, d); }
  }

  /** A failure below the maximum trips and passes the request to the backup. */
  lemma {:induction false} FailureIs(w: World, now: nat, today: int, a: PrimaryAnswer, tripped: World)
    requires w.primary > 0 && Fails(a) && w.breaker.day == Some(today) && !Blocked(w.breaker, today)
    requires tripped == w.(primary := w.primary - 1, breaker := Trip(w.breaker, now), notes := w.notes + [Tripped])
    ensures Step(w, now, today, PrimaryAnswers(a)) == Enter(tripped, tripped.breaker, ToBackup, [])
  {
    AfterNoteless(tripped.notes);
  }

  lemma {:induction false} RefusedFailureIs(w: World, now: nat, today: int, a: PrimaryAnswer)
    requires w.primary > 0 && Fails(a) && w.breaker.day == Some(today) && Blocked(w.breaker, today)
    ensures Step(w, now, today, PrimaryAnswers(a)) == Enter(w.(primary := w.primary - 1), w.breaker, PrimaryRelayed, [])
  {
  }

  lemma {:induction false} RefusalKeepsBudget(w: World, today: int)
    requires BudgetOk(w, today) && w.primary > 0
    ensures BudgetOk(Enter(w.(primary := w.primary - 1), w.breaker, PrimaryRelayed, []), today)
  {
    AfterNoteless(w.notes);
  }

  lemma {:induction false} FailureKeepsBudget(w: World, now: nat, today: int, a: PrimaryAnswer)
    requires BudgetOk(w, today) && w.primary > 0 && Fails(a) && w.breaker.day == Some(today)
    ensures BudgetOk(Step(w, now, today, PrimaryAnswers(a)), today)
  {
    if Blocked(w.breaker, today) {
      RefusedFailureIs(w, now, today, a);
      RefusalKeepsBudget(w, today);
    } else {
      var tripped := w.(primary := w.primary - 1, breaker := Trip(w.breaker, now), notes := w.notes + [Tripped]);
      FailureIs(w, now, today, a, tripped);
      QuietKeepsBudget(w, today, tripped, Tripped);
      EnterKeepsBudget(tripped, today, tripped.breaker);
    }
  }

  lemma {:induction false} SuccessKeepsBudget(w: World, now: nat, today: int, a: PrimaryAnswer)
    requires BudgetOk(w, today) && w.primary > 0 && !Fails(a)
    ensures BudgetOk(Step(w, now, today, PrimaryAnswers(a)), today)
  {
    var v := Step(w, now, today, PrimaryAnswers(a));
    AfterNoteless(w.notes);
    if Succeeds(a) {
      var ok := w.(primary := w.primary - 1, notes := w.notes + [Succeeded], breaker := w.breaker.(streak := w.breaker.streak + 1));
      QuietKeepsBudget(w, today, ok, Succeeded);
      if Closes(w.breaker) {
        assert w.notes + [Succeeded, Recovered] == ok.notes + [Recovered];
        QuietKeepsBudget(ok, today, v, Recovered);
      }
    }
  }

  lemma {:induction false} ArrivalKeepsBudget(w: World, before: int, now: nat, today: int)
    requires BudgetOk(w, before) && before <= today
    ensures BudgetOk(Step(w, now, today, Arrives), today)
  {
    TodayKeepsBudget(w, before, today);
    var v := w.(breaker := Today(w.breaker, today));
    AfterNoteless(w.notes);
    if now < w.breaker.until && !Blocked(w.breaker, today) {
      EnterKeepsBudget(v, today, v.breaker);
      assert Step(w, now, today, Arrives) == Enter(v, v.breaker, ToBackup, []);
    }
  }

  lemma {:induction false} BackupKeepsBudget(w: World, before: int, now: nat, today: int, a: BackupAnswer)
    requires BudgetOk(w, before) && before <= today && w.backup > 0
    ensures BudgetOk(Step(w, now, today, BackupAnswers(a)), today)
  {
    TodayKeepsBudget(w, before, today);
    var v := w.(breaker := Today(w.breaker, today));
    AfterNoteless(w.notes);
    if a.Served? {
      ServedKeepsBudget(v, today);
      assert Step(w, now, today, BackupAnswers(a)) ==
        Enter(v.(backup := v.backup - 1), v.breaker.(used := v.breaker.used + 1), BackupRelayed, [Charged(today)]);
    }
  }

  /** Rolling the calendar first changes nothing about a failing primary. */
  lemma {:induction false} CalendarFirst(w: World, now: nat, today: int, a: PrimaryAnswer)
    requires Fails(a)
    ensures Step(w.(breaker := Today(w.breaker, today)), now, today, PrimaryAnswers(a)) ==
      if w.primary == 0 then w.(breaker := Today(w.breaker, today)) else Step(w, now, today, PrimaryAnswers(a))
  {
  }

  lemma {:induction false} StepKeepsBudget(w: World, before: int, now: nat, today: int, e: Event)
    requires BudgetOk(w, before) && before <= today
    ensures BudgetOk(Step(w, now, today, e), today)
  {
    match e
    case Arrives => ArrivalKeepsBudget(w, before, now, today);
    case PrimaryAnswers(a) =>
      if w.primary > 0 {
        TodayKeepsBudget(w, before, today);
        if Fails(a) {
          CalendarFirst(w, now, today, a);
          FailureKeepsBudget(w.(breaker := Today(w.breaker, today)), now, today, a);
        } else {
          SuccessKeepsBudget(w, now, today, a);
        }
      }
    case PrimaryCancelled =>
    case BackupAnswers(a) => if w.backup > 0 { BackupKeepsBudget(w, before, now, today, a); }
    case BackupCancelled =>
  }

  lemma {:induction false} PolicyStays(w: World, now: nat, day: int, e: Event)
    ensures Step(w, now, day, e).breaker.policy == w.breaker.policy
  {
  }

  ghost predicate DaysForward(trace: seq<Timed>) { forall i, j :: 0 <= i < j < |trace| ==> trace[i].day <= trace[j].day }

  function Calendar(trace: seq<Timed>, k: nat): int
    requires k <= |trace|
  {
    if k > 0 then trace[k - 1].day else if trace == [] then 0 else trace[0].day
  }

  lemma {:induction false} EveryRunBudget(policy: Policy, trace: seq<Timed>)
    requires policy.dailyMax > 0 && DaysForward(trace)
    ensures BudgetOk(RunFrom(Start(policy), trace), Calendar(trace, |trace|)) && RunFrom(Start(policy), trace).breaker.policy == policy
  {
    var inv := (w: World, k: nat) => k <= |trace| && BudgetOk(w, Calendar(trace, k)) && w.breaker.policy == policy;
    forall w: World, k: nat | k < |trace| && inv(w, k) ensures inv(Step(w, trace[k].now, trace[k].day, trace[k].event), k + 1) {
      StepKeepsBudget(w, Calendar(trace, k), trace[k].now, trace[k].day, trace[k].event);
      PolicyStays(w, trace[k].now, trace[k].day, trace[k].event);
    }
    IterateKeeps(Start(policy), trace, (v: World, t: Timed) => Step(v, t.now, t.day, t.event), inv);
  }

  /** On any day, with at most `peak` requests ever inside the backup at once,
      fewer than the daily maximum plus `peak` answers are charged. */
  lemma {:induction false} DailyChargesBounded(policy: Policy, trace: seq<Timed>, day: int)
    requires policy.dailyMax > 0 && DaysForward(trace)
    ensures var w := RunFrom(Start(policy), trace);
      Charges(w.notes, day) > 0 ==> Charges(w.notes, day) <= policy.dailyMax + w.peak - 1
  {
    EveryRunBudget(policy, trace);
  }

  /** One request at a time never overspends. */
  lemma {:induction false} SequentialNeverOverspends(policy: Policy, trace: seq<Timed>, day: int)
    requires policy.dailyMax > 0 && DaysForward(trace)
    requires forall k :: 0 <= k <= |trace| ==> RunFrom(Start(policy), trace[..k]).backup <= 1
    ensures Charges(RunFrom(Start(policy), trace).notes, day) <= policy.dailyMax
  {
    DailyChargesBounded(policy, trace, day);
    PeakIsLargest(policy, trace, 1);
  }

  lemma {:induction false} RunSnoc(w: World, trace: seq<Timed>, t: Timed)
    ensures RunFrom(w, trace + [t]) == Step(RunFrom(w, trace), t.now, t.day, t.event)
  {
    assert (trace + [t])[..|trace|] == trace;
  }

  lemma {:induction false} PeakIsLargest(policy: Policy, trace: seq<Timed>, most: nat)
    requires forall k :: 0 <= k <= |trace| ==> RunFrom(Start(policy), trace[..k]).backup <= most
    ensures RunFrom(Start(policy), trace).peak <= most
  {
    assert trace[..|trace|] == trace;
    if trace != [] {
      var front := trace[..|trace| - 1];
      forall k | 0 <= k <= |front| ensures RunFrom(Start(policy), front[..k]).backup <= most {
        assert front[..k] == trace[..k];
      }
      PeakIsLargest(policy, front, most);
    }
  }

  // The bound is attained: spend all but one sequentially, let `k` requests
  // pass the check together, then serve them all.

  ghost predicate Reached(w: World, policy: Policy, used: nat, backup: nat, peak: nat) {
    && w.breaker.policy == policy && w.primary == 0 && w.backup == backup && w.peak == peak
    && w.breaker.used == used && Charges(w.notes, 0) == used && (w.breaker.day == Some(0) || used == 0)
  }

  /** All on day 0, in order of time, none later than `until`. */
  ghost predicate Orderly(trace: seq<Timed>, until: nat) {
    && (forall i :: 0 <= i < |trace| ==> trace[i].day == 0 && trace[i].now <= until)
    && forall i, j :: 0 <= i < j < |trace| ==> trace[i].now <= trace[j].now
  }

  ghost predicate Arranged(policy: Policy, trace: seq<Timed>, used: nat, backup: nat, peak: nat) {
    Reached(RunFrom(Start(policy), trace), policy, used, backup, peak) && Orderly(trace, RunFrom(Start(policy), trace).breaker.until)
  }

  /** The primary fails a request while the budget still has room. */
  lemma {:induction false} FailingStep(w: World, v: World, now: nat)
    requires w.breaker.used < w.breaker.policy.dailyMax && (w.breaker.day == Some(0) || w.breaker.used == 0)
    requires v == Step(w.(primary := w.primary + 1), now, 0, PrimaryAnswers(Raised))
    ensures v.breaker == w.breaker.(until := if w.breaker.policy.scoped then w.breaker.until else now + w.breaker.policy.hold, streak := 0, day := Some(0))
    ensures v.primary == w.primary && v.backup == w.backup + 1 && v.peak == Max(w.peak, w.backup + 1) && v.notes == w.notes + [Tripped]
  {
  }

  lemma {:induction false} OrderlyTwoMore(trace: seq<Timed>, until: nat, later: nat, e: Event, f: Event)
    requires Orderly(trace, until) && until <= later
    ensures Orderly(trace + [At(until, 0, e)] + [At(until, 0, f)], later)
  {
  }

  lemma {:induction false} ArrivalStep(w: World, now: nat)
    requires now >= w.breaker.until && w.backup <= w.peak
    ensures Step(w, now, 0, Arrives) == w.(primary := w.primary + 1)
  {
    AfterNoteless(w.notes);
  }

  lemma {:induction false} StillReached(policy: Policy, w: World, v: World, used: nat, backup: nat, peak: nat)
    requires Reached(w, policy, used, backup, peak)
    requires v.breaker == w.breaker.(until := v.breaker.until, streak := 0, day := Some(0)) && v.primary == w.primary
    requires v.backup == w.backup + 1 && v.peak == Max(w.peak, w.backup + 1) && v.notes == w.notes + [Tripped]
    ensures Reached(v, policy, used, backup + 1, Max(peak, backup + 1))
  {
    AfterNote(w.notes, Tripped, 0);
  }

  /** The next request arrives as the hold runs out, and the primary fails it. */
  lemma {:induction false} Failing(policy: Policy, trace: seq<Timed>, used: nat, backup: nat, peak: nat) returns (longer: seq<Timed>)
    requires used < policy.dailyMax && Arranged(policy, trace, used, backup, peak) && backup <= peak
    ensures Arranged(policy, longer, used, backup + 1, Max(peak, backup + 1))
    ensures RunFrom(Start(policy), longer).breaker.day == Some(0)
  {
    var w := RunFrom(Start(policy), trace);
    var now := w.breaker.until;
    var once := trace + [At(now, 0, Arrives)];
    longer := once + [At(now, 0, PrimaryAnswers(Raised))];
    RunSnoc(Start(policy), trace, At(now, 0, Arrives));
    ArrivalStep(w, now);
    RunSnoc(Start(policy), once, At(now, 0, PrimaryAnswers(Raised)));
    var v := RunFrom(Start(policy), longer);
    FailingStep(w, v, now);
    StillReached(policy, w, v, used, backup, peak);
    OrderlyTwoMore(trace, now, v.breaker.until, Arrives, PrimaryAnswers(Raised));
  }

  lemma {:induction false} Serving(policy: Policy, trace: seq<Timed>, used: nat, backup: nat, peak: nat) returns (longer: seq<Timed>)
    requires policy.dailyMax > 0 && backup > 0 && Arranged(policy, trace, used, backup, peak)
    requires backup <= peak && RunFrom(Start(policy), trace).breaker.day == Some(0)
    ensures Arranged(policy, longer, used + 1, backup - 1, peak)
    ensures RunFrom(Start(policy), longer).breaker.day == Some(0)
  {
    var w := RunFrom(Start(policy), trace);
    longer := trace + [At(w.breaker.until, 0, BackupAnswers(Served))];
    RunSnoc(Start(policy), trace, At(w.breaker.until, 0, BackupAnswers(Served)));
    AfterNote(w.notes, Charged(0), 0);
  }

  lemma {:induction false} SpendOneByOne(policy: Policy, n: nat) returns (trace: seq<Timed>)
    requires n < policy.dailyMax
    ensures Arranged(policy, trace, n, 0, if n == 0 then 0 else 1)
  {
    if n == 0 { trace := []; }
    else {
      var before := SpendOneByOne(policy, n - 1);
      var failing := Failing(policy, before, n - 1, 0, if n == 1 then 0 else 1);
      trace := Serving(policy, failing, n - 1, 1, 1);
    }
  }

  lemma {:induction false} PileUp(policy: Policy, k: nat) returns (trace: seq<Timed>)
    requires policy.dailyMax > 0
    ensures Arranged(policy, trace, policy.dailyMax - 1, k, if k == 0 then Min(1, policy.dailyMax - 1) else k)
    ensures k > 0 ==> RunFrom(Start(policy), trace).breaker.day == Some(0)
  {
    if k == 0 { trace := SpendOneByOne(policy, policy.dailyMax - 1); }
    else {
      var before := PileUp(policy, k - 1);
      trace := Failing(policy, before, policy.dailyMax - 1, k - 1, if k == 1 then Min(1, policy.dailyMax - 1) else k - 1);
    }
  }

  lemma {:induction false} ServeAll(policy: Policy, trace: seq<Timed>, used: nat, backup: nat, peak: nat) returns (longer: seq<Timed>)
    requires policy.dailyMax > 0 && Arranged(policy, trace, used, backup, peak)
    requires backup <= peak && RunFrom(Start(policy), trace).breaker.day == Some(0)
    ensures Arranged(policy, longer, used + backup, 0, peak)
    decreases backup
  {
    if backup == 0 { longer := trace; }
    else {
      var next := Serving(policy, trace, used, backup, peak);
      longer := ServeAll(policy, next, used + 1, backup - 1, peak);
    }
  }

  ghost predicate TimeForward(trace: seq<Timed>) { forall i, j :: 0 <= i < j < |trace| ==> trace[i].now <= trace[j].now }

  /** The bound is the best possible, request-scoped or not: `k` requests that
      pass the check together are all served, `k - 1` of them beyond the
      maximum. */
  lemma {:induction false} OverspendIsAttained(policy: Policy, k: nat) returns (trace: seq<Timed>)
    requires policy.dailyMax > 0 && k > 0
    ensures TimeForward(trace) && forall i :: 0 <= i < |trace| ==> trace[i].day == 0
    ensures var w := RunFrom(Start(policy), trace);
      w.peak == k && Charges(w.notes, 0) == policy.dailyMax + k - 1
  {
    var piled := PileUp(policy, k);
    trace := ServeAll(policy, piled, policy.dailyMax - 1, k, k);
  }

  // ------------------------------------------------------------ the breaker

  /** The note at `k` follows a success, the last of enough since a trip. */
  ghost predicate Earned(notes: seq<Note>, k: nat, recoverAfter: nat)
    requires k < |notes|
  {
    k > 0 && notes[k - 1].Succeeded? && SuccessesSinceTrip(notes[..k]) >= recoverAfter
  }

  ghost predicate BreakerOk(w: World) {
    && w.breaker.streak == SuccessesSinceTrip(w.notes)
    && forall k :: 0 <= k < |w.notes| && w.notes[k].Recovered? ==> Earned(w.notes, k, w.breaker.policy.recoverAfter)
  }

  lemma {:induction false} EarnedStays(notes: seq<Note>, n: Note, k: nat, recoverAfter: nat)
    requires k < |notes| && Earned(notes, k, recoverAfter)
    ensures Earned(notes + [n], k, recoverAfter)
  {
    assert (notes + [n])[..k] == notes[..k];
  }

  function Noted(w: World, streak: nat, n: Note): World {
    w.(breaker := w.breaker.(streak := streak), notes := w.notes + [n])
  }

  lemma {:induction false} NotedKeepsBreaker(w: World, streak: nat, n: Note)
    requires BreakerOk(w)
    requires streak == match n
                       case Charged(_) => w.breaker.streak
                       case Succeeded => w.breaker.streak + 1
                       case Tripped => 0
                       case Recovered => 0
    requires n.Recovered? ==> w.notes != [] && w.notes[|w.notes| - 1].Succeeded? && w.breaker.streak >= w.breaker.policy.recoverAfter
    ensures BreakerOk(Noted(w, streak, n))
  {
    var v := Noted(w, streak, n);
    AfterNote(w.notes, n, 0);
    forall k | 0 <= k < |v.notes| && v.notes[k].Recovered? ensures Earned(v.notes, k, v.breaker.policy.recoverAfter) {
      if k < |w.notes| { EarnedStays(w.notes, n, k, w.breaker.policy.recoverAfter); } else { assert v.notes[..k] == w.notes; }
    }
  }

  lemma {:induction false} BreakerSeesNotes(w: World, v: World)
    requires BreakerOk(w) && v.notes == w.notes && v.breaker.streak == w.breaker.streak && v.breaker.policy == w.breaker.policy
    ensures BreakerOk(v)
  {
  }

  lemma {:induction false} SuccessShape(w: World, now: nat, day: int, a: PrimaryAnswer)
    requires w.primary > 0 && Succeeds(a)
    ensures var v := Step(w, now, day, PrimaryAnswers(a)); var ok := Noted(w, w.breaker.streak + 1, Succeeded);
      var last := if Closes(w.breaker) then Noted(ok, 0, Recovered) else ok;
      v.notes == last.notes && v.breaker.streak == last.breaker.streak && v.breaker.policy == last.breaker.policy
  {
    assert w.notes + [Succeeded, Recovered] == (w.notes + [Succeeded]) + [Recovered];
  }

  lemma {:induction false} SuccessKeepsBreaker(w: World, now: nat, day: int, a: PrimaryAnswer)
    requires BreakerOk(w) && w.primary > 0 && Succeeds(a)
    ensures BreakerOk(Step(w, now, day, PrimaryAnswers(a)))
  {
    var ok := Noted(w, w.breaker.streak + 1, Succeeded);
    NotedKeepsBreaker(w, w.breaker.streak + 1, Succeeded);
    if Closes(w.breaker) { NotedKeepsBreaker(ok, 0, Recovered); }
    SuccessShape(w, now, day, a);
    BreakerSeesNotes(if Closes(w.breaker) then Noted(ok, 0, Recovered) else ok, Step(w, now, day, PrimaryAnswers(a)));
  }

  lemma {:induction false} TripKeepsBreaker(w: World, now: nat, day: int, a: PrimaryAnswer)
    requires BreakerOk(w) && w.primary > 0 && Fails(a)
    ensures BreakerOk(Step(w, now, day, PrimaryAnswers(a)))
  {
    AfterNoteless(w.notes);
    if !Blocked(w.breaker, day) {
      NotedKeepsBreaker(w, 0, Tripped);
      BreakerSeesNotes(Noted(w, 0, Tripped), Step(w, now, day, PrimaryAnswers(a)));
    }
  }

  lemma {:induction false} ServedKeepsBreaker(w: World, now: nat, day: int, a: BackupAnswer)
    requires BreakerOk(w) && w.backup > 0
    ensures BreakerOk(Step(w, now, day, BackupAnswers(a)))
  {
    AfterNoteless(w.notes);
    if a.Served? {
      NotedKeepsBreaker(w, w.breaker.streak, Charged(day));
      BreakerSeesNotes(Noted(w, w.breaker.streak, Charged(day)), Step(w, now, day, BackupAnswers(a)));
    }
  }

  lemma {:induction false} StepKeepsBreaker(w: World, now: nat, day: int, e: Event)
    requires BreakerOk(w)
    ensures BreakerOk(Step(w, now, day, e)) && Step(w, now, day, e).breaker.policy == w.breaker.policy
  {
    AfterNoteless(w.notes);
    PolicyStays(w, now, day, e);
    match e
    case Arrives =>
    case PrimaryAnswers(a) =>
      if w.primary > 0 {
        if Fails(a) { TripKeepsBreaker(w, now, day, a); }
        else if Succeeds(a) { SuccessKeepsBreaker(w, now, day, a); }
      }
    case PrimaryCancelled =>
    case BackupAnswers(a) =>
      if w.backup > 0 { ServedKeepsBreaker(w, now, day, a); }
    case BackupCancelled =>
  }

  /** Every recovery announced in a run directly follows a primary success, the
      last of at least `recoverAfter` with no trip between them. */
  lemma {:induction false} RecoveryIsEarned(policy: Policy, trace: seq<Timed>, k: nat)
    requires k < |RunFrom(Start(policy), trace).notes| && RunFrom(Start(policy), trace).notes[k].Recovered?
    ensures Earned(RunFrom(Start(policy), trace).notes, k, policy.recoverAfter)
  {
    var inv := (w: World, k: nat) => BreakerOk(w) && w.breaker.policy == policy;
    forall w: World, j: nat | j < |trace| && inv(w, j) ensures inv(Step(w, trace[j].now, trace[j].day, trace[j].event), j + 1) {
      StepKeepsBreaker(w, trace[j].now, trace[j].day, trace[j].event);
    }
    IterateKeeps(Start(policy), trace, (v: World, t: Timed) => Step(v, t.now, t.day, t.event), inv);
  }

  /** Successes need not be consecutive requests: every failure that does not
      trip leaves the streak standing. */
  lemma {:induction false} OnlyTripsBreakStreak(b: Breaker, a: PrimaryAnswer, now: nat, day: int)
    ensures OnPrimary(b, a, now, day).0.streak < b.streak ==> OnPrimary(b, a, now, day).1.ToBackup? || (Succeeds(a) && Closes(b))
    ensures !Succeeds(a) && !OnPrimary(b, a, now, day).1.ToBackup? ==> OnPrimary(b, a, now, day).0.streak == b.streak
  {
  }

  /** Request-scoped, no run ever opens the breaker: every arrival is offered
      to the primary, and nothing is there to recover from. */
  lemma {:induction false} ScopedNeverOpens(policy: Policy, trace: seq<Timed>, now: nat, day: int)
    requires policy.scoped
    ensures var w := RunFrom(Start(policy), trace);
      && w.breaker.until == 0 && OnArrival(w.breaker, now, day) == (w.breaker, ToPrimary)
      && forall k :: 0 <= k < |w.notes| ==> !w.notes[k].Recovered?
  {
    var inv := (w: World, k: nat) =>
      w.breaker.policy == policy && w.breaker.until == 0 && forall j :: 0 <= j < |w.notes| ==> !w.notes[j].Recovered?;
    forall w: World, k: nat | k < |trace| && inv(w, k) ensures inv(Step(w, trace[k].now, trace[k].day, trace[k].event), k + 1) {
    }
    IterateKeeps(Start(policy), trace, (v: World, t: Timed) => Step(v, t.now, t.day, t.event), inv);
  }

  /** Only a trip opens the breaker or holds it longer, by one hold from now; a
      failing backup releases it at once. */
  lemma {:induction false} HoldStep(w: World, now: nat, day: int, e: Event)
    ensures Step(w, now, day, e).breaker.until <= Max(w.breaker.until, now + w.breaker.policy.hold)
    ensures e == BackupAnswers(ErrorRelay) && w.backup > 0 ==> Step(w, now, day, e).breaker.until == 0
    ensures Step(w, now, day, e).breaker.until > w.breaker.until ==>
              e.PrimaryAnswers? && Fails(e.answer) && !w.breaker.policy.scoped && !Blocked(w.breaker, day)
  {
  }

  function Hour(trace: seq<Timed>, k: nat): nat
    requires k <= |trace|
  {
    if k == 0 then 0 else trace[k - 1].now
  }

  /** After any run an open breaker runs out within one hold, and from then on
      requests are offered to the primary again. */
  lemma {:induction false} HoldIsBounded(policy: Policy, trace: seq<Timed>, now: nat, day: int)
    requires TimeForward(trace)
    ensures var w := RunFrom(Start(policy), trace);
      && w.breaker.until <= Hour(trace, |trace|) + policy.hold
      && (now >= Hour(trace, |trace|) + policy.hold ==> OnArrival(w.breaker, now, day).1.ToPrimary?)
  {
    var inv := (w: World, k: nat) => k <= |trace| && w.breaker.policy == policy && w.breaker.until <= Hour(trace, k) + policy.hold;
    forall w: World, k: nat | k < |trace| && inv(w, k) ensures inv(Step(w, trace[k].now, trace[k].day, trace[k].event), k + 1) {
      HoldStep(w, trace[k].now, trace[k].day, trace[k].event);
      PolicyStays(w, trace[k].now, trace[k].day, trace[k].event);
    }
    IterateKeeps(Start(policy), trace, (v: World, t: Timed) => Step(v, t.now, t.day, t.event), inv);
  }

  lemma {:induction false} RefusalIsSpent(w: World, before: int, now: nat, day: int, a: PrimaryAnswer)
    requires BudgetOk(w, before) && before <= day && Fails(a)
    ensures !OnPrimary(w.breaker, a, now, day).1.ToBackup? <==> Charges(w.notes, day) >= w.breaker.policy.dailyMax
    ensures OnArrival(w.breaker, now, day).1.BudgetRefusal? <==> now < w.breaker.until && Charges(w.notes, day) >= w.breaker.policy.dailyMax
  {
  }

  /** After any run, a request is refused, or shown the primary's own failure,
      for budget reasons exactly on a day whose charges have reached the maximum. */
  lemma {:induction false} BudgetRefusesExactly(policy: Policy, trace: seq<Timed>, now: nat, day: int, a: PrimaryAnswer)
    requires policy.dailyMax > 0 && DaysForward(trace) && Calendar(trace, |trace|) <= day && Fails(a)
    ensures var w := RunFrom(Start(policy), trace); var spent := Charges(w.notes, day) >= policy.dailyMax;
      && (!OnPrimary(w.breaker, a, now, day).1.ToBackup? <==> spent)
      && (OnArrival(w.breaker, now, day).1.BudgetRefusal? <==> now < w.breaker.until && spent)
  {
    EveryRunBudget(policy, trace);
    RefusalIsSpent(RunFrom(Start(policy), trace), Calendar(trace, |trace|), now, day, a);
  }

  lemma {:induction false} RunKeepsPolicy(policy: Policy, trace: seq<Timed>)
    ensures RunFrom(Start(policy), trace).breaker.policy == policy
  {
    var inv := (w: World, k: nat) => w.breaker.policy == policy;
    forall w: World, k: nat | k < |trace| && inv(w, k) ensures inv(Step(w, trace[k].now, trace[k].day, trace[k].event), k + 1) {
      PolicyStays(w, trace[k].now, trace[k].day, trace[k].event);
    }
    IterateKeeps(Start(policy), trace, (v: World, t: Timed) => Step(v, t.now, t.day, t.event), inv);
  }

  /** An answer the backup may mend: the primary could not be asked, or answered
      with an error that is not the client's own doing. */
  predicate Mendable(a: PrimaryAnswer) {
    a.Raised? || (a.Status? && a.code >= 400 && a.code != 400 && a.code != 401 && a.code != 404 && a.code != 422)
  }

  /** The breaker is open for exactly one hold from `now`. */
  ghost predicate OpenForOneHold(b: Breaker, now: nat) {
    forall later: nat, day: int :: OnArrival(b, later, day).1 == ToPrimary <==> later >= now + b.policy.hold
  }

  /** After any run, what a primary answer leads to.  A mendable one goes to the
      backup and opens the breaker for one hold, or leaves it alone in
      request-scoped mode; once the day's budget is spent the client gets it as
      it is.  Every other answer goes to the client, and one that is an error
      leaves the breaker alone. */
  lemma {:induction false} AnswerMeans(policy: Policy, trace: seq<Timed>, now: nat, day: int, a: PrimaryAnswer)
    requires DaysForward(trace) && Calendar(trace, |trace|) <= day
    ensures var w := RunFrom(Start(policy), trace); var (b, route) := OnPrimary(w.breaker, a, now, day);
      var spent := policy.dailyMax > 0 && Charges(w.notes, day) >= policy.dailyMax;
      && (Mendable(a) && !spent ==>
            route == ToBackup && b.streak == 0 && if policy.scoped then b.until == w.breaker.until else OpenForOneHold(b, now))
      && (Mendable(a) && spent ==> route == (if a.Raised? then PrimaryRaised else PrimaryRelayed) && b.until == w.breaker.until && b.streak == w.breaker.streak)
      && (!Mendable(a) ==> route == (if a.BadRequest? then PrimaryRaised else PrimaryRelayed) && (!a.Status? || a.code >= 400 ==> b == w.breaker))
  {
    RunKeepsPolicy(policy, trace);
    if policy.dailyMax > 0 && Mendable(a) { BudgetRefusesExactly(policy, trace, now, day, a); }
  }

  /** What a backup answer leads to: an answer is relayed and charged, an error
      ends the hold, and silence changes nothing. */
  lemma {:induction false} BackupMeans(b: Breaker, a: BackupAnswer, day: int)
    ensures var (c, route) := OnBackup(b, a, day);
      match a
      case Served =>
        && route == BackupRelayed && c.until == b.until && c.streak == b.streak
        && (b.policy.dailyMax > 0 ==> c.day == Some(day) && c.used == 1 + if b.day == Some(day) then b.used else 0)
      case ErrorRelay => route == BackupRefusal && c == b.(until := 0)
      case Unreachable => route == BothDown && c == b
  {
  }

  function AfterSuccesses(b: Breaker, n: nat, now: nat, day: int): Breaker {
    if n == 0 then b else OnPrimary(AfterSuccesses(b, n - 1, now, day), Status(200), now, day).0
  }

  /** A breaker past its hold closes at exactly the success that completes the
      streak, not before. */
  lemma {:induction false} ClosesAtTheStreak(b: Breaker, n: nat, now: nat, day: int)
    requires b.until != 0 && b.streak < b.policy.recoverAfter && n <= b.policy.recoverAfter - b.streak
    ensures var c := AfterSuccesses(b, n, now, day);
      && (c.until == 0 <==> n == b.policy.recoverAfter - b.streak)
      && (c.until != 0 ==> c == b.(streak := b.streak + n))
  {
    if n > 0 { ClosesAtTheStreak(b, n - 1, now, day); }
  }
}
