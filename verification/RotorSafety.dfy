/** What a bucket's rotation machinery keeps over every run, restarts
    included: the counters are an exact tally, the cap holds, and a failed
    attempt is left alone for the cooldown. */
module RotorSafety {
  import opened Basics
  import opened EgressModels
  import opened RotorSpec

  // ------------------------------------------------- counters are a tally

  ghost predicate Capped(marks: seq<Mark>, cap: nat) { forall w :: StartsIn(marks, w, false) <= cap }

  ghost predicate Sound(w: World, now: int) {
    && w.rotor.rules.configured && DAY <= now
    && CellOk(w.rotor.rec, w.marks, now) && CellOk(w.rotor.disk, w.marks, now)
    && Capped(w.marks, w.rotor.rules.cap)
  }

  lemma {:induction false} RecordAgrees(cell: Option<Counts>, marks: seq<Mark>, now: int)
    requires DAY <= now && CellOk(cell, marks, now)
    ensures var c := RecordAt(cell, now); Agrees(c, marks) && c.window == WindowStart(now) && 0 < c.window
  {
    WindowIsUtcDay(now);
    var c := RecordAt(cell, now);
    if cell.None? || cell.value.window != c.window { Quiet(marks, c.window); }
  }

  lemma {:induction false} LaterCellOk(cell: Option<Counts>, marks: seq<Mark>, now: int, later: int)
    requires CellOk(cell, marks, now) && now <= later
    ensures CellOk(cell, marks, later)
  {
    WindowsAreOrdered(now, later);
  }

  lemma {:induction false} AgreesAfter(c: Counts, marks: seq<Mark>, m: Mark, d: Counts)
    requires Agrees(c, marks) && WindowStart(m.at) == c.window == d.window
    requires match m
             case Began(_, _) => d.rotations == c.rotations + 1 && d.count == c.count && d.tokens == c.tokens
             case Served(_, tokens) => d.rotations == c.rotations && d.count == c.count + 1 && d.tokens == c.tokens + tokens
             case Renewed(_) => d.rotations == c.rotations && d.count == 0 && d.tokens == 0
    ensures Agrees(d, marks + [m])
  {
    AfterMark(marks, m, c.window);
  }

  lemma {:induction false} CappedAfter(marks: seq<Mark>, m: Mark, cap: nat)
    requires Capped(marks, cap)
    requires m.Began? && !m.forced ==> StartsIn(marks, WindowStart(m.at), false) < cap
    ensures Capped(marks + [m], cap)
  {
    forall w ensures StartsIn(marks + [m], w, false) <= cap { AfterMark(marks, m, w); }
  }

  /** What an accepted request leaves behind. */
  function Asked(w: World, now: int, force: bool): World {
    var r := Request(w.rotor, now, force);
    World(r, w.marks + if !w.rotor.running && r.running then [Began(now, force)] else [])
  }

  lemma {:induction false} AskedKeeps(w: World, now: int, force: bool)
    requires Sound(w, now)
    ensures Sound(Asked(w, now, force), now) && Asked(w, now, force).rotor.rules == w.rotor.rules
  {
    RecordAgrees(w.rotor.rec, w.marks, now);
    var c := RecordAt(w.rotor.rec, now);
    if !Refuses(w.rotor, now, force) {
      AgreesAfter(c, w.marks, Began(now, force), Begun(c));
      UnforcedAreStarts(w.marks, c.window);
      CappedAfter(w.marks, Began(now, force), w.rotor.rules.cap);
    } else {
      assert Asked(w, now, force).marks == w.marks;
    }
  }

  /** A record that agrees may be written to memory, or to both cells. */
  lemma {:induction false} SavedKeeps(w: World, now: int, c: Counts, marks: seq<Mark>)
    requires Sound(w, now) && c.window == WindowStart(now) && 0 < c.window && Agrees(c, marks) && Capped(marks, w.rotor.rules.cap)
    ensures Sound(World(Save(w.rotor, c), marks), now)
    ensures marks == w.marks ==> Sound(World(w.rotor.(rec := Some(c)), marks), now)
  {
  }

  /** The served mark, before any rotation it may trigger. */
  lemma {:induction false} ServedKeeps(w: World, now: int, tokens: int, d: Counts)
    requires Sound(w, now) && d == Counted(RecordAt(w.rotor.rec, now), tokens)
    ensures Sound(World(Save(w.rotor, d), w.marks + [Served(now, Max(0, tokens))]), now)
    ensures Sound(World(Save(w.rotor, d.(triggered := true)), w.marks + [Served(now, Max(0, tokens))]), now)
  {
    RecordAgrees(w.rotor.rec, w.marks, now);
    var m := Served(now, Max(0, tokens));
    AgreesAfter(RecordAt(w.rotor.rec, now), w.marks, m, d);
    CappedAfter(w.marks, m, w.rotor.rules.cap);
    SavedKeeps(w, now, d, w.marks + [m]);
    SavedKeeps(w, now, d.(triggered := true), w.marks + [m]);
  }

  /** An ok release is its served mark, then perhaps a request. */
  lemma {:induction false} OkInTwo(w: World, now: int, tokens: int, d: Counts)
    requires d == Counted(RecordAt(w.rotor.rec, now), tokens)
    ensures var served := w.marks + [Served(now, Max(0, tokens))];
      Step(w, now, OkRelease(tokens)) ==
        if Armed(w.rotor.rules, d, now) && Due(w.rotor.rules, d) then Asked(World(Save(w.rotor, d.(triggered := true)), served), now, false)
        else World(Save(w.rotor, d), served)
  {
    var served := w.marks + [Served(now, Max(0, tokens))];
    var began := if Starts(w.rotor, now, OkRelease(tokens)) then [Began(now, false)] else [];
    assert w.marks + ([Served(now, Max(0, tokens))] + [] + began) == served + began;
    assert served + [] == served;
  }

  lemma {:induction false} OkKeeps(w: World, now: int, tokens: int)
    requires Sound(w, now)
    ensures Sound(Step(w, now, OkRelease(tokens)), now)
  {
    var d := Counted(RecordAt(w.rotor.rec, now), tokens);
    OkInTwo(w, now, tokens, d);
    ServedKeeps(w, now, tokens, d);
    if Armed(w.rotor.rules, d, now) && Due(w.rotor.rules, d) {
      AskedKeeps(World(Save(w.rotor, d.(triggered := true)), w.marks + [Served(now, Max(0, tokens))]), now, false);
    }
  }

  lemma {:induction false} RejectionKeeps(w: World, now: int, counts: bool)
    requires Sound(w, now)
    ensures var r := OnRejection(w.rotor, now, counts);
      Sound(World(r, w.marks + if !w.rotor.running && r.running then [Began(now, false)] else []), now)
  {
    RecordAgrees(w.rotor.rec, w.marks, now);
    var c := RecordAt(w.rotor.rec, now);
    SavedKeeps(w, now, c, w.marks);
    AskedKeeps(World(w.rotor.(rec := Some(c)), w.marks), now, false);
    assert w.marks + [] == w.marks;
  }

  lemma {:induction false} DoneKeeps(w: World, now: int, ok: bool)
    requires Sound(w, now) && w.rotor.running
    ensures Sound(Step(w, now, FlowDone(ok)), now)
  {
    RecordAgrees(w.rotor.rec, w.marks, now);
    var c := RecordAt(w.rotor.rec, now);
    if ok {
      var d := WithResult(c.(count := 0, tokens := 0, triggered := false), true, now);
      AgreesAfter(c, w.marks, Renewed(now), d);
      CappedAfter(w.marks, Renewed(now), w.rotor.rules.cap);
      SavedKeeps(w, now, d, w.marks + [Renewed(now)]);
      assert Step(w, now, FlowDone(ok)).marks == w.marks + [Renewed(now)];
    } else {
      SavedKeeps(w, now, WithResult(c, false, now), w.marks);
      assert Step(w, now, FlowDone(ok)).marks == w.marks;
    }
  }

  lemma {:induction false} TimerKeeps(w: World, now: int)
    requires Sound(w, now)
    ensures Sound(Step(w, now, TimerFires), now)
  {
    var r := w.rotor;
    assert w.marks + [] == w.marks;
    if r.timer.Some? && r.timer.value <= now && !r.running {
      var c := RecordAt(r.rec, now);
      RecordAgrees(r.rec, w.marks, now);
      var seen := r.(timer := None, rec := Some(c));
      SavedKeeps(w, now, c, w.marks);
      AskedKeeps(World(seen, w.marks), now, false);
      if c.lastOk == Some(false) && c.rotations < r.rules.cap {
        assert Step(w, now, TimerFires).rotor == Asked(World(seen, w.marks), now, false).rotor;
        assert Step(w, now, TimerFires).marks == Asked(World(seen, w.marks), now, false).marks;
      } else {
        assert Step(w, now, TimerFires) == World(seen, w.marks);
      }
    }
  }

  lemma {:induction false} RestartKeeps(w: World, now: int, noted: bool)
    requires Sound(w, now)
    ensures Sound(Step(w, now, Restart(noted)), now)
  {
    RecordAgrees(w.rotor.rec, w.marks, now);
    var r := w.rotor;
    var last := if noted && r.running then Save(r, WithResult(RecordAt(r.rec, now), false, now)) else r;
    assert CellOk(last.disk, w.marks, now);
    if last.disk.Some? && last.disk.value.window < WindowStart(now) { Quiet(w.marks, WindowStart(now)); }
    assert w.marks + [] == w.marks;
  }

  lemma {:induction false} RequestsKeep(w: World, now: int, e: Event)
    requires Sound(w, now) && (e.Quota429? || e.TierRejected? || e.AdminRotation?)
    ensures Sound(Step(w, now, e), now)
  {
    var v := Step(w, now, e);
    assert v.marks == w.marks + if Starts(w.rotor, now, e) then [Began(now, e.AdminRotation?)] else [];
    if e.AdminRotation? { AskedKeeps(w, now, true); }
    else {
      RejectionKeeps(w, now, if e.Quota429? then HardQuota(w.rotor.rules, e.retryAfter) else true);
      assert w.marks + [] == w.marks;
    }
  }

  lemma {:induction false} RulesNeverChange(r: Rotor, now: int, e: Event)
    ensures Next(r, now, e).rules == r.rules
  {
  }

  lemma {:induction false} StepKeeps(w: World, now: int, e: Event)
    requires Sound(w, now)
    ensures Sound(Step(w, now, e), now)
  {
    match e
    case OkRelease(tokens) => OkKeeps(w, now, tokens);
    case Quota429(_) => RequestsKeep(w, now, e);
    case TierRejected => RequestsKeep(w, now, e);
    case AdminRotation => RequestsKeep(w, now, e);
    case FlowDone(ok) =>
      assert w.marks + [] == w.marks;
      if w.rotor.running { DoneKeeps(w, now, ok); }
    case FlowCrashed => assert w.marks + [] == w.marks;
    case TimerFires => TimerKeeps(w, now);
    case Viewed =>
      assert w.marks + [] == w.marks;
      RecordAgrees(w.rotor.rec, w.marks, now);
    case SavedForOther => assert w.marks + [] == w.marks;
    case Restart(noted) => RestartKeeps(w, now, noted);
  }

  lemma {:induction false} StillSoundLater(w: World, before: int, now: int)
    requires Sound(w, before) && before <= now
    ensures Sound(w, now)
  {
    LaterCellOk(w.rotor.rec, w.marks, before, now);
    LaterCellOk(w.rotor.disk, w.marks, before, now);
  }

  ghost predicate ClockForward(start: int, trace: seq<Timed>) {
    && (trace != [] ==> start <= trace[0].now)
    && forall i, j :: 0 <= i < j < |trace| ==> trace[i].now <= trace[j].now
  }

  function Clock(start: int, trace: seq<Timed>, k: nat): int
    requires k <= |trace|
  {
    if k == 0 then start else trace[k - 1].now
  }

  /** Over every run from an empty disk, across any restarts, a metered
      bucket's record is the exact tally of its window. */
  lemma {:induction false} EveryRunIsSound(rules: Rules, start: int, trace: seq<Timed>)
    requires rules.configured && DAY <= start && ClockForward(start, trace)
    ensures Sound(Run(rules, trace), Clock(start, trace, |trace|)) && Run(rules, trace).rotor.rules == rules
  {
    var first := World(Cold(rules), []);
    var inv := (w: World, k: nat) => k <= |trace| && Sound(w, Clock(start, trace, k)) && w.rotor.rules == rules;
    WindowIsUtcDay(start);
    assert Sound(first, start);
    forall w: World, k: nat | k < |trace| && inv(w, k) ensures inv(Step(w, trace[k].now, trace[k].event), k + 1) {
      StillSoundLater(w, Clock(start, trace, k), trace[k].now);
      StepKeeps(w, trace[k].now, trace[k].event);
      RulesNeverChange(w.rotor, trace[k].now, trace[k].event);
    }
    IterateKeeps(first, trace, (w: World, t: Timed) => Step(w, t.now, t.event), inv);
  }

  /** The count and token sum any reader sees are those of the ok releases
      since the later of the window's start and the last successful rotation. */
  lemma {:induction false} CountersAreTally(rules: Rules, start: int, trace: seq<Timed>, now: int)
    requires rules.configured && DAY <= start && ClockForward(start, trace) && Clock(start, trace, |trace|) <= now
    ensures var w := Run(rules, trace); var c := RecordAt(w.rotor.rec, now);
      && c.window == now / DAY * DAY
      && (c.count, c.tokens) == Tally(w.marks, c.window)
      && c.rotations == StartsIn(w.marks, c.window, true)
  {
    EveryRunIsSound(rules, start, trace);
    var w := Run(rules, trace);
    LaterCellOk(w.rotor.rec, w.marks, Clock(start, trace, |trace|), now);
    RecordAgrees(w.rotor.rec, w.marks, now);
    WindowIsUtcDay(now);
  }

  /** No window ever sees more unforced rotations than the cap, restarts
      included. */
  lemma {:induction false} StartsNeverPassCap(rules: Rules, start: int, trace: seq<Timed>, w: int)
    requires rules.configured && DAY <= start && ClockForward(start, trace)
    ensures StartsIn(Run(rules, trace).marks, w, false) <= rules.cap
  {
    EveryRunIsSound(rules, start, trace);
  }

  /** An unmetered bucket is never rotated over any run, forced or not. */
  lemma {:induction false} UnmeteredNeverStarts(rules: Rules, trace: seq<Timed>)
    requires !rules.configured
    ensures !Run(rules, trace).rotor.running && forall k :: 0 <= k < |Run(rules, trace).marks| ==> !Run(rules, trace).marks[k].Began?
  {
    var inv := (w: World, k: nat) =>
      w.rotor.rules == rules && !w.rotor.running && forall j :: 0 <= j < |w.marks| ==> !w.marks[j].Began?;
    forall w: World, k: nat | k < |trace| && inv(w, k) ensures inv(Step(w, trace[k].now, trace[k].event), k + 1) {
      RulesNeverChange(w.rotor, trace[k].now, trace[k].event);
    }
    IterateKeeps(World(Cold(rules), []), trace, (w: World, t: Timed) => Step(w, t.now, t.event), inv);
  }

  // ------------------------------------------------------- when one starts

  /** Nothing has been triggered in this window, or the last attempt failed and
      the cooldown is over. */
  predicate Ready(rules: Rules, c: Counts, now: int) {
    c.triggered ==> c.lastOk == Some(false) && 0 < c.lastEpoch && c.lastEpoch + rules.cooldown <= now
  }

  /** Over every run: an ok release begins a rotation exactly when none runs, the
      window has had fewer than the cap, the trigger is ready, and the ok
      releases since the later of the window's start and the last renewal, this
      one included, reach the threshold or their tokens the budget. */
  lemma {:induction false} OkStartsExactly(rules: Rules, start: int, trace: seq<Timed>, now: int, tokens: int)
    requires rules.configured && DAY <= start && ClockForward(start, trace) && Clock(start, trace, |trace|) <= now
    ensures var w := Run(rules, trace);
      var window := now / DAY * DAY;
      var (count, sum) := Tally(w.marks + [Served(now, Max(0, tokens))], window);
      Starts(w.rotor, now, OkRelease(tokens)) <==>
        && !w.rotor.running && StartsIn(w.marks, window, true) < rules.cap && Ready(rules, RecordAt(w.rotor.rec, now), now)
        && ((rules.threshold > 0 && count >= rules.threshold) || (rules.budget > 0 && sum >= rules.budget))
  {
    EveryRunIsSound(rules, start, trace);
    CountersAreTally(rules, start, trace, now);
    WindowIsUtcDay(now);
    var w := Run(rules, trace);
    AfterMark(w.marks, Served(now, Max(0, tokens)), WindowStart(now));
    OkStarts(w.rotor, now, tokens, Counted(RecordAt(w.rotor.rec, now), tokens));
  }

  lemma {:induction false} OkStarts(r: Rotor, now: int, tokens: int, d: Counts)
    requires r.rules.configured && d == Counted(RecordAt(r.rec, now), tokens)
    ensures Starts(r, now, OkRelease(tokens)) <==>
      && !r.running && d.rotations < r.rules.cap && Ready(r.rules, d, now)
      && ((r.rules.threshold > 0 && d.count >= r.rules.threshold) || (r.rules.budget > 0 && d.tokens >= r.rules.budget))
  {
    var c := d.(triggered := true);
    assert RecordAt(Some(c), now) == c;
  }

  /** A bad verdict may start one exactly when none runs, the cap leaves room,
      the trigger is ready and the last success is not too recent. */
  predicate MayRotate(r: Rotor, c: Counts, now: int) {
    && r.rules.configured && !r.running && c.rotations < r.rules.cap && Ready(r.rules, c, now)
    && (c.lastOk == Some(true) && 0 < c.lastEpoch ==> c.lastEpoch + r.rules.floor <= now)
  }

  /** A 429 starts a rotation exactly when that is switched on and upstream asks
      for a longer wait than the hard limit, or names none; a rejection of the
      address always counts; an admin's command asks only for a metered bucket
      without a rotation under way. */
  lemma {:induction false} VerdictStartsExactly(r: Rotor, now: int, after: Option<int>)
    ensures var c := RecordAt(r.rec, now);
      && (Starts(r, now, Quota429(after)) <==> r.rules.onHard429 && (after == None || after.value > r.rules.hard) && MayRotate(r, c, now))
      && (Starts(r, now, Event.TierRejected) <==> MayRotate(r, c, now))
      && (Starts(r, now, AdminRotation) <==> r.rules.configured && !r.running)
  {
    var c := RecordAt(r.rec, now);
    assert RecordAt(Some(c), now) == c;
  }

  /** A due retry timer starts a rotation exactly when none runs, the last one
      failed and the cap leaves room; no other event starts one. */
  lemma {:induction false} OthersStartExactly(r: Rotor, now: int, e: Event)
    requires r.rules.configured && !e.OkRelease? && !e.Quota429? && !e.TierRejected? && !e.AdminRotation?
    ensures var c := RecordAt(r.rec, now);
      Starts(r, now, e) <==>
        e.TimerFires? && r.timer.Some? && r.timer.value <= now && !r.running && c.lastOk == Some(false) && c.rotations < r.rules.cap
  {
    var c := RecordAt(r.rec, now);
    assert RecordAt(Some(c), now) == c;
  }

  /** When the window moves on, the counters start again and the last result is
      kept. */
  lemma {:induction false} RolloverMeans(c: Counts, now: int)
    ensures var d := RecordAt(Some(c), now);
      && d.lastOk == c.lastOk && d.lastEpoch == c.lastEpoch && d.window == now / DAY * DAY
      && (c.window == d.window ==> d == c)
      && (c.window != d.window ==> d.count == 0 && d.tokens == 0 && !d.triggered && d.rotations == 0)
  {
    WindowIsUtcDay(now);
  }

  /** A new process reads back what was saved, but of an earlier window nothing,
      the last result included, and of an unmetered bucket no record at all. */
  lemma {:induction false} RestartMeans(r: Rotor, now: int)
    requires !r.running
    ensures var s := Next(r, now, Restart(false));
      && s.disk == r.disk && !s.running && !s.rotating && s.timer == None
      && (r.disk == None || !r.rules.configured ==> s.rec == None)
      && (r.disk.Some? && r.rules.configured ==>
            s.rec == if 0 < r.disk.value.window < now / DAY * DAY then Some(Counts(now / DAY * DAY, 0, 0, false, 0, None, 0)) else r.disk)
  {
    WindowIsUtcDay(now);
  }

  /** A failure arms the retry timer for one cooldown later, unless one is armed
      already or the cap is reached; a success arms none and empties the
      counters. */
  lemma {:induction false} OutcomeMeans(r: Rotor, now: int, ok: bool)
    requires r.running
    ensures var c := RecordAt(r.rec, now); var s := Next(r, now, FlowDone(ok));
      && !s.running && !s.rotating && s.rec == s.disk && s.rec.Some?
      && s.rec.value.lastOk == Some(ok) && s.rec.value.lastEpoch == now && s.rec.value.rotations == c.rotations
      && (ok ==> s.rec.value.count == 0 && s.rec.value.tokens == 0 && !s.rec.value.triggered && s.timer == r.timer)
      && (!ok ==> (s.rec.value.count, s.rec.value.tokens, s.rec.value.triggered) == (c.count, c.tokens, c.triggered)
                  && s.timer == if c.rotations < r.rules.cap && r.timer == None then Some(now + r.rules.cooldown) else r.timer)
  {
  }

  // ------------------------------------------------------- the pool's flag

  lemma {:induction false} FlagStep(r: Rotor, now: int, e: Event)
    requires r.rotating == r.running && !e.FlowCrashed?
    ensures Next(r, now, e).rotating == Next(r, now, e).running
  {
  }

  /** Over every run without a crash of the flow, restarts included, the pool's
      flag says exactly whether a rotation is running. */
  lemma {:induction false} FlagFollowsTask(rules: Rules, trace: seq<Timed>)
    requires forall k :: 0 <= k < |trace| ==> !trace[k].event.FlowCrashed?
    ensures Run(rules, trace).rotor.rotating == Run(rules, trace).rotor.running
  {
    var inv := (w: World, k: nat) => w.rotor.rotating == w.rotor.running;
    forall w: World, k: nat | k < |trace| && inv(w, k) ensures inv(Step(w, trace[k].now, trace[k].event), k + 1) {
      FlagStep(w.rotor, trace[k].now, trace[k].event);
    }
    IterateKeeps(World(Cold(rules), []), trace, (w: World, t: Timed) => Step(w, t.now, t.event), inv);
  }

  function Later(r: Rotor, trace: seq<Timed>): Rotor { Iterate(r, trace, (s: Rotor, t: Timed) => Next(s, t.now, t.event)) }

  /** The end of a rotation, or a restart. */
  predicate Clears(r: Rotor, e: Event) { e.Restart? || (e.FlowDone? && r.running) }

  ghost predicate NeverCleared(r: Rotor, trace: seq<Timed>) {
    forall k :: 0 <= k < |trace| ==> !Clears(Later(r, trace[..k]), trace[k].event)
  }

  lemma {:induction false} FlagGoesDown(r: Rotor, now: int, e: Event)
    requires r.rotating
    ensures Next(r, now, e).rotating <==> !Clears(r, e)
  {
  }

  lemma {:induction false} OneLater(r: Rotor, trace: seq<Timed>, k: nat)
    requires k < |trace|
    ensures Later(r, trace[..k + 1]) == Next(Later(r, trace[..k]), trace[k].now, trace[k].event)
  {
    assert trace[..k + 1][..k] == trace[..k];
  }

  lemma {:induction false} FlagStaysUp(r: Rotor, trace: seq<Timed>, k: nat)
    requires r.rotating && k <= |trace| && NeverCleared(r, trace)
    ensures Later(r, trace[..k]).rotating
  {
    if k > 0 {
      FlagStaysUp(r, trace, k - 1);
      OneLater(r, trace, k - 1);
      FlagGoesDown(Later(r, trace[..k - 1]), trace[k - 1].now, trace[k - 1].event);
    }
  }

  /** A crash leaves the flag up with nothing running, and over any run it stays
      up exactly until a later rotation ends or the process restarts. */
  lemma {:induction false} CrashStrandsFlag(r: Rotor, now: int, trace: seq<Timed>)
    requires r.rotating
    ensures var s := Next(r, now, FlowCrashed);
      && s.rotating && !s.running
      && ((forall k :: 0 <= k <= |trace| ==> Later(s, trace[..k]).rotating) <==> NeverCleared(s, trace))
  {
    var s := Next(r, now, FlowCrashed);
    if NeverCleared(s, trace) {
      forall k | 0 <= k <= |trace| ensures Later(s, trace[..k]).rotating { FlagStaysUp(s, trace, k); }
    } else {
      var k :| 0 <= k < |trace| && Clears(Later(s, trace[..k]), trace[k].event);
      OneLater(s, trace, k);
      if Later(s, trace[..k]).rotating { FlagGoesDown(Later(s, trace[..k]), trace[k].now, trace[k].event); }
    }
  }

  // ------------------------------------------------------ the retry cooldown

  predicate Marked(cell: Option<Counts>, f: int) {
    && cell.Some? && cell.value.window == WindowStart(f) && cell.value.triggered
    && cell.value.lastOk == Some(false) && cell.value.lastEpoch == f
  }

  predicate AtCap(cell: Option<Counts>, cap: nat) { cell.Some? && cell.value.rotations >= cap }

  /** A retry due at `due` cannot run before the cooldown from `f` is over: it
      is due too late, or not before the window has changed. */
  predicate Late(due: int, f: int, cooldown: int) {
    Max(f, due) >= f + cooldown || WindowStart(Max(f, due)) != WindowStart(f)
  }

  /** An attempt begun in this window failed at `f`, and no path leads to
      another start before `f` plus the cooldown. */
  ghost predicate Resting(r: Rotor, f: int) {
    && Marked(r.rec, f) && Marked(r.disk, f) && !r.running
    && (r.timer.None? || Late(r.timer.value, f, r.rules.cooldown) || (AtCap(r.rec, r.rules.cap) && AtCap(r.disk, r.rules.cap)))
  }

  /** A moment of the window before the cooldown from `f` is over. */
  predicate Within(now: int, f: int, cooldown: int) { f <= now < f + cooldown && WindowStart(now) == WindowStart(f) }

  predicate Automatic(e: Event) { !e.AdminRotation? }

  lemma {:induction false} LateTimerWaits(due: int, f: int, cooldown: int, now: int)
    requires Late(due, f, cooldown) && Within(now, f, cooldown)
    ensures now < due
  {
    if due <= now {
      WindowsAreOrdered(f, Max(f, due));
      WindowsAreOrdered(Max(f, due), now);
    }
  }

  lemma {:induction false} RestingHolds(r: Rotor, f: int, now: int, e: Event)
    requires r.rules.configured && Resting(r, f) && 0 < f && Within(now, f, r.rules.cooldown) && Automatic(e)
    ensures Resting(Next(r, now, e), f) && Next(r, now, e).rules == r.rules
  {
    if r.timer.Some? && Late(r.timer.value, f, r.rules.cooldown) { LateTimerWaits(r.timer.value, f, r.rules.cooldown, now); }
  }

  lemma {:induction false} OneEvent(r: Rotor, t: Timed)
    ensures Later(r, [t]) == Next(r, t.now, t.event)
  {
    assert [t][..0] == [];
    assert Later(r, [t][..0]) == r;
  }

  /** Anything but an admin's command, in the window, before the cooldown is
      over. */
  ghost predicate Everyday(trace: seq<Timed>, f: int, cooldown: int) {
    forall k :: 0 <= k < |trace| ==> Within(trace[k].now, f, cooldown) && Automatic(trace[k].event)
  }

  lemma {:induction false} RestingRun(r: Rotor, f: int, trace: seq<Timed>)
    requires r.rules.configured && Resting(r, f) && 0 < f && Everyday(trace, f, r.rules.cooldown)
    ensures Resting(Later(r, trace), f) && Later(r, trace).rules == r.rules
  {
    if trace != [] {
      var front, last := trace[..|trace| - 1], trace[|trace| - 1];
      RestingRun(r, f, front);
      RestingHolds(Later(r, front), f, last.now, last.event);
    }
  }

  /** An attempt begun in the window of `f` is under way. */
  ghost predicate UnderWay(r: Rotor, f: int) {
    r.rules.configured && r.running && 0 < f && r.rec.Some? && r.rec.value.window == WindowStart(f) && r.rec.value.triggered
  }

  /** No retry armed earlier can run before the cooldown is over. */
  predicate NoEarlyRetry(r: Rotor, f: int) {
    r.timer.None? || Late(r.timer.value, f, r.rules.cooldown) || AtCap(r.rec, r.rules.cap)
  }

  /** Whatever happens, short of an admin's command, nothing is started. */
  ghost predicate Rests(r: Rotor, f: int) {
    forall trace :: Everyday(trace, f, r.rules.cooldown) ==> !Later(r, trace).running
  }

  lemma {:induction false} FailureIsResting(r: Rotor, f: int)
    requires UnderWay(r, f)
    ensures NoEarlyRetry(r, f) ==> Resting(Next(r, f, FlowDone(false)), f)
  {
  }

  /** An earlier retry that is due in time restarts the bucket early. */
  lemma {:induction false} PendingRetryCutsRestShort(r: Rotor, f: int)
    requires UnderWay(r, f) && !NoEarlyRetry(r, f)
    ensures var now := Max(f, r.timer.value);
      Within(now, f, r.rules.cooldown) && Starts(Next(r, f, FlowDone(false)), now, TimerFires)
  {
  }

  /** A failed attempt is left alone for the whole cooldown, by every automatic
      path and over every run, exactly when no retry armed earlier is due within
      the window and the cooldown while the cap leaves room for it. */
  lemma {:induction false} FailureRestsExactly(r: Rotor, f: int)
    requires UnderWay(r, f)
    ensures Rests(Next(r, f, FlowDone(false)), f) <==> NoEarlyRetry(r, f)
  {
    var s := Next(r, f, FlowDone(false));
    FailureIsResting(r, f);
    if NoEarlyRetry(r, f) {
      forall trace | Everyday(trace, f, s.rules.cooldown) ensures !Later(s, trace).running { RestingRun(s, f, trace); }
    } else {
      PendingRetryCutsRestShort(r, f);
      var retry := At(Max(f, r.timer.value), TimerFires);
      assert Everyday([retry], f, s.rules.cooldown);
      OneEvent(s, retry);
    }
  }

  // --------------------------------------------- a rotation cut by shutdown

  predicate Keeps(cell: Option<Counts>, c: Counts) {
    && cell.Some? && cell.value.window == c.window && cell.value.triggered && cell.value.rotations == c.rotations
    && cell.value.lastOk == c.lastOk && cell.value.lastEpoch == c.lastEpoch
  }

  /** Both cells hold a triggered record like `c`, and nothing is under way. */
  ghost predicate Halted(r: Rotor, c: Counts) { Keeps(r.rec, c) && Keeps(r.disk, c) && !r.running && r.timer.None? }

  /** Any run of automatic events from `now` to the end of its window. */
  ghost predicate RestOfWindow(trace: seq<Timed>, now: int) {
    forall k :: 0 <= k < |trace| ==> now <= trace[k].now && WindowStart(trace[k].now) == WindowStart(now) && Automatic(trace[k].event)
  }

  ghost predicate StuckUntilReset(r: Rotor, now: int) {
    forall trace :: RestOfWindow(trace, now) ==> !Later(r, trace).running
  }

  /** The record of a failure whose cooldown ends in this window, with room
      under the cap. */
  predicate Revivable(rules: Rules, c: Counts, now: int) {
    && c.lastOk == Some(false) && c.lastEpoch > 0 && c.rotations < rules.cap
    && WindowStart(Max(now, c.lastEpoch + rules.cooldown)) == WindowStart(now)
  }

  lemma {:induction false} NotArmedBefore(rules: Rules, c: Counts, d: Counts, now: int, at: int)
    requires !Revivable(rules, c, now) && Keeps(Some(d), c) && c.rotations < rules.cap
    requires now <= at && WindowStart(at) == WindowStart(now)
    ensures !Armed(rules, d, at)
  {
    if c.lastOk == Some(false) && c.lastEpoch > 0 && at >= c.lastEpoch + rules.cooldown {
      WindowsAreOrdered(now, Max(now, c.lastEpoch + rules.cooldown));
      WindowsAreOrdered(Max(now, c.lastEpoch + rules.cooldown), at);
    }
  }

  lemma {:induction false} HaltedHolds(r: Rotor, c: Counts, now: int, at: int, e: Event)
    requires r.rules.configured && Halted(r, c) && c.window == WindowStart(now) && !Revivable(r.rules, c, now)
    requires now <= at && WindowStart(at) == WindowStart(now) && Automatic(e)
    ensures Halted(Next(r, at, e), c) && Next(r, at, e).rules == r.rules
  {
    var d := RecordAt(r.rec, at);
    if c.rotations < r.rules.cap {
      NotArmedBefore(r.rules, c, d, now, at);
      match e
      case OkRelease(tokens) => NotArmedBefore(r.rules, c, Counted(d, tokens), now, at);
      case _ =>
    }
  }

  lemma {:induction false} HaltedRun(r: Rotor, c: Counts, now: int, trace: seq<Timed>)
    requires r.rules.configured && Halted(r, c) && c.window == WindowStart(now) && !Revivable(r.rules, c, now) && RestOfWindow(trace, now)
    ensures Halted(Later(r, trace), c) && Later(r, trace).rules == r.rules
  {
    if trace != [] {
      var front, last := trace[..|trace| - 1], trace[|trace| - 1];
      HaltedRun(r, c, now, front);
      HaltedHolds(Later(r, front), c, now, last.now, last.event);
    }
  }

  lemma {:induction false} RevivedByRejection(r: Rotor, c: Counts, now: int)
    requires r.rules.configured && Halted(r, c) && c.window == WindowStart(now) && Revivable(r.rules, c, now)
    ensures !StuckUntilReset(r, now)
  {
    var flagged := At(Max(now, c.lastEpoch + r.rules.cooldown), Event.TierRejected);
    assert RestOfWindow([flagged], now);
    OneEvent(r, flagged);
  }

  /** What a new process makes of the bucket: without an admin it stays as it is
      until 08:00 exactly when its record shows no failure that can be retried
      in time. */
  lemma {:induction false} HaltedExactly(r: Rotor, c: Counts, now: int)
    requires r.rules.configured && Halted(r, c) && c.window == WindowStart(now)
    ensures StuckUntilReset(r, now) <==> !Revivable(r.rules, c, now)
  {
    if Revivable(r.rules, c, now) {
      RevivedByRejection(r, c, now);
    } else {
      forall trace | RestOfWindow(trace, now) ensures !Later(r, trace).running { HaltedRun(r, c, now, trace); }
    }
  }

  /** A rotation is under way and its start is on disk. */
  ghost predicate Interrupted(r: Rotor, now: int) { UnderWay(r, now) && r.disk == r.rec }

  /** A rotation cut by a shutdown leaves its bucket without another automatic
      attempt until 08:00 exactly when the record read back is past reviving:
      the one noted as failed just now, or the one from before. */
  lemma {:induction false} CutRotationStuckExactly(r: Rotor, now: int, noted: bool)
    requires Interrupted(r, now)
    ensures var c := r.rec.value;
      StuckUntilReset(Next(r, now, Restart(noted)), now) <==> !Revivable(r.rules, if noted then WithResult(c, false, now) else c, now)
  {
    HaltedExactly(Next(r, now, Restart(noted)), if noted then WithResult(r.rec.value, false, now) else r.rec.value, now);
  }

  /** The record shows no start in this window, or none at all. */
  ghost predicate Unmarked(cell: Option<Counts>, now: int) {
    && cell.Some? && 0 < cell.value.window <= WindowStart(now)
    && (cell.value.window == WindowStart(now) ==> !cell.value.triggered && cell.value.rotations == 0)
  }

  /** A rotation begun before 08:00 is still under way after it. */
  ghost predicate Straddling(r: Rotor, now: int) {
    r.rules.configured && 0 < r.rules.cap && r.running && 0 < now && Unmarked(r.rec, now) && Unmarked(r.disk, now)
  }

  /** Cut after 08:00, a rotation begun before it is forgotten either way, and
      its bucket is free again once the floor of the last success is over. */
  lemma {:induction false} StraddlingRotationIsFree(r: Rotor, now: int, noted: bool)
    requires Straddling(r, now)
    requires noted || r.disk.value.lastOk != Some(true) || WindowStart(Max(now, r.disk.value.lastEpoch + r.rules.floor)) == WindowStart(now)
    ensures !StuckUntilReset(Next(r, now, Restart(noted)), now)
  {
    var s := Next(r, now, Restart(noted));
    var c := s.rec.value;
    var free := At(if c.lastOk == Some(true) then Max(now, c.lastEpoch + r.rules.floor) else now, Event.TierRejected);
    assert RestOfWindow([free], now);
    OneEvent(s, free);
  }

  /** Two first attempts cut by one shutdown, the second already unwound when the
      loop reaches it: the first is retried after the cooldown, the second not
      before 08:00. */
  lemma {:induction false} SecondRotationIsForgotten(first: Rotor, second: Rotor, now: int)
    requires Interrupted(first, now) && Interrupted(second, now)
    requires first.rec.value.lastOk != Some(false) && second.rec.value.lastOk != Some(false) && first.rec.value.rotations < first.rules.cap
    requires WindowStart(Max(now, now + first.rules.cooldown)) == WindowStart(now)
    ensures !StuckUntilReset(Next(first, now, Restart(true)), now) && StuckUntilReset(Next(second, now, Restart(false)), now)
  {
    CutRotationStuckExactly(first, now, true);
    CutRotationStuckExactly(second, now, false);
  }

  lemma {:induction false} RunSnoc(rules: Rules, trace: seq<Timed>, t: Timed)
    ensures Run(rules, trace + [t]).rotor == Next(Run(rules, trace).rotor, t.now, t.event)
  {
    assert (trace + [t])[..|trace|] == trace;
  }

  lemma {:induction false} FourEvents(rules: Rules, a: Timed, b: Timed, c: Timed, d: Timed)
    ensures var r1 := Next(Cold(rules), a.now, a.event);
      var r2 := Next(r1, b.now, b.event);
      var r3 := Next(r2, c.now, c.event);
      Run(rules, [a, b, c, d]).rotor == Next(r3, d.now, d.event)
  {
    assert [] + [a] == [a] && [a] + [b] == [a, b] && [a, b] + [c] == [a, b, c] && [a, b, c] + [d] == [a, b, c, d];
    RunSnoc(rules, [], a);
    RunSnoc(rules, [a], b);
    RunSnoc(rules, [a, b], c);
    RunSnoc(rules, [a, b, c], d);
  }

  const STRADDLE := Rules(1, 0, HARD_QUOTA_RETRY_AFTER, 900 * SECOND, 1800 * SECOND, 5, false, true)

  /** The state two minutes into the new window, after both failures. */
  lemma {:induction false} StraddleStates(reset: int, t1: int, t2: int, t3: int, t4: int)
    requires 0 < t1 && t2 == t1 + 100 * SECOND && t3 == t2 + 360 * SECOND && t4 == t3 + 60 * SECOND
    requires WindowStart(t1) == WindowStart(t2) == reset - DAY && WindowStart(t3) == WindowStart(t4) == reset
    ensures var r1 := Next(Cold(STRADDLE), t1, OkRelease(1));
      var r2 := Next(r1, t2, FlowDone(false));
      var r3 := Next(r2, t3, OkRelease(1));
      var last := Counts(reset, 1, 1, true, 1, Some(false), t4);
      Next(r3, t4, FlowDone(false)) == Rotor(STRADDLE, Some(last), Some(last), false, false, Some(t2 + 900 * SECOND))
  {
    var c1 := Counts(reset - DAY, 1, 1, true, 1, None, 0);
    var r1 := Next(Cold(STRADDLE), t1, OkRelease(1));
    assert r1 == Rotor(STRADDLE, Some(c1), Some(c1), true, true, None);
    var c2 := c1.(lastOk := Some(false), lastEpoch := t2);
    var r2 := Next(r1, t2, FlowDone(false));
    assert r2 == Rotor(STRADDLE, Some(c2), Some(c2), false, false, Some(t2 + 900 * SECOND));
    var c3 := c2.(window := reset);
    var r3 := Next(r2, t3, OkRelease(1));
    assert r3 == Rotor(STRADDLE, Some(c3), Some(c3), true, true, Some(t2 + 900 * SECOND));
  }

  lemma {:induction false} WindowOf(day: int, offset: int)
    requires 0 <= offset < DAY
    ensures WindowStart(day * DAY + offset) == day * DAY
  {
    WindowIsUtcDay(day * DAY + offset);
  }

  lemma {:induction false} StraddleTimer(r: Rotor, reset: int, t2: int, t4: int, now: int)
    requires r == Rotor(STRADDLE, r.rec, r.disk, false, false, Some(t2 + 900 * SECOND))
    requires r.rec == Some(Counts(reset, 1, 1, true, 1, Some(false), t4)) && WindowStart(now) == reset && now == t2 + 900 * SECOND
    ensures Starts(r, now, TimerFires)
  {
  }

  /** It does happen: a failure five minutes before 08:00 arms a retry, a new
      window's attempt fails two minutes into it, and the old timer starts the
      next one eight minutes later. */
  lemma {:induction false} RetryTimerOutlivesWindow(day: int, t1: int, t2: int, t3: int, t4: int, now: int)
    requires day > 0 && t1 == day * DAY - 400 * SECOND && t2 == t1 + 100 * SECOND && t3 == t2 + 360 * SECOND && t4 == t3 + 60 * SECOND
    requires now == t4 + 480 * SECOND
    ensures var r := Run(STRADDLE, [At(t1, OkRelease(1)), At(t2, FlowDone(false)), At(t3, OkRelease(1)), At(t4, FlowDone(false))]).rotor;
      && r.rec.Some? && r.rec.value.lastOk == Some(false) && r.rec.value.lastEpoch == t4
      && WindowStart(t3) == WindowStart(t4) == WindowStart(now)
      && now < t4 + STRADDLE.cooldown && Starts(r, now, TimerFires)
  {
    WindowOf(day - 1, t1 - (day - 1) * DAY);
    WindowOf(day - 1, t2 - (day - 1) * DAY);
    WindowOf(day, t3 - day * DAY);
    WindowOf(day, t4 - day * DAY);
    WindowOf(day, now - day * DAY);
    StraddleStates(day * DAY, t1, t2, t3, t4);
    FourEvents(STRADDLE, At(t1, OkRelease(1)), At(t2, FlowDone(false)), At(t3, OkRelease(1)), At(t4, FlowDone(false)));
    var r := Run(STRADDLE, [At(t1, OkRelease(1)), At(t2, FlowDone(false)), At(t3, OkRelease(1)), At(t4, FlowDone(false))]).rotor;
    StraddleTimer(r, day * DAY, t2, t4, now);
  }
}
