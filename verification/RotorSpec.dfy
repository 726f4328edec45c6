/** One bucket's rotation machinery over values: the per-window counters, the
    snapshot cell on disk, the rotation task and the retry timer. */
module RotorSpec {
  import opened Basics
  import opened EgressModels

  datatype Counts = Counts(window: int, count: nat, tokens: nat, triggered: bool, rotations: nat,
                           lastOk: Option<bool>, lastEpoch: int)

  /** `threshold` and `budget` are inert when not positive; `configured` says
      whether the bucket is metered, and so rotatable, at all. */
  datatype Rules = Rules(threshold: int, budget: int, hard: int, cooldown: int, floor: int, cap: nat,
                         onHard429: bool, configured: bool)

  datatype Rotor = Rotor(rules: Rules, rec: Option<Counts>, disk: Option<Counts>, running: bool, rotating: bool, timer: Option<int>)

  datatype Event =
    | OkRelease(tokens: int)
    | Quota429(retryAfter: Option<int>)
    | TierRejected
    | AdminRotation
    | FlowDone(ok: bool)
    | FlowCrashed              // the agent's answer broke the flow; nothing was recorded
    | TimerFires
    | Viewed                   // an admin read of the record
    | SavedForOther            // another bucket's update rewrote the snapshot
    | Restart(noted: bool)        // whether shutdown wrote a running rotation down as failed

  function Fresh(window: int): Counts { Counts(window, 0, 0, false, 0, None, 0) }

  /** The record for this moment: created on first use, counters cleared when
      the window moved on.  The last rotation's result survives the rollover. */
  function RecordAt(rec: Option<Counts>, now: int): Counts {
    match rec
    case None => Fresh(WindowStart(now))
    case Some(c) =>
      if c.window == WindowStart(now) then c
      else Counts(WindowStart(now), 0, 0, false, 0, c.lastOk, c.lastEpoch)
  }

  predicate Armed(rules: Rules, c: Counts, now: int) {
    !c.triggered || (c.lastOk == Some(false) && c.lastEpoch > 0 && now - c.lastEpoch >= rules.cooldown)
  }

  predicate Spaced(rules: Rules, c: Counts, now: int) {
    !(c.lastOk == Some(true) && c.lastEpoch > 0 && now - c.lastEpoch < rules.floor)
  }

  predicate HardQuota(rules: Rules, after: Option<int>) { after.None? || after.value > rules.hard }

  function Counted(c: Counts, tokens: int): Counts { c.(count := c.count + 1, tokens := c.tokens + Max(0, tokens)) }

  predicate Due(rules: Rules, c: Counts) {
    (rules.threshold > 0 && c.count >= rules.threshold) || (rules.budget > 0 && c.tokens >= rules.budget)
  }

  function Save(r: Rotor, c: Counts): Rotor { r.(rec := Some(c), disk := Some(c)) }

  predicate Refuses(r: Rotor, now: int, force: bool) {
    !r.rules.configured || r.running || (!force && RecordAt(r.rec, now).rotations >= r.rules.cap)
  }

  function Begun(c: Counts): Counts { c.(rotations := c.rotations + 1, triggered := true) }

  /** Ask for a rotation: nothing happens without a metered bucket, while one
      is running, or at the cap unless forced. */
  function Request(r: Rotor, now: int, force: bool): Rotor {
    if Refuses(r, now, force) then
      if r.rules.configured && !r.running && !force then r.(rec := Some(RecordAt(r.rec, now))) else r
    else Save(r, Begun(RecordAt(r.rec, now))).(running := true, rotating := true)
  }

  function OnOk(r: Rotor, now: int, tokens: int): Rotor {
    var c := Counted(RecordAt(r.rec, now), tokens);
    if Armed(r.rules, c, now) && Due(r.rules, c) then Request(Save(r, c.(triggered := true)), now, false) else Save(r, c)
  }

  function OnRejection(r: Rotor, now: int, counts: bool): Rotor {
    var c := RecordAt(r.rec, now);
    var seen := r.(rec := Some(c));
    if counts && Armed(r.rules, c, now) && Spaced(r.rules, c, now) then Request(seen, now, false) else seen
  }

  function WithResult(c: Counts, ok: bool, now: int): Counts { c.(lastOk := Some(ok), lastEpoch := now) }

  /** The rotation task ends: success clears the counters, failure arms one
      retry timer unless one is pending or the cap is reached. */
  function OnDone(r: Rotor, now: int, ok: bool): Rotor {
    var c := RecordAt(r.rec, now);
    if ok then Save(r, WithResult(c.(count := 0, tokens := 0, triggered := false), true, now)).(running := false, rotating := false)
    else Save(r, WithResult(c, false, now)).(
           running := false, rotating := false,
           timer := if c.rotations < r.rules.cap && r.timer.None? then Some(now + r.rules.cooldown) else r.timer)
  }

  function OnTimer(r: Rotor, now: int): Rotor {
    var woken := r.(timer := None);
    if r.running then woken
    else
      var c := RecordAt(r.rec, now);
      var seen := woken.(rec := Some(c));
      if c.lastOk != Some(false) || c.rotations >= r.rules.cap then seen else Request(seen, now, false)
  }

  /** What a new process reads back: rows of an earlier window are replaced,
      rows of unmetered buckets dropped. */
  function Loaded(rules: Rules, disk: Option<Counts>, now: int): Option<Counts> {
    match disk
    case None => None
    case Some(c) =>
      if !rules.configured then None
      else if 0 < c.window < WindowStart(now) then Some(Fresh(WindowStart(now)))
      else Some(c)
  }

  function OnRestart(r: Rotor, now: int, noted: bool): Rotor {
    var last := if noted && r.running then Save(r, WithResult(RecordAt(r.rec, now), false, now)) else r;
    Rotor(r.rules, Loaded(r.rules, last.disk, now), last.disk, false, false, None)
  }

  function Next(r: Rotor, now: int, e: Event): Rotor {
    match e
    case OkRelease(tokens) => OnOk(r, now, tokens)
    case Quota429(after) => if !r.rules.onHard429 then r else OnRejection(r, now, HardQuota(r.rules, after))
    case TierRejected => OnRejection(r, now, true)
    case AdminRotation => Request(r, now, true)
    case FlowDone(ok) => if r.running then OnDone(r, now, ok) else r
    case FlowCrashed => r.(running := false)
    case TimerFires => if r.timer.Some? && r.timer.value <= now then OnTimer(r, now) else r
    case Viewed => r.(rec := Some(RecordAt(r.rec, now)))
    case SavedForOther => r.(disk := r.rec)
    case Restart(noted) => OnRestart(r, now, noted)
  }

  /** A rotation begins exactly when the task slot goes from free to taken. */
  predicate Starts(r: Rotor, now: int, e: Event) { !r.running && Next(r, now, e).running }

  function Cold(rules: Rules): Rotor { Rotor(rules, None, None, false, false, None) }

  // -------------------------------------------------------------- histories

  datatype Mark = Began(at: int, forced: bool) | Served(at: int, tokens: nat) | Renewed(at: int)

  /** A rotor with the marks it left, oldest first, over every process. */
  datatype World = World(rotor: Rotor, marks: seq<Mark>)

  function MarksOf(r: Rotor, now: int, e: Event): seq<Mark> {
    (if e.OkRelease? then [Served(now, Max(0, e.tokens))] else [])
    + (if e.FlowDone? && e.ok && r.running then [Renewed(now)] else [])
    + (if Starts(r, now, e) then [Began(now, e.AdminRotation?)] else [])
  }

  function Step(w: World, now: int, e: Event): World {
    World(Next(w.rotor, now, e), w.marks + MarksOf(w.rotor, now, e))
  }

  datatype Timed = At(now: int, event: Event)

  function Run(rules: Rules, trace: seq<Timed>): World {
    Iterate(World(Cold(rules), []), trace, (w: World, t: Timed) => Step(w, t.now, t.event))
  }

  /** Rotations begun in window `w`; with `all` false, only unforced ones. */
  function StartsIn(marks: seq<Mark>, w: int, all: bool): nat {
    if marks == [] then 0
    else
      var m := marks[|marks| - 1];
      StartsIn(marks[..|marks| - 1], w, all) + (if m.Began? && WindowStart(m.at) == w && (all || !m.forced) then 1 else 0)
  }

  /** Ok releases, and their tokens, since the later of the start of window `w`
      and the last successful rotation. */
  function Tally(marks: seq<Mark>, w: int): (nat, nat) {
    if marks == [] then (0, 0)
    else
      var m := marks[|marks| - 1];
      var t := Tally(marks[..|marks| - 1], w);
      match m
      case Began(_, _) => t
      case Served(at, tokens) => if WindowStart(at) == w then (t.0 + 1, t.1 + tokens) else t
      case Renewed(_) => (0, 0)
  }

  // ------------------------------------------------------------- invariants

  /** The record `c` agrees with the marks, and no mark is newer than it. */
  ghost predicate Agrees(c: Counts, marks: seq<Mark>) {
    && c.rotations == StartsIn(marks, c.window, true)
    && (c.count, c.tokens) == Tally(marks, c.window)
    && forall k :: 0 <= k < |marks| ==> WindowStart(marks[k].at) <= c.window
  }

  ghost predicate CellOk(cell: Option<Counts>, marks: seq<Mark>, now: int) {
    match cell
    case None => marks == []
    case Some(c) => 0 < c.window <= WindowStart(now) && Agrees(c, marks)
  }

  lemma {:induction false} Quiet(marks: seq<Mark>, w: int)
    requires forall k :: 0 <= k < |marks| ==> WindowStart(marks[k].at) < w
    ensures StartsIn(marks, w, true) == 0 && Tally(marks, w) == (0, 0)
  {
    if marks != [] { Quiet(marks[..|marks| - 1], w); }
  }

  lemma {:induction false} UnforcedAreStarts(marks: seq<Mark>, w: int)
    ensures StartsIn(marks, w, false) <= StartsIn(marks, w, true)
  {
    if marks != [] { UnforcedAreStarts(marks[..|marks| - 1], w); }
  }

  lemma {:induction false} AfterMark(marks: seq<Mark>, m: Mark, w: int)
    ensures StartsIn(marks + [m], w, true) == StartsIn(marks, w, true) + (if m.Began? && WindowStart(m.at) == w then 1 else 0)
    ensures StartsIn(marks + [m], w, false) == StartsIn(marks, w, false) + (if m.Began? && WindowStart(m.at) == w && !m.forced then 1 else 0)
    ensures Tally(marks + [m], w) ==
      match m
      case Began(_, _) => Tally(marks, w)
      case Served(at, tokens) => if WindowStart(at) == w then (Tally(marks, w).0 + 1, Tally(marks, w).1 + tokens) else Tally(marks, w)
      case Renewed(_) => (0, 0)
  {
    assert (marks + [m])[..|marks|] == marks;
  }
}
