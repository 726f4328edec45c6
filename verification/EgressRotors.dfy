/** Counters and rotation driver as mutable objects: a table of records and a
    snapshot rewritten on every save, one task slot and one retry timer per
    bucket.  Each method is proved against `RotorSpec`. */
module EgressRotors {
  import opened Basics
  import opened EgressModels
  import opened RotorSpec

  function Lookup<V>(m: map<string, V>, name: string): Option<V> { if name in m then Some(m[name]) else None }

  class EgressCounters {
    const thresholds: map<string, int>
    const tokenBudgets: map<string, int>
    const hard: int
    const cooldown: int
    const floor: int
    var records: map<string, Counts>
    var snapshot: map<string, Counts>

    function RulesOf(name: string, cap: nat, onHard429: bool): Rules {
      Rules(if name in thresholds then thresholds[name] else 0,
            if name in tokenBudgets then tokenBudgets[name] else 0,
            hard, cooldown, floor, cap, onHard429, name in thresholds || name in tokenBudgets)
    }

    /** A new process: read the snapshot back, replace rows of earlier windows,
        drop buckets that are no longer metered. */
    constructor (thresholds: map<string, int>, budgets: map<string, int>, hard: int, cooldown: int, floor: int,
                 snapshot: map<string, Counts>, now: int)
      ensures this.snapshot == snapshot && this.thresholds == thresholds
      ensures this.hard == hard && this.cooldown == cooldown && this.floor == floor
      ensures tokenBudgets == map n | n in budgets && budgets[n] > 0 :: budgets[n]
      ensures forall n :: Lookup(records, n) == Loaded(RulesOf(n, 0, false), Lookup(snapshot, n), now)
    {
      this.thresholds, this.hard, this.cooldown, this.floor := thresholds, hard, cooldown, floor;
      tokenBudgets := map n | n in budgets && budgets[n] > 0 :: budgets[n];
      this.snapshot := snapshot;
      records := snapshot;
      new;
      var win := WindowStart(now);
      var stale := set n | n in records && 0 < records[n].window < win;
      records := map n | n in records :: if n in stale then Fresh(win) else records[n];
      var retired := set n | n in records && n !in thresholds && n !in tokenBudgets;
      records := records - retired;
    }

    method RecordFor(name: string, now: int) returns (rec: Counts)
      modifies `records
      ensures rec == RecordAt(Lookup(old(records), name), now)
      ensures records == old(records)[name := rec]
    {
      var win := WindowStart(now);
      if name !in records {
        rec := Fresh(win);
      } else {
        rec := records[name];
        if rec.window != win { rec := rec.(window := win, count := 0, tokens := 0, triggered := false, rotations := 0); }
      }
      records := records[name := rec];
    }

    method Save()
      modifies `snapshot
      ensures snapshot == records
    {
      snapshot := records;
    }

    method RotationAvailable(rec: Counts, now: int, ghost rules: Rules) returns (ok: bool)
      requires rules.cooldown == cooldown
      ensures ok == Armed(rules, rec, now)
    {
      if !rec.triggered { return true; }
      ok := rec.lastOk == Some(false) && rec.lastEpoch > 0 && now - rec.lastEpoch >= cooldown;
    }

    /** Fold one ok request; true when a trigger now fires. */
    method Record(name: string, newTokens: int, now: int) returns (fires: bool)
      modifies this
      ensures var c := Counted(RecordAt(Lookup(old(records), name), now), newTokens); var rules := RulesOf(name, 0, false);
        && (fires <==> Armed(rules, c, now) && Due(rules, c))
        && records == old(records)[name := if fires then c.(triggered := true) else c]
      ensures snapshot == records
    {
      var rec := RecordFor(name, now);
      rec := rec.(count := rec.count + 1);
      if newTokens > 0 { rec := rec.(tokens := rec.tokens + newTokens); }
      var countThreshold := if name in thresholds then thresholds[name] else 0;
      var tokenBudget := if name in tokenBudgets then tokenBudgets[name] else 0;
      fires := false;
      var available := RotationAvailable(rec, now, RulesOf(name, 0, false));
      if available {
        if countThreshold > 0 && rec.count >= countThreshold { fires := true; }
        else if tokenBudget > 0 && rec.tokens >= tokenBudget { fires := true; }
      }
      if fires { rec := rec.(triggered := true); }
      records := records[name := rec];
      Save();
    }

    method NoteRotationStarted(name: string, now: int)
      modifies this
      ensures records == old(records)[name := Begun(RecordAt(Lookup(old(records), name), now))] && snapshot == records
    {
      var rec := RecordFor(name, now);
      records := records[name := rec.(rotations := rec.rotations + 1, triggered := true)];
      Save();
    }

    method Reset(name: string, now: int)
      modifies this
      ensures snapshot == records
      ensures records == old(records)[name := RecordAt(Lookup(old(records), name), now).(count := 0, tokens := 0, triggered := false)]
    {
      var rec := RecordFor(name, now);
      records := records[name := rec.(count := 0, tokens := 0, triggered := false)];
      Save();
    }

    method NoteRotationResult(name: string, ok: bool, now: int)
      modifies this
      ensures records == old(records)[name := WithResult(RecordAt(Lookup(old(records), name), now), ok, now)] && snapshot == records
    {
      var rec := RecordFor(name, now);
      records := records[name := rec.(lastOk := Some(ok), lastEpoch := now)];
      Save();
    }

    method ShouldRotateOn429(name: string, retryAfter: Option<int>, now: int) returns (ok: bool)
      modifies `records
      ensures var c := RecordAt(Lookup(old(records), name), now); var rules := RulesOf(name, 0, false);
        && records == old(records)[name := c]
        && (ok <==> HardQuota(rules, retryAfter) && Armed(rules, c, now) && Spaced(rules, c, now))
    {
      var rec := RecordFor(name, now);
      if retryAfter.Some? && retryAfter.value <= hard { return false; }
      ok := RotationAvailable(rec, now, RulesOf(name, 0, false));
      if rec.lastOk == Some(true) && rec.lastEpoch > 0 && now - rec.lastEpoch < floor { ok := false; }
    }

    method ShouldRotateOnFreeTier(name: string, now: int) returns (ok: bool)
      modifies `records
      ensures var c := RecordAt(Lookup(old(records), name), now); var rules := RulesOf(name, 0, false);
        && records == old(records)[name := c] && (ok <==> Armed(rules, c, now) && Spaced(rules, c, now))
    {
      var rec := RecordFor(name, now);
      ok := RotationAvailable(rec, now, RulesOf(name, 0, false));
      if rec.lastOk == Some(true) && rec.lastEpoch > 0 && now - rec.lastEpoch < floor { ok := false; }
    }
  }

  class EgressRotator {
    const counters: EgressCounters
    const onHard429: bool
    const cap: nat
    var flagged: set<string>        // buckets the pool shows as rotating
    var tasks: set<string>          // rotation tasks not done
    var timers: map<string, int>    // pending retries and when they are due

    constructor (counters: EgressCounters, onHard429: bool, cap: int)
      ensures this.counters == counters && this.onHard429 == onHard429 && this.cap == Max(1, cap)
      ensures flagged == {} && tasks == {} && timers == map[]
    {
      this.counters, this.onHard429, this.cap := counters, onHard429, Max(1, cap);
      flagged, tasks, timers := {}, {}, map[];
    }

    function RulesFor(name: string): Rules { counters.RulesOf(name, cap, onHard429) }

    /** Everything there is to know about one bucket. */
    ghost function View(name: string): Rotor
      reads this, counters
    {
      Rotor(RulesFor(name), Lookup(counters.records, name), Lookup(counters.snapshot, name),
            name in tasks, name in flagged, Lookup(timers, name))
    }

    /** Other buckets see at most their record written to the snapshot. */
    twostate predicate OthersKept(name: string)
      reads this, counters
    {
      forall m :: m != name ==> View(m) == old(View(m)) || View(m) == Next(old(View(m)), 0, SavedForOther)
    }

    /** Nothing but `name` is touched, and the records were saved. */
    twostate predicate OnlySaved(name: string)
      reads this, counters
    {
      && counters.snapshot == counters.records
      && counters.records - {name} == old(counters.records) - {name} && timers - {name} == old(timers) - {name}
      && tasks - {name} == old(tasks) - {name} && flagged - {name} == old(flagged) - {name}
    }

    twostate lemma SavingKeepsOthers(name: string)
      requires OnlySaved(name)
      ensures OthersKept(name)
    {
      forall m | m != name ensures View(m) == Next(old(View(m)), 0, SavedForOther) {
        assert m in counters.records - {name} <==> m in counters.records;
        assert m in old(counters.records) - {name} <==> m in old(counters.records);
        assert m in timers - {name} <==> m in timers;
        assert m in old(timers) - {name} <==> m in old(timers);
        assert m in tasks - {name} <==> m in tasks;
        assert m in flagged - {name} <==> m in flagged;
      }
    }

    method RequestRotation(name: string, force: bool, now: int) returns (started: bool)
      modifies this, counters
      ensures OthersKept(name) && View(name) == Request(old(View(name)), now, force)
      ensures started <==> !Refuses(old(View(name)), now, force)
    {
      if !RulesFor(name).configured || name in tasks { return false; }
      if !force {
        var rec := counters.RecordFor(name, now);
        if rec.rotations >= cap { return false; }
      }
      counters.NoteRotationStarted(name, now);
      flagged := flagged + {name};
      tasks := tasks + {name};
      SavingKeepsOthers(name);
      return true;
    }

    method OnRelease(name: string, ok: bool, kind: string, retryAfter: Option<int>, tokens: int, now: int)
      modifies this, counters
      ensures OthersKept(name)
      ensures ok ==> View(name) == Next(old(View(name)), now, OkRelease(tokens))
      ensures !ok && kind == "http_429" ==> View(name) == Next(old(View(name)), now, Quota429(retryAfter))
      ensures !ok && kind == "free_tier_rejected" ==> View(name) == Next(old(View(name)), now, Event.TierRejected)
      ensures !ok && kind != "http_429" && kind != "free_tier_rejected" ==> View(name) == old(View(name))
    {
      if ok {
        OnOkRelease(name, tokens, now);
      } else if kind == "http_429" {
        OnQuota(name, retryAfter, now);
      } else if kind == "free_tier_rejected" {
        OnTierRejection(name, now);
      }
    }

    method OnQuota(name: string, retryAfter: Option<int>, now: int)
      modifies this, counters
      ensures OthersKept(name) && View(name) == Next(old(View(name)), now, Quota429(retryAfter))
    {
      if onHard429 {
        var wanted := counters.ShouldRotateOn429(name, retryAfter, now);
        if wanted { var _ := RequestRotation(name, false, now); }
      }
    }

    method OnTierRejection(name: string, now: int)
      modifies this, counters
      ensures OthersKept(name) && View(name) == OnRejection(old(View(name)), now, true)
    {
      var wanted := counters.ShouldRotateOnFreeTier(name, now);
      if wanted { var _ := RequestRotation(name, false, now); }
    }

    method OnOkRelease(name: string, tokens: int, now: int)
      modifies this, counters
      ensures OthersKept(name) && View(name) == OnOk(old(View(name)), now, tokens)
    {
      var fires := counters.Record(name, tokens, now);
      if fires { var _ := RequestRotation(name, false, now); }
    }

    method ScheduleRetry(name: string, now: int)
      modifies `timers, counters`records
      ensures var c := RecordAt(Lookup(old(counters.records), name), now);
        && counters.records == old(counters.records)[name := c]
        && timers == if c.rotations < cap && name !in old(timers) then old(timers)[name := now + counters.cooldown] else old(timers)
    {
      var rec := counters.RecordFor(name, now);
      if rec.rotations >= cap { return; }
      if name in timers { return; }
      timers := timers[name := now + counters.cooldown];
    }

    /** The last stretch of a rotation task, once the flow has an outcome. */
    method Finish(name: string, ok: bool, now: int)
      requires name in tasks
      modifies this, counters
      ensures OthersKept(name) && View(name) == Next(old(View(name)), now, FlowDone(ok))
    {
      if ok { counters.Reset(name, now); } else { ScheduleRetry(name, now); }
      counters.NoteRotationResult(name, ok, now);
      flagged := flagged - {name};
      tasks := tasks - {name};
      SavingKeepsOthers(name);
    }

    method RetryLater(name: string, now: int)
      requires name in timers && timers[name] <= now
      modifies this, counters
      ensures OthersKept(name) && View(name) == Next(old(View(name)), now, TimerFires)
    {
      timers := timers - {name};
      if name in tasks { return; }
      var rec := counters.RecordFor(name, now);
      if rec.lastOk != Some(false) { return; }
      if rec.rotations >= cap { return; }
      var _ := RequestRotation(name, false, now);
    }

    /** Gateway shutdown.  Every task is cancelled first, then awaited in turn;
        `finished` are the ones already done when the loop reaches them, having
        unwound while an earlier one was awaited.  Exactly the others are noted
        as failed. */
    method Close(finished: set<string>, at: string -> int)
      modifies this, counters
      ensures tasks == {} && timers == map[] && flagged == old(flagged)
      ensures old(tasks) <= finished ==> counters.snapshot == old(counters.snapshot)
      ensures !(old(tasks) <= finished) ==>
                forall n :: Lookup(counters.snapshot, n) ==
                            (if n in old(tasks) && n !in finished
                             then Some(WithResult(RecordAt(Lookup(old(counters.records), n), at(n)), false, at(n)))
                             else Lookup(old(counters.records), n))
    {
      ghost var before := counters.records;
      timers := map[];
      var todo := tasks;
      while todo != {}
        invariant todo <= tasks == old(tasks) && timers == map[] && flagged == old(flagged)
        invariant tasks - todo <= finished ==> counters.snapshot == old(counters.snapshot) && counters.records == before
        invariant !(tasks - todo <= finished) ==> counters.snapshot == counters.records
        invariant forall n :: n in tasks && n !in todo && n !in finished ==>
                    Lookup(counters.records, n) == Some(WithResult(RecordAt(Lookup(before, n), at(n)), false, at(n)))
        invariant forall n :: n !in tasks || n in todo || n in finished ==> Lookup(counters.records, n) == Lookup(before, n)
        decreases |todo|
      {
        var n :| n in todo;
        if n !in finished { counters.NoteRotationResult(n, false, at(n)); }
        todo := todo - {n};
      }
      tasks := {};
    }
  }
}
