/** The egress pool as mutable objects: each method updates the bucket records
    and the affinity table in place and is proved against `PoolSpec`. */
module EgressPools {
  import opened Basics
  import opened EgressModels
  import opened PoolSpec

  class EgressState {
    const name: string
    var inflight: int
    var failures: nat
    var cordonedUntil: int
    var reason: Reason
    var cooldownUntil: int
    var healthy: bool
    var rotating: bool
    var softFailStreak: nat
    var ip: string

    constructor (name: string)
      ensures View() == FreshBucket(name)
    {
      this.name := name;
      inflight, failures, cordonedUntil, reason, cooldownUntil := 0, 0, 0, NoReason, 0;
      healthy, rotating, softFailStreak, ip := false, false, 0, "";
    }

    function View(): Bucket
      reads this
    {
      Bucket(name, inflight, failures, cordonedUntil, reason, cooldownUntil, healthy, rotating, softFailStreak, ip)
    }

    method EnterCordon(until: int, verdict: Reason, now: int)
      modifies this
      ensures View() == PoolSpec.EnterCordon(old(View()), until, verdict, now)
    {
      var live := cordonedUntil > now;
      var already := live && reason == verdict;
      if already || (live && until <= cordonedUntil) {
        if !already { return; }
        cordonedUntil := Max(cordonedUntil, until);
        return;
      }
      cordonedUntil := until;
      reason := verdict;
    }

    method EnterCooldown(c: Config, now: int)
      modifies this
      ensures View() == PoolSpec.EnterCooldown(c, old(View()), now)
    {
      var streak := Max(1, failures);
      var seconds := Min(c.cooldown * streak, c.cooldownMax);
      cooldownUntil := Max(cooldownUntil, now + seconds);
    }

    method LiftCordonOnSuccess(now: int)
      modifies this
      ensures View() == LiftOnSuccess(old(View()), now)
    {
      if cordonedUntil <= now { return; }
      if reason == NoReason { return; }
      cordonedUntil := 0;
      reason := NoReason;
    }

    method Complete(now: int)
      modifies this
      ensures View() == LiftOnSuccess(old(View()).(failures := 0, cooldownUntil := 0), now)
    {
      failures := 0;
      cooldownUntil := 0;
      LiftCordonOnSuccess(now);
    }

    method Throttle(c: Config, after: Option<int>, now: int, wall: int)
      modifies this
      ensures View() == Throttled(c, old(View()), after, now, wall)
    {
      if after.Some? && after.value <= HARD_QUOTA_RETRY_AFTER {
        EnterCordon(now + Max(30 * SECOND, after.value), QuotaSoft, now);
      } else {
        EnterCordon(now + QuotaCordon(c, wall), QuotaExhausted, now);
      }
    }

    /** Fold a release's verdict into the bucket. */
    method Judge(c: Config, v: Verdict, now: int, wall: int)
      modifies this
      ensures View() == PoolSpec.Judge(c, old(View()), v, now, wall)
    {
      if v.Ok? {
        Complete(now);
        return;
      }
      failures := failures + 1;
      assert View() == old(View().(failures := View().failures + 1));
      match v
      case Quota(after) => Throttle(c, after, now, wall);
      case Flagged => EnterCordon(now + c.cordon, TierRejected, now);
      case Fault => EnterCooldown(c, now);
    }

    method LiftIpScopedCordon()
      modifies this
      ensures View() == LiftOnNewIp(old(View()))
    {
      if reason != QuotaExhausted && reason != TierRejected { return; }
      cordonedUntil := 0;
      reason := NoReason;
      failures := 0;
    }

    method MarkProbeFailed()
      modifies this
      ensures View() == PoolSpec.MarkProbeFailed(old(View()))
    {
      healthy := false;
    }

    /** A probe that got an answer; `newIp` is "" when it carried no address. */
    method ProbeAnswer(c: Config, ready: bool, newIp: string, now: int)
      modifies this
      ensures View() == ProbeAnswered(c, old(View()), ready, newIp, now)
    {
      var previousOk := healthy;
      var ipChanged := false;
      if newIp != "" {
        ipChanged := newIp != ip;
        ip := newIp;
      }
      if !ready {
        softFailStreak := softFailStreak + 1;
        if softFailStreak < c.probeFailTolerance { return; }
        MarkProbeFailed();
        return;
      }
      healthy := true;
      softFailStreak := 0;
      if ipChanged { LiftIpScopedCordon(); }
      if !previousOk && cordonedUntil <= now {
        failures := 0;
        reason := NoReason;
      }
    }

    method RotationSucceeded(newIp: string)
      modifies this
      ensures View() == PoolSpec.RotationSucceeded(old(View()), newIp)
    {
      ip := newIp;
      healthy := true;
      failures := 0;
      cordonedUntil := 0;
      reason := NoReason;
      cooldownUntil := 0;
    }
  }

  class Lease {
    const state: EgressState
    var released: bool
    var tokens: int

    constructor (state: EgressState)
      ensures this.state == state && !released && tokens == 0
    {
      this.state := state;
      released, tokens := false, 0;
    }
  }

  class EgressPool {
    const cfg: Config
    const states: seq<EgressState>
    var affinity: map<string, Binding>
    var rr: nat

    /** One record per bucket, never shared. */
    ghost predicate Valid() {
      forall i, j :: 0 <= i < j < |states| ==> states[i] != states[j]
    }

    function Buckets(): seq<Bucket>
      reads states
    {
      seq(|states|, i requires 0 <= i < |states| reads states => states[i].View())
    }

    function View(): Pool
      reads this, states
    {
      Pool(cfg, Buckets(), affinity, rr)
    }

    constructor (raw: Config, names: seq<string>)
      requires names != []
      ensures Valid() && fresh(states) && View() == FreshPool(raw, names)
    {
      var list: seq<EgressState> := [];
      for k := 0 to |names|
        invariant |list| == k && fresh(list)
        invariant forall i :: 0 <= i < k ==> list[i].View() == FreshBucket(names[i])
        invariant forall i, j :: 0 <= i < j < k ==> list[i] != list[j]
      {
        var s := new EgressState(names[k]);
        list := list + [s];
      }
      cfg := Normalised(raw);
      states := list;
      affinity, rr := map[], 0;
    }

    lemma OnlyChanged(i: nat, before: seq<Bucket>)
      requires Valid() && i < |states| == |before|
      requires forall k :: 0 <= k < |states| && k != i ==> states[k].View() == before[k]
      ensures Buckets() == before[i := states[i].View()]
    {
    }

    /** Take the slot and (re)bind the session to the bucket that serves it. */
    method Hand(i: nat, key: string, began: int, now: int)
      requires Valid() && i < |states|
      modifies this, states[i]
      ensures View() == Grant(old(View()), i, key, began, now)
    {
      ghost var before := Buckets();
      var state := states[i];
      state.inflight := state.inflight + 1;
      OnlyChanged(i, before);
      if key != "" && state.healthy && state.cordonedUntil <= began {
        affinity := affinity[key := Binding(state.name, now)];
      }
    }

    /** Lazy expiry of bindings; the session's own goes too if it has no home. */
    method Purge(now: int, key: string, sticky: Option<nat>)
      requires Valid() && sticky == Home(View(), now, key)
      modifies `affinity
      ensures View() == old(View()).(affinity := Bindings(old(View()), now, key))
    {
      if key != "" && cfg.affinityTtl > 0 {
        affinity := Purged(View(), now);
        if sticky.None? { affinity := affinity - {key}; }
      }
    }

    /** Session affinity, then rotation: fix the order this caller is offered. */
    method Arrange(now: int, key: string, usable: seq<nat>) returns (rotated: seq<nat>)
      requires Valid() && Nominated(View(), usable)
      modifies this
      ensures var c := Choose(old(View()), now, key, usable);
        rotated == c.order && View() == old(View()).(affinity := c.affinity, rr := c.rr)
    {
      var sticky := Home(View(), now, key);
      Purge(now, key, sticky);
      if sticky.Some? { return [sticky.value]; }
      var offset := rr % |usable|;
      rotated := Rotate(usable, offset);
      if key != "" { rotated := SortByLoad(rotated, LoadsAt(View(), now)); }
      rr := rr + 1;
    }

    /** The per-bucket concurrency gate. */
    method Gate(now: int, key: string, rotated: seq<nat>) returns (o: Outcome)
      requires Valid() && Nominated(View(), rotated)
      modifies this, states
      ensures (View(), o) == Serve(old(View()), now, key, rotated)
    {
      if cfg.maxInflight > 0 {
        o := Poll(now, key, Ticket(rotated, now + cfg.inflightWait, now));
      } else {
        var i := FirstMin(Buckets(), rotated);
        Hand(i, key, now, now);
        o := Granted(i);
      }
    }

    /** The synchronous part of `acquire`, up to its first suspension. */
    method Acquire(now: int, key: string, exclude: set<string>) returns (o: Outcome)
      requires Valid()
      modifies this, states
      ensures (View(), o) == Begin(old(View()), now, key, exclude)
    {
      var usable := Usable(View(), now, exclude);
      UsableIsNominated(View(), now, exclude);
      if usable == [] { return Exhausted; }
      ChoiceIsUsable(View(), now, key, usable);
      var rotated := Arrange(now, key, usable);
      o := Gate(now, key, rotated);
    }

    /** One pass of the waiting loop of `acquire`. */
    method Poll(now: int, key: string, t: Ticket) returns (o: Outcome)
      requires Valid() && ValidTicket(View(), t)
      modifies this, states
      ensures (View(), o) == Wake(old(View()), now, key, t)
    {
      var room := WithRoom(View(), t.order);
      if room == [] && now < t.deadline { return Queued(t); }
      var i := FirstMin(Buckets(), if room != [] then room else t.order);
      Hand(i, key, t.began, now);
      o := Granted(i);
    }

    /** Release a lease and fold its outcome into the bucket; a second call for
        the same lease changes nothing. */
    method Release(lease: Lease, v: Verdict, now: int, wall: int, ghost i: nat)
      requires Valid() && i < |states| && states[i] == lease.state
      modifies lease, lease.state
      ensures lease.released
      ensures old(lease.released) ==> View() == old(View())
      ensures !old(lease.released) ==>
        View() == old(View()).(buckets := old(Buckets())[i := PoolSpec.Release(cfg, old(lease.state.View()), v, now, wall)])
    {
      ghost var before := Buckets();
      if lease.released { return; }
      lease.released := true;
      lease.state.inflight := Max(0, lease.state.inflight - 1);
      lease.state.Judge(cfg, v, now, wall);
      OnlyChanged(i, before);
    }

    /** Drop a lease with no verdict: only the slot goes back. */
    method Abandon(lease: Lease, ghost i: nat)
      requires Valid() && i < |states| && states[i] == lease.state
      modifies lease, lease.state
      ensures lease.released
      ensures old(lease.released) ==> View() == old(View())
      ensures !old(lease.released) ==>
        View() == old(View()).(buckets := old(Buckets())[i := ReturnSlot(old(lease.state.View()))])
    {
      ghost var before := Buckets();
      if lease.released { return; }
      lease.released := true;
      lease.state.inflight := Max(0, lease.state.inflight - 1);
      OnlyChanged(i, before);
    }

    method MarkRotating(name: string, on: bool) returns (changed: bool)
      requires Valid()
      modifies states
      ensures var i := Find(old(Buckets()), name);
        && changed == (i.Some? && old(Buckets())[i.value].rotating != on)
        && View() == (if i.Some? then old(View()).(buckets := old(Buckets())[i.value := old(Buckets())[i.value].(rotating := on)])
                      else old(View()))
    {
      ghost var before := Buckets();
      var i := Find(Buckets(), name);
      if i.None? || states[i.value].rotating == on {
        assert i.Some? ==> before == before[i.value := before[i.value].(rotating := on)];
        return false;
      }
      states[i.value].rotating := on;
      OnlyChanged(i.value, before);
      return true;
    }

    method ApplyRotationSuccess(name: string, ip: string) returns (applied: bool)
      requires Valid()
      modifies states
      ensures var i := Find(old(Buckets()), name);
        && applied == i.Some?
        && View() == (if i.Some? then old(View()).(buckets := old(Buckets())[i.value := RotationSucceeded(old(Buckets())[i.value], ip)])
                      else old(View()))
    {
      ghost var before := Buckets();
      var i := Find(Buckets(), name);
      if i.None? { return false; }
      states[i.value].RotationSucceeded(ip);
      OnlyChanged(i.value, before);
      return true;
    }
  }
}
