/** What every run of the egress pool keeps: who may be handed out, how long a
    bench lasts, and what can end it. */
module PoolSafety {
  import opened Basics
  import opened EgressModels
  import opened PoolSpec

  // ------------------------------------------------- what an acquire hands out

  /** An acquire is refused exactly when every bucket outside `exclude` is
      cordoned, or healthy and mid-rotation. */
  lemma {:induction false} RefusedExactly(p: Pool, now: int, key: string, exclude: set<string>)
    ensures Begin(p, now, key, exclude).1.Exhausted? <==>
      forall b :: b in p.buckets && b.name !in exclude ==> b.Cordoned(now) || (b.healthy && b.rotating)
  {
    ExhaustedExactly(p, now, exclude);
  }

  ghost predicate OneMoreOn(before: Pool, after: Pool, i: nat) {
    && i < |before.buckets|
    && after.cfg == before.cfg
    && after.buckets == before.buckets[i := before.buckets[i].(inflight := before.buckets[i].inflight + 1)]
  }

  /** A queued caller is served from the order fixed before the wait, below the
      cap unless its deadline has passed. */
  lemma {:induction false} WakeIsFromTicket(p: Pool, now: int, key: string, t: Ticket)
    requires ValidTicket(p, t)
    ensures var (q, o) := Wake(p, now, key, t);
      match o
      case Granted(i) =>
        && i in t.order && OneMoreOn(p, q, i)
        && (p.buckets[i].inflight < p.cfg.maxInflight
            || (now >= t.deadline && forall j :: j in t.order ==> p.buckets[j].inflight >= p.cfg.maxInflight))
      case Exhausted => false
      case Queued(u) => q == p && u == t && now < t.deadline
                        && forall j :: j in t.order ==> p.buckets[j].inflight >= p.cfg.maxInflight
  {
    var room := WithRoom(p, t.order);
    if room == [] {
      forall j | j in t.order ensures p.buckets[j].inflight >= p.cfg.maxInflight {
        WithRoomFacts(p, t.order, j);
      }
      var k := FirstMinAt(p.buckets, t.order);
    } else {
      var k := FirstMinAt(p.buckets, room);
      WithRoomFacts(p, t.order, FirstMin(p.buckets, room));
    }
  }

  /** ... and gets the one with the least in-flight work. */
  lemma {:induction false} WakePicksLeast(p: Pool, now: int, key: string, t: Ticket, j: nat)
    requires ValidTicket(p, t) && Wake(p, now, key, t).1.Granted? && j in t.order && j < |p.buckets|
    ensures var i := Wake(p, now, key, t).1.bucket; i < |p.buckets| && p.buckets[i].inflight <= p.buckets[j].inflight
  {
    var room := WithRoom(p, t.order);
    WithRoomFacts(p, t.order, j);
    var k := FirstMinAt(p.buckets, if room == [] then t.order else room);
    WithRoomFacts(p, t.order, FirstMin(p.buckets, if room == [] then t.order else room));
  }

  lemma {:induction false} ServeIsFromOrder(p: Pool, now: int, key: string, order: seq<nat>)
    requires order != [] && InRange(p.buckets, order)
    ensures var (q, o) := Serve(p, now, key, order);
      match o
      case Granted(i) =>
        && i in order && OneMoreOn(p, q, i)
        && (p.cfg.maxInflight > 0 && p.cfg.inflightWait > 0 ==> p.buckets[i].inflight < p.cfg.maxInflight)
      case Exhausted => false
      case Queued(t) =>
        && q == p && t == Ticket(order, now + p.cfg.inflightWait, now) && p.cfg.maxInflight > 0
        && forall j :: j in order ==> p.buckets[j].inflight >= p.cfg.maxInflight
  {
    if p.cfg.maxInflight > 0 {
      WakeIsFromTicket(p, now, key, Ticket(order, now + p.cfg.inflightWait, now));
    } else {
      var k := FirstMinAt(p.buckets, order);
    }
  }

  lemma {:induction false} BeginWithIsFromChoice(p: Pool, now: int, key: string, usable: seq<nat>)
    requires Nominated(p, usable)
    ensures var (q, o) := BeginWith(p, now, key, usable);
      && q.cfg == p.cfg
      && match o
         case Granted(i) =>
           && OneMoreOn(p, q, i)
           && (i in usable || Home(p, now, key) == Some(i))
           && (p.cfg.maxInflight > 0 && p.cfg.inflightWait > 0 ==> p.buckets[i].inflight < p.cfg.maxInflight)
         case Exhausted => false
         case Queued(t) =>
           && q.buckets == p.buckets && ValidTicket(q, t) && t.began == now && t.deadline == now + p.cfg.inflightWait
           && forall i :: i in t.order ==>
                && p.buckets[i].inflight >= p.cfg.maxInflight > 0
                && (i in usable || Home(p, now, key) == Some(i))
  {
    ChoiceIsUsable(p, now, key, usable);
    var c := Choose(p, now, key, usable);
    ServeIsFromOrder(p.(affinity := c.affinity, rr := c.rr), now, key, c.order);
  }

  /** An immediate grant is never on a cordoned bucket, never on one the retry
      walk excluded, adds one in-flight slot there and touches nothing else;
      the cap is respected unless queueing is switched off. */
  lemma {:induction false} GrantIsEligible(p: Pool, now: int, key: string, exclude: set<string>)
    ensures var (q, o) := Begin(p, now, key, exclude);
      match o
      case Granted(i) =>
        && OneMoreOn(p, q, i)
        && Selectable(p.buckets[i], now)
        && (key == "" ==> p.buckets[i].name !in exclude)
        && (p.cfg.maxInflight > 0 && p.cfg.inflightWait > 0 ==> p.buckets[i].inflight < p.cfg.maxInflight)
      case Exhausted => q == p
      case Queued(t) =>
        && q.buckets == p.buckets && q.cfg == p.cfg && ValidTicket(q, t)
        && t.began == now && t.deadline == now + p.cfg.inflightWait
        && (forall i :: i in t.order ==>
              && Selectable(p.buckets[i], now) && p.buckets[i].inflight >= p.cfg.maxInflight > 0
              && (key == "" ==> p.buckets[i].name !in exclude))
  {
    var usable := Usable(p, now, exclude);
    UsableIsNominated(p, now, exclude);
    if usable != [] { BeginWithIsFromChoice(p, now, key, usable); }
  }

  // ------------------------------------------------------- bench invariants

  function CordonBound(c: Config): int {
    Max(HARD_QUOTA_RETRY_AFTER, Max(c.cordon, if c.quotaCordonMax > 0 then Min(DAY, c.quotaCordonMax) else DAY))
  }

  /** A live cordon names a verdict, and both remaining times are bounded. */
  ghost predicate Sound(c: Config, b: Bucket, now: int) {
    && (b.Cordoned(now) ==> b.reason != NoReason)
    && b.cordonedUntil - now <= CordonBound(c)
    && b.cooldownUntil - now <= c.cooldownMax
    && 0 <= b.inflight
  }

  ghost predicate ConfigOk(c: Config) { 0 < c.cooldown <= c.cooldownMax }

  ghost predicate SoundPool(p: Pool, now: int) {
    ConfigOk(p.cfg) && 0 <= now && forall i :: 0 <= i < |p.buckets| ==> Sound(p.cfg, p.buckets[i], now)
  }

  lemma {:induction false} QuotaCordonBounded(c: Config, wall: int)
    ensures 0 <= QuotaCordon(c, wall) <= CordonBound(c)
  {
    WindowIsUtcDay(wall);
  }

  lemma {:induction false} CooldownLength(c: Config, b: Bucket)
    requires ConfigOk(c)
    ensures c.cooldown <= Min(c.cooldown * Max(1, b.failures), c.cooldownMax) <= c.cooldownMax
  {
    var k := Max(1, b.failures);
    assert c.cooldown * k == c.cooldown * (k - 1) + c.cooldown;
  }

  lemma {:induction false} SoundCordon(c: Config, b: Bucket, until: int, reason: Reason, now: int)
    requires Sound(c, b, now) && reason != NoReason && until - now <= CordonBound(c)
    ensures Sound(c, EnterCordon(b, until, reason, now), now) && EnterCordon(b, until, reason, now).name == b.name
  {
  }

  lemma {:induction false} SoundCooldown(c: Config, b: Bucket, now: int)
    requires ConfigOk(c) && Sound(c, b, now)
    ensures Sound(c, EnterCooldown(c, b, now), now) && EnterCooldown(c, b, now).name == b.name
  {
    CooldownLength(c, b);
  }

  /** Each verdict on a bucket whose slot has been given back. */
  lemma {:induction false} SoundQuota(c: Config, b: Bucket, after: Option<int>, now: int, wall: int)
    requires Sound(c, b, now)
    ensures Sound(c, Judge(c, b, Quota(after), now, wall), now)
  {
    var d := b.(failures := b.failures + 1);
    if after.Some? && after.value <= HARD_QUOTA_RETRY_AFTER {
      SoundCordon(c, d, now + Max(30 * SECOND, after.value), QuotaSoft, now);
    } else {
      QuotaCordonBounded(c, wall);
      SoundCordon(c, d, now + QuotaCordon(c, wall), QuotaExhausted, now);
    }
  }

  lemma {:induction false} SoundFlagged(c: Config, b: Bucket, now: int, wall: int)
    requires Sound(c, b, now)
    ensures Sound(c, Judge(c, b, Flagged, now, wall), now)
  {
    SoundCordon(c, b.(failures := b.failures + 1), now + c.cordon, TierRejected, now);
  }

  lemma {:induction false} SoundFault(c: Config, b: Bucket, now: int, wall: int)
    requires ConfigOk(c) && Sound(c, b, now)
    ensures Sound(c, Judge(c, b, Fault, now, wall), now)
  {
    SoundCooldown(c, b.(failures := b.failures + 1), now);
  }

  lemma {:induction false} SoundOk(c: Config, b: Bucket, now: int, wall: int)
    requires ConfigOk(c) && 0 <= now && Sound(c, b, now)
    ensures Sound(c, Judge(c, b, Ok, now, wall), now)
  {
  }

  lemma {:induction false} SoundReturn(c: Config, b: Bucket, now: int)
    requires Sound(c, b, now)
    ensures Sound(c, ReturnSlot(b), now)
  {
  }

  lemma {:induction false} ReleaseKeepsName(c: Config, b: Bucket, v: Verdict, now: int, wall: int)
    ensures Release(c, b, v, now, wall).name == b.name
  {
  }

  lemma {:induction false} SoundRelease(c: Config, b: Bucket, v: Verdict, now: int, wall: int)
    requires ConfigOk(c) && 0 <= now && Sound(c, b, now)
    ensures Sound(c, Release(c, b, v, now, wall), now)
    ensures Release(c, b, v, now, wall).name == b.name
  {
    ReleaseKeepsName(c, b, v, now, wall);
    SoundReturn(c, b, now);
    var r := ReturnSlot(b);
    match v
    case Ok => SoundOk(c, r, now, wall);
    case Quota(after) => SoundQuota(c, r, after, now, wall);
    case Flagged => SoundFlagged(c, r, now, wall);
    case Fault => SoundFault(c, r, now, wall);
  }

  lemma {:induction false} SoundStep(c: Config, b: Bucket, now: int, e: Effect)
    requires ConfigOk(c) && 0 <= now && Sound(c, b, now)
    ensures Sound(c, OnBucket(c, b, now, e), now) && OnBucket(c, b, now, e).name == b.name
  {
    if e.Released? { SoundRelease(c, b, e.verdict, now, e.wall); }
  }

  /** One more lease leaves every bench alone. */
  lemma {:induction false} SoundGrant(p: Pool, q: Pool, now: int, i: nat)
    requires SoundPool(p, now) && OneMoreOn(p, q, i)
    ensures SoundPool(q, now) && |q.buckets| == |p.buckets|
    ensures forall j :: 0 <= j < |p.buckets| ==> q.buckets[j].name == p.buckets[j].name
  {
    forall j | 0 <= j < |q.buckets| ensures Sound(q.cfg, q.buckets[j], now) { assert Sound(p.cfg, p.buckets[j], now); }
  }

  lemma {:induction false} SoundAffects(p: Pool, now: int, i: nat, e: Effect)
    requires SoundPool(p, now) && i < |p.buckets|
    ensures var q := p.(buckets := p.buckets[i := OnBucket(p.cfg, p.buckets[i], now, e)]);
      SoundPool(q, now) && forall j :: 0 <= j < |p.buckets| ==> q.buckets[j].name == p.buckets[j].name
  {
    SoundStep(p.cfg, p.buckets[i], now, e);
    var q := p.(buckets := p.buckets[i := OnBucket(p.cfg, p.buckets[i], now, e)]);
    forall j | 0 <= j < |q.buckets| ensures Sound(q.cfg, q.buckets[j], now) { assert Sound(p.cfg, p.buckets[j], now); }
  }

  lemma {:induction false} SoundAcquire(p: Pool, now: int, key: string, exclude: set<string>)
    requires SoundPool(p, now)
    ensures var q := Begin(p, now, key, exclude).0;
      && SoundPool(q, now) && |q.buckets| == |p.buckets| && q.cfg == p.cfg
      && forall i :: 0 <= i < |p.buckets| ==> q.buckets[i].name == p.buckets[i].name
  {
    GrantIsEligible(p, now, key, exclude);
    var (q, o) := Begin(p, now, key, exclude);
    if o.Granted? { SoundGrant(p, q, now, o.bucket); }
  }

  lemma {:induction false} SoundWake(p: Pool, now: int, key: string, t: Ticket)
    requires SoundPool(p, now) && ValidTicket(p, t)
    ensures var q := Wake(p, now, key, t).0;
      && SoundPool(q, now) && |q.buckets| == |p.buckets| && q.cfg == p.cfg
      && forall i :: 0 <= i < |p.buckets| ==> q.buckets[i].name == p.buckets[i].name
  {
    WakeIsFromTicket(p, now, key, t);
    var (q, o) := Wake(p, now, key, t);
    if o.Granted? { SoundGrant(p, q, now, o.bucket); }
  }

  lemma {:induction false} SoundApply(p: Pool, now: int, e: Event)
    requires SoundPool(p, now)
    ensures SoundPool(Apply(p, now, e), now)
    ensures |Apply(p, now, e).buckets| == |p.buckets| && Apply(p, now, e).cfg == p.cfg
    ensures forall i :: 0 <= i < |p.buckets| ==> Apply(p, now, e).buckets[i].name == p.buckets[i].name
  {
    match e
    case Acquire(key, exclude) => SoundAcquire(p, now, key, exclude);
    case WakeUp(key, t) => if ValidTicket(p, t) { SoundWake(p, now, key, t); }
    case Affects(i, effect) => if i < |p.buckets| { SoundAffects(p, now, i, effect); }
  }

  /** In every reachable state each bucket is Sound: only the three verdicts
      bench a bucket, and never for longer than the configured bounds. */
  lemma {:induction false} EveryRunIsSound(raw: Config, names: seq<string>, start: nat, trace: seq<Timed>)
    requires ClockForward(start, trace)
    ensures SoundPool(Run(FreshPool(raw, names), trace), EndTime(start, trace))
  {
    if trace != [] {
      var front := trace[..|trace| - 1];
      EveryRunIsSound(raw, names, start, front);
      var p := Run(FreshPool(raw, names), front);
      var now := trace[|trace| - 1].now;
      assert EndTime(start, front) <= now;
      SoundApply(p, now, trace[|trace| - 1].event);
    }
  }

  /** The effects that may end a cordon early. */
  predicate LiftsCordon(b: Bucket, e: Effect) {
    match e
    case Released(v, _) => v.Ok?
    case Rotated(_) => true
    case ProbeAnswer(ready, ip) => ready && ip != "" && ip != b.ip && (b.reason == QuotaExhausted || b.reason == TierRejected)
    case _ => false
  }

  /** A live cordon's deadline moves earlier exactly on a lift, which ends it;
      any other effect keeps it live under a verdict and never shortens it. */
  lemma {:induction false} DeadlineStep(c: Config, b: Bucket, now: int, e: Effect)
    requires ConfigOk(c) && 0 <= now && Sound(c, b, now) && b.Cordoned(now)
    ensures var after := OnBucket(c, b, now, e);
      && (after.cordonedUntil < b.cordonedUntil <==> LiftsCordon(b, e))
      && (LiftsCordon(b, e) ==> !after.Cordoned(now) && after.reason == NoReason)
      && (!LiftsCordon(b, e) ==> after.reason == b.reason || after.cordonedUntil > b.cordonedUntil)
  {
    match e
    case Released(v, wall) => QuotaCordonBounded(c, wall);
    case _ =>
  }

  /** The event at `k` lifts bucket `i`'s cordon. */
  ghost predicate LiftAt(p: Pool, trace: seq<Timed>, i: nat, k: nat)
    requires k < |trace|
  {
    var q, e := Run(p, trace[..k]), trace[k].event;
    e.Affects? && e.bucket == i && i < |q.buckets| && LiftsCordon(q.buckets[i], e.effect)
  }

  /** After every prefix of the run bucket `i` is cordoned till `until` or later. */
  ghost predicate Benched(p: Pool, trace: seq<Timed>, i: nat, until: int) {
    forall k :: 0 <= k <= |trace| ==> i < |Run(p, trace[..k]).buckets| && Run(p, trace[..k]).buckets[i].cordonedUntil >= until
  }

  lemma {:induction false} PrefixIsSound(p: Pool, start: nat, trace: seq<Timed>)
    requires SoundPool(p, start) && ClockForward(start, trace)
    ensures SoundPool(Run(p, trace), EndTime(start, trace)) && |Run(p, trace).buckets| == |p.buckets|
  {
    if trace != [] {
      PrefixIsSound(p, start, trace[..|trace| - 1]);
      SoundApply(Run(p, trace[..|trace| - 1]), trace[|trace| - 1].now, trace[|trace| - 1].event);
    }
  }

  /** Events that do not name a bucket leave its benches alone. */
  lemma {:induction false} OtherEventsKeepBench(p: Pool, now: int, e: Event, i: nat)
    requires i < |p.buckets| && !(e.Affects? && e.bucket == i)
    ensures var q := Apply(p, now, e); i < |q.buckets| && q.buckets[i].cordonedUntil == p.buckets[i].cordonedUntil
  {
    match e
    case Acquire(key, exclude) => GrantIsEligible(p, now, key, exclude);
    case WakeUp(key, t) => if ValidTicket(p, t) { WakeIsFromTicket(p, now, key, t); }
    case Affects(_, _) =>
  }

  /** One event on a bucket benched till `until`. */
  lemma {:induction false} BenchStep(p: Pool, before: nat, i: nat, t: Timed, until: int)
    requires SoundPool(p, before) && before <= t.now < until && i < |p.buckets| && p.buckets[i].cordonedUntil >= until
    ensures var q := Apply(p, t.now, t.event);
      && i < |q.buckets|
      && (q.buckets[i].cordonedUntil >= until <==> !(t.event.Affects? && t.event.bucket == i && LiftsCordon(p.buckets[i], t.event.effect)))
  {
    if t.event.Affects? && t.event.bucket == i {
      DeadlineStep(p.cfg, p.buckets[i], t.now, t.event.effect);
    } else {
      OtherEventsKeepBench(p, t.now, t.event, i);
    }
  }

  lemma {:induction false} OneApply(p: Pool, trace: seq<Timed>, k: nat)
    requires k < |trace|
    ensures Run(p, trace[..k + 1]) == Apply(Run(p, trace[..k]), trace[k].now, trace[k].event)
  {
    assert trace[..k + 1][..k] == trace[..k];
  }

  lemma {:induction false} TimesBetween(start: int, trace: seq<Timed>, k: nat)
    requires ClockForward(start, trace) && k < |trace|
    ensures ClockForward(start, trace[..k]) && EndTime(start, trace[..k]) <= trace[k].now <= EndTime(start, trace) && start <= EndTime(start, trace[..k])
  {
  }

  lemma {:induction false} BenchedSoFar(p: Pool, start: nat, trace: seq<Timed>, i: nat, k: nat, until: int)
    requires SoundPool(p, start) && ClockForward(start, trace) && k < |trace| && EndTime(start, trace) < until
    requires i < |Run(p, trace[..k]).buckets| && Run(p, trace[..k]).buckets[i].cordonedUntil >= until
    ensures i < |Run(p, trace[..k + 1]).buckets|
    ensures Run(p, trace[..k + 1]).buckets[i].cordonedUntil >= until <==> !LiftAt(p, trace, i, k)
  {
    TimesBetween(start, trace, k);
    PrefixIsSound(p, start, trace[..k]);
    OneApply(p, trace, k);
    BenchStep(Run(p, trace[..k]), EndTime(start, trace[..k]), i, trace[k], until);
  }

  lemma {:induction false} BenchedWithoutLift(p: Pool, start: nat, trace: seq<Timed>, i: nat, k: nat)
    requires SoundPool(p, start) && ClockForward(start, trace) && k <= |trace| && i < |p.buckets| && EndTime(start, trace) < p.buckets[i].cordonedUntil
    requires forall j :: 0 <= j < |trace| ==> !LiftAt(p, trace, i, j)
    ensures i < |Run(p, trace[..k]).buckets| && Run(p, trace[..k]).buckets[i].cordonedUntil >= p.buckets[i].cordonedUntil
  {
    if k == 0 {
      assert trace[..0] == [];
    } else {
      BenchedWithoutLift(p, start, trace, i, k - 1);
      assert !LiftAt(p, trace, i, k - 1);
      BenchedSoFar(p, start, trace, i, k - 1, p.buckets[i].cordonedUntil);
    }
  }

  /** Over any run that ends before a live cordon's deadline, the deadline is
      kept throughout exactly when none of the lifts happens to the bucket. */
  lemma {:induction false} CordonKeptExactly(p: Pool, start: nat, trace: seq<Timed>, i: nat)
    requires SoundPool(p, start) && ClockForward(start, trace) && i < |p.buckets| && EndTime(start, trace) < p.buckets[i].cordonedUntil
    ensures Benched(p, trace, i, p.buckets[i].cordonedUntil) <==> forall k :: 0 <= k < |trace| ==> !LiftAt(p, trace, i, k)
  {
    if forall k :: 0 <= k < |trace| ==> !LiftAt(p, trace, i, k) {
      forall k | 0 <= k <= |trace|
        ensures i < |Run(p, trace[..k]).buckets| && Run(p, trace[..k]).buckets[i].cordonedUntil >= p.buckets[i].cordonedUntil
      {
        BenchedWithoutLift(p, start, trace, i, k);
      }
    } else {
      var k :| 0 <= k < |trace| && LiftAt(p, trace, i, k);
      if Benched(p, trace, i, p.buckets[i].cordonedUntil) { BenchedSoFar(p, start, trace, i, k, p.buckets[i].cordonedUntil); }
    }
  }

  predicate ProvesBucket(e: Effect) { (e.Released? && e.verdict.Ok?) || e.Rotated? }

  /** The event at `k` is a completed request or a verified rotation of bucket `i`. */
  predicate ProofAt(trace: seq<Timed>, i: nat, k: nat)
    requires k < |trace|
  {
    trace[k].event.Affects? && trace[k].event.bucket == i && ProvesBucket(trace[k].event.effect)
  }

  ghost predicate Demoted(p: Pool, trace: seq<Timed>, i: nat, until: int) {
    forall k :: 0 <= k <= |trace| ==> i < |Run(p, trace[..k]).buckets| && Run(p, trace[..k]).buckets[i].cooldownUntil >= until
  }

  lemma {:induction false} CooldownStep(p: Pool, i: nat, t: Timed, until: int)
    requires i < |p.buckets| && p.buckets[i].cooldownUntil >= until > 0
    ensures var q := Apply(p, t.now, t.event);
      && i < |q.buckets|
      && (q.buckets[i].cooldownUntil >= until <==> !(t.event.Affects? && t.event.bucket == i && ProvesBucket(t.event.effect)))
  {
    match t.event
    case Acquire(key, exclude) => GrantIsEligible(p, t.now, key, exclude);
    case WakeUp(key, ticket) => if ValidTicket(p, ticket) { WakeIsFromTicket(p, t.now, key, ticket); }
    case Affects(_, _) =>
  }

  lemma {:induction false} DemotedWithoutProof(p: Pool, trace: seq<Timed>, i: nat, k: nat, until: int)
    requires k <= |trace| && i < |p.buckets| && p.buckets[i].cooldownUntil >= until > 0
    requires forall j :: 0 <= j < |trace| ==> !ProofAt(trace, i, j)
    ensures i < |Run(p, trace[..k]).buckets| && Run(p, trace[..k]).buckets[i].cooldownUntil >= until
  {
    if k > 0 {
      DemotedWithoutProof(p, trace, i, k - 1, until);
      assert trace[..k][..k - 1] == trace[..k - 1];
      CooldownStep(Run(p, trace[..k - 1]), i, trace[k - 1], until);
      assert !ProofAt(trace, i, k - 1);
    }
  }

  /** Over any run a cooldown is kept, or extended, throughout exactly when no
      request completes on the bucket and no rotation of it is verified. */
  lemma {:induction false} CooldownKeptExactly(p: Pool, trace: seq<Timed>, i: nat)
    requires i < |p.buckets| && p.buckets[i].cooldownUntil > 0
    ensures Demoted(p, trace, i, p.buckets[i].cooldownUntil) <==> forall k :: 0 <= k < |trace| ==> !ProofAt(trace, i, k)
  {
    var until := p.buckets[i].cooldownUntil;
    if forall k :: 0 <= k < |trace| ==> !ProofAt(trace, i, k) {
      forall k | 0 <= k <= |trace| ensures i < |Run(p, trace[..k]).buckets| && Run(p, trace[..k]).buckets[i].cooldownUntil >= until {
        DemotedWithoutProof(p, trace, i, k, until);
      }
    } else {
      var k :| 0 <= k < |trace| && ProofAt(trace, i, k);
      if Demoted(p, trace, i, until) {
        assert trace[..k + 1][..k] == trace[..k];
        CooldownStep(Run(p, trace[..k]), i, trace[k], until);
      }
    }
  }

  /** A transport failure demotes for cooldown × streak, capped, and neither
      benches the bucket nor shortens an earlier demotion. */
  lemma {:induction false} FaultOnlyDemotes(c: Config, b: Bucket, now: int, wall: int)
    requires ConfigOk(c)
    ensures var after := Release(c, b, Fault, now, wall);
      && after.cordonedUntil == b.cordonedUntil && after.reason == b.reason && after.healthy == b.healthy
      && after.cooldownUntil >= now + c.cooldown && after.cooldownUntil >= b.cooldownUntil
      && after.cooldownUntil <= Max(b.cooldownUntil, now + c.cooldownMax)
      && (after.cooldownUntil == b.cooldownUntil
          || after.cooldownUntil - now == Min(c.cooldown * (b.failures + 1), c.cooldownMax))
  {
    assert c.cooldown * (b.failures + 1) >= c.cooldown by {
      assert c.cooldown * (b.failures + 1) == c.cooldown * b.failures + c.cooldown;
    }
  }

  lemma {:induction false} OkClears(c: Config, b: Bucket, now: int, wall: int)
    requires 0 <= now && Sound(c, b, now)
    ensures var after := Release(c, b, Ok, now, wall);
      !after.Cordoned(now) && !after.CoolingDown(now) && after.failures == 0
      && after.inflight == Max(0, b.inflight - 1) && after.rotating == b.rotating
  {
  }

  /** A soft throttle never weakens a daily-quota bench, in length or label. */
  lemma {:induction false} SoftThrottleKeepsHardBench(c: Config, b: Bucket, now: int, wall: int, after: int)
    requires after <= HARD_QUOTA_RETRY_AFTER && b.Cordoned(now) && b.reason == QuotaExhausted
    requires b.cordonedUntil >= now + Max(30 * SECOND, after)
    ensures Release(c, b, Quota(Some(after)), now, wall).cordonedUntil == b.cordonedUntil
    ensures Release(c, b, Quota(Some(after)), now, wall).reason == QuotaExhausted
  {
  }

  // ------------------------------------------------- what a verdict does

  /** From a wall clock to the next UTC midnight. */
  function ToMidnight(wall: int): int { (wall / 86_400_000_000 + 1) * 86_400_000_000 - wall }

  /** How long a 429 benches: what upstream asks for, at least half a minute, if
      that is an hour or less; else to midnight, or the configured cap. */
  function QuotaBench(c: Config, after: Option<int>, wall: int): int {
    if after.Some? && after.value <= 3_600_000_000 then Max(30_000_000, after.value)
    else if c.quotaCordonMax > 0 then Min(ToMidnight(wall), c.quotaCordonMax)
    else ToMidnight(wall)
  }

  /** The slot is back, the streak one longer, and the bucket out for `length`,
      unless a live cordon lasts longer, which then keeps its label. */
  ghost predicate CordonedFor(b: Bucket, d: Bucket, length: int, reason: Reason, now: int) {
    d == b.(inflight := Max(0, b.inflight - 1), failures := b.failures + 1,
            cordonedUntil := if b.cordonedUntil > now then Max(b.cordonedUntil, now + length) else now + length,
            reason := if b.cordonedUntil > now && b.cordonedUntil >= now + length then b.reason else reason)
  }

  /** The slot is back, the streak one longer, and the bucket demoted for base
      times streak, capped, or longer if it already was. */
  ghost predicate CooledDown(c: Config, b: Bucket, d: Bucket, now: int) {
    d == b.(inflight := Max(0, b.inflight - 1), failures := b.failures + 1,
            cooldownUntil := Max(b.cooldownUntil, now + Min(c.cooldown * (b.failures + 1), c.cooldownMax)))
  }

  /** The slot is back, and streak, demotion and live cordon are gone. */
  ghost predicate Cleared(b: Bucket, d: Bucket, now: int) {
    var live := b.cordonedUntil > now && b.reason != NoReason;
    d == b.(inflight := Max(0, b.inflight - 1), failures := 0, cooldownUntil := 0,
            cordonedUntil := if live then 0 else b.cordonedUntil, reason := if live then NoReason else b.reason)
  }

  /** What each verdict makes of its bucket, in numbers. */
  lemma {:induction false} ReleaseMeans(c: Config, b: Bucket, v: Verdict, now: int, wall: int)
    ensures var d := Release(c, b, v, now, wall);
      match v
      case Ok => Cleared(b, d, now)
      case Quota(after) =>
        CordonedFor(b, d, QuotaBench(c, after, wall), if after.Some? && after.value <= 3_600_000_000 then QuotaSoft else QuotaExhausted, now)
      case Flagged => CordonedFor(b, d, c.cordon, TierRejected, now)
      case Fault => CooledDown(c, b, d, now)
  {
    WindowIsUtcDay(wall);
    assert NextWindowReset(wall) - wall == ToMidnight(wall);
  }

  /** A 429 always benches: for half a minute at least, or till midnight, or for
      the configured cap. */
  lemma {:induction false} QuotaAlwaysBenches(c: Config, after: Option<int>, wall: int)
    ensures QuotaBench(c, after, wall) > 0
  {
    var d := wall / 86_400_000_000;
    assert wall == d * 86_400_000_000 + wall % 86_400_000_000;
  }

  /** How long a verdict takes a bucket out of the pool. */
  function BenchOf(c: Config, v: Verdict, wall: int): int {
    match v
    case Quota(after) => QuotaBench(c, after, wall)
    case Flagged => c.cordon
    case _ => 0
  }

  /** For the whole length of a bench no acquire hands the bucket out or queues
      for it. */
  lemma {:induction false} BenchedIsNotHandedOut(p: Pool, now: int, i: nat, v: Verdict, wall: int, later: int, key: string, exclude: set<string>)
    requires i < |p.buckets| && later < now + BenchOf(p.cfg, v, wall) && (v.Quota? || v.Flagged?)
    ensures var q := Apply(p, now, Affects(i, Released(v, wall)));
      match Begin(q, later, key, exclude).1
      case Granted(j) => j != i
      case Queued(t) => i !in t.order
      case Exhausted => true
  {
    var q := Apply(p, now, Affects(i, Released(v, wall)));
    ReleaseMeans(p.cfg, p.buckets[i], v, now, wall);
    assert q.buckets[i].Cordoned(later);
    GrantIsEligible(q, later, key, exclude);
  }

  // --------------------------------------------------- probes and rotations

  /** A probe the agent did not answer takes the bucket out of the healthy tier
      at once.  A ready answer makes it healthy and forgets soft failures; on a
      new address it ends the two verdicts about the old one, and after an
      outage without a cordon it clears the streak.  A not-ready answer counts,
      and the bucket stays as healthy as it was while the count is below the
      tolerance. */
  lemma {:induction false} ProbeMeans(c: Config, b: Bucket, ready: bool, ip: string, now: int)
    ensures OnBucket(c, b, now, ProbeUnreachable) == b.(healthy := false)
    ensures var d := OnBucket(c, b, now, ProbeAnswer(ready, ip));
      && d.ip == (if ip == "" then b.ip else ip)
      && d.inflight == b.inflight && d.rotating == b.rotating && d.cooldownUntil == b.cooldownUntil && d.name == b.name
      && (ready ==> d.healthy && d.softFailStreak == 0)
      && (!ready ==> d == b.(ip := d.ip, softFailStreak := b.softFailStreak + 1, healthy := b.healthy && b.softFailStreak + 1 < c.probeFailTolerance))
    ensures ready ==>
      var d := OnBucket(c, b, now, ProbeAnswer(ready, ip));
      var lifted := ip != "" && ip != b.ip && (b.reason == QuotaExhausted || b.reason == TierRejected);
      && d.cordonedUntil == (if lifted then 0 else b.cordonedUntil)
      && d.reason == (if lifted || (!b.healthy && b.cordonedUntil <= now) then NoReason else b.reason)
      && d.failures == (if lifted || (!b.healthy && b.cordonedUntil <= now) then 0 else b.failures)
  {
  }

  /** A verified rotation leaves the bucket healthy, on its new address and
      without any bench, and touches neither its slots nor its flag. */
  lemma {:induction false} RotationMeans(c: Config, b: Bucket, ip: string, now: int)
    requires 0 <= now
    ensures var d := OnBucket(c, b, now, Rotated(ip));
      && d.healthy && d.ip == ip && d.failures == 0 && !d.Cordoned(now) && !d.CoolingDown(now) && d.reason == NoReason
      && d.inflight == b.inflight && d.rotating == b.rotating && d.name == b.name && d.softFailStreak == b.softFailStreak
  {
  }

  // ------------------------------------------------------------- bindings

  /** The bindings that survive an acquire at `now`: those within the TTL, while
      affinity is on and the caller has a key. */
  ghost predicate Survives(p: Pool, now: int, key: string, k: string) {
    k in p.affinity && (key != "" && p.cfg.affinityTtl > 0 ==> now - p.affinity[k].seen <= p.cfg.affinityTtl)
  }

  /** The table after `i` was handed out. */
  function TableAfter(table: map<string, Binding>, b: Bucket, key: string, began: int, now: int): map<string, Binding> {
    if key != "" && b.healthy && b.cordonedUntil <= began then table[key := Binding(b.name, now)] else table
  }

  /** A queued caller is bound to the bucket that serves it exactly when that is
      healthy and was not cordoned when it queued. */
  lemma {:induction false} WakeBinds(p: Pool, now: int, key: string, t: Ticket)
    requires ValidTicket(p, t) && Wake(p, now, key, t).1.Granted?
    ensures var (q, o) := Wake(p, now, key, t);
      && o.bucket < |p.buckets|
      && var b := p.buckets[o.bucket];
         q.affinity == TableAfter(p.affinity, b, key, t.began, now)
  {
    WakeIsFromTicket(p, now, key, t);
  }

  lemma {:induction false} ServeBinds(p: Pool, now: int, key: string, order: seq<nat>)
    requires order != [] && InRange(p.buckets, order) && Serve(p, now, key, order).1.Granted?
    ensures var (q, o) := Serve(p, now, key, order);
      o.bucket in order && o.bucket < |p.buckets| && q.affinity == TableAfter(p.affinity, p.buckets[o.bucket], key, now, now)
  {
    ServeIsFromOrder(p, now, key, order);
    if p.cfg.maxInflight > 0 { WakeBinds(p, now, key, Ticket(order, now + p.cfg.inflightWait, now)); }
  }

  lemma {:induction false} BeginBinds(p: Pool, now: int, key: string, exclude: set<string>)
    requires Begin(p, now, key, exclude).1.Granted?
    ensures var (q, o) := Begin(p, now, key, exclude);
      && o.bucket < |p.buckets| && q.affinity == TableAfter(Bindings(p, now, key), p.buckets[o.bucket], key, now, now)
      && (Home(p, now, key).Some? ==> o.bucket == Home(p, now, key).value)
  {
    var usable := Usable(p, now, exclude);
    UsableIsNominated(p, now, exclude);
    ChoiceIsUsable(p, now, key, usable);
    var c := Choose(p, now, key, usable);
    ServeBinds(p.(affinity := c.affinity, rr := c.rr), now, key, c.order);
  }

  lemma {:induction false} SurvivorsAre(p: Pool, now: int, key: string, k: string)
    ensures var t := Bindings(p, now, key);
      && (k in t ==> k in p.affinity && t[k] == p.affinity[k])
      && (k != key || key == "" ==> (k in t <==> Survives(p, now, key, k)))
      && (k == key != "" && Home(p, now, key).None? ==> (k in t <==> k in p.affinity && p.cfg.affinityTtl <= 0))
  {
  }

  /** After an immediate grant every other key has what survived.  The caller is
      bound to the bucket it got if that is healthy, and otherwise, with
      affinity on, to none. */
  lemma {:induction false} GrantBinds(p: Pool, now: int, key: string, exclude: set<string>, k: string)
    requires Begin(p, now, key, exclude).1.Granted?
    ensures var (q, o) := Begin(p, now, key, exclude); var b := p.buckets[o.bucket];
      && (k != key || key == "" ==> (k in q.affinity <==> Survives(p, now, key, k)) && (k in q.affinity ==> q.affinity[k] == p.affinity[k]))
      && (k == key != "" && b.healthy ==> k in q.affinity && q.affinity[k] == Binding(b.name, now))
      && (k == key != "" && !b.healthy ==> (k in q.affinity <==> k in p.affinity && p.cfg.affinityTtl <= 0)
                                           && (k in q.affinity ==> q.affinity[k] == p.affinity[k]))
  {
    GrantIsEligible(p, now, key, exclude);
    BeginBinds(p, now, key, exclude);
    SurvivorsAre(p, now, key, k);
  }

  /** Without a key nothing is bound, moved or forgotten. */
  lemma {:induction false} KeylessKeepsBindings(p: Pool, now: int, exclude: set<string>)
    ensures Begin(p, now, "", exclude).0.affinity == p.affinity
  {
    UsableIsNominated(p, now, exclude);
    var usable := Usable(p, now, exclude);
    if usable != [] {
      ChoiceIsUsable(p, now, "", usable);
      var c := Choose(p, now, "", usable);
      ServeKeepsBindings(p.(affinity := c.affinity, rr := c.rr), now, c.order);
    }
  }

  lemma {:induction false} ServeKeepsBindings(p: Pool, now: int, order: seq<nat>)
    requires order != [] && InRange(p.buckets, order)
    ensures Serve(p, now, "", order).0.affinity == p.affinity
  {
  }

  // --------------------------------------------------- when acquires succeed

  /** Not a verdict about the egress address and not a rotation. */
  predicate TransportOnly(e: Event) {
    e.Affects? ==>
      match e.effect
      case Released(v, _) => v.Ok? || v.Fault?
      case MarkRotating(on) => !on
      case _ => true
  }

  ghost predicate NeverBenched(p: Pool) {
    forall i :: 0 <= i < |p.buckets| ==> p.buckets[i].cordonedUntil == 0 && !p.buckets[i].rotating
  }

  lemma {:induction false} TransportStepNeverBenches(p: Pool, now: int, e: Event)
    requires NeverBenched(p) && TransportOnly(e) && 0 <= now
    ensures NeverBenched(Apply(p, now, e)) && |Apply(p, now, e).buckets| == |p.buckets|
  {
    match e
    case Acquire(key, exclude) => GrantIsEligible(p, now, key, exclude);
    case WakeUp(key, t) => if ValidTicket(p, t) { WakeIsFromTicket(p, now, key, t); }
    case Affects(i, effect) =>
      if i < |p.buckets| {
        var b := OnBucket(p.cfg, p.buckets[i], now, effect);
        assert b.cordonedUntil == 0 && !b.rotating;
      }
  }

  lemma {:induction false} TransportRunNeverBenches(raw: Config, names: seq<string>, start: nat, trace: seq<Timed>)
    requires ClockForward(start, trace)
    requires forall k :: 0 <= k < |trace| ==> TransportOnly(trace[k].event)
    ensures NeverBenched(Run(FreshPool(raw, names), trace))
    ensures |Run(FreshPool(raw, names), trace).buckets| == |names|
  {
    if trace != [] {
      var front, last := trace[..|trace| - 1], trace[|trace| - 1];
      TransportRunNeverBenches(raw, names, start, front);
      TransportStepNeverBenches(Run(FreshPool(raw, names), front), last.now, last.event);
    }
  }

  lemma {:induction false} UnbenchedPoolServes(p: Pool, now: int, key: string)
    requires NeverBenched(p) && p.buckets != [] && 0 <= now
    ensures !Begin(p, now, key, {}).1.Exhausted?
  {
    ExhaustedExactly(p, now, {});
    assert p.buckets[0] in p.buckets;
    UsableIsNominated(p, now, {});
    BeginWithIsFromChoice(p, now, key, Usable(p, now, {}));
  }

  /** Transport failures alone, however many and however long, never make a
      keyless acquire with nothing excluded raise PoolExhausted. */
  lemma {:induction false} TransportFaultsNeverExhaust(raw: Config, names: seq<string>, start: nat, trace: seq<Timed>, now: nat)
    requires names != [] && ClockForward(start, trace) && EndTime(start, trace) <= now
    requires forall k :: 0 <= k < |trace| ==> TransportOnly(trace[k].event)
    ensures !Begin(Run(FreshPool(raw, names), trace), now, "", {}).1.Exhausted?
  {
    TransportRunNeverBenches(raw, names, start, trace);
    UnbenchedPoolServes(Run(FreshPool(raw, names), trace), now, "");
  }

  /** The verdicts that cordon bucket `i`. */
  predicate Benches(e: Event, i: nat) {
    e.Affects? && e.bucket == i && e.effect.Released? && (e.effect.verdict.Quota? || e.effect.verdict.Flagged?)
  }

  lemma {:induction false} OnlyVerdictsBench(c: Config, b: Bucket, now: int, e: Effect)
    requires !(e.Released? && (e.verdict.Quota? || e.verdict.Flagged?))
    ensures OnBucket(c, b, now, e).cordonedUntil <= Max(b.cordonedUntil, 0)
  {
  }

  /** Without such a verdict nothing moves the bucket's deadline back. */
  lemma {:induction false} NeverLater(p: Pool, start: nat, trace: seq<Timed>, i: nat)
    requires SoundPool(p, start) && ClockForward(start, trace) && i < |p.buckets|
    requires forall k :: 0 <= k < |trace| ==> !Benches(trace[k].event, i)
    ensures i < |Run(p, trace).buckets| && Run(p, trace).buckets[i].cordonedUntil <= Max(p.buckets[i].cordonedUntil, 0)
  {
    if trace != [] {
      var front, last := trace[..|trace| - 1], trace[|trace| - 1];
      NeverLater(p, start, front, i);
      var q := Run(p, front);
      assert Run(p, trace) == Apply(q, last.now, last.event);
      if last.event.Affects? && last.event.bucket == i {
        OnlyVerdictsBench(q.cfg, q.buckets[i], last.now, last.event.effect);
      } else {
        OtherEventsKeepBench(q, last.now, last.event, i);
      }
    }
  }

  /** However hard the pool was hit, once the longest cordon has passed an
      acquire succeeds, whatever else happened meanwhile, as long as one bucket
      drew no new verdict and is not healthy and mid-rotation. */
  lemma {:induction false} OutageIsBounded(p: Pool, now: nat, trace: seq<Timed>, later: int, key: string, i: nat)
    requires SoundPool(p, now) && ClockForward(now, trace) && EndTime(now, trace) <= later && i < |p.buckets|
    requires later >= now + CordonBound(p.cfg) && forall k :: 0 <= k < |trace| ==> !Benches(trace[k].event, i)
    ensures var q := Run(p, trace);
      i < |q.buckets| && (!(q.buckets[i].healthy && q.buckets[i].rotating) ==> !Begin(q, later, key, {}).1.Exhausted?)
  {
    var q := Run(p, trace);
    NeverLater(p, now, trace, i);
    RefusedExactly(q, later, key, {});
    assert Sound(p.cfg, p.buckets[i], now);
    assert q.buckets[i] in q.buckets && q.buckets[i].name !in {};
  }

  /** In every reachable state a completed request leaves its bucket neither
      cordoned nor cooling, so the pool serves the next acquire unless that
      bucket is being rotated. */
  lemma {:induction false} OkReleaseClearsBench(raw: Config, names: seq<string>, start: nat, trace: seq<Timed>, i: nat, now: nat, wall: int, key: string)
    requires ClockForward(start, trace) && EndTime(start, trace) <= now && i < |Run(FreshPool(raw, names), trace).buckets|
    ensures var p := Run(FreshPool(raw, names), trace); var q := Apply(p, now, Affects(i, Released(Ok, wall)));
      && i < |q.buckets| && !q.buckets[i].Cordoned(now) && !q.buckets[i].CoolingDown(now)
      && (!p.buckets[i].rotating ==> !Begin(q, now, key, {}).1.Exhausted?)
  {
    EveryRunIsSound(raw, names, start, trace);
    var p := Run(FreshPool(raw, names), trace);
    assert Sound(p.cfg, p.buckets[i], EndTime(start, trace));
    OkClears(p.cfg, p.buckets[i], now, wall);
    var q := Apply(p, now, Affects(i, Released(Ok, wall)));
    assert q.buckets[i] in q.buckets;
    RefusedExactly(q, now, key, {});
  }
}
