/** Egress value objects: one bucket's runtime state, the pool configuration
    and the quota-window arithmetic. */
module EgressModels {
  import opened Basics

  /** A Retry-After above one hour is the daily-allowance verdict. */
  const HARD_QUOTA_RETRY_AFTER := 3_600_000_000

  /** The verdict a cordon carries.  The program stores a sentence and compares
      the part before its parenthesis; only that part is kept here. */
  datatype Reason = NoReason | QuotaExhausted | QuotaSoft | TierRejected

  datatype Bucket = Bucket(
    name: string,
    inflight: int,
    failures: nat,
    cordonedUntil: int,
    reason: Reason,
    cooldownUntil: int,
    healthy: bool,
    rotating: bool,
    softFailStreak: nat,
    ip: string)
  {
    predicate Cordoned(now: int) { cordonedUntil > now }

    predicate CoolingDown(now: int) { cooldownUntil > now }

    predicate Available(now: int) { !Cordoned(now) && !rotating }
  }

  function FreshBucket(name: string): Bucket {
    Bucket(name, 0, 0, 0, NoReason, 0, false, false, 0, "")
  }

  datatype Config = Config(
    cordon: int,
    cooldown: int,
    cooldownMax: int,
    quotaCordonMax: int,
    probeFailTolerance: int,
    maxInflight: int,
    inflightWait: int,
    affinityTtl: int,
    lastResort: set<string>)

  /** The clamps the pool applies to its settings. */
  function Normalised(raw: Config): (c: Config)
    ensures SECOND <= c.cooldown <= c.cooldownMax && 1 <= c.probeFailTolerance
    ensures 0 <= c.quotaCordonMax && 0 <= c.maxInflight && 0 <= c.inflightWait && 0 <= c.affinityTtl
  {
    var cooldown := Max(SECOND, raw.cooldown);
    raw.(cooldown := cooldown,
         cooldownMax := Max(cooldown, raw.cooldownMax),
         quotaCordonMax := Max(0, raw.quotaCordonMax),
         probeFailTolerance := Max(1, raw.probeFailTolerance),
         maxInflight := Max(0, raw.maxInflight),
         inflightWait := Max(0, raw.inflightWait),
         affinityTtl := Max(0, raw.affinityTtl))
  }

  /** Settings in range are kept as they are, and only those. */
  lemma {:induction false} NormalisedExactly(raw: Config)
    ensures Normalised(raw) == raw <==>
      && 1_000_000 <= raw.cooldown <= raw.cooldownMax && 1 <= raw.probeFailTolerance
      && 0 <= raw.quotaCordonMax && 0 <= raw.maxInflight && 0 <= raw.inflightWait && 0 <= raw.affinityTtl
    ensures Normalised(Normalised(raw)) == Normalised(raw)
  {
  }

  // ------------------------------------------------------ the quota window

  const ZONE_OFFSET := 28_800_000_000   // UTC+8
  const RESET_HOUR := 28_800_000_000    // 08:00 on the local clock

  /** The next 08:00 on the UTC+8 wall clock, computed the calendar way: take
      the local date, put the clock to 08:00, add a day if that is not later. */
  function NextWindowReset(wall: int): int {
    var local := wall + ZONE_OFFSET;
    var reset := local / DAY * DAY + RESET_HOUR;
    (if reset <= local then reset + DAY else reset) - ZONE_OFFSET
  }

  function WindowStart(wall: int): int { NextWindowReset(wall) - DAY }

  function SecondsToWindowReset(wall: int): int { Max(0, NextWindowReset(wall) - wall) }

  /** The local-clock computation is plain rounding down to a UTC day, so the
      window contains the timestamp and two timestamps share a window exactly
      when they share a UTC day. */
  lemma {:induction false} WindowIsUtcDay(wall: int)
    ensures WindowStart(wall) == wall / DAY * DAY
    ensures WindowStart(wall) <= wall < WindowStart(wall) + DAY
    ensures 0 < NextWindowReset(wall) - wall <= DAY
    ensures SecondsToWindowReset(wall) == NextWindowReset(wall) - wall
  {
    var d, r := wall / DAY, wall % DAY;
    assert wall == d * DAY + r;
    var local := wall + ZONE_OFFSET;
    if r < DAY - ZONE_OFFSET {
      assert local == d * DAY + (r + ZONE_OFFSET);
      assert local / DAY == d;
    } else {
      assert local == (d + 1) * DAY + (r + ZONE_OFFSET - DAY);
      assert local / DAY == d + 1;
    }
  }

  lemma {:induction false} WindowsAreOrdered(early: int, late: int)
    requires early <= late
    ensures WindowStart(early) <= WindowStart(late)
    ensures WindowStart(early) < WindowStart(late) ==> early < WindowStart(late)
  {
    WindowIsUtcDay(early);
    WindowIsUtcDay(late);
  }
}
