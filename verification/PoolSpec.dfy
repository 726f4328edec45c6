/** The egress pool as a state machine over values: which bucket an acquire
    picks and what each outcome does to a bucket.  `EgressPool` is the same
    machine over mutable objects. */
module PoolSpec {
  import opened Basics
  import opened EgressModels

  datatype Binding = Binding(bucket: string, seen: int)

  datatype Pool = Pool(cfg: Config, buckets: seq<Bucket>, affinity: map<string, Binding>, rr: nat)

  // ------------------------------------------------------- candidate tiers

  predicate Normal(b: Bucket, now: int) { b.Available(now) && b.healthy && !b.CoolingDown(now) }

  predicate Cooling(b: Bucket, now: int) { b.Available(now) && b.healthy && b.CoolingDown(now) }

  predicate DeadLeg(b: Bucket, now: int) { !b.healthy && !b.Cordoned(now) }

  /** Indices, ascending, of the buckets that satisfy `p`. */
  function Select(bs: seq<Bucket>, p: Bucket -> bool): seq<nat> {
    if bs == [] then []
    else
      var n := |bs| - 1;
      var r := Select(bs[..n], p);
      if p(bs[n]) then r + [n] else r
  }

  lemma {:induction false} SelectFacts(bs: seq<Bucket>, p: Bucket -> bool)
    ensures forall i :: i in Select(bs, p) <==> 0 <= i < |bs| && p(bs[i])
    ensures forall k, l :: 0 <= k < l < |Select(bs, p)| ==> Select(bs, p)[k] < Select(bs, p)[l]
  {
    if bs != [] {
      var n := |bs| - 1;
      SelectFacts(bs[..n], p);
      var r := Select(bs[..n], p);
      assert forall k :: 0 <= k < |r| ==> r[k] in r;
    }
  }

  /** The five candidate lists, in preference order. */
  predicate InTier(c: Config, b: Bucket, now: int, k: nat) {
    match k
    case 0 => Normal(b, now) && b.name !in c.lastResort
    case 1 => Cooling(b, now) && b.name !in c.lastResort
    case 2 => Normal(b, now) && b.name in c.lastResort
    case 3 => Cooling(b, now) && b.name in c.lastResort
    case _ => DeadLeg(b, now)
  }

  function TierTest(c: Config, now: int, exclude: set<string>, k: nat): Bucket -> bool {
    b => InTier(c, b, now, k) && b.name !in exclude
  }

  function Tier(p: Pool, now: int, exclude: set<string>, k: nat): seq<nat> {
    Select(p.buckets, TierTest(p.cfg, now, exclude, k))
  }

  /** The first non-empty list. */
  function UsableFrom(p: Pool, now: int, exclude: set<string>, k: nat): seq<nat>
    decreases 5 - k
  {
    if k >= 5 then []
    else
      var t := Tier(p, now, exclude, k);
      if t != [] then t else UsableFrom(p, now, exclude, k + 1)
  }

  function Usable(p: Pool, now: int, exclude: set<string>): seq<nat> { UsableFrom(p, now, exclude, 0) }

  /** What it takes for a bucket to be a candidate at all. */
  predicate Selectable(b: Bucket, now: int) { !b.Cordoned(now) && (b.healthy ==> !b.rotating) }

  /** The preference order, as a rank: smaller is picked first. */
  function Rank(c: Config, b: Bucket, now: int): nat {
    if !b.healthy then 4
    else (if b.name in c.lastResort then 2 else 0) + (if b.CoolingDown(now) then 1 else 0)
  }

  predicate Candidate(p: Pool, i: int, now: int, exclude: set<string>) {
    0 <= i < |p.buckets| && Selectable(p.buckets[i], now) && p.buckets[i].name !in exclude
  }

  lemma {:induction false} TierIsRank(p: Pool, now: int, exclude: set<string>, k: nat, i: int)
    requires k < 5
    ensures i in Tier(p, now, exclude, k) <==> Candidate(p, i, now, exclude) && Rank(p.cfg, p.buckets[i], now) == k
  {
    SelectFacts(p.buckets, TierTest(p.cfg, now, exclude, k));
  }

  lemma {:induction false} UsableFromIsBestRank(p: Pool, now: int, exclude: set<string>, k: nat, i: int)
    requires k <= 5
    ensures i in UsableFrom(p, now, exclude, k) <==>
      && Candidate(p, i, now, exclude) && k <= Rank(p.cfg, p.buckets[i], now)
      && forall j :: Candidate(p, j, now, exclude) && k <= Rank(p.cfg, p.buckets[j], now) ==>
           Rank(p.cfg, p.buckets[i], now) <= Rank(p.cfg, p.buckets[j], now)
    decreases 5 - k
  {
    if k < 5 {
      var t := Tier(p, now, exclude, k);
      TierIsRank(p, now, exclude, k, i);
      if t == [] {
        UsableFromIsBestRank(p, now, exclude, k + 1, i);
        forall j | Candidate(p, j, now, exclude) ensures Rank(p.cfg, p.buckets[j], now) != k {
          TierIsRank(p, now, exclude, k, j);
        }
      } else {
        TierIsRank(p, now, exclude, k, t[0]);
      }
    }
  }

  /** The tier lists hand out exactly the best-ranked candidates. */
  lemma {:induction false} UsableIsBestRank(p: Pool, now: int, exclude: set<string>, i: int)
    ensures i in Usable(p, now, exclude) <==>
      && Candidate(p, i, now, exclude)
      && forall j :: Candidate(p, j, now, exclude) ==> Rank(p.cfg, p.buckets[i], now) <= Rank(p.cfg, p.buckets[j], now)
  {
    UsableFromIsBestRank(p, now, exclude, 0, i);
  }

  lemma {:induction false} UsableEmpty(p: Pool, now: int, exclude: set<string>, k: nat)
    requires k <= 5
    ensures UsableFrom(p, now, exclude, k) == [] <==>
      forall i :: Candidate(p, i, now, exclude) ==> Rank(p.cfg, p.buckets[i], now) < k
    decreases 5 - k
  {
    if k < 5 {
      UsableEmpty(p, now, exclude, k + 1);
      var t := Tier(p, now, exclude, k);
      if t != [] {
        TierIsRank(p, now, exclude, k, t[0]);
      } else {
        forall j | Candidate(p, j, now, exclude) ensures Rank(p.cfg, p.buckets[j], now) != k {
          TierIsRank(p, now, exclude, k, j);
        }
      }
    }
  }

  /** Nothing is selectable exactly when every bucket outside `exclude` is
      cordoned, or healthy and rotating. */
  lemma {:induction false} ExhaustedExactly(p: Pool, now: int, exclude: set<string>)
    ensures Usable(p, now, exclude) == [] <==>
      forall b :: b in p.buckets && b.name !in exclude ==> b.Cordoned(now) || (b.healthy && b.rotating)
  {
    UsableEmpty(p, now, exclude, 0);
    forall i | Candidate(p, i, now, exclude) ensures p.buckets[i] in p.buckets {}
    forall b | b in p.buckets && b.name !in exclude && Selectable(b, now) ensures exists i :: Candidate(p, i, now, exclude) {
      var i :| 0 <= i < |p.buckets| && p.buckets[i] == b;
      assert Candidate(p, i, now, exclude);
    }
  }

  // ------------------------------------------------------ order of the pick

  datatype Load = Load(live: nat, inflight: int)

  predicate Lighter(a: Load, b: Load) { a.live < b.live || (a.live == b.live && a.inflight <= b.inflight) }

  function Rotate(s: seq<nat>, offset: nat): seq<nat>
    requires offset <= |s|
  {
    s[offset..] + s[..offset]
  }

  function InsertByLoad(s: seq<nat>, x: nat, load: nat -> Load): seq<nat> {
    if s == [] || Lighter(load(s[|s| - 1]), load(x)) then s + [x]
    else InsertByLoad(s[..|s| - 1], x, load) + [s[|s| - 1]]
  }

  /** The library's stable sort on (live bindings, in-flight). */
  function SortByLoad(s: seq<nat>, load: nat -> Load): seq<nat> {
    if s == [] then [] else InsertByLoad(SortByLoad(s[..|s| - 1], load), s[|s| - 1], load)
  }

  lemma {:induction false} InsertMembers(s: seq<nat>, x: nat, load: nat -> Load)
    ensures |InsertByLoad(s, x, load)| == |s| + 1
    ensures forall y :: y in InsertByLoad(s, x, load) <==> y == x || y in s
  {
    if s != [] {
      InsertMembers(s[..|s| - 1], x, load);
      assert s == s[..|s| - 1] + [s[|s| - 1]];
    }
  }

  lemma {:induction false} SortKeepsMembers(s: seq<nat>, load: nat -> Load)
    ensures forall x :: x in SortByLoad(s, load) <==> x in s
    ensures |SortByLoad(s, load)| == |s|
  {
    if s != [] {
      SortKeepsMembers(s[..|s| - 1], load);
      InsertMembers(SortByLoad(s[..|s| - 1], load), s[|s| - 1], load);
      assert s == s[..|s| - 1] + [s[|s| - 1]];
    }
  }

  ghost predicate SortedByLoad(s: seq<nat>, load: nat -> Load) {
    forall i, j :: 0 <= i < j < |s| ==> Lighter(load(s[i]), load(s[j]))
  }

  lemma {:induction false} InsertKeepsSorted(s: seq<nat>, x: nat, load: nat -> Load)
    requires SortedByLoad(s, load)
    ensures SortedByLoad(InsertByLoad(s, x, load), load)
  {
    if s == [] || Lighter(load(s[|s| - 1]), load(x)) {
    } else {
      var last := s[|s| - 1];
      InsertKeepsSorted(s[..|s| - 1], x, load);
      var r := InsertByLoad(s[..|s| - 1], x, load);
      InsertMembers(s[..|s| - 1], x, load);
      forall i | 0 <= i < |r| ensures Lighter(load(r[i]), load(last)) {
        assert r[i] in r;
        assert r[i] == x || r[i] in s[..|s| - 1];
      }
    }
  }

  lemma {:induction false} SortSorts(s: seq<nat>, load: nat -> Load)
    ensures SortedByLoad(SortByLoad(s, load), load)
  {
    if s != [] {
      SortSorts(s[..|s| - 1], load);
      InsertKeepsSorted(SortByLoad(s[..|s| - 1], load), s[|s| - 1], load);
    }
  }

  ghost predicate InRange(bs: seq<Bucket>, s: seq<nat>) { forall k :: 0 <= k < |s| ==> s[k] < |bs| }

  /** First entry with the least in-flight work. */
  function FirstMin(bs: seq<Bucket>, s: seq<nat>): (m: nat)
    requires s != [] && InRange(bs, s)
    ensures m < |bs|
  {
    var n := |s| - 1;
    if n == 0 then s[0]
    else
      var m := FirstMin(bs, s[..n]);
      if bs[s[n]].inflight < bs[m].inflight then s[n] else m
  }

  lemma {:induction false} FirstMinAt(bs: seq<Bucket>, s: seq<nat>) returns (k: nat)
    requires s != [] && InRange(bs, s)
    ensures k < |s| && s[k] == FirstMin(bs, s)
    ensures forall j :: 0 <= j < |s| ==> bs[s[k]].inflight <= bs[s[j]].inflight
    ensures forall j :: 0 <= j < k ==> bs[s[k]].inflight < bs[s[j]].inflight
  {
    var n := |s| - 1;
    if n == 0 {
      k := 0;
    } else {
      k := FirstMinAt(bs, s[..n]);
      assert forall j :: 0 <= j < n ==> s[..n][j] == s[j];
      if bs[s[n]].inflight < bs[s[k]].inflight { k := n; }
    }
  }

  lemma {:induction false} FirstMinFacts(bs: seq<Bucket>, s: seq<nat>)
    requires s != [] && InRange(bs, s)
    ensures var m := FirstMin(bs, s);
      && m in s && (forall j :: 0 <= j < |s| ==> bs[m].inflight <= bs[s[j]].inflight)
      && exists k :: 0 <= k < |s| && s[k] == m && forall j :: 0 <= j < k ==> bs[m].inflight < bs[s[j]].inflight
  {
    var k := FirstMinAt(bs, s);
  }

  /** The sessions still bound to a bucket. */
  function LiveKeys(affinity: map<string, Binding>, ttl: int, now: int, bucket: string): set<string> {
    set k | k in affinity && affinity[k].bucket == bucket && now - affinity[k].seen <= ttl
  }

  function LiveOn(affinity: map<string, Binding>, ttl: int, now: int, bucket: string): nat {
    |LiveKeys(affinity, ttl, now, bucket)|
  }

  lemma {:induction false} PickFromSorted(bs: seq<Bucket>, r: seq<nat>, load: nat -> Load, l: nat)
    requires l < |r| && InRange(bs, r) && SortedByLoad(r, load)
    requires forall j :: 0 <= j < |r| ==> load(r[j]).inflight == bs[r[j]].inflight
    ensures var m := FirstMin(bs, r);
      m in r && (bs[m].inflight < bs[r[l]].inflight || (bs[m].inflight == bs[r[l]].inflight && load(m).live <= load(r[l]).live))
  {
    var k := FirstMinAt(bs, r);
    if k < l { assert Lighter(load(r[k]), load(r[l])); }
  }

  /** After the sort, the pick is least in-flight first; live bindings only
      break ties between equally loaded buckets. */
  lemma {:induction false} PickAfterSort(bs: seq<Bucket>, s: seq<nat>, load: nat -> Load, x: nat)
    requires s != [] && InRange(bs, s)
    requires forall i :: i in s ==> load(i).inflight == bs[i].inflight
    requires x in s
    ensures InRange(bs, SortByLoad(s, load)) && SortByLoad(s, load) != []
    ensures var m := FirstMin(bs, SortByLoad(s, load));
      && m in s
      && (bs[m].inflight < bs[x].inflight || (bs[m].inflight == bs[x].inflight && load(m).live <= load(x).live))
  {
    SortKeepsMembers(s, load);
    SortSorts(s, load);
    var r := SortByLoad(s, load);
    forall k | 0 <= k < |r| ensures r[k] < |bs| && load(r[k]).inflight == bs[r[k]].inflight { assert r[k] in r; }
    var l :| 0 <= l < |r| && r[l] == x;
    PickFromSorted(bs, r, load, l);
  }

  // -------------------------------------------------------------- acquiring

  /** A caller queueing for an in-flight slot: the order fixed before the wait. */
  datatype Ticket = Ticket(order: seq<nat>, deadline: int, began: int)

  datatype Outcome = Granted(bucket: nat) | Exhausted | Queued(ticket: Ticket)

  function Find(bs: seq<Bucket>, name: string): (r: Option<nat>)
    ensures r.Some? ==> r.value < |bs| && bs[r.value].name == name
    ensures r.None? ==> forall b :: b in bs ==> b.name != name
  {
    if bs == [] then None
    else if bs[0].name == name then Some(0)
    else
      match Find(bs[1..], name)
      case Some(i) => Some(i + 1)
      case None => None
  }

  function Purged(p: Pool, now: int): map<string, Binding> {
    map k | k in p.affinity && now - p.affinity[k].seen <= p.cfg.affinityTtl :: p.affinity[k]
  }

  datatype Choice = Choice(order: seq<nat>, affinity: map<string, Binding>, rr: nat)

  predicate Honours(p: Pool, key: string) { key != "" && p.cfg.affinityTtl > 0 }

  /** The bucket this session is bound to, if it may keep it. */
  function Home(p: Pool, now: int, key: string): (r: Option<nat>)
    ensures r.Some? ==> r.value < |p.buckets| && Normal(p.buckets[r.value], now)
  {
    var live := Purged(p, now);
    if Honours(p, key) && key in live then
      match Find(p.buckets, live[key].bucket)
      case Some(i) => if Normal(p.buckets[i], now) then Some(i) else None
      case None => None
    else None
  }

  function LoadsAt(p: Pool, now: int): nat -> Load {
    (i: nat) => if i < |p.buckets|
         then Load(LiveOn(p.affinity, p.cfg.affinityTtl, now, p.buckets[i].name), p.buckets[i].inflight)
         else Load(0, 0)
  }

  /** The order a session without a usable home is offered. */
  function FreshOrder(p: Pool, now: int, key: string, usable: seq<nat>): seq<nat>
    requires usable != []
  {
    var rotated := Rotate(usable, p.rr % |usable|);
    if key != "" then SortByLoad(rotated, LoadsAt(p, now)) else rotated
  }

  /** The affinity table after lazy expiry; without a usable home the session's
      own binding goes too. */
  function Bindings(p: Pool, now: int, key: string): map<string, Binding> {
    var live := if Honours(p, key) then Purged(p, now) else p.affinity;
    if Honours(p, key) && Home(p, now, key).None? then live - {key} else live
  }

  function Choose(p: Pool, now: int, key: string, usable: seq<nat>): Choice
    requires usable != []
  {
    var rest := Bindings(p, now, key);
    match Home(p, now, key)
    case Some(i) => Choice([i], rest, p.rr)
    case None => Choice(FreshOrder(p.(affinity := rest), now, key, usable), rest, p.rr + 1)
  }

  lemma {:induction false} FreshOrderMembers(p: Pool, now: int, key: string, usable: seq<nat>)
    requires usable != []
    ensures |FreshOrder(p, now, key, usable)| == |usable|
    ensures forall i :: i in FreshOrder(p, now, key, usable) <==> i in usable
  {
    SortKeepsMembers(Rotate(usable, p.rr % |usable|), LoadsAt(p, now));
  }

  ghost predicate Nominated(p: Pool, usable: seq<nat>) { usable != [] && InRange(p.buckets, usable) }

  lemma {:induction false} ChoiceIsUsable(p: Pool, now: int, key: string, usable: seq<nat>)
    requires Nominated(p, usable)
    ensures var c := Choose(p, now, key, usable);
      && Nominated(p, c.order)
      && forall i :: i in c.order ==> i in usable || (Home(p, now, key) == Some(i) && Normal(p.buckets[i], now))
  {
    if Home(p, now, key).None? {
      var order := FreshOrder(p.(affinity := Bindings(p, now, key)), now, key, usable);
      FreshOrderMembers(p.(affinity := Bindings(p, now, key)), now, key, usable);
      forall k | 0 <= k < |order| ensures order[k] < |p.buckets| {
        assert order[k] in order;
      }
    }
  }

  lemma {:induction false} UsableIsNominated(p: Pool, now: int, exclude: set<string>)
    ensures InRange(p.buckets, Usable(p, now, exclude))
    ensures forall i :: i in Usable(p, now, exclude) ==> Candidate(p, i, now, exclude)
  {
    var usable := Usable(p, now, exclude);
    forall k | 0 <= k < |usable| ensures usable[k] < |p.buckets| {
      UsableIsBestRank(p, now, exclude, usable[k]);
    }
    forall i | i in usable ensures Candidate(p, i, now, exclude) {
      UsableIsBestRank(p, now, exclude, i);
    }
  }

  function WithRoom(p: Pool, order: seq<nat>): (r: seq<nat>)
    requires InRange(p.buckets, order)
    ensures InRange(p.buckets, r)
  {
    if order == [] then []
    else
      var r := WithRoom(p, order[..|order| - 1]);
      if p.buckets[order[|order| - 1]].inflight < p.cfg.maxInflight then r + [order[|order| - 1]] else r
  }

  lemma {:induction false} WithRoomFacts(p: Pool, order: seq<nat>, i: nat)
    requires InRange(p.buckets, order)
    ensures i in WithRoom(p, order) <==> i in order && i < |p.buckets| && p.buckets[i].inflight < p.cfg.maxInflight
  {
    if order != [] {
      WithRoomFacts(p, order[..|order| - 1], i);
      assert order == order[..|order| - 1] + [order[|order| - 1]];
    }
  }

  function Grant(p: Pool, i: nat, key: string, began: int, now: int): Pool
    requires i < |p.buckets|
  {
    var b := p.buckets[i];
    p.(buckets := p.buckets[i := b.(inflight := b.inflight + 1)],
       affinity := if key != "" && b.healthy && !b.Cordoned(began)
                   then p.affinity[key := Binding(b.name, now)] else p.affinity)
  }

  ghost predicate ValidTicket(p: Pool, t: Ticket) { t.order != [] && InRange(p.buckets, t.order) }

  /** One wake-up of a queued caller: take a slot if one is free, go back to
      sleep before the deadline, exceed the cap after it. */
  function Wake(p: Pool, now: int, key: string, t: Ticket): (Pool, Outcome)
    requires ValidTicket(p, t)
  {
    var room := WithRoom(p, t.order);
    if room != [] then
      var i := FirstMin(p.buckets, room);
      (Grant(p, i, key, t.began, now), Granted(i))
    else if now < t.deadline then (p, Queued(t))
    else
      var i := FirstMin(p.buckets, t.order);
      (Grant(p, i, key, t.began, now), Granted(i))
  }

  /** Hand out the first slot of a fixed order, queueing if the cap is hit. */
  function Serve(p: Pool, now: int, key: string, order: seq<nat>): (Pool, Outcome)
    requires order != [] && InRange(p.buckets, order)
  {
    if p.cfg.maxInflight <= 0 then
      var i := FirstMin(p.buckets, order);
      (Grant(p, i, key, now, now), Granted(i))
    else Wake(p, now, key, Ticket(order, now + p.cfg.inflightWait, now))
  }

  /** An acquire once its candidates are known. */
  function BeginWith(p: Pool, now: int, key: string, usable: seq<nat>): (Pool, Outcome)
    requires Nominated(p, usable)
  {
    ChoiceIsUsable(p, now, key, usable);
    var c := Choose(p, now, key, usable);
    Serve(p.(affinity := c.affinity, rr := c.rr), now, key, c.order)
  }

  /** The synchronous part of an acquire, up to its first suspension. */
  function Begin(p: Pool, now: int, key: string, exclude: set<string>): (Pool, Outcome) {
    UsableIsNominated(p, now, exclude);
    var usable := Usable(p, now, exclude);
    if usable == [] then (p, Exhausted) else BeginWith(p, now, key, usable)
  }

  // ------------------------------------------------------ outcomes of leases

  /** What a released lease says about its bucket. */
  datatype Verdict = Ok | Quota(retryAfter: Option<int>) | Flagged | Fault

  function EnterCordon(b: Bucket, until: int, reason: Reason, now: int): Bucket {
    if b.Cordoned(now) && b.reason == reason then b.(cordonedUntil := Max(b.cordonedUntil, until))
    else if b.Cordoned(now) && until <= b.cordonedUntil then b
    else b.(cordonedUntil := until, reason := reason)
  }

  function EnterCooldown(c: Config, b: Bucket, now: int): Bucket {
    var seconds := Min(c.cooldown * Max(1, b.failures), c.cooldownMax);
    b.(cooldownUntil := Max(b.cooldownUntil, now + seconds))
  }

  function LiftOnSuccess(b: Bucket, now: int): Bucket {
    if b.Cordoned(now) && b.reason != NoReason then b.(cordonedUntil := 0, reason := NoReason) else b
  }

  function LiftOnNewIp(b: Bucket): Bucket {
    if b.reason == QuotaExhausted || b.reason == TierRejected
    then b.(cordonedUntil := 0, reason := NoReason, failures := 0) else b
  }

  function ReturnSlot(b: Bucket): Bucket { b.(inflight := Max(0, b.inflight - 1)) }

  function QuotaCordon(c: Config, wall: int): int {
    var window := SecondsToWindowReset(wall);
    if c.quotaCordonMax > 0 then Min(window, c.quotaCordonMax) else window
  }

  /** A 429: a short bench when upstream names a short wait, else for the day. */
  function Throttled(c: Config, b: Bucket, after: Option<int>, now: int, wall: int): Bucket {
    if after.Some? && after.value <= HARD_QUOTA_RETRY_AFTER
    then EnterCordon(b, now + Max(30 * SECOND, after.value), QuotaSoft, now)
    else EnterCordon(b, now + QuotaCordon(c, wall), QuotaExhausted, now)
  }

  function Judge(c: Config, b: Bucket, v: Verdict, now: int, wall: int): Bucket {
    match v
    case Ok => LiftOnSuccess(b.(failures := 0, cooldownUntil := 0), now)
    case Quota(after) => Throttled(c, b.(failures := b.failures + 1), after, now, wall)
    case Flagged => EnterCordon(b.(failures := b.failures + 1), now + c.cordon, TierRejected, now)
    case Fault => EnterCooldown(c, b.(failures := b.failures + 1), now)
  }

  function Release(c: Config, b: Bucket, v: Verdict, now: int, wall: int): Bucket {
    Judge(c, ReturnSlot(b), v, now, wall)
  }

  // ------------------------------------------------------ probes, rotations

  function MarkProbeFailed(b: Bucket): Bucket { b.(healthy := false) }

  /** A probe answered: `ready` folds status, readiness and the agent's own
      outbound check; `ip` is "" when the answer carried none. */
  function ProbeAnswered(c: Config, b: Bucket, ready: bool, ip: string, now: int): Bucket {
    var changed := ip != "" && ip != b.ip;
    var seen := if ip != "" then b.(ip := ip) else b;
    if !ready then
      var soft := seen.(softFailStreak := seen.softFailStreak + 1);
      if soft.softFailStreak < c.probeFailTolerance then soft else MarkProbeFailed(soft)
    else
      var up := seen.(healthy := true, softFailStreak := 0);
      var lifted := if changed then LiftOnNewIp(up) else up;
      if !b.healthy && !lifted.Cordoned(now) then lifted.(failures := 0, reason := NoReason) else lifted
  }

  function RotationSucceeded(b: Bucket, ip: string): Bucket {
    b.(ip := ip, healthy := true, failures := 0, cordonedUntil := 0, reason := NoReason, cooldownUntil := 0)
  }

  // -------------------------------------------------------------- whole runs

  /** What can happen to one bucket, whoever holds its leases. */
  datatype Effect =
    | Released(verdict: Verdict, wall: int)
    | Abandoned
    | ProbeUnreachable
    | ProbeAnswer(ready: bool, ip: string)
    | MarkRotating(on: bool)
    | Rotated(newIp: string)

  function OnBucket(c: Config, b: Bucket, now: int, e: Effect): Bucket {
    match e
    case Released(v, wall) => Release(c, b, v, now, wall)
    case Abandoned => ReturnSlot(b)
    case ProbeUnreachable => MarkProbeFailed(b)
    case ProbeAnswer(ready, ip) => ProbeAnswered(c, b, ready, ip, now)
    case MarkRotating(on) => b.(rotating := on)
    case Rotated(ip) => RotationSucceeded(b, ip)
  }

  datatype Event =
    | Acquire(key: string, exclude: set<string>)
    | WakeUp(key: string, ticket: Ticket)
    | Affects(bucket: nat, effect: Effect)

  datatype Timed = At(now: int, event: Event)

  /** Any event at any moment; one that names no bucket changes nothing. */
  function Apply(p: Pool, now: int, e: Event): Pool {
    match e
    case Acquire(key, exclude) => Begin(p, now, key, exclude).0
    case WakeUp(key, t) =>
      if t.order != [] && (forall k :: 0 <= k < |t.order| ==> t.order[k] < |p.buckets|) then Wake(p, now, key, t).0 else p
    case Affects(i, effect) =>
      if i < |p.buckets| then p.(buckets := p.buckets[i := OnBucket(p.cfg, p.buckets[i], now, effect)]) else p
  }

  function Run(p: Pool, trace: seq<Timed>): Pool {
    if trace == [] then p
    else
      var last := trace[|trace| - 1];
      Apply(Run(p, trace[..|trace| - 1]), last.now, last.event)
  }

  ghost predicate ClockForward(start: int, trace: seq<Timed>) {
    && (trace != [] ==> start <= trace[0].now)
    && forall i, j :: 0 <= i < j < |trace| ==> trace[i].now <= trace[j].now
  }

  function EndTime(start: int, trace: seq<Timed>): int {
    if trace == [] then start else trace[|trace| - 1].now
  }

  function FreshPool(raw: Config, names: seq<string>): Pool {
    Pool(Normalised(raw), seq(|names|, i requires 0 <= i < |names| => FreshBucket(names[i])), map[], 0)
  }
}
