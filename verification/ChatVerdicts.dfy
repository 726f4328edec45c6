/** What one upstream answer means: for the bucket that gave it, and for where
    the request goes next. */
module ChatVerdicts {
  import opened Basics
  import opened EgressModels
  import opened PoolSpec
  import opened PoolSafety
  import PoolFairness
  import opened ChatWorld

  // --------------------------------------------------------- for the bucket

  /** An answer `x` turned bucket `b` into `d`. */
  ghost predicate Judged(c: Config, authFree: bool, x: Exchange, b: Bucket, d: Bucket, now: int, wall: int) {
    match x
    case Status(code, after, flagged) =>
      if code == 429 then
        CordonedFor(b, d, QuotaBench(c, after, wall), if after.Some? && after.value <= 3_600_000_000 then QuotaSoft else QuotaExhausted, now)
      else if code >= 500 then CooledDown(c, b, d, now)
      else if code == 403 && authFree && flagged then CordonedFor(b, d, c.cordon, TierRejected, now)
      else Cleared(b, d, now)
    case TransportFault => CooledDown(c, b, d, now)
    case AggregateStalled => CooledDown(c, b, d, now)
    case AggregateBroken(_) => CooledDown(c, b, d, now)
    case Aggregated => Cleared(b, d, now)
    case BodyLost => d == b
    case StreamOpened => d == b
  }

  /** The bucket walk `i` holds a lease on. */
  function Serving(w: World, i: nat): nat
    requires CanResolve(w, i)
  {
    w.leases[LeaseOf(w, i)].bucket
  }

  lemma {:induction false} AcquiringSpares(s: World, i: nat, now: int, exclude: set<string>, k: nat)
    requires i < |s.walks| && k < |s.pool.buckets| && s.pool.buckets[k].name in exclude
    ensures var v := Acquiring(s, i, now, "", exclude); |v.pool.buckets| == |s.pool.buckets| && v.pool.buckets[k] == s.pool.buckets[k]
  {
    GrantIsEligible(s.pool, now, "", exclude);
  }

  /** The next acquire of a walk leaves the bucket it was on alone. */
  lemma {:induction false} NextBucketSpares(s: World, i: nat, now: int, k: nat)
    requires i < |s.walks| && k < |s.pool.buckets|
    requires var visited := s.walks[i].visited; visited != [] && s.pool.buckets[k].name == visited[|visited| - 1]
    ensures var v := NextBucket(s, i, now); |v.pool.buckets| == |s.pool.buckets| && v.pool.buckets[k] == s.pool.buckets[k]
  {
    if s.walks[i].attempts > 1 {
      var next := Retrying(s, i);
      var tried := next.walks[i].tried;
      assert tried[|tried| - 1] == s.pool.buckets[k].name;
      AcquiringSpares(next, i, now, NamesIn(tried), k);
    }
  }

  lemma {:induction false} SettledIs(w: World, i: nat, v: Verdict, now: int, wall: int, phase: Phase)
    requires CanResolve(w, i)
    ensures var s := Settle(w, i, v, now, wall, phase); var k := Serving(w, i);
      && |s.pool.buckets| == |w.pool.buckets| && s.pool.buckets == w.pool.buckets[k := Release(w.pool.cfg, BucketOf(w, i), v, now, wall)]
      && s.walks == w.walks[i := w.walks[i].(phase := phase)] && s.pool.cfg == w.pool.cfg
  {
  }

  lemma {:induction false} SettledThenNext(w: World, i: nat, v: Verdict, now: int, wall: int)
    requires WorldOk(w) && CanResolve(w, i)
    ensures var s := NextBucket(Settle(w, i, v, now, wall, Finished), i, now); var k := Serving(w, i);
      k < |s.pool.buckets| && s.pool.buckets[k] == Release(w.pool.cfg, BucketOf(w, i), v, now, wall)
  {
    assert WalkFits(w, i);
    SettledIs(w, i, v, now, wall, Finished);
    ReleaseReturnsSlot(w.pool.cfg, BucketOf(w, i), v, now, wall);
    NextBucketSpares(Settle(w, i, v, now, wall, Finished), i, now, Serving(w, i));
  }

  lemma {:induction false} StatusJudges(w: World, i: nat, x: Exchange, now: int, wall: int)
    requires WorldOk(w) && CanResolve(w, i) && w.walks[i].phase.Exchanging? && x.Status?
    ensures var v := Step(w, now, Answer(i, x, wall)); var k := Serving(w, i);
      k < |v.pool.buckets| && Judged(w.pool.cfg, w.authFree, x, BucketOf(w, i), v.pool.buckets[k], now, wall)
  {
    var v := StatusVerdict(w.authFree, x);
    ReleaseMeans(w.pool.cfg, BucketOf(w, i), v, now, wall);
    if v.Ok? { SettledIs(w, i, v, now, wall, Finished); } else { SettledThenNext(w, i, v, now, wall); }
  }

  /** What every answer does to the bucket that gave it. */
  lemma {:induction false} AnswerJudges(w: World, i: nat, x: Exchange, now: int, wall: int)
    requires WorldOk(w) && CanResolve(w, i) && w.walks[i].phase.Exchanging?
    ensures var v := Step(w, now, Answer(i, x, wall)); var k := Serving(w, i);
      k < |v.pool.buckets| && Judged(w.pool.cfg, w.authFree, x, BucketOf(w, i), v.pool.buckets[k], now, wall)
  {
    match x
    case Status(_, _, _) => StatusJudges(w, i, x, now, wall);
    case TransportFault =>
      ReleaseMeans(w.pool.cfg, BucketOf(w, i), Fault, now, wall);
      SettledThenNext(w, i, Fault, now, wall);
    case BodyLost =>
      assert WalkFits(w, i);
      NextBucketSpares(LoseLease(w, i), i, now, Serving(w, i));
    case StreamOpened =>
    case Aggregated =>
      ReleaseMeans(w.pool.cfg, BucketOf(w, i), Ok, now, wall);
    case AggregateStalled =>
      ReleaseMeans(w.pool.cfg, BucketOf(w, i), Fault, now, wall);
    case AggregateBroken(_) =>
      ReleaseMeans(w.pool.cfg, BucketOf(w, i), Fault, now, wall);
  }

  /** A relay that ends by itself, or because its client left, clears its
      bucket; one that stalled or broke demotes it.  Either way the walk is
      over. */
  lemma {:induction false} RelayJudges(w: World, i: nat, outcome: StreamOutcome, now: int, wall: int)
    requires CanResolve(w, i) && w.walks[i].phase.Streaming? && w.walks[i].phase.started
    ensures var v := Step(w, now, RelayEnded(i, outcome, wall)); var k := Serving(w, i);
      && k < |v.pool.buckets| && v.walks[i].phase.Finished?
      && (outcome.Completed? || outcome.Disconnected? || outcome.Cut? ==> Cleared(BucketOf(w, i), v.pool.buckets[k], now))
      && (outcome.Stalled? || outcome.Interrupted? ==> CooledDown(w.pool.cfg, BucketOf(w, i), v.pool.buckets[k], now))
  {
    ReleaseMeans(w.pool.cfg, BucketOf(w, i), StreamVerdict(outcome), now, wall);
  }

  /** A client that hangs up before the answer only gives the slot back. */
  lemma {:induction false} CancelledJudgesNothing(w: World, i: nat, now: int)
    requires CanResolve(w, i) && w.walks[i].phase.Exchanging?
    ensures var v := Step(w, now, Cancelled(i)); var b := BucketOf(w, i);
      v.walks[i].phase.Finished? && v.pool.buckets == w.pool.buckets[Serving(w, i) := b.(inflight := Max(0, b.inflight - 1))]
  {
  }

  // -------------------------------------------------------- for the request

  /** Walk `i` is at, or queueing for, buckets it had not visited. */
  ghost predicate WalksOn(w: World, v: World, i: nat)
    requires i < |w.walks|
  {
    && i < |v.walks|
    && match v.walks[i].phase
       case Exchanging(l) => l < |v.leases| && v.leases[l].bucket < |v.pool.buckets| && v.pool.buckets[v.leases[l].bucket].name !in w.walks[i].visited
       case Queueing(t) => t.order != [] && forall j :: j in t.order ==> j < |v.pool.buckets| && v.pool.buckets[j].name !in w.walks[i].visited
       case _ => false
  }

  /** A bucket the walk has not visited, not cordoned, and not both healthy and
      mid-rotation. */
  ghost predicate IsLeft(w: World, i: nat, now: int, b: Bucket)
    requires i < |w.walks|
  {
    b.cordonedUntil <= now && !(b.healthy && b.rotating) && b.name !in w.walks[i].visited
  }

  ghost predicate SomeLeft(w: World, i: nat, now: int)
    requires i < |w.walks|
  {
    exists k :: 0 <= k < |w.pool.buckets| && IsLeft(w, i, now, w.pool.buckets[k])
  }

  lemma {:induction false} SomeLeftExactly(w: World, i: nat, now: int)
    requires i < |w.walks|
    ensures SomeLeft(w, i, now) <==> !Begin(w.pool, now, "", NamesIn(w.walks[i].visited)).1.Exhausted?
  {
    RefusedExactly(w.pool, now, "", NamesIn(w.walks[i].visited));
    if SomeLeft(w, i, now) {
      var k :| 0 <= k < |w.pool.buckets| && IsLeft(w, i, now, w.pool.buckets[k]);
      assert w.pool.buckets[k] in w.pool.buckets;
    } else {
      forall b | b in w.pool.buckets && b.name !in NamesIn(w.walks[i].visited) ensures b.Cordoned(now) || (b.healthy && b.rotating) {
        var k :| 0 <= k < |w.pool.buckets| && w.pool.buckets[k] == b;
        assert !IsLeft(w, i, now, w.pool.buckets[k]);
      }
    }
  }

  lemma {:induction false} AcquiringWalksOn(w: World, i: nat, now: int)
    requires i < |w.walks|
    ensures var v := Acquiring(w, i, now, "", NamesIn(w.walks[i].visited));
      if SomeLeft(w, i, now) then WalksOn(w, v, i) else v.walks[i].phase.Finished?
  {
    SomeLeftExactly(w, i, now);
    GrantIsEligible(w.pool, now, "", NamesIn(w.walks[i].visited));
  }

  lemma {:induction false} NextWalksOn(s: World, i: nat, now: int)
    requires i < |s.walks| && s.walks[i].visited != [] && Attempting(Limit(s.pool), s.walks[i])
    ensures var v := NextBucket(s, i, now);
      && i < |v.walks|
      && if s.walks[i].attempts > 1 && SomeLeft(s, i, now) then WalksOn(s, v, i) else v.walks[i].phase.Finished?
  {
    if s.walks[i].attempts > 1 {
      var walk := s.walks[i];
      var next := Retrying(s, i);
      assert walk.tried + [walk.visited[|walk.visited| - 1]] == walk.visited;
      AcquiringWalksOn(next, i, now);
      assert SomeLeft(next, i, now) <==> SomeLeft(s, i, now) by {
        forall k | 0 <= k < |s.pool.buckets| ensures IsLeft(next, i, now, next.pool.buckets[k]) <==> IsLeft(s, i, now, s.pool.buckets[k]) {}
      }
    }
  }

  /** Only a bucket the walk has visited was touched. */
  lemma {:induction false} SameLeft(w: World, s: World, i: nat, now: int, k: nat)
    requires i < |w.walks| && i < |s.walks| && s.walks[i].visited == w.walks[i].visited
    requires k < |w.pool.buckets| == |s.pool.buckets|
    requires w.pool.buckets[k].name in w.walks[i].visited && s.pool.buckets[k].name == w.pool.buckets[k].name
    requires forall j :: 0 <= j < |w.pool.buckets| && j != k ==> s.pool.buckets[j] == w.pool.buckets[j]
    ensures SomeLeft(s, i, now) <==> SomeLeft(w, i, now)
  {
    forall j | 0 <= j < |w.pool.buckets| ensures IsLeft(s, i, now, s.pool.buckets[j]) <==> IsLeft(w, i, now, w.pool.buckets[j]) {}
  }

  lemma {:induction false} SettledWalksOn(w: World, i: nat, v: Verdict, now: int, wall: int)
    requires WorldOk(w) && CanResolve(w, i) && w.walks[i].phase.Exchanging?
    ensures var n := NextBucket(Settle(w, i, v, now, wall, Finished), i, now);
      && i < |n.walks|
      && if w.walks[i].attempts > 1 && SomeLeft(w, i, now) then WalksOn(w, n, i) else n.walks[i].phase.Finished?
  {
    assert WalkFits(w, i);
    var s := Settle(w, i, v, now, wall, Finished);
    SettledIs(w, i, v, now, wall, Finished);
    ReleaseReturnsSlot(w.pool.cfg, BucketOf(w, i), v, now, wall);
    SameLeft(w, s, i, now, Serving(w, i));
    NextWalksOn(s, i, now);
  }

  lemma {:induction false} LostWalksOn(w: World, i: nat, now: int)
    requires WorldOk(w) && CanResolve(w, i) && w.walks[i].phase.Exchanging?
    ensures var n := NextBucket(LoseLease(w, i), i, now);
      && i < |n.walks|
      && if w.walks[i].attempts > 1 && SomeLeft(w, i, now) then WalksOn(w, n, i) else n.walks[i].phase.Finished?
  {
    assert WalkFits(w, i);
    var s := LoseLease(w, i);
    SameLeft(w, s, i, now, Serving(w, i));
    NextWalksOn(s, i, now);
  }

  /** The answers after which another bucket is tried at once. */
  predicate TriesAnother(authFree: bool, x: Exchange) {
    || x.TransportFault? || x.BodyLost?
    || (x.Status? && (x.code == 429 || x.code >= 500 || (x.code == 403 && authFree && x.flagged)))
  }

  /** The request has been at fewer buckets than there are, and than four. */
  predicate MayTryAgain(w: World, i: nat)
    requires i < |w.walks|
  {
    |w.walks[i].visited| < |w.pool.buckets| && |w.walks[i].visited| < 4
  }

  lemma {:induction false} AttemptsLeft(w: World, i: nat)
    requires i < |w.walks| && Attempting(Limit(w.pool), w.walks[i])
    ensures w.walks[i].attempts > 1 <==> MayTryAgain(w, i)
  {
  }

  /** The walk goes on to a bucket it has not visited exactly for a 429, a 5xx, a
      flagged 403 of an anonymous client and a transport fault, while it has
      been at fewer than four and such a bucket is selectable.  Any other status,
      and any of these otherwise, ends the request. */
  lemma {:induction false} AnswerWalksOnExactly(w: World, i: nat, x: Exchange, now: int, wall: int)
    requires WorldOk(w) && CanResolve(w, i) && w.walks[i].phase.Exchanging? && (x.Status? || x.TransportFault? || x.BodyLost?)
    ensures var v := Step(w, now, Answer(i, x, wall));
      && i < |v.walks|
      && if TriesAnother(w.authFree, x) && MayTryAgain(w, i) && SomeLeft(w, i, now) then WalksOn(w, v, i)
         else v.walks[i].phase.Finished?
  {
    assert WalkFits(w, i);
    AttemptsLeft(w, i);
    match x
    case TransportFault => SettledWalksOn(w, i, Fault, now, wall);
    case BodyLost => LostWalksOn(w, i, now);
    case Status(_, _, _) =>
      var v := StatusVerdict(w.authFree, x);
      if v.Ok? { SettledIs(w, i, v, now, wall, Finished); } else { SettledWalksOn(w, i, v, now, wall); }
  }

  /** The other answers keep the walk: a stream goes on on the same lease, an
      aggregate only has its response to close. */
  lemma {:induction false} AnswerHeld(w: World, i: nat, x: Exchange, now: int, wall: int)
    requires CanResolve(w, i) && w.walks[i].phase.Exchanging? && !x.Status? && !x.TransportFault? && !x.BodyLost?
    ensures var v := Step(w, now, Answer(i, x, wall));
      && |v.walks| == |w.walks|
      && v.walks[i] == w.walks[i].(phase := match x
           case StreamOpened => Streaming(w.walks[i].phase.lease, false)
           case Aggregated => Closing(Return)
           case AggregateBroken(false) => Closing(Raise)
           case _ => Closing(Retry))
  {
  }

  /** Once it is closed, an aggregate that stalled or met a transport fault, or
      whose closing did, is tried elsewhere under the same conditions. */
  lemma {:induction false} ClosedWalksOnExactly(w: World, i: nat, fault: bool, now: int)
    requires WorldOk(w) && i < |w.walks| && w.walks[i].phase.Closing?
    ensures var v := Step(w, now, Closed(i, fault));
      && i < |v.walks|
      && if (fault || w.walks[i].phase.after.Retry?) && MayTryAgain(w, i) && SomeLeft(w, i, now) then WalksOn(w, v, i)
         else v.walks[i].phase.Finished?
  {
    assert WalkFits(w, i);
    AttemptsLeft(w, i);
    NextWalksOn(w, i, now);
  }

  /** Walking on moves no session: only the first acquire of a request carries
      its key. */
  lemma {:induction false} NextKeepsBindings(s: World, i: nat, now: int)
    requires i < |s.walks|
    ensures NextBucket(s, i, now).pool.affinity == s.pool.affinity
  {
    if s.walks[i].attempts > 1 && s.walks[i].visited != [] {
      KeylessKeepsBindings(s.pool, now, NamesIn(Retrying(s, i).walks[i].tried));
    }
  }

  /** Only arriving, and waking from that first queue, touches bindings. */
  lemma {:induction false} OnlyFirstAcquireBinds(w: World, e: ChatWorld.Event, now: int)
    requires !e.Arrive? && !e.Woken?
    ensures Step(w, now, e).pool.affinity == w.pool.affinity
  {
    match e
    case Answer(i, x, wall) => if CanResolve(w, i) && w.walks[i].phase.Exchanging? { AnswerKeepsBindings(w, i, x, now, wall); }
    case Closed(i, _) => if i < |w.walks| { NextKeepsBindings(w, i, now); }
    case _ =>
  }

  lemma {:induction false} AnswerKeepsBindings(w: World, i: nat, x: Exchange, now: int, wall: int)
    requires CanResolve(w, i) && w.walks[i].phase.Exchanging?
    ensures OnAnswer(w, i, x, now, wall).pool.affinity == w.pool.affinity
  {
    match x
    case TransportFault => NextKeepsBindings(Settle(w, i, Fault, now, wall, Finished), i, now);
    case BodyLost => NextKeepsBindings(LoseLease(w, i), i, now);
    case Status(_, _, _) => NextKeepsBindings(Settle(w, i, StatusVerdict(w.authFree, x), now, wall, Finished), i, now);
    case _ =>
  }

  /** A request of a session bound to a bucket that is healthy, not benched, not
      rotating and not cooling is taken there, at once or from its queue. */
  lemma {:induction false} ArrivesAtHome(w: World, now: int, key: string, h: nat)
    requires PoolFairness.BoundTo(w.pool, key, h, now) && Normal(w.pool.buckets[h], now)
    ensures var v := Step(w, now, Arrive(key));
      && |v.walks| == |w.walks| + 1
      && match v.walks[|w.walks|].phase
         case Exchanging(l) => l < |v.leases| && v.leases[l] == LeaseRec(h, |w.walks|, Held)
         case Queueing(t) => t.order == [h]
         case _ => false
  {
    PoolFairness.HomeIsKept(w.pool, now, key, h);
  }
}
