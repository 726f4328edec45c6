/** Concurrent chat requests walking the egress pool.  A step is what one
    request runs between two suspensions; upstream answers, cancellations,
    probes and rotations arrive in any order. */
module ChatWorld {
  import opened Basics
  import opened EgressModels
  import opened PoolSpec
  import opened PoolSafety

  const FAILOVER_MAX_ATTEMPTS := 4

  /** Leaked: the slot is held by nobody and nobody will return it. */
  datatype Fate = Held | Resolved | Leaked

  datatype LeaseRec = LeaseRec(bucket: nat, owner: nat, fate: Fate)

  datatype After = Return | Raise | Retry

  datatype Phase =
    | Queueing(ticket: Ticket)             // waiting for an in-flight slot
    | Exchanging(lease: nat)               // inside one upstream attempt
    | Closing(after: After)                // verdict given, closing the response
    | Streaming(lease: nat, started: bool) // answered with a relay
    | Finished

  datatype Walk = Walk(key: string, phase: Phase, attempts: int, tried: seq<string>, visited: seq<string>)

  datatype World = World(pool: Pool, authFree: bool, leases: seq<LeaseRec>, walks: seq<Walk>, lost: nat)

  datatype StreamOutcome = Completed | Disconnected | Cut | Stalled | Interrupted

  /** How one attempt resumes. */
  datatype Exchange =
    | TransportFault
    | BodyLost                    // reading a non-200 body raised; no verdict was given
    | Status(code: int, retryAfter: Option<int>, flagged: bool)
    | StreamOpened
    | Aggregated
    | AggregateStalled
    | AggregateBroken(transport: bool)

  datatype Event =
    | Arrive(key: string)
    | Woken(walk: nat)
    | Answer(walk: nat, exchange: Exchange, wall: int)
    | Closed(walk: nat, fault: bool)
    | Cancelled(walk: nat)
    | RelayStarted(walk: nat)
    | RelayEnded(walk: nat, outcome: StreamOutcome, wall: int)
    | RelayDropped(walk: nat)
    | Background(bucket: nat, effect: Effect)

  // ------------------------------------------------------------- transitions

  function Limit(p: Pool): int { Min(|p.buckets|, FAILOVER_MAX_ATTEMPTS) }

  function SetPhase(w: World, i: nat, phase: Phase): World
    requires i < |w.walks|
  {
    w.(walks := w.walks[i := w.walks[i].(phase := phase)])
  }

  /** Install what an acquire returned for walk `i`. */
  function Obtain(w: World, i: nat, p: Pool, o: Outcome): World
    requires i < |w.walks| && (o.Granted? ==> o.bucket < |p.buckets|)
  {
    match o
    case Exhausted => SetPhase(w.(pool := p), i, Finished)
    case Queued(t) => SetPhase(w.(pool := p), i, Queueing(t))
    case Granted(b) =>
      var walk := w.walks[i];
      w.(pool := p,
         leases := w.leases + [LeaseRec(b, i, Held)],
         walks := w.walks[i := walk.(phase := Exchanging(|w.leases|), visited := walk.visited + [p.buckets[b].name])])
  }

  function Acquiring(w: World, i: nat, now: int, key: string, exclude: set<string>): World
    requires i < |w.walks|
  {
    GrantIsEligible(w.pool, now, key, exclude);
    var (p, o) := Begin(w.pool, now, key, exclude);
    Obtain(w, i, p, o)
  }

  /** The walk's current lease, if it holds one. */
  function HeldBy(walk: Walk): Option<nat> {
    if walk.phase.Exchanging? || walk.phase.Streaming? then Some(walk.phase.lease) else None
  }

  predicate CanResolve(w: World, i: nat) {
    && i < |w.walks| && HeldBy(w.walks[i]).Some?
    && var l := HeldBy(w.walks[i]).value;
       l < |w.leases| && w.leases[l].bucket < |w.pool.buckets|
  }

  function LeaseOf(w: World, i: nat): nat
    requires CanResolve(w, i)
  {
    HeldBy(w.walks[i]).value
  }

  function OnLeaseBucket(w: World, i: nat, b: Bucket): World
    requires CanResolve(w, i)
  {
    var l := LeaseOf(w, i);
    w.(pool := w.pool.(buckets := w.pool.buckets[w.leases[l].bucket := b]), leases := w.leases[l := w.leases[l].(fate := Resolved)])
  }

  function BucketOf(w: World, i: nat): Bucket
    requires CanResolve(w, i)
  {
    w.pool.buckets[w.leases[LeaseOf(w, i)].bucket]
  }

  /** Release walk `i`'s lease with a verdict and move it to `phase`. */
  function Settle(w: World, i: nat, v: Verdict, now: int, wall: int, phase: Phase): World
    requires CanResolve(w, i)
  {
    SetPhase(OnLeaseBucket(w, i, Release(w.pool.cfg, BucketOf(w, i), v, now, wall)), i, phase)
  }

  function AbandonLease(w: World, i: nat): World
    requires CanResolve(w, i)
  {
    SetPhase(OnLeaseBucket(w, i, ReturnSlot(BucketOf(w, i))), i, Finished)
  }

  function LoseLease(w: World, i: nat): World
    requires CanResolve(w, i)
  {
    var l := LeaseOf(w, i);
    SetPhase(w.(leases := w.leases[l := w.leases[l].(fate := Leaked)], lost := w.lost + 1), i, Finished)
  }

  function NamesIn(s: seq<string>): set<string> { set n | n in s }

  /** After a failed attempt: try the next bucket, or give up. */
  function NextBucket(w: World, i: nat, now: int): World
    requires i < |w.walks|
  {
    var walk := w.walks[i];
    var left := walk.attempts - 1;
    if left <= 0 || walk.visited == [] then
      w.(walks := w.walks[i := walk.(phase := Finished, attempts := left)])
    else
      var tried := walk.tried + [walk.visited[|walk.visited| - 1]];
      var next := w.(walks := w.walks[i := walk.(phase := Finished, attempts := left, tried := tried)]);
      Acquiring(next, i, now, "", NamesIn(tried))
  }

  function StatusVerdict(authFree: bool, x: Exchange): Verdict
    requires x.Status?
  {
    if x.code == 429 then Quota(x.retryAfter)
    else if x.code >= 500 then Fault
    else if x.code == 403 && authFree && x.flagged then Flagged
    else Ok
  }

  function StreamVerdict(o: StreamOutcome): Verdict {
    match o
    case Completed => Ok
    case Disconnected => Ok
    case Cut => Ok
    case Stalled => Fault
    case Interrupted => Fault
  }

  function OnAnswer(w: World, i: nat, x: Exchange, now: int, wall: int): World
    requires CanResolve(w, i) && w.walks[i].phase.Exchanging?
  {
    match x
    case TransportFault => NextBucket(Settle(w, i, Fault, now, wall, Finished), i, now)
    case BodyLost => NextBucket(LoseLease(w, i), i, now)
    case Status(_, _, _) =>
      var v := StatusVerdict(w.authFree, x);
      var settled := Settle(w, i, v, now, wall, Finished);
      if v.Ok? then settled else NextBucket(settled, i, now)
    case StreamOpened => SetPhase(w, i, Streaming(LeaseOf(w, i), false))
    case Aggregated => Settle(w, i, Ok, now, wall, Closing(Return))
    case AggregateStalled => Settle(w, i, Fault, now, wall, Closing(Retry))
    case AggregateBroken(transport) => Settle(w, i, Fault, now, wall, Closing(if transport then Retry else Raise))
  }

  /** One step of the whole system; an event that does not fit changes nothing. */
  function Step(w: World, now: int, e: Event): World {
    match e
    case Arrive(key) =>
      var walk := Walk(key, Finished, Limit(w.pool), [], []);
      Acquiring(w.(walks := w.walks + [walk]), |w.walks|, now, key, {})
    case Woken(i) =>
      if i < |w.walks| && w.walks[i].phase.Queueing? && TicketOk(w.pool, w.walks[i].phase.ticket) then
        var walk := w.walks[i];
        var (p, o) := Wake(w.pool, now, if walk.tried == [] then walk.key else "", walk.phase.ticket);
        WakeIsFromTicket(w.pool, now, if walk.tried == [] then walk.key else "", walk.phase.ticket);
        Obtain(w, i, p, o)
      else w
    case Answer(i, x, wall) =>
      if CanResolve(w, i) && w.walks[i].phase.Exchanging? then OnAnswer(w, i, x, now, wall) else w
    case Closed(i, fault) =>
      if i < |w.walks| && w.walks[i].phase.Closing? then
        if fault || w.walks[i].phase.after.Retry? then NextBucket(w, i, now) else SetPhase(w, i, Finished)
      else w
    case Cancelled(i) =>
      if CanResolve(w, i) && w.walks[i].phase.Exchanging? then AbandonLease(w, i)
      else if i < |w.walks| && (w.walks[i].phase.Queueing? || w.walks[i].phase.Closing?) then SetPhase(w, i, Finished)
      else w
    case RelayStarted(i) =>
      if i < |w.walks| && w.walks[i].phase.Streaming? then SetPhase(w, i, Streaming(w.walks[i].phase.lease, true)) else w
    case RelayEnded(i, outcome, wall) =>
      if CanResolve(w, i) && w.walks[i].phase.Streaming? && w.walks[i].phase.started
      then Settle(w, i, StreamVerdict(outcome), now, wall, Finished) else w
    case RelayDropped(i) =>
      if CanResolve(w, i) && w.walks[i].phase.Streaming? && !w.walks[i].phase.started then LoseLease(w, i) else w
    case Background(b, effect) =>
      if effect.Released? || effect.Abandoned? then w else w.(pool := Apply(w.pool, now, Affects(b, effect)))
  }

  predicate TicketOk(p: Pool, t: Ticket) {
    t.order != [] && forall k :: 0 <= k < |t.order| ==> t.order[k] < |p.buckets|
  }

  datatype Timed = At(now: int, event: Event)

  function Start(raw: Config, names: seq<string>, authFree: bool): World {
    World(FreshPool(raw, names), authFree, [], [], 0)
  }

  function RunFrom(w: World, trace: seq<Timed>): World { Iterate(w, trace, (v: World, t: Timed) => Step(v, t.now, t.event)) }

  // ------------------------------------------------------ lease conservation

  /** Slots taken on bucket `b` and not given back. */
  function Outstanding(ls: seq<LeaseRec>, b: nat): nat {
    if ls == [] then 0
    else Outstanding(ls[..|ls| - 1], b) + (if ls[|ls| - 1].bucket == b && !ls[|ls| - 1].fate.Resolved? then 1 else 0)
  }

  function LeakedCount(ls: seq<LeaseRec>): nat {
    if ls == [] then 0 else LeakedCount(ls[..|ls| - 1]) + (if ls[|ls| - 1].fate.Leaked? then 1 else 0)
  }

  lemma {:induction false} CountsAfterUpdate(ls: seq<LeaseRec>, l: nat, fate: Fate, b: nat)
    requires l < |ls| && ls[l].fate.Held?
    ensures var after := ls[l := ls[l].(fate := fate)];
      && Outstanding(after, b) == Outstanding(ls, b) - (if ls[l].bucket == b && fate.Resolved? then 1 else 0)
      && LeakedCount(after) == LeakedCount(ls) + (if fate.Leaked? then 1 else 0)
  {
    var n := |ls| - 1;
    var after := ls[l := ls[l].(fate := fate)];
    if l < n {
      CountsAfterUpdate(ls[..n], l, fate, b);
      assert after[..n] == ls[..n][l := ls[l].(fate := fate)];
    } else {
      assert after[..n] == ls[..n];
    }
  }

  lemma {:induction false} CountsAfterAppend(ls: seq<LeaseRec>, r: LeaseRec, b: nat)
    ensures Outstanding(ls + [r], b) == Outstanding(ls, b) + (if r.bucket == b && !r.fate.Resolved? then 1 else 0)
    ensures LeakedCount(ls + [r]) == LeakedCount(ls) + (if r.fate.Leaked? then 1 else 0)
  {
    assert (ls + [r])[..|ls|] == ls;
  }

  lemma {:induction false} HeldIsOutstanding(ls: seq<LeaseRec>, l: nat)
    requires l < |ls| && !ls[l].fate.Resolved?
    ensures Outstanding(ls, ls[l].bucket) >= 1
  {
    var n := |ls| - 1;
    if l < n { HeldIsOutstanding(ls[..n], l); }
  }

  ghost predicate LeaseOk(w: World, l: nat)
    requires l < |w.leases|
  {
    var r := w.leases[l];
    r.bucket < |w.pool.buckets| && r.owner < |w.walks| && (r.fate.Held? ==> HeldBy(w.walks[r.owner]) == Some(l))
  }

  ghost predicate HolderOk(w: World, i: nat)
    requires i < |w.walks|
  {
    var h := HeldBy(w.walks[i]);
    h.Some? ==> h.value < |w.leases| && w.leases[h.value] == LeaseRec(w.leases[h.value].bucket, i, Held)
  }

  /** Each held lease belongs to the walk that took it, and to no other. */
  ghost predicate Owned(w: World) {
    (forall l :: 0 <= l < |w.leases| ==> LeaseOk(w, l)) && (forall i :: 0 <= i < |w.walks| ==> HolderOk(w, i))
  }

  /** Every bucket's in-flight count is its number of outstanding leases. */
  ghost predicate Conserved(w: World) {
    && (forall b :: 0 <= b < |w.pool.buckets| ==> w.pool.buckets[b].inflight == Outstanding(w.leases, b))
    && LeakedCount(w.leases) == w.lost
  }

  ghost predicate Distinct(s: seq<string>) { forall i, j :: 0 <= i < j < |s| ==> s[i] != s[j] }

  /** Between two attempts: everything visited has been tried. */
  ghost predicate Waiting(limit: int, walk: Walk) {
    walk.visited == walk.tried && |walk.visited| == limit - walk.attempts && walk.attempts >= 1
  }

  /** One attempt is running or was just judged. */
  ghost predicate Attempting(limit: int, walk: Walk) {
    && |walk.visited| == |walk.tried| + 1 && walk.visited[..|walk.tried|] == walk.tried
    && |walk.visited| == limit - walk.attempts + 1 && walk.attempts >= 1
  }

  ghost predicate WalkOk(limit: int, walk: Walk) {
    && Distinct(walk.visited) && |walk.visited| <= limit
    && match walk.phase
       case Queueing(_) => Waiting(limit, walk)
       case Finished => true
       case _ => Attempting(limit, walk)
  }

  /** Names a queued walk may still be handed. */
  ghost predicate TicketFits(p: Pool, walk: Walk) {
    walk.phase.Queueing? ==>
      && ValidTicket(p, walk.phase.ticket)
      && forall k :: 0 <= k < |walk.phase.ticket.order| ==>
           walk.phase.ticket.order[k] < |p.buckets| && p.buckets[walk.phase.ticket.order[k]].name !in walk.tried
  }

  /** The lease a walk holds is on the bucket it visited last. */
  ghost predicate OnLastVisited(w: World, i: nat)
    requires i < |w.walks|
  {
    var h, visited := HeldBy(w.walks[i]), w.walks[i].visited;
    h.Some? ==> h.value < |w.leases| && w.leases[h.value].bucket < |w.pool.buckets| && visited != []
                && w.pool.buckets[w.leases[h.value].bucket].name == visited[|visited| - 1]
  }

  ghost predicate WalkFits(w: World, i: nat)
    requires i < |w.walks|
  {
    WalkOk(Limit(w.pool), w.walks[i]) && TicketFits(w.pool, w.walks[i]) && OnLastVisited(w, i)
  }

  ghost predicate WalksOk(w: World) { forall i :: 0 <= i < |w.walks| ==> WalkFits(w, i) }

  ghost predicate WorldOk(w: World) { w.pool.buckets != [] && Owned(w) && Conserved(w) && WalksOk(w) }

  /** Leases are added and settled, and stay on their buckets. */
  ghost predicate LeasesStay(w: World, v: World) {
    |w.leases| <= |v.leases| && forall l :: 0 <= l < |w.leases| ==> v.leases[l].bucket == w.leases[l].bucket
  }

  ghost predicate SameShape(p: Pool, q: Pool) {
    q.cfg == p.cfg && |q.buckets| == |p.buckets| && forall i :: 0 <= i < |p.buckets| ==> q.buckets[i].name == p.buckets[i].name
  }

  // ------------------------------------------- each building block keeps it

  /** The other walks are untouched. */
  ghost predicate OthersSame(w: World, v: World, i: nat) {
    && i < |v.walks| <= |w.walks| + 1 && |w.walks| <= |v.walks| && (i < |w.walks| ==> |v.walks| == |w.walks|)
    && forall j :: 0 <= j < |w.walks| && j != i ==> v.walks[j] == w.walks[j]
  }

  lemma {:induction false} WalksOkKept(w: World, v: World, i: nat)
    requires WalksOk(w) && SameShape(w.pool, v.pool) && OthersSame(w, v, i) && LeasesStay(w, v) && WalkFits(v, i)
    ensures WalksOk(v)
  {
    forall j | 0 <= j < |v.walks| ensures WalkFits(v, j) {
      if j != i { FitsStill(w, v, j); }
    }
  }

  lemma {:induction false} FitsStill(w: World, v: World, j: nat)
    requires j < |w.walks| && j < |v.walks| && WalkFits(w, j) && v.walks[j] == w.walks[j] && SameShape(w.pool, v.pool) && LeasesStay(w, v)
    ensures WalkFits(v, j)
  {
  }

  /** The part of WorldOk that does not look inside walk `i`. */
  ghost predicate CoreOk(w: World) { w.pool.buckets != [] && Owned(w) && Conserved(w) }

  /** Walk `i` lets go of lease `l`, which is resolved or leaked. */
  lemma {:induction false} LettingGoKeepsOwned(w: World, v: World, i: nat, l: nat, fate: Fate, phase: Phase)
    requires Owned(w) && i < |w.walks| && HeldBy(w.walks[i]) == Some(l) && l < |w.leases| && !fate.Held?
    requires !phase.Exchanging? && !phase.Streaming?
    requires |v.pool.buckets| == |w.pool.buckets| && v.leases == w.leases[l := w.leases[l].(fate := fate)]
    requires v.walks == w.walks[i := w.walks[i].(phase := phase)]
    ensures Owned(v)
  {
    assert HolderOk(w, i);
    forall k | 0 <= k < |v.leases| ensures LeaseOk(v, k) { assert LeaseOk(w, k); }
    forall j | 0 <= j < |v.walks| ensures HolderOk(v, j) { assert HolderOk(w, j); }
  }

  lemma {:induction false} HeldLease(w: World, i: nat)
    requires Owned(w) && CanResolve(w, i)
    ensures w.leases[LeaseOf(w, i)].fate.Held? && w.leases[LeaseOf(w, i)].owner == i
  {
    assert HolderOk(w, i);
  }

  lemma {:induction false} ResolveCounts(w: World, i: nat, b: Bucket)
    requires Conserved(w) && CanResolve(w, i) && w.leases[LeaseOf(w, i)].fate.Held? && b.inflight == BucketOf(w, i).inflight - 1
    ensures Conserved(OnLeaseBucket(w, i, b))
  {
    var l := LeaseOf(w, i);
    var v := OnLeaseBucket(w, i, b);
    forall c | 0 <= c < |v.pool.buckets| ensures v.pool.buckets[c].inflight == Outstanding(v.leases, c) {
      CountsAfterUpdate(w.leases, l, Resolved, c);
    }
    CountsAfterUpdate(w.leases, l, Resolved, 0);
  }

  lemma {:induction false} SlotIsTaken(w: World, i: nat)
    requires Conserved(w) && CanResolve(w, i) && w.leases[LeaseOf(w, i)].fate.Held?
    ensures ReturnSlot(BucketOf(w, i)).inflight == BucketOf(w, i).inflight - 1
  {
    HeldIsOutstanding(w.leases, LeaseOf(w, i));
  }

  lemma {:induction false} ResolveKeepsCore(w: World, i: nat, b: Bucket, phase: Phase)
    requires CoreOk(w) && CanResolve(w, i) && !phase.Exchanging? && !phase.Streaming?
    requires b.name == BucketOf(w, i).name && b.inflight == ReturnSlot(BucketOf(w, i)).inflight
    ensures CoreOk(SetPhase(OnLeaseBucket(w, i, b), i, phase)) && SameShape(w.pool, OnLeaseBucket(w, i, b).pool)
    ensures ReturnSlot(BucketOf(w, i)).inflight == BucketOf(w, i).inflight - 1
  {
    HeldLease(w, i);
    SlotIsTaken(w, i);
    ResolveCounts(w, i, b);
    LettingGoKeepsOwned(w, SetPhase(OnLeaseBucket(w, i, b), i, phase), i, LeaseOf(w, i), Resolved, phase);
  }

  lemma {:induction false} ReleaseReturnsSlot(c: Config, b: Bucket, v: Verdict, now: int, wall: int)
    ensures Release(c, b, v, now, wall).inflight == ReturnSlot(b).inflight && Release(c, b, v, now, wall).name == b.name
  {
  }

  lemma {:induction false} SettleKeepsCore(w: World, i: nat, v: Verdict, now: int, wall: int, phase: Phase)
    requires CoreOk(w) && CanResolve(w, i) && !phase.Exchanging? && !phase.Streaming?
    ensures CoreOk(Settle(w, i, v, now, wall, phase)) && SameShape(w.pool, Settle(w, i, v, now, wall, phase).pool)
  {
    ReleaseReturnsSlot(w.pool.cfg, BucketOf(w, i), v, now, wall);
    ResolveKeepsCore(w, i, Release(w.pool.cfg, BucketOf(w, i), v, now, wall), phase);
  }

  lemma {:induction false} LoseKeepsCounts(w: World, i: nat)
    requires Conserved(w) && CanResolve(w, i) && w.leases[LeaseOf(w, i)].fate.Held?
    ensures Conserved(LoseLease(w, i)) && LoseLease(w, i).pool == w.pool
  {
    var l := LeaseOf(w, i);
    forall c | 0 <= c < |w.pool.buckets| ensures Outstanding(LoseLease(w, i).leases, c) == Outstanding(w.leases, c) {
      CountsAfterUpdate(w.leases, l, Leaked, c);
    }
    CountsAfterUpdate(w.leases, l, Leaked, 0);
  }

  lemma {:induction false} LoseKeepsCore(w: World, i: nat)
    requires CoreOk(w) && CanResolve(w, i)
    ensures CoreOk(LoseLease(w, i)) && LoseLease(w, i).pool == w.pool
  {
    HeldLease(w, i);
    LoseKeepsCounts(w, i);
    LettingGoKeepsOwned(w, LoseLease(w, i), i, LeaseOf(w, i), Leaked, Finished);
  }

  lemma {:induction false} ObtainKeepsCounts(w: World, i: nat, p: Pool, o: Outcome)
    requires Conserved(w) && i < |w.walks| && o.Granted? && OneMoreOn(w.pool, p, o.bucket)
    ensures Conserved(Obtain(w, i, p, o))
  {
    forall c | 0 <= c < |p.buckets| ensures p.buckets[c].inflight == Outstanding(Obtain(w, i, p, o).leases, c) {
      CountsAfterAppend(w.leases, LeaseRec(o.bucket, i, Held), c);
    }
    CountsAfterAppend(w.leases, LeaseRec(o.bucket, i, Held), 0);
  }

  lemma {:induction false} GrantKeepsOwned(w: World, i: nat, p: Pool, o: Outcome)
    requires Owned(w) && i < |w.walks| && HeldBy(w.walks[i]).None? && o.Granted? && OneMoreOn(w.pool, p, o.bucket)
    ensures Owned(Obtain(w, i, p, o))
  {
    var v := Obtain(w, i, p, o);
    forall l | 0 <= l < |v.leases| ensures LeaseOk(v, l) {
      if l < |w.leases| { assert LeaseOk(w, l); }
    }
    forall j | 0 <= j < |v.walks| ensures HolderOk(v, j) { assert HolderOk(w, j); }
  }

  /** The leases and who holds them stay as they are. */
  ghost predicate SameHolders(w: World, v: World) {
    && v.leases == w.leases && |w.walks| <= |v.walks| && |v.pool.buckets| == |w.pool.buckets|
    && forall j :: 0 <= j < |v.walks| ==> HeldBy(v.walks[j]) == if j < |w.walks| then HeldBy(w.walks[j]) else None
  }

  lemma {:induction false} SameHoldersKeepOwned(w: World, v: World)
    requires Owned(w) && SameHolders(w, v)
    ensures Owned(v)
  {
    forall l | 0 <= l < |v.leases| ensures LeaseOk(v, l) { assert LeaseOk(w, l); }
    forall j | 0 <= j < |v.walks| ensures HolderOk(v, j) {
      if j < |w.walks| { assert HolderOk(w, j); }
    }
  }

  lemma {:induction false} SameHoldersKeepCore(w: World, v: World)
    requires CoreOk(w) && SameHolders(w, v) && v.pool.buckets == w.pool.buckets && v.lost == w.lost
    ensures CoreOk(v)
  {
    SameHoldersKeepOwned(w, v);
  }

  lemma {:induction false} ObtainKeepsCore(w: World, i: nat, p: Pool, o: Outcome)
    requires CoreOk(w) && i < |w.walks| && HeldBy(w.walks[i]).None?
    requires o.Granted? ==> OneMoreOn(w.pool, p, o.bucket)
    requires !o.Granted? ==> p.buckets == w.pool.buckets
    ensures CoreOk(Obtain(w, i, p, o))
  {
    if o.Granted? {
      ObtainKeepsCounts(w, i, p, o);
      GrantKeepsOwned(w, i, p, o);
    } else {
      SameHoldersKeepCore(w, Obtain(w, i, p, o));
    }
  }

  /** A granted name is new to the walk, so its visits stay distinct. */
  lemma {:induction false} ObtainKeepsWalk(w: World, i: nat, p: Pool, o: Outcome)
    requires i < |w.walks| && SameShape(w.pool, p)
    requires Waiting(Limit(w.pool), w.walks[i]) && Distinct(w.walks[i].visited) && |w.walks[i].visited| < Limit(w.pool)
    requires o.Granted? ==> o.bucket < |p.buckets| && p.buckets[o.bucket].name !in w.walks[i].tried
    requires o.Queued? ==> ValidTicket(p, o.ticket) && forall k :: 0 <= k < |o.ticket.order| ==>
               o.ticket.order[k] < |p.buckets| && p.buckets[o.ticket.order[k]].name !in w.walks[i].tried
    ensures var v := Obtain(w, i, p, o);
      |v.walks| == |w.walks| && WalkFits(v, i)
  {
  }

  lemma {:induction false} AcquiringKeeps(w: World, i: nat, now: int, key: string, exclude: set<string>)
    requires CoreOk(w) && i < |w.walks| && HeldBy(w.walks[i]).None?
    requires Waiting(Limit(w.pool), w.walks[i]) && Distinct(w.walks[i].visited)
    requires exclude == NamesIn(w.walks[i].tried) && (key == "" || w.walks[i].tried == [])
    ensures var v := Acquiring(w, i, now, key, exclude);
      && CoreOk(v) && SameShape(w.pool, v.pool) && OthersSame(w, v, i)
      && LeasesStay(w, v) && WalkFits(v, i)
  {
    GrantIsEligible(w.pool, now, key, exclude);
    var (p, o) := Begin(w.pool, now, key, exclude);
    ObtainKeepsCore(w, i, p, o);
    if o.Queued? {
      forall k | 0 <= k < |o.ticket.order| ensures o.ticket.order[k] < |p.buckets| && p.buckets[o.ticket.order[k]].name !in w.walks[i].tried {
        assert o.ticket.order[k] in o.ticket.order;
      }
    }
    ObtainKeepsWalk(w, i, p, o);
  }

  /** Only walk `i` moved, and it is still in order. */
  ghost predicate Moved(w: World, v: World, i: nat) {
    CoreOk(v) && SameShape(w.pool, v.pool) && OthersSame(w, v, i) && LeasesStay(w, v) && WalkFits(v, i)
  }

  lemma {:induction false} MovedKeepsWorld(w: World, v: World, i: nat)
    requires WorldOk(w) && Moved(w, v, i)
    ensures WorldOk(v)
  {
    WalksOkKept(w, v, i);
  }

  /** The walk as it is when the next acquire is made. */
  function Retrying(w: World, i: nat): World
    requires i < |w.walks| && w.walks[i].visited != []
  {
    var walk := w.walks[i];
    w.(walks := w.walks[i := walk.(phase := Finished, attempts := walk.attempts - 1,
                                   tried := walk.tried + [walk.visited[|walk.visited| - 1]])])
  }

  lemma {:induction false} RetryingKeeps(w: World, i: nat)
    requires CoreOk(w) && i < |w.walks| && HeldBy(w.walks[i]).None?
    requires Attempting(Limit(w.pool), w.walks[i]) && Distinct(w.walks[i].visited) && w.walks[i].attempts > 1
    ensures CoreOk(Retrying(w, i)) && Waiting(Limit(w.pool), Retrying(w, i).walks[i])
    ensures Retrying(w, i).walks[i].visited == w.walks[i].visited
  {
    var walk := w.walks[i];
    assert walk.tried + [walk.visited[|walk.visited| - 1]] == walk.visited;
    SameHoldersKeepCore(w, Retrying(w, i));
  }

  lemma {:induction false} NextBucketKeeps(w: World, i: nat, now: int)
    requires CoreOk(w) && i < |w.walks| && HeldBy(w.walks[i]).None?
    requires Attempting(Limit(w.pool), w.walks[i]) && Distinct(w.walks[i].visited)
    ensures Moved(w, NextBucket(w, i, now), i)
  {
    if w.walks[i].attempts > 1 {
      var next := Retrying(w, i);
      RetryingKeeps(w, i);
      AcquiringKeeps(next, i, now, "", NamesIn(next.walks[i].tried));
      assert NextBucket(w, i, now) == Acquiring(next, i, now, "", NamesIn(next.walks[i].tried));
    } else {
      SameHoldersKeepCore(w, NextBucket(w, i, now));
    }
  }

  lemma {:induction false} ArriveKeeps(w: World, now: int, key: string)
    requires WorldOk(w)
    ensures WorldOk(Step(w, now, Arrive(key)))
  {
    var next := w.(walks := w.walks + [Walk(key, Finished, Limit(w.pool), [], [])]);
    var none := NamesIn(next.walks[|w.walks|].tried);
    assert none == {};
    SameHoldersKeepCore(w, next);
    AcquiringKeeps(next, |w.walks|, now, key, none);
    MovedKeepsWorld(w, Step(w, now, Arrive(key)), |w.walks|);
  }

  lemma {:induction false} QueuedObtains(w: World, i: nat, p: Pool, o: Outcome)
    requires WorldOk(w) && i < |w.walks| && w.walks[i].phase.Queueing?
    requires SameShape(w.pool, p) && !o.Exhausted?
    requires o.Granted? ==> o.bucket in w.walks[i].phase.ticket.order && OneMoreOn(w.pool, p, o.bucket)
    requires o.Queued? ==> o.ticket == w.walks[i].phase.ticket && p == w.pool
    ensures WorldOk(Obtain(w, i, p, o))
  {
    assert WalkFits(w, i);
    ObtainKeepsCore(w, i, p, o);
    ObtainKeepsWalk(w, i, p, o);
    MovedKeepsWorld(w, Obtain(w, i, p, o), i);
  }

  lemma {:induction false} WokenKeeps(w: World, now: int, i: nat)
    requires WorldOk(w)
    ensures WorldOk(Step(w, now, Woken(i)))
  {
    if i < |w.walks| && w.walks[i].phase.Queueing? && TicketOk(w.pool, w.walks[i].phase.ticket) {
      var walk := w.walks[i];
      var key := if walk.tried == [] then walk.key else "";
      var (p, o) := Wake(w.pool, now, key, walk.phase.ticket);
      WakeIsFromTicket(w.pool, now, key, walk.phase.ticket);
      QueuedObtains(w, i, p, o);
    }
  }

  /** Walk `i` gave up its lease and changed nothing else of interest. */
  ghost predicate GaveUp(w: World, v: World, i: nat) {
    && CoreOk(v) && SameShape(w.pool, v.pool) && OthersSame(w, v, i) && LeasesStay(w, v) && i < |w.walks|
    && v.walks[i] == w.walks[i].(phase := Finished)
  }

  lemma {:induction false} GaveUpThenNext(w: World, v: World, i: nat, now: int)
    requires WorldOk(w) && GaveUp(w, v, i) && w.walks[i].phase.Exchanging?
    ensures WorldOk(NextBucket(v, i, now))
  {
    assert WalkFits(w, i);
    NextBucketKeeps(v, i, now);
    MovedKeepsWorld(w, NextBucket(v, i, now), i);
  }

  lemma {:induction false} SettleThenNext(w: World, i: nat, v: Verdict, now: int, wall: int)
    requires WorldOk(w) && CanResolve(w, i) && w.walks[i].phase.Exchanging?
    ensures WorldOk(NextBucket(Settle(w, i, v, now, wall, Finished), i, now))
  {
    SettleKeepsCore(w, i, v, now, wall, Finished);
    GaveUpThenNext(w, Settle(w, i, v, now, wall, Finished), i, now);
  }

  lemma {:induction false} SettleKeeps(w: World, i: nat, v: Verdict, now: int, wall: int, phase: Phase)
    requires WorldOk(w) && CanResolve(w, i) && (phase.Finished? || (phase.Closing? && w.walks[i].phase.Exchanging?))
    ensures WorldOk(Settle(w, i, v, now, wall, phase))
  {
    assert WalkFits(w, i);
    SettleKeepsCore(w, i, v, now, wall, phase);
    MovedKeepsWorld(w, Settle(w, i, v, now, wall, phase), i);
  }

  lemma {:induction false} BodyLostKeeps(w: World, i: nat, now: int)
    requires WorldOk(w) && CanResolve(w, i) && w.walks[i].phase.Exchanging?
    ensures WorldOk(NextBucket(LoseLease(w, i), i, now))
  {
    LoseKeepsCore(w, i);
    GaveUpThenNext(w, LoseLease(w, i), i, now);
  }

  lemma {:induction false} StreamOpenedKeeps(w: World, i: nat, started: bool)
    requires WorldOk(w) && CanResolve(w, i)
    ensures WorldOk(SetPhase(w, i, Streaming(LeaseOf(w, i), started)))
  {
    assert WalkFits(w, i);
    SameHoldersKeepCore(w, SetPhase(w, i, Streaming(LeaseOf(w, i), started)));
    MovedKeepsWorld(w, SetPhase(w, i, Streaming(LeaseOf(w, i), started)), i);
  }

  lemma {:induction false} AnswerKeeps(w: World, i: nat, x: Exchange, now: int, wall: int)
    requires WorldOk(w) && CanResolve(w, i) && w.walks[i].phase.Exchanging?
    ensures WorldOk(OnAnswer(w, i, x, now, wall))
  {
    match x
    case TransportFault => SettleThenNext(w, i, Fault, now, wall);
    case BodyLost => BodyLostKeeps(w, i, now);
    case Status(_, _, _) =>
      var v := StatusVerdict(w.authFree, x);
      if v.Ok? { SettleKeeps(w, i, v, now, wall, Finished); } else { SettleThenNext(w, i, v, now, wall); }
    case StreamOpened => StreamOpenedKeeps(w, i, false);
    case Aggregated => SettleKeeps(w, i, Ok, now, wall, Closing(Return));
    case AggregateStalled => SettleKeeps(w, i, Fault, now, wall, Closing(Retry));
    case AggregateBroken(transport) => SettleKeeps(w, i, Fault, now, wall, Closing(if transport then Retry else Raise));
  }

  lemma {:induction false} ClosedKeeps(w: World, now: int, i: nat, fault: bool)
    requires WorldOk(w)
    ensures WorldOk(Step(w, now, Closed(i, fault)))
  {
    if i < |w.walks| && w.walks[i].phase.Closing? {
      assert WalkFits(w, i);
      if fault || w.walks[i].phase.after.Retry? {
        NextBucketKeeps(w, i, now);
        MovedKeepsWorld(w, NextBucket(w, i, now), i);
      } else {
        StopKeeps(w, i);
      }
    }
  }

  lemma {:induction false} LoseKeeps(w: World, i: nat)
    requires WorldOk(w) && CanResolve(w, i)
    ensures WorldOk(LoseLease(w, i))
  {
    assert WalkFits(w, i);
    LoseKeepsCore(w, i);
    MovedKeepsWorld(w, LoseLease(w, i), i);
  }

  lemma {:induction false} AbandonKeeps(w: World, i: nat)
    requires WorldOk(w) && CanResolve(w, i)
    ensures WorldOk(AbandonLease(w, i))
  {
    assert WalkFits(w, i);
    ResolveKeepsCore(w, i, ReturnSlot(BucketOf(w, i)), Finished);
    MovedKeepsWorld(w, AbandonLease(w, i), i);
  }

  lemma {:induction false} StopKeeps(w: World, i: nat)
    requires WorldOk(w) && i < |w.walks| && HeldBy(w.walks[i]).None?
    ensures WorldOk(SetPhase(w, i, Finished))
  {
    assert WalkFits(w, i);
    SameHoldersKeepCore(w, SetPhase(w, i, Finished));
    MovedKeepsWorld(w, SetPhase(w, i, Finished), i);
  }

  lemma {:induction false} CancelledKeeps(w: World, now: int, i: nat)
    requires WorldOk(w)
    ensures WorldOk(Step(w, now, Cancelled(i)))
  {
    if CanResolve(w, i) && w.walks[i].phase.Exchanging? {
      AbandonKeeps(w, i);
    } else if i < |w.walks| && (w.walks[i].phase.Queueing? || w.walks[i].phase.Closing?) {
      StopKeeps(w, i);
    }
  }

  lemma {:induction false} RelayStartedKeeps(w: World, now: int, i: nat)
    requires WorldOk(w)
    ensures WorldOk(Step(w, now, RelayStarted(i)))
  {
    if i < |w.walks| && w.walks[i].phase.Streaming? {
      assert HolderOk(w, i) && LeaseOk(w, w.walks[i].phase.lease);
      StreamOpenedKeeps(w, i, true);
    }
  }

  lemma {:induction false} BackgroundKeepsSlots(c: Config, b: Bucket, now: int, e: Effect)
    requires !e.Released? && !e.Abandoned?
    ensures OnBucket(c, b, now, e).inflight == b.inflight && OnBucket(c, b, now, e).name == b.name
  {
  }

  lemma {:induction false} SameSlotsKeepWorld(w: World, p: Pool)
    requires WorldOk(w) && SameShape(w.pool, p)
    requires forall c :: 0 <= c < |p.buckets| ==> p.buckets[c].inflight == w.pool.buckets[c].inflight
    ensures WorldOk(w.(pool := p))
  {
    var v := w.(pool := p);
    SameHoldersKeepOwned(w, v);
    forall j | 0 <= j < |v.walks| ensures WalkFits(v, j) { FitsStill(w, v, j); }
  }

  lemma {:induction false} BackgroundKeeps(w: World, now: int, b: nat, e: Effect)
    requires WorldOk(w)
    ensures WorldOk(Step(w, now, Background(b, e)))
  {
    if !e.Released? && !e.Abandoned? && b < |w.pool.buckets| {
      BackgroundKeepsSlots(w.pool.cfg, w.pool.buckets[b], now, e);
      SameSlotsKeepWorld(w, Step(w, now, Background(b, e)).pool);
    }
  }

  lemma {:induction false} StepKeepsWorld(w: World, now: int, e: Event)
    requires WorldOk(w)
    ensures WorldOk(Step(w, now, e))
  {
    match e
    case Arrive(key) => ArriveKeeps(w, now, key);
    case Woken(i) => WokenKeeps(w, now, i);
    case Answer(i, x, wall) =>
      if CanResolve(w, i) && w.walks[i].phase.Exchanging? { AnswerKeeps(w, i, x, now, wall); }
    case Closed(i, fault) => ClosedKeeps(w, now, i, fault);
    case Cancelled(i) => CancelledKeeps(w, now, i);
    case RelayStarted(i) => RelayStartedKeeps(w, now, i);
    case RelayEnded(i, outcome, wall) =>
      if CanResolve(w, i) && w.walks[i].phase.Streaming? && w.walks[i].phase.started {
        SettleKeeps(w, i, StreamVerdict(outcome), now, wall, Finished);
      }
    case RelayDropped(i) =>
      if CanResolve(w, i) && w.walks[i].phase.Streaming? && !w.walks[i].phase.started { LoseKeeps(w, i); }
    case Background(b, effect) => BackgroundKeeps(w, now, b, effect);
  }

  // --------------------------------------------------------- main results

  lemma {:induction false} StartIsOk(raw: Config, names: seq<string>, authFree: bool)
    requires names != []
    ensures WorldOk(Start(raw, names, authFree))
  {
  }

  /** In every interleaving each bucket's in-flight count is its number of
      unresolved leases, and every walk visits distinct buckets. */
  lemma {:induction false} EveryRunIsOk(raw: Config, names: seq<string>, authFree: bool, trace: seq<Timed>)
    requires names != []
    ensures WorldOk(RunFrom(Start(raw, names, authFree), trace))
  {
    StartIsOk(raw, names, authFree);
    forall v: World, t: Timed | WorldOk(v) ensures WorldOk(Step(v, t.now, t.event)) {
      StepKeepsWorld(v, t.now, t.event);
    }
    IterateKeeps(Start(raw, names, authFree), trace, (v: World, t: Timed) => Step(v, t.now, t.event), (v, k) => WorldOk(v));
  }

  /** One request makes at most min(pool size, 4) exchanges, each on a bucket
      of its own. */
  lemma {:induction false} WalkIsBounded(raw: Config, names: seq<string>, authFree: bool, trace: seq<Timed>, i: nat)
    requires names != [] && i < |RunFrom(Start(raw, names, authFree), trace).walks|
    ensures var w := RunFrom(Start(raw, names, authFree), trace);
      Distinct(w.walks[i].visited) && |w.walks[i].visited| <= Limit(w.pool) <= 4
  {
    EveryRunIsOk(raw, names, authFree, trace);
    var w := RunFrom(Start(raw, names, authFree), trace);
    assert WalkFits(w, i);
  }

  lemma {:induction false} NoneHeldCounts(ls: seq<LeaseRec>, b: nat)
    requires forall l :: 0 <= l < |ls| ==> !ls[l].fate.Held?
    ensures LeakedCount(ls) == 0 ==> Outstanding(ls, b) == 0
  {
    if ls != [] { NoneHeldCounts(ls[..|ls| - 1], b); }
  }

  lemma {:induction false} SomeLeaked(ls: seq<LeaseRec>) returns (l: nat)
    requires LeakedCount(ls) > 0
    ensures l < |ls| && ls[l].fate.Leaked?
  {
    if ls[|ls| - 1].fate.Leaked? { l := |ls| - 1; } else { l := SomeLeaked(ls[..|ls| - 1]); }
  }

  /** Once no request is in progress, every slot is back exactly when no lease
      was ever lost. */
  lemma {:induction false} IdleSlotsExactly(w: World)
    requires WorldOk(w) && forall i :: 0 <= i < |w.walks| ==> w.walks[i].phase.Finished?
    ensures (forall b :: 0 <= b < |w.pool.buckets| ==> w.pool.buckets[b].inflight == 0) <==> w.lost == 0
  {
    forall l | 0 <= l < |w.leases| ensures !w.leases[l].fate.Held? { assert LeaseOk(w, l); }
    if w.lost == 0 {
      forall b | 0 <= b < |w.pool.buckets| ensures w.pool.buckets[b].inflight == 0 {
        NoneHeldCounts(w.leases, b);
      }
    } else {
      var l := SomeLeaked(w.leases);
      assert LeaseOk(w, l);
      HeldIsOutstanding(w.leases, l);
    }
  }

  /** The steps that give a walk another lease leave everything else alone. */
  ghost predicate Took(w: World, v: World, i: nat, spent: nat) {
    && v.lost == w.lost && |w.leases| <= |v.leases| && v.leases[..|w.leases|] == w.leases
    && i < |w.walks| && |v.walks| == |w.walks| && v.walks == w.walks[i := v.walks[i]]
    && v.walks[i].attempts == w.walks[i].attempts - spent
    && (v.walks[i].phase.Finished? || v.walks[i].phase.Queueing? || v.walks[i].phase.Exchanging?)
  }

  lemma {:induction false} AcquiringTakes(w: World, i: nat, now: int, key: string, exclude: set<string>)
    requires i < |w.walks|
    ensures Took(w, Acquiring(w, i, now, key, exclude), i, 0)
  {
    GrantIsEligible(w.pool, now, key, exclude);
    var (p, o) := Begin(w.pool, now, key, exclude);
    var v := Obtain(w, i, p, o);
    assert v.leases[..|w.leases|] == w.leases;
  }

  lemma {:induction false} NextBucketTakes(w: World, i: nat, now: int)
    requires i < |w.walks|
    ensures Took(w, NextBucket(w, i, now), i, 1)
  {
    if w.walks[i].attempts > 1 && w.walks[i].visited != [] {
      var next := Retrying(w, i);
      AcquiringTakes(next, i, now, "", NamesIn(next.walks[i].tried));
      var v := NextBucket(w, i, now);
      assert v == Acquiring(next, i, now, "", NamesIn(next.walks[i].tried));
      assert v.walks == w.walks[i := v.walks[i]];
    }
  }

  /** How much a walk may still do. */
  function Energy(walk: Walk): int {
    match walk.phase
    case Finished => 0
    case Queueing(_) => 5 * walk.attempts + 4
    case Exchanging(_) => 5 * walk.attempts + 3
    case Closing(_) => 5 * walk.attempts + 2
    case Streaming(_, started) => 5 * walk.attempts + (if started then 1 else 2)
  }

  /** A walk either stands still or runs down; once answered it never
      exchanges again. */
  ghost predicate RunsDown(x: Walk, y: Walk) {
    || y == x
    || (0 <= Energy(y) < Energy(x) && (x.phase.Streaming? ==> y.visited == x.visited && (y.phase.Streaming? || y.phase.Finished?)))
  }

  ghost predicate LeaseSettles(x: LeaseRec, y: LeaseRec) {
    y.bucket == x.bucket && y.owner == x.owner && (x.fate.Held? || y == x)
  }

  ghost predicate Progress(w: World, v: World) {
    && |w.leases| <= |v.leases| && (forall l :: 0 <= l < |w.leases| ==> LeaseSettles(w.leases[l], v.leases[l]))
    && |w.walks| <= |v.walks| && (forall i :: 0 <= i < |w.walks| ==> RunsDown(w.walks[i], v.walks[i]))
  }

  lemma {:induction false} NextBucketProgress(w: World, s: World, i: nat, now: int)
    requires i < |w.walks| && (w.walks[i].phase.Exchanging? || w.walks[i].phase.Closing?) && w.walks[i].attempts >= 1
    requires i < |s.walks| && s.walks == w.walks[i := w.walks[i].(phase := s.walks[i].phase)] && |s.leases| == |w.leases|
    requires forall l :: 0 <= l < |w.leases| ==> LeaseSettles(w.leases[l], s.leases[l])
    ensures Progress(w, NextBucket(s, i, now))
  {
    NextBucketTakes(s, i, now);
    var v := NextBucket(s, i, now);
    forall l | 0 <= l < |w.leases| ensures LeaseSettles(w.leases[l], v.leases[l]) {
      assert v.leases[l] == v.leases[..|s.leases|][l] == s.leases[l];
    }
    assert RunsDown(w.walks[i], v.walks[i]);
  }

  lemma {:induction false} SettleProgress(w: World, i: nat, v: Verdict, now: int, wall: int, phase: Phase)
    requires WorldOk(w) && CanResolve(w, i) && (phase.Finished? || (phase.Closing? && w.walks[i].phase.Exchanging?))
    ensures Progress(w, Settle(w, i, v, now, wall, phase))
  {
    assert WalkFits(w, i);
    HeldLease(w, i);
  }

  lemma {:induction false} AnswerProgress(w: World, i: nat, x: Exchange, now: int, wall: int)
    requires WorldOk(w) && CanResolve(w, i) && w.walks[i].phase.Exchanging?
    ensures Progress(w, OnAnswer(w, i, x, now, wall))
  {
    assert WalkFits(w, i);
    HeldLease(w, i);
    match x
    case TransportFault => NextBucketProgress(w, Settle(w, i, Fault, now, wall, Finished), i, now);
    case BodyLost => NextBucketProgress(w, LoseLease(w, i), i, now);
    case Status(_, _, _) =>
      var v := StatusVerdict(w.authFree, x);
      if v.Ok? { SettleProgress(w, i, v, now, wall, Finished); }
      else { NextBucketProgress(w, Settle(w, i, v, now, wall, Finished), i, now); }
    case StreamOpened =>
    case Aggregated => SettleProgress(w, i, Ok, now, wall, Closing(Return));
    case AggregateStalled => SettleProgress(w, i, Fault, now, wall, Closing(Retry));
    case AggregateBroken(transport) => SettleProgress(w, i, Fault, now, wall, Closing(if transport then Retry else Raise));
  }

  lemma {:induction false} ArriveProgress(w: World, now: int, key: string)
    ensures Progress(w, Step(w, now, Arrive(key)))
  {
    var next := w.(walks := w.walks + [Walk(key, Finished, Limit(w.pool), [], [])]);
    AcquiringTakes(next, |w.walks|, now, key, {});
    var v := Acquiring(next, |w.walks|, now, key, {});
    assert v == Step(w, now, Arrive(key));
    forall l | 0 <= l < |w.leases| ensures LeaseSettles(w.leases[l], v.leases[l]) {
      assert v.leases[l] == v.leases[..|w.leases|][l];
    }
    forall i | 0 <= i < |w.walks| ensures RunsDown(w.walks[i], v.walks[i]) {
      assert v.walks[i] == next.walks[|w.walks| := v.walks[|w.walks|]][i];
    }
  }

  lemma {:induction false} AbandonProgress(w: World, i: nat)
    requires WorldOk(w) && CanResolve(w, i)
    ensures Progress(w, AbandonLease(w, i))
  {
    assert WalkFits(w, i);
    HeldLease(w, i);
  }

  lemma {:induction false} LoseProgress(w: World, i: nat)
    requires WorldOk(w) && CanResolve(w, i)
    ensures Progress(w, LoseLease(w, i))
  {
    assert WalkFits(w, i);
    HeldLease(w, i);
  }

  /** No lease changes and walk `i` moves to `phase`. */
  lemma {:induction false} PhaseProgress(w: World, i: nat, phase: Phase)
    requires i < |w.walks| && RunsDown(w.walks[i], w.walks[i].(phase := phase))
    ensures Progress(w, SetPhase(w, i, phase))
  {
  }

  lemma {:induction false} StopProgress(w: World, i: nat, now: int)
    requires WorldOk(w) && i < |w.walks|
    ensures Progress(w, Step(w, now, Cancelled(i)))
  {
    assert WalkFits(w, i);
    if CanResolve(w, i) && w.walks[i].phase.Exchanging? { AbandonProgress(w, i); }
    else if w.walks[i].phase.Queueing? || w.walks[i].phase.Closing? { PhaseProgress(w, i, Finished); }
  }

  lemma {:induction false} ClosedProgress(w: World, now: int, i: nat, fault: bool)
    requires WorldOk(w)
    ensures Progress(w, Step(w, now, Closed(i, fault)))
  {
    if i < |w.walks| && w.walks[i].phase.Closing? {
      assert WalkFits(w, i);
      if fault || w.walks[i].phase.after.Retry? { NextBucketProgress(w, w, i, now); } else { PhaseProgress(w, i, Finished); }
    }
  }

  lemma {:induction false} ObtainProgress(w: World, i: nat, p: Pool, o: Outcome)
    requires i < |w.walks| && w.walks[i].phase.Queueing? && w.walks[i].attempts >= 1
    requires o.Granted? ==> o.bucket < |p.buckets|
    requires o.Queued? ==> o.ticket == w.walks[i].phase.ticket
    ensures Progress(w, Obtain(w, i, p, o))
  {
  }

  lemma {:induction false} WokenProgress(w: World, now: int, i: nat)
    requires WorldOk(w)
    ensures Progress(w, Step(w, now, Woken(i)))
  {
    if i < |w.walks| && w.walks[i].phase.Queueing? && TicketOk(w.pool, w.walks[i].phase.ticket) {
      assert WalkFits(w, i);
      var key := if w.walks[i].tried == [] then w.walks[i].key else "";
      var (p, o) := Wake(w.pool, now, key, w.walks[i].phase.ticket);
      WakeIsFromTicket(w.pool, now, key, w.walks[i].phase.ticket);
      ObtainProgress(w, i, p, o);
    }
  }

  lemma {:induction false} RelayStartedProgress(w: World, now: int, i: nat)
    requires WorldOk(w)
    ensures Progress(w, Step(w, now, RelayStarted(i)))
  {
    if i < |w.walks| && w.walks[i].phase.Streaming? {
      assert WalkFits(w, i);
      PhaseProgress(w, i, Streaming(w.walks[i].phase.lease, true));
    }
  }

  lemma {:induction false} BackgroundProgress(w: World, now: int, b: nat, e: Effect)
    ensures Progress(w, Step(w, now, Background(b, e)))
  {
  }

  /** Every step resolves a lease at most once, never revives a finished walk
      and brings each walk it moves nearer its end. */
  lemma {:induction false} StepProgress(w: World, now: int, e: Event)
    requires WorldOk(w)
    ensures Progress(w, Step(w, now, e))
  {
    match e
    case Arrive(key) => ArriveProgress(w, now, key);
    case Woken(i) => WokenProgress(w, now, i);
    case Answer(i, x, wall) =>
      if CanResolve(w, i) && w.walks[i].phase.Exchanging? { AnswerProgress(w, i, x, now, wall); }
    case Closed(i, fault) => ClosedProgress(w, now, i, fault);
    case Cancelled(i) => if i < |w.walks| { StopProgress(w, i, now); }
    case RelayStarted(i) => RelayStartedProgress(w, now, i);
    case RelayEnded(i, outcome, wall) =>
      if CanResolve(w, i) && w.walks[i].phase.Streaming? && w.walks[i].phase.started {
        SettleProgress(w, i, StreamVerdict(outcome), now, wall, Finished);
      }
    case RelayDropped(i) =>
      if CanResolve(w, i) && w.walks[i].phase.Streaming? && !w.walks[i].phase.started { LoseProgress(w, i); }
    case Background(b, effect) => BackgroundProgress(w, now, b, effect);
  }

  /** The two ways the code loses a slot: a non-200 body whose read raises
      before any verdict, and a relay that is never iterated. */
  predicate Leaks(e: Event) { (e.Answer? && e.exchange.BodyLost?) || e.RelayDropped? }

  lemma {:induction false} AnswerLosesNone(w: World, i: nat, x: Exchange, now: int, wall: int)
    requires CanResolve(w, i) && w.walks[i].phase.Exchanging? && !x.BodyLost?
    ensures OnAnswer(w, i, x, now, wall).lost == w.lost
  {
    match x
    case TransportFault => NextBucketTakes(Settle(w, i, Fault, now, wall, Finished), i, now);
    case Status(_, _, _) => NextBucketTakes(Settle(w, i, StatusVerdict(w.authFree, x), now, wall, Finished), i, now);
    case _ =>
  }

  lemma {:induction false} OnlyLeaksLose(w: World, now: int, e: Event)
    requires !Leaks(e)
    ensures Step(w, now, e).lost == w.lost
  {
    match e
    case Arrive(key) =>
      AcquiringTakes(w.(walks := w.walks + [Walk(key, Finished, Limit(w.pool), [], [])]), |w.walks|, now, key, {});
    case Woken(i) =>
    case Answer(i, x, wall) =>
      if CanResolve(w, i) && w.walks[i].phase.Exchanging? { AnswerLosesNone(w, i, x, now, wall); }
    case Closed(i, fault) => if i < |w.walks| { NextBucketTakes(w, i, now); }
    case Cancelled(i) =>
    case RelayStarted(i) =>
    case RelayEnded(i, outcome, wall) =>
    case Background(b, effect) =>
  }

  /** Without those two faults, a run that has answered every request holds no
      slot on any bucket. */
  lemma {:induction false} EverySlotComesBack(raw: Config, names: seq<string>, authFree: bool, trace: seq<Timed>)
    requires names != [] && forall k :: 0 <= k < |trace| ==> !Leaks(trace[k].event)
    ensures var w := RunFrom(Start(raw, names, authFree), trace);
      (forall i :: 0 <= i < |w.walks| ==> w.walks[i].phase.Finished?) ==>
        forall b :: 0 <= b < |w.pool.buckets| ==> w.pool.buckets[b].inflight == 0
  {
    var start := Start(raw, names, authFree);
    StartIsOk(raw, names, authFree);
    forall v: World, k: nat | k < |trace| && WorldOk(v) && v.lost == 0
      ensures WorldOk(Step(v, trace[k].now, trace[k].event)) && Step(v, trace[k].now, trace[k].event).lost == 0
    {
      StepKeepsWorld(v, trace[k].now, trace[k].event);
      OnlyLeaksLose(v, trace[k].now, trace[k].event);
    }
    IterateKeeps(start, trace, (v: World, t: Timed) => Step(v, t.now, t.event), (v, k) => WorldOk(v) && v.lost == 0);
    var w := RunFrom(start, trace);
    if forall i :: 0 <= i < |w.walks| ==> w.walks[i].phase.Finished? { IdleSlotsExactly(w); }
  }

  /** Each leak keeps its slot for good, so it is visible once the pool idles. */
  lemma {:induction false} ALeakIsPermanent(w: World, now: int, i: nat)
    requires WorldOk(w) && CanResolve(w, i) && w.walks[i].phase.Streaming? && !w.walks[i].phase.started
    ensures var v := Step(w, now, RelayDropped(i));
      v.lost == w.lost + 1 && BucketOf(w, i).inflight >= 1 && v.pool == w.pool && v.walks[i].phase.Finished?
  {
    HeldLease(w, i);
    HeldIsOutstanding(w.leases, LeaseOf(w, i));
  }

  /** A request ends without touching any bucket exactly when every bucket is
      cordoned, or healthy and rotating, as it arrives. */
  lemma {:induction false} SilentExactly(w: World, now: int, key: string)
    ensures var v := Step(w, now, Arrive(key));
      && |v.walks| == |w.walks| + 1
      && (v.walks[|w.walks|].phase.Finished? <==>
            forall b :: 0 <= b < |w.pool.buckets| ==> !Selectable(w.pool.buckets[b], now))
      && (v.walks[|w.walks|].phase.Finished? ==> v.walks[|w.walks|].visited == [] && v.pool == w.pool)
  {
    RefusedExactly(w.pool, now, key, {});
    AcquiringTakes(w.(walks := w.walks + [Walk(key, Finished, Limit(w.pool), [], [])]), |w.walks|, now, key, {});
  }
}
