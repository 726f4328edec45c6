/** Where the pool sends work: conversations keep their bucket, new sessions
    spread out, and keyless traffic is balanced. */
module PoolFairness {
  import opened Basics
  import opened EgressModels
  import opened PoolSpec
  import opened PoolSafety

  // ------------------------------------------------------- session affinity

  ghost predicate SameNames(a: Pool, b: Pool) {
    a.cfg == b.cfg && |a.buckets| == |b.buckets| && forall i :: 0 <= i < |a.buckets| ==> a.buckets[i].name == b.buckets[i].name
  }

  lemma {:induction false} OneMoreKeepsNames(p: Pool, q: Pool, i: nat)
    requires OneMoreOn(p, q, i)
    ensures SameNames(p, q)
  {
  }

  lemma {:induction false} AcquireKeepsNames(p: Pool, now: int, key: string, exclude: set<string>)
    ensures SameNames(p, Begin(p, now, key, exclude).0)
  {
    GrantIsEligible(p, now, key, exclude);
    var (q, o) := Begin(p, now, key, exclude);
    if o.Granted? { OneMoreKeepsNames(p, q, o.bucket); }
  }

  lemma {:induction false} WakeKeepsNames(p: Pool, now: int, key: string, t: Ticket)
    requires ValidTicket(p, t)
    ensures SameNames(p, Wake(p, now, key, t).0)
  {
    WakeIsFromTicket(p, now, key, t);
    var (q, o) := Wake(p, now, key, t);
    if o.Granted? { OneMoreKeepsNames(p, q, o.bucket); }
  }

  lemma {:induction false} EffectKeepsName(c: Config, b: Bucket, now: int, e: Effect)
    ensures OnBucket(c, b, now, e).name == b.name
  {
  }

  lemma {:induction false} ApplyKeepsNames(p: Pool, now: int, e: Event)
    ensures SameNames(p, Apply(p, now, e))
  {
    match e
    case Acquire(key, exclude) => AcquireKeepsNames(p, now, key, exclude);
    case WakeUp(key, t) => if ValidTicket(p, t) { WakeKeepsNames(p, now, key, t); }
    case Affects(i, effect) => if i < |p.buckets| { EffectKeepsName(p.cfg, p.buckets[i], now, effect); }
  }

  lemma {:induction false} FindSameNames(a: seq<Bucket>, b: seq<Bucket>, name: string)
    requires |a| == |b| && forall i :: 0 <= i < |a| ==> a[i].name == b[i].name
    ensures Find(a, name) == Find(b, name)
  {
    if a != [] { FindSameNames(a[1..], b[1..], name); }
  }

  ghost predicate BoundTo(p: Pool, key: string, i: nat, now: int) {
    && Honours(p, key) && key in p.affinity
    && now - p.affinity[key].seen <= p.cfg.affinityTtl
    && i < |p.buckets| && Find(p.buckets, p.affinity[key].bucket) == Some(i)
  }

  lemma {:induction false} HomeWins(p: Pool, now: int, key: string, i: nat, usable: seq<nat>)
    requires BoundTo(p, key, i, now) && Normal(p.buckets[i], now) && Nominated(p, usable)
    ensures var (q, o) := BeginWith(p, now, key, usable);
      && !o.Exhausted?
      && (o.Granted? ==> o.bucket == i && q.rr == p.rr && q.affinity == Purged(p, now)[key := Binding(p.buckets[i].name, now)])
      && (o.Queued? ==> o.ticket.order == [i])
      && (p.cfg.maxInflight <= 0 ==> o.Granted?)
  {
    assert Home(p, now, key) == Some(i);
    ServeIsFromOrder(p.(affinity := Purged(p, now)), now, key, [i]);
  }

  /** A session bound to a bucket that is healthy, not benched, not rotating and
      not cooling is served there — at once, or from a queue for that bucket
      alone — and the grant refreshes the binding. */
  lemma {:induction false} HomeIsKept(p: Pool, now: int, key: string, i: nat)
    requires BoundTo(p, key, i, now) && Normal(p.buckets[i], now)
    ensures var (q, o) := Begin(p, now, key, {});
      && !o.Exhausted?
      && (o.Granted? ==> o.bucket == i && q.rr == p.rr && q.affinity == Purged(p, now)[key := Binding(p.buckets[i].name, now)])
      && (o.Queued? ==> o.ticket.order == [i])
      && (p.cfg.maxInflight <= 0 ==> o.Granted?)
  {
    ExhaustedExactly(p, now, {});
    assert p.buckets[i] in p.buckets;
    UsableIsNominated(p, now, {});
    HomeWins(p, now, key, i, Usable(p, now, {}));
  }

  predicate ByOthers(e: Event, key: string) {
    (e.Acquire? ==> e.key != key) && (e.WakeUp? ==> e.key != key)
  }

  lemma {:induction false} ServeKeepsOtherBindings(p: Pool, now: int, other: string, order: seq<nat>, key: string)
    requires Nominated(p, order) && key != other && key in p.affinity
    ensures var q := Serve(p, now, other, order).0;
      key in q.affinity && q.affinity[key] == p.affinity[key]
  {
  }

  lemma {:induction false} BeginKeepsOtherBindings(p: Pool, now: int, other: string, usable: seq<nat>, key: string)
    requires key in p.affinity && now - p.affinity[key].seen <= p.cfg.affinityTtl && key != other && Nominated(p, usable)
    ensures var q := BeginWith(p, now, other, usable).0;
      key in q.affinity && q.affinity[key] == p.affinity[key]
  {
    ChoiceIsUsable(p, now, other, usable);
    var rest := Bindings(p, now, other);
    assert key in rest && rest[key] == p.affinity[key];
    var c := Choose(p, now, other, usable);
    ServeKeepsOtherBindings(p.(affinity := rest, rr := c.rr), now, other, c.order, key);
  }

  /** Nobody else's request drops or moves a binding before its TTL. */
  lemma {:induction false} OthersKeepBinding(p: Pool, now: int, e: Event, key: string)
    requires key in p.affinity && now - p.affinity[key].seen <= p.cfg.affinityTtl && ByOthers(e, key)
    ensures key in Apply(p, now, e).affinity && Apply(p, now, e).affinity[key] == p.affinity[key]
  {
    match e
    case Acquire(other, exclude) =>
      UsableIsNominated(p, now, exclude);
      var usable := Usable(p, now, exclude);
      if usable != [] { BeginKeepsOtherBindings(p, now, other, usable, key); }
    case WakeUp(_, _) =>
    case Affects(_, _) =>
  }

  lemma {:induction false} BindingSurvivesRun(p: Pool, start: int, trace: seq<Timed>, key: string, i: nat, until: int)
    requires BoundTo(p, key, i, until) && ClockForward(start, trace) && EndTime(start, trace) <= until
    requires forall k :: 0 <= k < |trace| ==> ByOthers(trace[k].event, key)
    ensures BoundTo(Run(p, trace), key, i, until) && SameNames(p, Run(p, trace))
    ensures Run(p, trace).affinity[key] == p.affinity[key]
  {
    if trace != [] {
      var front, last := trace[..|trace| - 1], trace[|trace| - 1];
      BindingSurvivesRun(p, start, front, key, i, until);
      var q := Run(p, front);
      OthersKeepBinding(q, last.now, last.event, key);
      ApplyKeepsNames(q, last.now, last.event);
      FindSameNames(q.buckets, Apply(q, last.now, last.event).buckets, q.affinity[key].bucket);
    }
  }

  /** What passes while a queued request sleeps, and when it looks again. */
  datatype Wait = Wait(others: seq<Timed>, at: int)

  /** One turn of a conversation: everybody else's traffic, its request, and the
      wake-ups should the request have to queue. */
  datatype Turn = Turn(others: seq<Timed>, at: int, waits: seq<Wait>)

  /** Wake up until served; also the time of the last look. */
  function Await(p: Pool, key: string, o: Outcome, at: int, waits: seq<Wait>): (Pool, Outcome, int)
    decreases |waits|
  {
    if !o.Queued? || waits == [] then (p, o, at)
    else
      var q := Run(p, waits[0].others);
      if o.ticket.order == [] || exists k :: 0 <= k < |o.ticket.order| && o.ticket.order[k] >= |q.buckets| then (q, o, at)
      else
        var (r, again) := Wake(q, waits[0].at, key, o.ticket);
        Await(r, key, again, waits[0].at, waits[1..])
  }

  function TakeTurn(p: Pool, key: string, t: Turn): (Pool, Outcome, int) {
    var (q, o) := Begin(Run(p, t.others), t.at, key, {});
    Await(q, key, o, t.at, t.waits)
  }

  function Converse(p: Pool, key: string, turns: seq<Turn>): (Pool, seq<Outcome>)
    decreases |turns|
  {
    if turns == [] then (p, [])
    else
      var (q, o, _) := TakeTurn(p, key, turns[0]);
      var (r, rest) := Converse(q, key, turns[1..]);
      (r, [o] + rest)
  }

  /** The turns come at most one TTL apart, find the bucket usable, and are
      served while it is still healthy and was not benched when they came. */
  ghost predicate KeepsTalking(p: Pool, key: string, i: nat, turns: seq<Turn>, last: int)
    decreases |turns|
  {
    turns != [] ==>
      var t := turns[0];
      && last <= t.at <= last + p.cfg.affinityTtl
      && ClockForward(last, t.others) && EndTime(last, t.others) <= t.at
      && (forall k :: 0 <= k < |t.others| ==> ByOthers(t.others[k].event, key))
      && var q := Run(p, t.others);
         && i < |q.buckets| && Normal(q.buckets[i], t.at)
         && var (r, o, done) := TakeTurn(p, key, t);
            && o.Granted? && i < |r.buckets| && r.buckets[i].healthy && !r.buckets[i].Cordoned(t.at)
            && KeepsTalking(r, key, i, turns[1..], done)
  }

  lemma {:induction false} RunKeepsNames(p: Pool, trace: seq<Timed>)
    ensures SameNames(p, Run(p, trace))
  {
    if trace != [] {
      RunKeepsNames(p, trace[..|trace| - 1]);
      ApplyKeepsNames(Run(p, trace[..|trace| - 1]), trace[|trace| - 1].now, trace[|trace| - 1].event);
    }
  }

  /** A request queued for bucket `i` alone gets that bucket, and with it its
      binding if the bucket is still fit for one. */
  lemma {:induction false} AwaitServesHome(p: Pool, key: string, i: nat, o: Outcome, at: int, waits: seq<Wait>, began: int)
    requires key != "" && i < |p.buckets| && !o.Exhausted? && (o.Queued? ==> o.ticket.order == [i] && o.ticket.began == began)
    requires o.Granted? ==> o.bucket == i && key in p.affinity && p.affinity[key] == Binding(p.buckets[i].name, at)
    ensures var (r, e, done) := Await(p, key, o, at, waits);
      && SameNames(p, r) && (e.Granted? || (e.Queued? && e.ticket.order == [i]))
      && (e.Granted? ==> e.bucket == i)
      && (e.Granted? && r.buckets[i].healthy && !r.buckets[i].Cordoned(began) ==>
            key in r.affinity && r.affinity[key] == Binding(p.buckets[i].name, done))
    decreases |waits|
  {
    if o.Queued? && waits != [] {
      var q := Run(p, waits[0].others);
      RunKeepsNames(p, waits[0].others);
      WakeIsFromTicket(q, waits[0].at, key, o.ticket);
      WakeBinds(q, waits[0].at, key, o.ticket, i);
      var (r, again) := Wake(q, waits[0].at, key, o.ticket);
      if again.Queued? {
        AwaitServesHome(r, key, i, again, waits[0].at, waits[1..], began);
      }
    }
  }

  lemma {:induction false} WakeBinds(q: Pool, now: int, key: string, t: Ticket, i: nat)
    requires key != "" && i < |q.buckets| && t.order == [i]
    ensures var (r, o) := Wake(q, now, key, t);
      o.Granted? ==> r.buckets[i].healthy && !r.buckets[i].Cordoned(t.began) ==>
        key in r.affinity && r.affinity[key] == Binding(q.buckets[i].name, now)
  {
    WakeIsFromTicket(q, now, key, t);
  }

  lemma {:induction false} TurnKeepsBucket(p: Pool, key: string, i: nat, t: Turn, last: int)
    requires BoundTo(p, key, i, last) && p.affinity[key].seen == last
    requires KeepsTalking(p, key, i, [t], last)
    ensures var (r, o, done) := TakeTurn(p, key, t);
      o == Granted(i) && BoundTo(r, key, i, done) && r.affinity[key].seen == done && SameNames(p, r)
  {
    BindingSurvivesRun(p, last, t.others, key, i, t.at);
    var q := Run(p, t.others);
    HomeIsKept(q, t.at, key, i);
    GrantIsEligible(q, t.at, key, {});
    var (b, o) := Begin(q, t.at, key, {});
    AwaitServesHome(b, key, i, o, t.at, t.waits, t.at);
    var r := TakeTurn(p, key, t).0;
    FindSameNames(q.buckets, r.buckets, q.buckets[i].name);
  }

  /** A conversation that never pauses longer than the TTL keeps one bucket for
      as long as that bucket stays usable, whatever the rest of the traffic and
      however long its requests had to queue there. */
  lemma {:induction false} ConversationKeepsBucket(p: Pool, key: string, i: nat, turns: seq<Turn>, last: int)
    requires BoundTo(p, key, i, last) && p.affinity[key].seen == last
    requires KeepsTalking(p, key, i, turns, last)
    ensures var outcomes := Converse(p, key, turns).1;
      |outcomes| == |turns| && forall k :: 0 <= k < |turns| ==> outcomes[k] == Granted(i)
    decreases |turns|
  {
    if turns != [] {
      var r, done := FirstTurn(p, key, i, turns, last);
      ConversationKeepsBucket(r, key, i, turns[1..], done);
      var rest := Converse(r, key, turns[1..]).1;
      var outcomes := Converse(p, key, turns).1;
      forall k | 0 <= k < |turns| ensures outcomes[k] == Granted(i) {
        if k > 0 { assert outcomes[k] == rest[k - 1]; }
      }
    }
  }

  lemma {:induction false} FirstTurn(p: Pool, key: string, i: nat, turns: seq<Turn>, last: int) returns (r: Pool, done: int)
    requires turns != [] && BoundTo(p, key, i, last) && p.affinity[key].seen == last && KeepsTalking(p, key, i, turns, last)
    ensures BoundTo(r, key, i, done) && r.affinity[key].seen == done && KeepsTalking(r, key, i, turns[1..], done)
    ensures Converse(p, key, turns).1 == [Granted(i)] + Converse(r, key, turns[1..]).1
  {
    var t := turns[0];
    assert [t][1..] == [];
    assert KeepsTalking(p, key, i, [t], last);
    TurnKeepsBucket(p, key, i, t, last);
    var (q, o, d) := TakeTurn(p, key, t);
    r, done := q, d;
  }

  // ------------------------------------------------- spreading new sessions

  lemma {:induction false} NoneLive(affinity: map<string, Binding>, ttl: int, now: int, bucket: string)
    requires forall k :: k in affinity && now - affinity[k].seen <= ttl ==> affinity[k].bucket != bucket
    ensures LiveOn(affinity, ttl, now, bucket) == 0
  {
    assert LiveKeys(affinity, ttl, now, bucket) == {};
  }

  lemma {:induction false} SomeLive(affinity: map<string, Binding>, ttl: int, now: int, bucket: string, key: string)
    requires key in affinity && affinity[key].bucket == bucket && now - affinity[key].seen <= ttl
    ensures LiveOn(affinity, ttl, now, bucket) > 0
  {
    assert key in LiveKeys(affinity, ttl, now, bucket);
  }

  function LiveAfter(p: Pool, now: int, key: string, i: nat): nat
    requires i < |p.buckets|
  {
    LiveOn(Bindings(p, now, key), p.cfg.affinityTtl, now, p.buckets[i].name)
  }

  /** Bucket `y` may take one more request. */
  predicate Roomy(p: Pool, y: nat) { y < |p.buckets| && (p.cfg.maxInflight <= 0 || p.buckets[y].inflight < p.cfg.maxInflight) }

  lemma {:induction false} NoneWithRoom(p: Pool, order: seq<nat>)
    requires InRange(p.buckets, order) && forall k :: 0 <= k < |order| ==> p.buckets[order[k]].inflight >= p.cfg.maxInflight
    ensures WithRoom(p, order) == []
  {
    if order != [] { NoneWithRoom(p, order[..|order| - 1]); }
  }

  /** The minimum of one entry more. */
  lemma {:induction false} FirstMinSnoc(bs: seq<Bucket>, r: seq<nat>, x: nat)
    requires InRange(bs, r) && x < |bs|
    ensures InRange(bs, r + [x])
    ensures FirstMin(bs, r + [x]) ==
      if r == [] then x else if bs[x].inflight < bs[FirstMin(bs, r)].inflight then x else FirstMin(bs, r)
  {
    assert (r + [x])[..|r|] == r;
  }

  lemma {:induction false} WithRoomSnoc(p: Pool, front: seq<nat>, x: nat)
    requires InRange(p.buckets, front) && x < |p.buckets|
    ensures InRange(p.buckets, front + [x])
    ensures WithRoom(p, front + [x]) == if p.buckets[x].inflight < p.cfg.maxInflight then WithRoom(p, front) + [x] else WithRoom(p, front)
  {
    assert (front + [x])[..|front|] == front;
  }

  /** The least loaded entry is the least loaded with room, if any has room. */
  ghost predicate SamePick(p: Pool, order: seq<nat>) {
    && order != [] && InRange(p.buckets, order)
    && if WithRoom(p, order) == [] then p.buckets[FirstMin(p.buckets, order)].inflight >= p.cfg.maxInflight
       else FirstMin(p.buckets, WithRoom(p, order)) == FirstMin(p.buckets, order)
            && p.buckets[FirstMin(p.buckets, order)].inflight < p.cfg.maxInflight
  }

  lemma {:induction false} SamePickOne(p: Pool, x: nat)
    requires x < |p.buckets|
    ensures SamePick(p, [x])
  {
    FirstMinSnoc(p.buckets, [], x);
    WithRoomSnoc(p, [], x);
    assert [] + [x] == [x];
  }

  lemma {:induction false} SamePickSnoc(p: Pool, front: seq<nat>, x: nat)
    requires x < |p.buckets| && SamePick(p, front)
    ensures SamePick(p, front + [x])
  {
    FirstMinSnoc(p.buckets, front, x);
    WithRoomSnoc(p, front, x);
    if p.buckets[x].inflight < p.cfg.maxInflight { FirstMinSnoc(p.buckets, WithRoom(p, front), x); }
  }

  lemma {:induction false} SamePickAlways(p: Pool, order: seq<nat>)
    requires order != [] && InRange(p.buckets, order)
    ensures SamePick(p, order)
  {
    SamePickOne(p, order[0]);
    assert order[..1] == [order[0]];
    for n := 1 to |order|
      invariant SamePick(p, order[..n])
    {
      SamePickSnoc(p, order[..n], order[n]);
      assert order[..n + 1] == order[..n] + [order[n]];
    }
    assert order[..|order|] == order;
  }

  /** The cap does not change the pick as long as the pick itself has room. */
  lemma {:induction false} RoomKeepsPick(p: Pool, order: seq<nat>)
    requires order != [] && InRange(p.buckets, order) && p.buckets[FirstMin(p.buckets, order)].inflight < p.cfg.maxInflight
    ensures WithRoom(p, order) != [] && FirstMin(p.buckets, WithRoom(p, order)) == FirstMin(p.buckets, order)
  {
    SamePickAlways(p, order);
  }

  lemma {:induction false} ServeWithRoom(p: Pool, now: int, key: string, order: seq<nat>, y: nat)
    requires order != [] && InRange(p.buckets, order) && y in order && Roomy(p, y)
    ensures Serve(p, now, key, order) == (Grant(p, FirstMin(p.buckets, order), key, now, now), Granted(FirstMin(p.buckets, order)))
  {
    FirstMinFacts(p.buckets, order);
    if p.cfg.maxInflight > 0 { RoomKeepsPick(p, order); }
  }

  lemma {:induction false} NewSessionOrder(p: Pool, now: int, key: string, usable: seq<nat>, y: nat)
    requires key != "" && Home(p, now, key).None? && Nominated(p, usable) && y in usable && Roomy(p, y)
    ensures var rest := Bindings(p, now, key);
      var order := SortByLoad(Rotate(usable, p.rr % |usable|), LoadsAt(p.(affinity := rest), now));
      && Nominated(p, order)
      && BeginWith(p, now, key, usable)
         == (Grant(p.(affinity := rest, rr := p.rr + 1), FirstMin(p.buckets, order), key, now, now), Granted(FirstMin(p.buckets, order)))
  {
    ChoiceIsUsable(p, now, key, usable);
    var c := Choose(p, now, key, usable);
    assert c == Choice(c.order, Bindings(p, now, key), p.rr + 1);
    FreshOrderMembers(p.(affinity := c.affinity), now, key, usable);
    ServeWithRoom(p.(affinity := c.affinity, rr := c.rr), now, key, c.order, y);
  }

  lemma {:induction false} NewSessionChoice(p: Pool, now: int, key: string, usable: seq<nat>, x: nat, y: nat)
    requires key != "" && Home(p, now, key).None? && y in usable && Roomy(p, y)
    requires Nominated(p, usable) && x in usable && x < |p.buckets|
    ensures var (q, o) := BeginWith(p, now, key, usable);
      && o.Granted? && o.bucket in usable && o.bucket < |p.buckets|
      && q == Grant(p.(affinity := Bindings(p, now, key), rr := p.rr + 1), o.bucket, key, now, now)
      && (p.buckets[o.bucket].inflight < p.buckets[x].inflight
          || (p.buckets[o.bucket].inflight == p.buckets[x].inflight && LiveAfter(p, now, key, o.bucket) <= LiveAfter(p, now, key, x)))
  {
    NewSessionOrder(p, now, key, usable, y);
    var rotated := Rotate(usable, p.rr % |usable|);
    RotateMembers(usable, p.rr % |usable|);
    forall k | 0 <= k < |rotated| ensures rotated[k] < |p.buckets| { assert rotated[k] in usable; }
    PickAfterSort(p.buckets, rotated, LoadsAt(p.(affinity := Bindings(p, now, key)), now), x);
  }

  /** As long as some candidate has room, a session without a home goes at once
      to the bucket with the least in-flight work, fewest live sessions among
      equals. */
  lemma {:induction false} NewSessionPick(p: Pool, now: int, key: string, x: nat, y: nat)
    requires key != "" && Home(p, now, key).None? && y in Usable(p, now, {}) && Roomy(p, y)
    requires x in Usable(p, now, {})
    ensures var (q, o) := Begin(p, now, key, {});
      && o.Granted? && o.bucket in Usable(p, now, {}) && o.bucket < |p.buckets| && x < |p.buckets|
      && q == Grant(p.(affinity := Bindings(p, now, key), rr := p.rr + 1), o.bucket, key, now, now)
      && (p.buckets[o.bucket].inflight < p.buckets[x].inflight
          || (p.buckets[o.bucket].inflight == p.buckets[x].inflight && LiveAfter(p, now, key, o.bucket) <= LiveAfter(p, now, key, x)))
  {
    UsableIsNominated(p, now, {});
    NewSessionChoice(p, now, key, Usable(p, now, {}), x, y);
  }

  ghost predicate LeastLoaded(p: Pool, now: int, i: nat) {
    && i in Usable(p, now, {}) && i < |p.buckets|
    && forall j :: j in Usable(p, now, {}) && j < |p.buckets| ==> p.buckets[i].inflight <= p.buckets[j].inflight
  }

  /** In-flight work comes first: a new session lands on a bucket no live
      session uses exactly when one of the least loaded candidates is unused. */
  lemma {:induction false} NewSessionUnboundExactly(p: Pool, now: int, key: string, y: nat)
    requires key != "" && Home(p, now, key).None? && y in Usable(p, now, {}) && Roomy(p, y)
    ensures var o := Begin(p, now, key, {}).1;
      && o.Granted? && LeastLoaded(p, now, o.bucket)
      && (LiveAfter(p, now, key, o.bucket) == 0 <==> exists i :: LeastLoaded(p, now, i) && LiveAfter(p, now, key, i) == 0)
  {
    forall x: nat | x in Usable(p, now, {}) ensures x < |p.buckets| { UsableIsBestRank(p, now, {}, x); }
    NewSessionPick(p, now, key, y, y);
    var o := Begin(p, now, key, {}).1;
    forall j: nat | j in Usable(p, now, {}) ensures p.buckets[o.bucket].inflight <= p.buckets[j].inflight {
      NewSessionPick(p, now, key, j, y);
    }
    if i :| LeastLoaded(p, now, i) && LiveAfter(p, now, key, i) == 0 {
      NewSessionPick(p, now, key, i, y);
    }
  }

  /** So the documented preference for unused buckets can fail: here "a" hosts a
      session and is idle, "b" hosts none but carries one keyless request. */
  function BusyUnbound(now: int): Pool {
    var up := FreshBucket("a").(healthy := true);
    Pool(Config(0, 1, 1, 0, 1, 0, 0, 100, {}), [up, up.(name := "b", inflight := 1)], map["s" := Binding("a", now)], 0)
  }

  lemma {:induction false} BoundBucketBeatsUnbound(now: int)
    requires 0 < now
    ensures var p := BusyUnbound(now);
      && Begin(p, now, "t", {}).1 == Granted(0) && 1 in Usable(p, now, {})
      && LiveAfter(p, now, "t", 0) > 0 && LiveAfter(p, now, "t", 1) == 0
  {
    var p := BusyUnbound(now);
    forall i | 0 <= i < 2 ensures i in Usable(p, now, {}) {
      UsableIsBestRank(p, now, {}, i);
    }
    NewSessionPick(p, now, "t", 0, 0);
    UsableIsBestRank(p, now, {}, Begin(p, now, "t", {}).1.bucket);
    SomeLive(Bindings(p, now, "t"), 100, now, "a", "s");
    NoneLive(Bindings(p, now, "t"), 100, now, "b");
  }

  /** One new session; `done` are the requests, numbered by visit, that complete
      before this one arrives. */
  datatype Visit = Visit(key: string, at: int, done: seq<nat>)

  /** The pool, the bucket of every visit so far, and the visits whose request
      still holds its lease. */
  datatype Progress = Progress(pool: Pool, picks: seq<nat>, open: set<nat>)

  function Complete(s: Progress, j: nat, at: int): Progress {
    if j in s.open && j < |s.picks| && s.picks[j] < |s.pool.buckets| then
      var i, q := s.picks[j], s.pool;
      s.(pool := q.(buckets := q.buckets[i := Release(q.cfg, q.buckets[i], Ok, at, at)]), open := s.open - {j})
    else s
  }

  function CompleteAll(s: Progress, done: seq<nat>, at: int): Progress {
    if done == [] then s else Complete(CompleteAll(s, done[..|done| - 1], at), done[|done| - 1], at)
  }

  function Arrive(s: Progress, v: Visit): Progress {
    var t := CompleteAll(s, v.done, v.at);
    var (r, o) := Begin(t.pool, v.at, v.key, {});
    if o.Granted? then Progress(r, t.picks + [o.bucket], t.open + {|t.picks|}) else t.(pool := r)
  }

  /** New sessions, one after another. */
  function Arrivals(p: Pool, visits: seq<Visit>): Progress { Iterate(Progress(p, [], {}), visits, Arrive) }

  /** In the first tier from `from` on, as long as nothing happens to it. */
  predicate FirstTier(c: Config, b: Bucket, from: int) {
    b.healthy && !b.rotating && b.cordonedUntil <= from && b.cooldownUntil <= from && b.name !in c.lastResort
  }

  ghost predicate DistinctNames(bs: seq<Bucket>) {
    forall i, j :: 0 <= i < j < |bs| ==> bs[i].name != bs[j].name
  }

  ghost predicate Distinct<T>(s: seq<T>) { forall i, j :: 0 <= i < j < |s| ==> s[i] != s[j] }

  /** The buckets in `tier` first-tier and idle, and no binding live any more. */
  ghost predicate QuietTier(p: Pool, from: int, tier: seq<nat>) {
    && p.cfg.affinityTtl > 0 && DistinctNames(p.buckets) && 0 <= from && Distinct(tier)
    && (forall i :: i in tier ==> i < |p.buckets| && FirstTier(p.cfg, p.buckets[i], from) && p.buckets[i].inflight == 0)
    && forall k :: k in p.affinity ==> from - p.affinity[k].seen > p.cfg.affinityTtl
  }

  /** At `t` every other bucket is a last resort, benched, down or rotating. */
  ghost predicate KeptOut(p: Pool, tier: seq<nat>, t: int) {
    forall i :: 0 <= i < |p.buckets| && i !in tier ==> !InTier(p.cfg, p.buckets[i], t, 0)
  }

  /** New sessions within one TTL of each other, over a fixed tier. */
  ghost predicate FreshSessions(p: Pool, from: int, tier: seq<nat>, visits: seq<Visit>) {
    && (forall i, j :: 0 <= i < j < |visits| ==> visits[i].key != visits[j].key && visits[i].at <= visits[j].at)
    && forall i :: 0 <= i < |visits| ==> visits[i].key != "" && from <= visits[i].at <= from + p.cfg.affinityTtl && KeptOut(p, tier, visits[i].at)
  }

  /** `v` is a session not seen before, no earlier than any of `visits`. */
  ghost predicate NextSession(p: Pool, from: int, tier: seq<nat>, visits: seq<Visit>, v: Visit) {
    && v.key != "" && from <= v.at <= from + p.cfg.affinityTtl && KeptOut(p, tier, v.at)
    && forall i :: 0 <= i < |visits| ==> visits[i].key != v.key && from <= visits[i].at <= v.at
  }

  /** Every visit so far was sent to a bucket of its own; the rest of the tier is
      idle, the rest of the pool as it was, and nothing else is bound. */
  ghost predicate Spread(p: Pool, from: int, tier: seq<nat>, visits: seq<Visit>, q: Pool, picks: seq<nat>) {
    && SameNames(p, q) && |picks| == |visits| && Distinct(picks)
    && (forall k :: 0 <= k < |picks| ==> picks[k] in tier && picks[k] < |p.buckets|)
    && TierIdle(q, from, tier, picks)
    && (forall i :: 0 <= i < |p.buckets| && i !in tier ==> q.buckets[i] == p.buckets[i])
    && BoundAsPicked(p.buckets, from - p.cfg.affinityTtl, visits, picks, q.affinity)
  }

  ghost predicate TierIdle(q: Pool, from: int, tier: seq<nat>, picks: seq<nat>) {
    forall i :: i in tier ==>
      && i < |q.buckets| && FirstTier(q.cfg, q.buckets[i], from) && 0 <= q.buckets[i].inflight
      && (i !in picks ==> q.buckets[i].inflight == 0)
  }

  /** The session of `v` is bound to bucket `i` since it came. */
  ghost predicate BoundAt(bs: seq<Bucket>, v: Visit, i: nat, affinity: map<string, Binding>) {
    i < |bs| && v.key in affinity && affinity[v.key] == Binding(bs[i].name, v.at)
  }

  ghost predicate BoundAsPicked(bs: seq<Bucket>, oldest: int, visits: seq<Visit>, picks: seq<nat>, affinity: map<string, Binding>) {
    && |picks| == |visits|
    && (forall k :: 0 <= k < |picks| ==> BoundAt(bs, visits[k], picks[k], affinity))
    && (forall k :: k in affinity && oldest <= affinity[k].seen ==> Visited(visits, k))
  }

  ghost predicate Visited(visits: seq<Visit>, key: string) {
    exists j :: 0 <= j < |visits| && visits[j].key == key
  }

  lemma {:induction false} SpareIndex(picks: seq<nat>, tier: seq<nat>) returns (i: nat)
    requires Distinct(tier) && |picks| < |tier|
    ensures i in tier && i !in picks
    decreases |tier|
  {
    if tier[0] !in picks {
      i := tier[0];
    } else {
      var k :| 0 <= k < |picks| && picks[k] == tier[0];
      var rest := picks[..k] + picks[k + 1..];
      i := SpareIndex(rest, tier[1..]);
      forall l | 0 <= l < |picks| ensures picks[l] != i {
        if l != k {
          var m := if l < k then l else l - 1;
          assert rest[m] == picks[l] && rest[m] in rest;
        }
      }
    }
  }

  /** The candidates at a visit are the tier. */
  lemma {:induction false} TierIsUsable(p: Pool, from: int, tier: seq<nat>, q: Pool, picks: seq<nat>, t: int, i: nat)
    requires SameNames(p, q) && TierIdle(q, from, tier, picks) && KeptOut(p, tier, t) && from <= t && tier != []
    requires forall j :: 0 <= j < |p.buckets| && j !in tier ==> q.buckets[j] == p.buckets[j]
    ensures i in Usable(q, t, {}) <==> i in tier
  {
    UsableIsBestRank(q, t, {}, i);
    assert tier[0] in tier;
    assert Candidate(q, tier[0], t, {}) && Rank(q.cfg, q.buckets[tier[0]], t) == 0;
  }

  /** The sessions of the visits keep their bindings, all others have expired. */
  ghost predicate Remaining(bs: seq<Bucket>, visits: seq<Visit>, picks: seq<nat>, left: map<string, Binding>) {
    && |picks| == |visits| && (forall k :: k in left ==> Visited(visits, k))
    && forall j :: 0 <= j < |picks| ==> BoundAt(bs, visits[j], picks[j], left)
  }

  lemma {:induction false} SpreadBindings(p: Pool, from: int, tier: seq<nat>, visits: seq<Visit>, q: Pool, picks: seq<nat>, v: Visit)
    requires QuietTier(p, from, tier) && Spread(p, from, tier, visits, q, picks) && NextSession(p, from, tier, visits, v)
    ensures Home(q, v.at, v.key).None? && Remaining(p.buckets, visits, picks, Bindings(q, v.at, v.key))
  {
    BindingsRemain(p.buckets, from - p.cfg.affinityTtl, visits, picks, q, v, from);
  }

  lemma {:induction false} BindingsRemain(bs: seq<Bucket>, oldest: int, visits: seq<Visit>, picks: seq<nat>, q: Pool, v: Visit, from: int)
    requires BoundAsPicked(bs, oldest, visits, picks, q.affinity) && oldest == from - q.cfg.affinityTtl && q.cfg.affinityTtl > 0
    requires v.key != "" && from <= v.at <= from + q.cfg.affinityTtl
    requires forall i :: 0 <= i < |visits| ==> visits[i].key != v.key && from <= visits[i].at <= v.at
    ensures Home(q, v.at, v.key).None? && Remaining(bs, visits, picks, Bindings(q, v.at, v.key))
  {
    assert !Visited(visits, v.key);
    assert v.key in q.affinity ==> from - q.affinity[v.key].seen > q.cfg.affinityTtl;
    assert Home(q, v.at, v.key).None?;
    var left := Bindings(q, v.at, v.key);
    forall j | 0 <= j < |picks| ensures BoundAt(bs, visits[j], picks[j], left) {
      assert BoundAt(bs, visits[j], picks[j], q.affinity);
    }
  }

  lemma {:induction false} OtherName(bs: seq<Bucket>, i: nat, j: nat)
    requires DistinctNames(bs) && i < |bs| && j < |bs| && i != j
    ensures bs[i].name != bs[j].name
  {
  }

  lemma {:induction false} SpreadUnbound(p: Pool, from: int, tier: seq<nat>, visits: seq<Visit>, q: Pool, picks: seq<nat>, v: Visit, i: nat)
    requires QuietTier(p, from, tier) && Spread(p, from, tier, visits, q, picks) && NextSession(p, from, tier, visits, v) && i < |q.buckets|
    requires i !in picks
    ensures LiveAfter(q, v.at, v.key, i) == 0
  {
    SpreadBindings(p, from, tier, visits, q, picks, v);
    OthersElsewhere(p.buckets, visits, picks, Bindings(q, v.at, v.key), i);
    NoneLive(Bindings(q, v.at, v.key), q.cfg.affinityTtl, v.at, q.buckets[i].name);
  }

  lemma {:induction false} OthersElsewhere(bs: seq<Bucket>, visits: seq<Visit>, picks: seq<nat>, left: map<string, Binding>, i: nat)
    requires Remaining(bs, visits, picks, left) && DistinctNames(bs) && i < |bs| && i !in picks
    ensures forall k :: k in left ==> left[k].bucket != bs[i].name
  {
    forall k | k in left ensures left[k].bucket != bs[i].name {
      assert Visited(visits, k);
      var j :| 0 <= j < |visits| && visits[j].key == k;
      assert BoundAt(bs, visits[j], picks[j], left) && picks[j] in picks;
      OtherName(bs, picks[j], i);
    }
  }

  lemma {:induction false} SpreadBound(p: Pool, from: int, tier: seq<nat>, visits: seq<Visit>, q: Pool, picks: seq<nat>, v: Visit, j: nat)
    requires QuietTier(p, from, tier) && Spread(p, from, tier, visits, q, picks) && NextSession(p, from, tier, visits, v) && j < |picks|
    ensures LiveAfter(q, v.at, v.key, picks[j]) > 0
  {
    SpreadBindings(p, from, tier, visits, q, picks, v);
    assert BoundAt(p.buckets, visits[j], picks[j], Bindings(q, v.at, v.key));
    SomeLive(Bindings(q, v.at, v.key), q.cfg.affinityTtl, v.at, q.buckets[picks[j]].name, visits[j].key);
  }

  /** The next new session finds a bucket of the tier nobody is on. */
  lemma {:induction false} SpreadPick(p: Pool, from: int, tier: seq<nat>, visits: seq<Visit>, q: Pool, picks: seq<nat>, v: Visit)
    requires QuietTier(p, from, tier) && Spread(p, from, tier, visits, q, picks) && NextSession(p, from, tier, visits, v)
    requires |visits| < |tier|
    ensures var (r, o) := Begin(q, v.at, v.key, {});
      && o.Granted? && o.bucket in tier && o.bucket < |q.buckets| && o.bucket !in picks
      && r == Grant(q.(affinity := Bindings(q, v.at, v.key), rr := q.rr + 1), o.bucket, v.key, v.at, v.at)
  {
    var x := SpareIndex(picks, tier);
    TierIsUsable(p, from, tier, q, picks, v.at, x);
    SpreadBindings(p, from, tier, visits, q, picks, v);
    NewSessionPick(q, v.at, v.key, x, x);
    SpreadUnbound(p, from, tier, visits, q, picks, v, x);
    var i := Begin(q, v.at, v.key, {}).1.bucket;
    TierIsUsable(p, from, tier, q, picks, v.at, i);
    forall j | 0 <= j < |picks| ensures picks[j] != i {
      SpreadBound(p, from, tier, visits, q, picks, v, j);
    }
  }

  lemma {:induction false} VisitedStill(visits: seq<Visit>, v: Visit, k: string)
    requires Visited(visits, k) || k == v.key
    ensures Visited(visits + [v], k)
  {
    if k == v.key {
      assert (visits + [v])[|visits|].key == k;
    } else {
      var j :| 0 <= j < |visits| && visits[j].key == k;
      assert (visits + [v])[j].key == k;
    }
  }

  lemma {:induction false} BoundOneMore(bs: seq<Bucket>, oldest: int, visits: seq<Visit>, picks: seq<nat>, left: map<string, Binding>, v: Visit, i: nat)
    requires Remaining(bs, visits, picks, left) && i < |bs| && forall j :: 0 <= j < |visits| ==> visits[j].key != v.key
    ensures BoundAsPicked(bs, oldest, visits + [v], picks + [i], left[v.key := Binding(bs[i].name, v.at)])
  {
    var after := left[v.key := Binding(bs[i].name, v.at)];
    forall k | k in after ensures Visited(visits + [v], k) { VisitedStill(visits, v, k); }
    forall k | 0 <= k < |picks + [i]| ensures BoundAt(bs, (visits + [v])[k], (picks + [i])[k], after) {
      if k < |picks| { assert BoundAt(bs, visits[k], picks[k], left); }
    }
  }

  lemma {:induction false} TierIdleAfter(q: Pool, from: int, tier: seq<nat>, picks: seq<nat>, r: Pool, i: nat)
    requires TierIdle(q, from, tier, picks) && i < |q.buckets| && r.cfg == q.cfg
    requires r.buckets == q.buckets[i := q.buckets[i].(inflight := q.buckets[i].inflight + 1)]
    ensures TierIdle(r, from, tier, picks + [i])
  {
    forall j | j in tier
      ensures j < |r.buckets| && FirstTier(r.cfg, r.buckets[j], from) && 0 <= r.buckets[j].inflight && (j !in picks + [i] ==> r.buckets[j].inflight == 0)
    {
      assert j < |q.buckets| && FirstTier(q.cfg, q.buckets[j], from);
    }
  }

  lemma {:induction false} SpreadGrant(p: Pool, from: int, tier: seq<nat>, visits: seq<Visit>, q: Pool, picks: seq<nat>, v: Visit, i: nat)
    requires QuietTier(p, from, tier) && Spread(p, from, tier, visits, q, picks) && NextSession(p, from, tier, visits, v)
    requires i in tier && i < |q.buckets| && i !in picks
    ensures var r := Grant(q.(affinity := Bindings(q, v.at, v.key), rr := q.rr + 1), i, v.key, v.at, v.at);
      Spread(p, from, tier, visits + [v], r, picks + [i])
  {
    var left := Bindings(q, v.at, v.key);
    SpreadBindings(p, from, tier, visits, q, picks, v);
    BoundOneMore(p.buckets, from - p.cfg.affinityTtl, visits, picks, left, v, i);
    forall k | 0 <= k < |picks| ensures picks[k] != i { assert picks[k] in picks; }
    assert FirstTier(q.cfg, q.buckets[i], from);
    var r := Grant(q.(affinity := left, rr := q.rr + 1), i, v.key, v.at, v.at);
    TierIdleAfter(q, from, tier, picks, r, i);
  }

  /** A request that completes leaves its bucket idle and its session bound. */
  lemma {:induction false} SpreadComplete(p: Pool, from: int, tier: seq<nat>, visits: seq<Visit>, s: Progress, j: nat, at: int)
    requires QuietTier(p, from, tier) && Spread(p, from, tier, visits, s.pool, s.picks)
    ensures Spread(p, from, tier, visits, Complete(s, j, at).pool, s.picks) && Complete(s, j, at).picks == s.picks
  {
    if j < |s.picks| {
      assert s.picks[j] in tier && s.picks[j] in s.picks;
      assert FirstTier(s.pool.cfg, s.pool.buckets[s.picks[j]], from);
    }
  }

  lemma {:induction false} SpreadCompleteAll(p: Pool, from: int, tier: seq<nat>, visits: seq<Visit>, s: Progress, done: seq<nat>, at: int)
    requires QuietTier(p, from, tier) && Spread(p, from, tier, visits, s.pool, s.picks)
    ensures Spread(p, from, tier, visits, CompleteAll(s, done, at).pool, s.picks) && CompleteAll(s, done, at).picks == s.picks
  {
    if done != [] {
      SpreadCompleteAll(p, from, tier, visits, s, done[..|done| - 1], at);
      SpreadComplete(p, from, tier, visits, CompleteAll(s, done[..|done| - 1], at), done[|done| - 1], at);
    }
  }

  lemma {:induction false} SpreadArrive(p: Pool, from: int, tier: seq<nat>, visits: seq<Visit>, s: Progress, v: Visit)
    requires QuietTier(p, from, tier) && Spread(p, from, tier, visits, s.pool, s.picks) && NextSession(p, from, tier, visits, v)
    requires |visits| < |tier|
    ensures Spread(p, from, tier, visits + [v], Arrive(s, v).pool, Arrive(s, v).picks)
  {
    SpreadCompleteAll(p, from, tier, visits, s, v.done, v.at);
    var t := CompleteAll(s, v.done, v.at);
    SpreadPick(p, from, tier, visits, t.pool, t.picks, v);
    SpreadGrant(p, from, tier, visits, t.pool, t.picks, v, Begin(t.pool, v.at, v.key, {}).1.bucket);
  }

  lemma {:induction false} SpreadVisit(p: Pool, from: int, tier: seq<nat>, visits: seq<Visit>, s: Progress, k: nat)
    requires QuietTier(p, from, tier) && FreshSessions(p, from, tier, visits) && |visits| <= |tier|
    requires k < |visits| && Spread(p, from, tier, visits[..k], s.pool, s.picks)
    ensures Spread(p, from, tier, visits[..k + 1], Arrive(s, visits[k]).pool, Arrive(s, visits[k]).picks)
  {
    SpreadArrive(p, from, tier, visits[..k], s, visits[k]);
    assert visits[..k + 1] == visits[..k] + [visits[k]];
  }

  /** New sessions arriving one after another land on distinct buckets of an idle
      first tier as long as it has one for each, whatever else is in the pool and
      whenever earlier requests complete. */
  lemma {:induction false} NewSessionsSpread(p: Pool, from: int, tier: seq<nat>, visits: seq<Visit>)
    requires QuietTier(p, from, tier) && FreshSessions(p, from, tier, visits) && |visits| <= |tier|
    ensures var s := Arrivals(p, visits);
      && |s.picks| == |visits| && Distinct(s.picks) && (forall k :: 0 <= k < |s.picks| ==> s.picks[k] in tier)
      && Spread(p, from, tier, visits, s.pool, s.picks)
  {
    var inv := (s: Progress, k: nat) => k <= |visits| && Spread(p, from, tier, visits[..k], s.pool, s.picks);
    forall s: Progress, k: nat | k < |visits| && inv(s, k) ensures inv(Arrive(s, visits[k]), k + 1) {
      SpreadVisit(p, from, tier, visits, s, k);
    }
    IterateKeeps(Progress(p, [], {}), visits, Arrive, inv);
    assert visits[..|visits|] == visits;
  }

  // ---------------------------------------------------- balanced selection

  /** At `now`, `q` offers the same tiers as `p`. */
  ghost predicate SameTiers(p: Pool, q: Pool, now: int) {
    && SameNames(p, q)
    && forall i, k :: 0 <= i < |p.buckets| && 0 <= k < 5 ==> InTier(p.cfg, p.buckets[i], now, k) == InTier(p.cfg, q.buckets[i], now, k)
  }

  lemma {:induction false} UsableSame(p: Pool, q: Pool, now: int, k: nat)
    requires SameTiers(p, q, now)
    ensures UsableFrom(p, now, {}, k) == UsableFrom(q, now, {}, k)
    decreases 5 - k
  {
    if k < 5 {
      SelectSame(p.buckets, q.buckets, TierTest(p.cfg, now, {}, k));
      UsableSame(p, q, now, k + 1);
    }
  }

  lemma {:induction false} SelectSame(a: seq<Bucket>, b: seq<Bucket>, p: Bucket -> bool)
    requires |a| == |b| && forall i :: 0 <= i < |a| ==> p(a[i]) == p(b[i])
    ensures Select(a, p) == Select(b, p)
  {
    if a != [] { SelectSame(a[..|a| - 1], b[..|b| - 1], p); }
  }

  /** One keyless acquire that is not released. */
  function Take(q: Pool, t: int): Pool { Begin(q, t, "", {}).0 }

  /** Keyless acquires at `times` with nothing released in between. */
  function Burst(p: Pool, times: seq<int>): Pool { Iterate(p, times, Take) }

  function Total(bs: seq<Bucket>, tier: seq<nat>): int
    requires forall k :: 0 <= k < |tier| ==> tier[k] < |bs|
  {
    if tier == [] then 0 else bs[tier[0]].inflight + Total(bs, tier[1..])
  }

  lemma {:induction false} TotalBounds(bs: seq<Bucket>, tier: seq<nat>, lo: int)
    requires forall k :: 0 <= k < |tier| ==> tier[k] < |bs| && lo <= bs[tier[k]].inflight <= lo + 1
    ensures lo * |tier| <= Total(bs, tier) <= (lo + 1) * |tier|
    ensures (exists k :: 0 <= k < |tier| && bs[tier[k]].inflight == lo) ==> Total(bs, tier) < (lo + 1) * |tier|
    ensures (exists k :: 0 <= k < |tier| && bs[tier[k]].inflight == lo + 1) ==> lo * |tier| < Total(bs, tier)
  {
    if tier != [] {
      TotalBounds(bs, tier[1..], lo);
      assert lo * |tier| == lo * (|tier| - 1) + lo;
      assert (lo + 1) * |tier| == (lo + 1) * (|tier| - 1) + (lo + 1);
      assert forall k :: 0 < k < |tier| ==> tier[k] == tier[1..][k - 1];
    }
  }

  lemma {:induction false} TotalOneMore(bs: seq<Bucket>, tier: seq<nat>, i: nat)
    requires forall k :: 0 <= k < |tier| ==> tier[k] < |bs|
    requires Distinct(tier) && i < |bs|
    ensures var more := bs[i := bs[i].(inflight := bs[i].inflight + 1)];
      Total(more, tier) == Total(bs, tier) + (if i in tier then 1 else 0)
  {
    if tier != [] { TotalOneMore(bs, tier[1..], i); }
  }

  ghost predicate Level(bs: seq<Bucket>, tier: seq<nat>) {
    forall k, l :: 0 <= k < |tier| && 0 <= l < |tier| && tier[k] < |bs| && tier[l] < |bs| ==>
      bs[tier[k]].inflight <= bs[tier[l]].inflight + 1
  }

  ghost predicate IdleTier(p: Pool, tier: seq<nat>) {
    && tier != [] && Distinct(tier)
    && forall k :: 0 <= k < |tier| ==> tier[k] < |p.buckets| && p.buckets[tier[k]].inflight == 0
  }

  lemma {:induction false} RotateMembers(s: seq<nat>, off: nat)
    requires off <= |s|
    ensures forall x :: x in Rotate(s, off) <==> x in s
    ensures |Rotate(s, off)| == |s|
  {
    assert s == s[..off] + s[off..];
  }

  lemma {:induction false} KeylessChoice(p: Pool, now: int, tier: seq<nat>, y: nat)
    requires Nominated(p, tier) && y in tier && Roomy(p, y)
    ensures var rotated := Rotate(tier, p.rr % |tier|);
      && Nominated(p, rotated)
      && BeginWith(p, now, "", tier) == (Grant(p.(rr := p.rr + 1), FirstMin(p.buckets, rotated), "", now, now), Granted(FirstMin(p.buckets, rotated)))
  {
    RotateMembers(tier, p.rr % |tier|);
    var rotated := Rotate(tier, p.rr % |tier|);
    forall k | 0 <= k < |rotated| ensures rotated[k] < |p.buckets| { assert rotated[k] in tier; }
    assert Bindings(p, now, "") == p.affinity;
    assert Choose(p, now, "", tier) == Choice(rotated, p.affinity, p.rr + 1);
    assert p.(affinity := p.affinity, rr := p.rr + 1) == p.(rr := p.rr + 1);
    ServeWithRoom(p.(rr := p.rr + 1), now, "", rotated, y);
  }

  /** A keyless acquire takes the first least-loaded bucket in rotated order, as
      long as some candidate has room. */
  lemma {:induction false} KeylessPick(p: Pool, now: int, tier: seq<nat>, y: nat)
    requires Usable(p, now, {}) == tier && y in tier && Roomy(p, y)
    ensures Nominated(p, tier)
    ensures var rotated := Rotate(tier, p.rr % |tier|);
      && Nominated(p, rotated)
      && Begin(p, now, "", {}) == (Grant(p.(rr := p.rr + 1), FirstMin(p.buckets, rotated), "", now, now), Granted(FirstMin(p.buckets, rotated)))
      && FirstMin(p.buckets, rotated) in tier
      && (forall k :: 0 <= k < |tier| ==> p.buckets[FirstMin(p.buckets, rotated)].inflight <= p.buckets[tier[k]].inflight)
  {
    UsableIsNominated(p, now, {});
    KeylessChoice(p, now, tier, y);
    var rotated := Rotate(tier, p.rr % |tier|);
    RotateMembers(tier, p.rr % |tier|);
    FirstMinFacts(p.buckets, rotated);
    forall k | 0 <= k < |tier| ensures p.buckets[FirstMin(p.buckets, rotated)].inflight <= p.buckets[tier[k]].inflight {
      assert tier[k] in rotated;
    }
  }

  lemma {:induction false} LevelOneMore(bs: seq<Bucket>, tier: seq<nat>, i: nat)
    requires (forall l :: 0 <= l < |tier| ==> tier[l] < |bs|) && Level(bs, tier) && Distinct(tier)
    requires i in tier && forall k :: 0 <= k < |tier| ==> bs[i].inflight <= bs[tier[k]].inflight
    ensures var more := bs[i := bs[i].(inflight := bs[i].inflight + 1)];
      Level(more, tier) && Total(more, tier) == Total(bs, tier) + 1
  {
    TotalOneMore(bs, tier, i);
  }

  /** `q` is `p` after `m` grants within the tier. */
  ghost predicate Burdened(p: Pool, q: Pool, tier: seq<nat>, m: nat) {
    && q.cfg == p.cfg && |q.buckets| == |p.buckets|
    && (forall i :: 0 <= i < |p.buckets| ==> q.buckets[i] == p.buckets[i].(inflight := q.buckets[i].inflight))
    && (forall l :: 0 <= l < |tier| ==> tier[l] < |q.buckets|)
    && Level(q.buckets, tier) && Total(q.buckets, tier) == m
  }

  lemma {:induction false} BurdenedUsable(p: Pool, q: Pool, tier: seq<nat>, m: nat, t: int)
    requires Burdened(p, q, tier, m)
    ensures Usable(q, t, {}) == Usable(p, t, {})
  {
    UsableSame(p, q, t, 0);
  }

  lemma {:induction false} BurdenedOneMore(p: Pool, q: Pool, tier: seq<nat>, m: nat, i: nat, r: Pool)
    requires IdleTier(p, tier) && Burdened(p, q, tier, m) && i in tier && i < |q.buckets|
    requires forall k :: 0 <= k < |tier| ==> q.buckets[i].inflight <= q.buckets[tier[k]].inflight
    requires r.cfg == q.cfg && r.buckets == q.buckets[i := q.buckets[i].(inflight := q.buckets[i].inflight + 1)]
    ensures Burdened(p, r, tier, m + 1)
  {
    LevelOneMore(q.buckets, tier, i);
  }

  /** The cap leaves room for `m` leases on `n` buckets. */
  predicate Fit(cap: int, m: nat, n: nat) { cap <= 0 || m <= n * cap }

  /** A total below the cap leaves some bucket below it. */
  lemma {:induction false} FindRoom(bs: seq<Bucket>, tier: seq<nat>, cap: int) returns (y: nat)
    requires (forall l :: 0 <= l < |tier| ==> tier[l] < |bs|) && Total(bs, tier) < |tier| * cap
    ensures y in tier && y < |bs| && bs[y].inflight < cap
  {
    assert tier != [];
    if bs[tier[0]].inflight < cap {
      y := tier[0];
    } else {
      assert |tier| * cap == |tier[1..]| * cap + cap;
      y := FindRoom(bs, tier[1..], cap);
    }
  }

  lemma {:induction false} BurdenedRoom(p: Pool, q: Pool, tier: seq<nat>, m: nat) returns (y: nat)
    requires IdleTier(p, tier) && Burdened(p, q, tier, m) && Fit(p.cfg.maxInflight, m + 1, |tier|)
    ensures y in tier && Roomy(q, y)
  {
    if p.cfg.maxInflight <= 0 { y := tier[0]; } else { y := FindRoom(q.buckets, tier, p.cfg.maxInflight); }
  }

  lemma {:induction false} BurdenedTake(p: Pool, q: Pool, tier: seq<nat>, m: nat, t: int)
    requires IdleTier(p, tier) && Burdened(p, q, tier, m) && Usable(q, t, {}) == tier && Fit(p.cfg.maxInflight, m + 1, |tier|)
    ensures Burdened(p, Take(q, t), tier, m + 1)
  {
    var y := BurdenedRoom(p, q, tier, m);
    var i := TakeOne(q, t, tier, y);
    BurdenedOneMore(p, q, tier, m, i, Take(q, t));
  }

  lemma {:induction false} GrantAdds(p: Pool, i: nat, t: int)
    requires i < |p.buckets|
    ensures var r := Grant(p, i, "", t, t);
      r.cfg == p.cfg && r.buckets == p.buckets[i := p.buckets[i].(inflight := p.buckets[i].inflight + 1)]
  {
  }

  /** A keyless acquire adds one lease to a least loaded bucket of the tier. */
  lemma {:induction false} TakeOne(q: Pool, t: int, tier: seq<nat>, y: nat) returns (i: nat)
    requires Usable(q, t, {}) == tier && y in tier && Roomy(q, y)
    ensures i in tier && i < |q.buckets| && Take(q, t).cfg == q.cfg
    ensures Take(q, t).buckets == q.buckets[i := q.buckets[i].(inflight := q.buckets[i].inflight + 1)]
    ensures forall k :: 0 <= k < |tier| ==> tier[k] < |q.buckets| && q.buckets[i].inflight <= q.buckets[tier[k]].inflight
  {
    KeylessPick(q, t, tier, y);
    i := FirstMin(q.buckets, Rotate(tier, q.rr % |tier|));
    GrantAdds(q.(rr := q.rr + 1), i, t);
  }

  lemma {:induction false} FitEarlier(cap: int, m: nat, later: nat, n: nat)
    requires Fit(cap, later, n) && m <= later
    ensures Fit(cap, m, n)
  {
  }

  lemma {:induction false} BurstIsLevel(p: Pool, times: seq<int>, tier: seq<nat>)
    requires IdleTier(p, tier) && Fit(p.cfg.maxInflight, |times|, |tier|)
    requires forall k :: 0 <= k < |times| ==> Usable(p, times[k], {}) == tier
    ensures Burdened(p, Burst(p, times), tier, |times|)
  {
    var inv := (q: Pool, k: nat) => Burdened(p, q, tier, k);
    ZeroTotal(p.buckets, tier);
    forall q: Pool, k: nat | k < |times| && inv(q, k) ensures inv(Take(q, times[k]), k + 1) {
      BurdenedUsable(p, q, tier, k, times[k]);
      FitEarlier(p.cfg.maxInflight, k + 1, |times|, |tier|);
      BurdenedTake(p, q, tier, k, times[k]);
    }
    IterateKeeps(p, times, Take, inv);
  }

  lemma {:induction false} ZeroTotal(bs: seq<Bucket>, tier: seq<nat>)
    requires forall k :: 0 <= k < |tier| ==> tier[k] < |bs| && bs[tier[k]].inflight == 0
    ensures Total(bs, tier) == 0
  {
    if tier != [] { ZeroTotal(bs, tier[1..]); }
  }

  /** `x` of `m` leases, when `n` buckets share them evenly. */
  predicate FairShare(x: int, m: nat, n: nat)
    requires n > 0
  {
    m / n <= x <= (m + n - 1) / n
  }

  lemma {:induction false} LevelIsBalanced(bs: seq<Bucket>, tier: seq<nat>, k: nat, m: nat)
    requires (forall l :: 0 <= l < |tier| ==> tier[l] < |bs|) && Level(bs, tier) && k < |tier| && Total(bs, tier) == m
    ensures FairShare(bs[tier[k]].inflight, m, |tier|)
  {
    var x := bs[tier[k]].inflight;
    var lo := if exists l :: 0 <= l < |tier| && bs[tier[l]].inflight < x then x - 1 else x;
    TotalBounds(bs, tier, lo);
    QuotientBounds(m, |tier|, lo);
  }

  /** From idle, m keyless acquires over a fixed tier of n buckets leave ⌊m/n⌋
      or ⌈m/n⌉ leases on each, under a cap as long as it holds them all. */
  lemma {:induction false} KeylessIsBalanced(p: Pool, times: seq<int>, tier: seq<nat>, k: nat)
    requires IdleTier(p, tier) && k < |tier| && Fit(p.cfg.maxInflight, |times|, |tier|)
    requires forall j :: 0 <= j < |times| ==> Usable(p, times[j], {}) == tier
    ensures var bs := Burst(p, times).buckets;
      tier[k] < |bs| && FairShare(bs[tier[k]].inflight, |times|, |tier|)
  {
    var bs, m := TierAfter(p, times, tier);
    LevelIsBalanced(bs, tier, k, m);
  }

  lemma {:induction false} TierAfter(p: Pool, times: seq<int>, tier: seq<nat>) returns (bs: seq<Bucket>, m: nat)
    requires IdleTier(p, tier) && Fit(p.cfg.maxInflight, |times|, |tier|) && forall j :: 0 <= j < |times| ==> Usable(p, times[j], {}) == tier
    ensures bs == Burst(p, times).buckets && m == |times|
    ensures (forall l :: 0 <= l < |tier| ==> tier[l] < |bs|) && Level(bs, tier) && Total(bs, tier) == m
  {
    BurstIsLevel(p, times, tier);
    bs, m := Burst(p, times).buckets, |times|;
  }

  lemma {:induction false} QuotientBounds(m: nat, n: nat, lo: int)
    requires 0 < n && lo * n <= m < (lo + 1) * n
    ensures m / n == lo
    ensures lo * n < m ==> (m + n - 1) / n == lo + 1
    ensures lo * n == m ==> (m + n - 1) / n == lo
  {
    assert m == lo * n + (m - lo * n) && 0 <= m - lo * n < n;
    DivUnique(m, n, lo, m - lo * n);
    if lo * n < m {
      assert m + n - 1 == (lo + 1) * n + (m - lo * n - 1);
      DivUnique(m + n - 1, n, lo + 1, m - lo * n - 1);
    } else {
      DivUnique(m + n - 1, n, lo, n - 1);
    }
  }

  lemma {:induction false} SmallMultiple(d: int, n: int)
    requires 0 < n && -n < d * n < n
    ensures d == 0
  {
    assert d >= 1 ==> d * n >= n;
    assert d <= -1 ==> d * n <= -n;
  }

  lemma {:induction false} DivUnique(a: int, n: nat, q: int, r: int)
    requires 0 < n && a == q * n + r && 0 <= r < n
    ensures a / n == q && a % n == r
  {
    var d := a / n - q;
    assert d * n == r - a % n;
    SmallMultiple(d, n);
  }

  /** One keyless request whose lease is released ok before the next. */
  function SerialNext(s: (Pool, seq<nat>), t: int): (Pool, seq<nat>) {
    var (r, o) := Begin(s.0, t, "", {});
    if o.Granted? && o.bucket < |r.buckets|
    then (r.(buckets := r.buckets[o.bucket := Release(r.cfg, r.buckets[o.bucket], Ok, t, t)]), s.1 + [o.bucket])
    else (r, s.1)
  }

  function Serial(p: Pool, times: seq<int>): (Pool, seq<nat>) { Iterate((p, []), times, SerialNext) }

  lemma {:induction false} FirstMinOfEqual(bs: seq<Bucket>, s: seq<nat>)
    requires s != [] && InRange(bs, s) && forall k :: 0 <= k < |s| ==> bs[s[k]].inflight == 0
    ensures FirstMin(bs, s) == s[0]
  {
    if |s| > 1 { FirstMinOfEqual(bs, s[..|s| - 1]); }
  }

  /** At `t` the candidates are `tier`, none of them demoted. */
  ghost predicate Offers(p: Pool, t: int, tier: seq<nat>) {
    0 <= t && Usable(p, t, {}) == tier && forall k :: 0 <= k < |tier| && tier[k] < |p.buckets| ==> !p.buckets[tier[k]].CoolingDown(t)
  }

  /** Picks follow the tier cyclically, starting `rr` steps in. */
  ghost predicate InTurn(picks: seq<nat>, tier: seq<nat>, rr: nat) {
    tier != [] && forall k :: 0 <= k < |picks| ==> picks[k] == tier[(rr + k) % |tier|]
  }

  /** `s` is `p` after `m` requests served and released ok within the tier. */
  ghost predicate Rotated(p: Pool, tier: seq<nat>, s: (Pool, seq<nat>), m: nat) {
    && SameNames(p, s.0) && s.0.rr == p.rr + m && |s.1| == m && InTurn(s.1, tier, p.rr)
    && (forall i :: 0 <= i < |p.buckets| ==>
          s.0.buckets[i] == p.buckets[i]
          || (i in tier && s.0.buckets[i] == p.buckets[i].(failures := 0, cooldownUntil := 0)))
  }

  lemma {:induction false} InTurnMore(picks: seq<nat>, tier: seq<nat>, rr: nat)
    requires InTurn(picks, tier, rr)
    ensures InTurn(picks + [tier[(rr + |picks|) % |tier|]], tier, rr)
  {
  }

  lemma {:induction false} RotatedOffers(p: Pool, tier: seq<nat>, s: (Pool, seq<nat>), m: nat, t: int)
    requires IdleTier(p, tier) && Rotated(p, tier, s, m) && Offers(p, t, tier)
    ensures Usable(s.0, t, {}) == tier && IdleTier(s.0, tier)
  {
    UsableSame(p, s.0, t, 0);
  }

  lemma {:induction false} SerialPick(q: Pool, t: int, tier: seq<nat>)
    requires IdleTier(q, tier) && Usable(q, t, {}) == tier
    ensures Begin(q, t, "", {}) == (Grant(q.(rr := q.rr + 1), tier[q.rr % |tier|], "", t, t), Granted(tier[q.rr % |tier|]))
    ensures !q.buckets[tier[q.rr % |tier|]].Cordoned(t)
  {
    KeylessPick(q, t, tier, tier[0]);
    var rotated := Rotate(tier, q.rr % |tier|);
    RotateMembers(tier, q.rr % |tier|);
    forall k | 0 <= k < |rotated| ensures q.buckets[rotated[k]].inflight == 0 {
      assert rotated[k] in tier;
    }
    FirstMinOfEqual(q.buckets, rotated);
    UsableIsNominated(q, t, {});
    assert tier[q.rr % |tier|] in tier;
  }

  lemma {:induction false} ServedOk(c: Config, b: Bucket, t: int)
    requires b.inflight == 0 && !b.Cordoned(t)
    ensures Release(c, b.(inflight := b.inflight + 1), Ok, t, t) == b.(failures := 0, cooldownUntil := 0)
  {
  }

  lemma {:induction false} SerialNextGranted(s: (Pool, seq<nat>), t: int, r: Pool, i: nat)
    requires Begin(s.0, t, "", {}) == (r, Granted(i)) && i < |r.buckets|
    ensures SerialNext(s, t) == (r.(buckets := r.buckets[i := Release(r.cfg, r.buckets[i], Ok, t, t)]), s.1 + [i])
  {
  }

  lemma {:induction false} SerialStep(s: (Pool, seq<nat>), t: int, tier: seq<nat>)
    requires IdleTier(s.0, tier) && Usable(s.0, t, {}) == tier
    ensures var i := tier[s.0.rr % |tier|];
      SerialNext(s, t) ==
        (s.0.(rr := s.0.rr + 1, buckets := s.0.buckets[i := s.0.buckets[i].(failures := 0, cooldownUntil := 0)]), s.1 + [i])
  {
    SerialPick(s.0, t, tier);
    var i := tier[s.0.rr % |tier|];
    var (r, o) := Begin(s.0, t, "", {});
    ServedOk(s.0.cfg, s.0.buckets[i], t);
    SerialNextGranted(s, t, r, i);
    var after := s.0.buckets[i].(failures := 0, cooldownUntil := 0);
    assert r.buckets[i := after] == s.0.buckets[i := after];
  }

  lemma {:induction false} RotatedMore(p: Pool, tier: seq<nat>, s: (Pool, seq<nat>), m: nat, i: nat)
    requires Rotated(p, tier, s, m) && i in tier && i < |p.buckets| && InTurn(s.1 + [i], tier, p.rr)
    ensures var b := s.0.buckets[i].(failures := 0, cooldownUntil := 0);
      Rotated(p, tier, (s.0.(rr := s.0.rr + 1, buckets := s.0.buckets[i := b]), s.1 + [i]), m + 1)
  {
  }

  lemma {:induction false} RotatedNext(p: Pool, tier: seq<nat>, s: (Pool, seq<nat>), m: nat, t: int)
    requires IdleTier(p, tier) && Rotated(p, tier, s, m) && Offers(p, t, tier)
    ensures Rotated(p, tier, SerialNext(s, t), m + 1)
  {
    RotatedOffers(p, tier, s, m, t);
    SerialStep(s, t, tier);
    RotatedTurn(p, tier, s, m, tier[s.0.rr % |tier|]);
  }

  lemma {:induction false} RotatedTurn(p: Pool, tier: seq<nat>, s: (Pool, seq<nat>), m: nat, i: nat)
    requires IdleTier(p, tier) && Rotated(p, tier, s, m) && i == tier[s.0.rr % |tier|]
    ensures i < |p.buckets|
    ensures var b := s.0.buckets[i].(failures := 0, cooldownUntil := 0);
      Rotated(p, tier, (s.0.(rr := s.0.rr + 1, buckets := s.0.buckets[i := b]), s.1 + [i]), m + 1)
  {
    InTurnMore(s.1, tier, p.rr);
    assert i in tier;
    RotatedMore(p, tier, s, m, i);
  }

  lemma {:induction false} SerialIsRotated(p: Pool, times: seq<int>, tier: seq<nat>)
    requires IdleTier(p, tier) && forall k :: 0 <= k < |times| ==> Offers(p, times[k], tier)
    ensures Rotated(p, tier, Serial(p, times), |times|)
  {
    var inv := (s: (Pool, seq<nat>), k: nat) => Rotated(p, tier, s, k);
    forall s: (Pool, seq<nat>), k: nat | k < |times| && inv(s, k) ensures inv(SerialNext(s, times[k]), k + 1) {
      RotatedNext(p, tier, s, k, times[k]);
    }
    IterateKeeps((p, []), times, SerialNext, inv);
  }

  lemma {:induction false} ConsecutiveResidues(a: nat, b: nat, n: nat)
    requires a < b < a + n
    ensures a % n != b % n
  {
    if a % n == b % n {
      var d := b / n - a / n;
      assert d * n == b - a;
      SmallMultiple(d, n);
      assert false;
    }
  }

  lemma {:induction false} InTurnDiffer(picks: seq<nat>, tier: seq<nat>, rr: nat, i: nat, j: nat)
    requires InTurn(picks, tier, rr) && Distinct(tier) && i < j < |picks| && j - i < |tier|
    ensures picks[i] != picks[j]
  {
    ConsecutiveResidues(rr + i, rr + j, |tier|);
    var a, b := (rr + i) % |tier|, (rr + j) % |tier|;
    assert tier[a] != tier[b];
  }

  /** Serial keyless traffic over a fixed tier of n buckets is a round robin:
      any n consecutive requests visit n different buckets. */
  lemma {:induction false} SerialRoundRobin(p: Pool, times: seq<int>, tier: seq<nat>, i: nat, j: nat)
    requires IdleTier(p, tier) && forall k :: 0 <= k < |times| ==> Offers(p, times[k], tier)
    requires i < j < |times| && j - i < |tier|
    ensures |Serial(p, times).1| == |times| && Serial(p, times).1[i] != Serial(p, times).1[j]
  {
    SerialIsRotated(p, times, tier);
    InTurnDiffer(Serial(p, times).1, tier, p.rr, i, j);
  }
}
