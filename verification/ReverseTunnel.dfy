/** The reverse tunnel between the gateway adapter and the ESP32 firmware: any
    number of requests, a control channel, four tunnel slots, and data sockets
    that announce themselves by id.  A step is what one thread or task does
    between two points where another may run. */
module ReverseTunnel {
  import opened Basics

  const MAX_TUNNELS := 4

  /** Between popping its record and looking into it a request is deciding. */
  datatype Phase = Drawn | Waiting | Deciding | Relaying(socket: nat) | Over

  /** A request for a tunnel: a CONNECT from a client, or the adapter's own. */
  datatype Request = Request(client: bool, id: Option<nat>, target: string, statuses: seq<int>, phase: Phase)

  /** The record a waiting request shares with the socket handlers. */
  datatype Entry = Entry(owner: nat, tunnel: Option<nat>, failed: bool, ready: bool)

  datatype Stage = Granted | Dialling | Joining | Announced | Finished

  /** A firmware job, holding a slot until it is finished. */
  datatype Job = Job(id: nat, target: string, stage: Stage, announced: bool)

  /** The adapter's side of an announced socket. */
  datatype Handler = Unread | Found | Stored | Closed

  datatype Command = Command(id: nat, target: string)

  /** `entries` has one record per id ever used; `pending` the ids that can
      still be looked up. */
  datatype World = World(
    online: bool, requests: seq<Request>, entries: seq<Entry>, pending: set<nat>,
    wire: seq<Command>, free: nat, jobs: seq<Job>, handlers: seq<Handler>, errors: seq<nat>)

  datatype Event =
    | DeviceJoins
    | DeviceLeaves
    | Asks(client: bool, target: string)
    | Sends(request: nat)
    | SendFails(request: nat, left: bool)
    | CommandRead(accepted: bool)
    | TaskCreated(job: nat, ok: bool)
    | TargetDialled(job: nat, ok: bool)
    | DataDialled(job: nat, ok: bool)
    | PumpEnds(job: nat)
    | ErrorRead
    | SocketLookedUp(job: nat)
    | SocketStored(job: nat)
    | WaitEnds(request: nat)
    | Decides(request: nat)
    | RelayEnds(request: nat)

  function Start(): World { World(false, [], [], {}, [], MAX_TUNNELS, [], [], []) }

  function SetStage(w: World, j: nat, stage: Stage): World
    requires j < |w.jobs|
  {
    w.(jobs := w.jobs[j := w.jobs[j].(stage := stage)])
  }

  /** The job ends and gives its slot back. */
  function Return(w: World, j: nat): World
    requires j < |w.jobs|
  {
    SetStage(w, j, Finished).(free := w.free + 1)
  }

  /** The same for a job that never announced, with an error. */
  function GiveUp(w: World, j: nat): World
    requires j < |w.jobs|
  {
    Return(w, j).(errors := w.errors + [w.jobs[j].id])
  }

  function Answer(w: World, r: nat, code: int, phase: Phase): World
    requires r < |w.requests|
  {
    var q := w.requests[r];
    w.(requests := w.requests[r := q.(phase := phase, statuses := if q.client then q.statuses + [code] else q.statuses)])
  }

  function Ask(w: World, client: bool, target: string): World {
    if !w.online then w.(requests := w.requests + [Request(client, None, target, if client then [503] else [], Over)])
    else
      var id := |w.entries|;
      w.(requests := w.requests + [Request(client, Some(id), target, [], Drawn)],
         entries := w.entries + [Entry(|w.requests|, None, false, false)],
         pending := w.pending + {id})
  }

  predicate InPhase(w: World, r: nat, phase: Phase) {
    r < |w.requests| && w.requests[r].phase == phase && w.requests[r].id.Some? && w.requests[r].id.value < |w.entries|
  }

  /** Put the command on the control channel; requests do so in any order. */
  function Send(w: World, r: nat): World
    requires InPhase(w, r, Drawn)
  {
    w.(wire := w.wire + [Command(w.requests[r].id.value, w.requests[r].target)], requests := w.requests[r := w.requests[r].(phase := Waiting)])
  }

  function ReadCommand(w: World, accepted: bool): World
    requires w.wire != []
  {
    var rest := w.(wire := w.wire[1..]);
    if accepted && w.free > 0 then
      rest.(free := w.free - 1, jobs := w.jobs + [Job(w.wire[0].id, w.wire[0].target, Granted, false)], handlers := w.handlers + [Unread])
    else rest.(errors := w.errors + [w.wire[0].id])   // no slot within the wait, or an unusable target
  }

  predicate AtStage(w: World, j: nat, stage: Stage) { j < |w.jobs| && w.jobs[j].stage == stage }

  predicate HandlerAt(w: World, j: nat, h: Handler) { j < |w.jobs| && j < |w.handlers| && w.jobs[j].announced && w.handlers[j] == h }

  function LookUp(w: World, j: nat): World
    requires HandlerAt(w, j, Unread)
  {
    w.(handlers := w.handlers[j := if w.jobs[j].id in w.pending then Found else Closed])
  }

  /** The handler fills in the record it looked up, even one popped since. */
  function Store(w: World, j: nat): World
    requires HandlerAt(w, j, Found) && w.jobs[j].id < |w.entries|
  {
    var id := w.jobs[j].id;
    w.(handlers := w.handlers[j := Stored], entries := w.entries[id := w.entries[id].(tunnel := Some(j), ready := true)])
  }

  function Popped(w: World, r: nat): World
    requires r < |w.requests| && w.requests[r].id.Some?
  {
    w.(pending := w.pending - {w.requests[r].id.value})
  }

  /** The wait is over, by a signal or by the clock: pop the record ... */
  function EndWait(w: World, r: nat): World
    requires InPhase(w, r, Waiting)
  {
    Popped(w, r).(requests := w.requests[r := w.requests[r].(phase := Deciding)])
  }

  /** ... then answer by what it holds, which a handler may fill in until now. */
  function Decide(w: World, r: nat): World
    requires InPhase(w, r, Deciding)
  {
    var tunnel := w.entries[w.requests[r].id.value].tunnel;
    if tunnel.Some? then Answer(w, r, 200, Relaying(tunnel.value)) else Answer(w, r, 502, Over)
  }

  function Step(w: World, e: Event): World {
    match e
    case DeviceJoins => w.(online := true)
    case DeviceLeaves => w.(online := false, wire := [], errors := [])
    case Asks(client, target) => Ask(w, client, target)
    case Sends(r) => if InPhase(w, r, Drawn) then Send(w, r) else w
    case SendFails(r, left) =>
      // the command may have left all the same; the request gives up on it
      if InPhase(w, r, Drawn) then
        var sent := if left then Send(w, r) else w;
        Answer(Popped(sent, r), r, 502, Over)
      else w
    case CommandRead(accepted) => if w.wire != [] then ReadCommand(w, accepted) else w
    case TaskCreated(j, ok) => if !AtStage(w, j, Granted) then w else if ok then SetStage(w, j, Dialling) else GiveUp(w, j)
    case TargetDialled(j, ok) => if !AtStage(w, j, Dialling) then w else if ok then SetStage(w, j, Joining) else GiveUp(w, j)
    case DataDialled(j, ok) =>
      if !AtStage(w, j, Joining) then w
      else if ok then w.(jobs := w.jobs[j := w.jobs[j].(stage := Announced, announced := true)])
      else GiveUp(w, j)
    case PumpEnds(j) => if !AtStage(w, j, Announced) then w else Return(w, j)
    case ErrorRead =>
      if w.errors == [] then w
      else
        var id := w.errors[0];
        var rest := w.(errors := w.errors[1..]);
        if id in w.pending && id < |w.entries| then rest.(entries := w.entries[id := w.entries[id].(failed := true, ready := true)]) else rest
    case SocketLookedUp(j) => if HandlerAt(w, j, Unread) then LookUp(w, j) else w
    case SocketStored(j) => if HandlerAt(w, j, Found) && w.jobs[j].id < |w.entries| then Store(w, j) else w
    case WaitEnds(r) => if InPhase(w, r, Waiting) then EndWait(w, r) else w
    case Decides(r) => if InPhase(w, r, Deciding) then Decide(w, r) else w
    case RelayEnds(r) =>
      if r < |w.requests| && w.requests[r].phase.Relaying? then w.(requests := w.requests[r := w.requests[r].(phase := Over)]) else w
  }

  function Run(trace: seq<Event>): World { Iterate(Start(), trace, (w: World, e: Event) => Step(w, e)) }

  // ----------------------------------------------------------------- slots

  /** Jobs that hold a slot. */
  function Holding(jobs: seq<Job>): nat {
    if jobs == [] then 0 else Holding(jobs[..|jobs| - 1]) + if jobs[|jobs| - 1].stage.Finished? then 0 else 1
  }

  lemma {:induction false} HoldingAfter(jobs: seq<Job>, j: nat, job: Job)
    requires j < |jobs|
    ensures Holding(jobs[j := job]) == Holding(jobs) - (if jobs[j].stage.Finished? then 0 else 1) + (if job.stage.Finished? then 0 else 1)
  {
    var n := |jobs| - 1;
    if j < n {
      HoldingAfter(jobs[..n], j, job);
      assert jobs[j := job][..n] == jobs[..n][j := job];
    } else {
      assert jobs[j := job][..n] == jobs[..n];
    }
  }

  lemma {:induction false} HoldingAppend(jobs: seq<Job>, job: Job)
    ensures Holding(jobs + [job]) == Holding(jobs) + if job.stage.Finished? then 0 else 1
  {
    assert (jobs + [job])[..|jobs|] == jobs;
  }

  // ------------------------------------------------------------- invariants

  ghost predicate SlotsOk(w: World) { w.free + Holding(w.jobs) == MAX_TUNNELS && |w.handlers| == |w.jobs| }

  /** Each id belongs to the request that drew it. */
  ghost predicate IdsOk(w: World) {
    && (forall id :: 0 <= id < |w.entries| ==> w.entries[id].owner < |w.requests| && w.requests[w.entries[id].owner].id == Some(id))
    && (forall r :: 0 <= r < |w.requests| && w.requests[r].id.Some? ==>
          w.requests[r].id.value < |w.entries| && w.entries[w.requests[r].id.value].owner == r)
  }

  /** A command or job carries an id in use, its request's own target, and was
      really sent. */
  ghost predicate Ordered(w: World, id: nat, target: string) {
    id < |w.entries| && w.entries[id].owner < |w.requests|
    && w.requests[w.entries[id].owner].target == target && !w.requests[w.entries[id].owner].phase.Drawn?
  }

  /** What is on its way and what is being worked on was asked for ... */
  ghost predicate AskedFor(w: World) {
    && (forall k :: 0 <= k < |w.wire| ==> Ordered(w, w.wire[k].id, w.wire[k].target))
    && (forall j :: 0 <= j < |w.jobs| ==> Ordered(w, w.jobs[j].id, w.jobs[j].target))
  }

  /** ... and no id is on its way, or worked on, twice. */
  ghost predicate OnceOnly(w: World) {
    && (forall k, l :: 0 <= k < l < |w.wire| ==> w.wire[k].id != w.wire[l].id)
    && (forall i, j :: 0 <= i < j < |w.jobs| ==> w.jobs[i].id != w.jobs[j].id)
    && (forall j, k :: 0 <= j < |w.jobs| && 0 <= k < |w.wire| ==> w.jobs[j].id != w.wire[k].id)
  }

  /** A record only ever holds a socket that announced its own id. */
  ghost predicate TunnelsOk(w: World) {
    && |w.handlers| == |w.jobs|
    && forall id :: 0 <= id < |w.entries| && w.entries[id].tunnel.Some? ==>
         var j := w.entries[id].tunnel.value; j < |w.jobs| && w.jobs[j].id == id && w.jobs[j].announced && w.handlers[j].Stored?
  }

  /** A client has no status line until its request is decided and one after;
      a relay runs on the socket whose job was asked for by this very request. */
  ghost predicate RequestOk(w: World, q: Request) {
    && (if q.client && (q.phase.Relaying? || q.phase.Over?) then |q.statuses| == 1 else q.statuses == [])
    && (q.phase.Relaying? ==> (q.client ==> q.statuses == [200])
                              && q.phase.socket < |w.jobs| && q.id == Some(w.jobs[q.phase.socket].id)
                              && w.jobs[q.phase.socket].target == q.target && w.jobs[q.phase.socket].announced
                              && q.phase.socket < |w.handlers| && w.handlers[q.phase.socket].Stored?)
  }

  ghost predicate RequestsOk(w: World) { forall r :: 0 <= r < |w.requests| ==> RequestOk(w, w.requests[r]) }

  ghost predicate Sound(w: World) { SlotsOk(w) && IdsOk(w) && AskedFor(w) && OnceOnly(w) && TunnelsOk(w) && RequestsOk(w) }

  // ------------------------------------------------------ every step keeps it

  lemma {:induction false} AskKeepsOrders(w: World, client: bool, target: string)
    requires AskedFor(w) && OnceOnly(w) && TunnelsOk(w)
    ensures var v := Ask(w, client, target); AskedFor(v) && OnceOnly(v) && TunnelsOk(v)
  {
    var v := Ask(w, client, target);
    forall k | 0 <= k < |w.wire| ensures Ordered(v, v.wire[k].id, v.wire[k].target) { assert Ordered(w, w.wire[k].id, w.wire[k].target); }
    forall j | 0 <= j < |w.jobs| ensures Ordered(v, v.jobs[j].id, v.jobs[j].target) { assert Ordered(w, w.jobs[j].id, w.jobs[j].target); }
  }

  lemma {:induction false} AskKeepsIds(w: World, client: bool, target: string)
    requires SlotsOk(w) && IdsOk(w)
    ensures SlotsOk(Ask(w, client, target)) && IdsOk(Ask(w, client, target))
  {
  }

  lemma {:induction false} AskKeepsRequests(w: World, client: bool, target: string)
    requires RequestsOk(w)
    ensures RequestsOk(Ask(w, client, target))
  {
    var v := Ask(w, client, target);
    forall r | 0 <= r < |v.requests| ensures RequestOk(v, v.requests[r]) {
      if r < |w.requests| { assert RequestOk(w, w.requests[r]); }
    }
  }

  lemma {:induction false} AskKeeps(w: World, client: bool, target: string)
    requires Sound(w)
    ensures Sound(Step(w, Asks(client, target)))
  {
    AskKeepsOrders(w, client, target);
    AskKeepsIds(w, client, target);
    AskKeepsRequests(w, client, target);
  }

  /** Requests may change phase and status; ids and targets stay. */
  ghost predicate SameQuestions(w: World, v: World) {
    && |v.requests| == |w.requests| && forall r :: 0 <= r < |w.requests| ==> v.requests[r].id == w.requests[r].id && v.requests[r].target == w.requests[r].target
  }

  /** Steps that touch neither jobs, commands nor records. */
  lemma {:induction false} RequestStepKeeps(w: World, v: World, r: nat)
    requires Sound(w) && SameQuestions(w, v) && r < |w.requests|
    requires v == w.(requests := v.requests, pending := v.pending)
    requires forall i :: 0 <= i < |w.requests| && i != r ==> v.requests[i] == w.requests[i]
    requires RequestOk(v, v.requests[r]) && !v.requests[r].phase.Drawn?
    ensures Sound(v)
  {
    forall i | 0 <= i < |v.requests| ensures RequestOk(v, v.requests[i]) {
      if i != r { assert RequestOk(w, w.requests[i]); }
    }
    forall k | 0 <= k < |w.wire| ensures Ordered(v, v.wire[k].id, v.wire[k].target) { assert Ordered(w, w.wire[k].id, w.wire[k].target); }
    forall j | 0 <= j < |w.jobs| ensures Ordered(v, v.jobs[j].id, v.jobs[j].target) { assert Ordered(w, w.jobs[j].id, w.jobs[j].target); }
  }

  lemma {:induction false} SendKeepsOrders(w: World, r: nat, v: World)
    requires IdsOk(w) && AskedFor(w) && InPhase(w, r, Drawn) && v == Send(w, r)
    ensures AskedFor(v)
  {
    forall k | 0 <= k < |v.wire| ensures Ordered(v, v.wire[k].id, v.wire[k].target) {
      if k < |w.wire| { assert Ordered(w, w.wire[k].id, w.wire[k].target); }
    }
    forall j | 0 <= j < |w.jobs| ensures Ordered(v, v.jobs[j].id, v.jobs[j].target) { assert Ordered(w, w.jobs[j].id, w.jobs[j].target); }
  }

  /** An id still to be sent is nowhere on its way. */
  lemma {:induction false} SendKeepsOnce(w: World, r: nat, v: World)
    requires IdsOk(w) && AskedFor(w) && OnceOnly(w) && InPhase(w, r, Drawn) && v == Send(w, r)
    ensures OnceOnly(v)
  {
    var id := w.requests[r].id.value;
    forall k | 0 <= k < |w.wire| ensures w.wire[k].id != id { assert Ordered(w, w.wire[k].id, w.wire[k].target); }
    forall j | 0 <= j < |w.jobs| ensures w.jobs[j].id != id { assert Ordered(w, w.jobs[j].id, w.jobs[j].target); }
  }

  lemma {:induction false} SendKeepsRequests(w: World, r: nat, v: World)
    requires RequestsOk(w) && InPhase(w, r, Drawn) && v == Send(w, r)
    ensures RequestsOk(v)
  {
    forall i | 0 <= i < |v.requests| ensures RequestOk(v, v.requests[i]) { assert RequestOk(w, w.requests[i]); }
  }

  lemma {:induction false} SendKeeps(w: World, r: nat)
    requires Sound(w) && InPhase(w, r, Drawn)
    ensures Sound(Send(w, r))
  {
    SendKeepsOrders(w, r, Send(w, r));
    SendKeepsOnce(w, r, Send(w, r));
    SendKeepsRequests(w, r, Send(w, r));
  }

  lemma {:induction false} GiveUpKeeps(w: World, r: nat)
    requires Sound(w) && r < |w.requests| && w.requests[r].id.Some? && (w.requests[r].phase.Drawn? || w.requests[r].phase.Waiting?)
    ensures Sound(Answer(Popped(w, r), r, 502, Over))
  {
    assert RequestOk(w, w.requests[r]);
    RequestStepKeeps(w, Answer(Popped(w, r), r, 502, Over), r);
  }

  lemma {:induction false} SendFailsKeeps(w: World, r: nat, left: bool)
    requires Sound(w)
    ensures Sound(Step(w, SendFails(r, left)))
  {
    if InPhase(w, r, Drawn) {
      if left {
        SendKeeps(w, r);
        GiveUpKeeps(Send(w, r), r);
      } else {
        GiveUpKeeps(w, r);
      }
    }
  }

  lemma {:induction false} SendsKeeps(w: World, r: nat)
    requires Sound(w)
    ensures Sound(Step(w, Sends(r)))
  {
    if InPhase(w, r, Drawn) { SendKeeps(w, r); }
  }

  lemma {:induction false} EndWaitKeeps(w: World, r: nat)
    requires Sound(w) && InPhase(w, r, Waiting)
    ensures Sound(EndWait(w, r))
  {
    assert RequestOk(w, w.requests[r]);
    RequestStepKeeps(w, EndWait(w, r), r);
  }

  lemma {:induction false} DecidedOk(w: World, r: nat, v: World)
    requires IdsOk(w) && AskedFor(w) && TunnelsOk(w) && InPhase(w, r, Deciding) && RequestOk(w, w.requests[r]) && v == Decide(w, r)
    ensures RequestOk(v, v.requests[r])
  {
    var tunnel := w.entries[w.requests[r].id.value].tunnel;
    if tunnel.Some? { assert Ordered(w, w.jobs[tunnel.value].id, w.jobs[tunnel.value].target); }
  }

  lemma {:induction false} DecideKeeps(w: World, r: nat)
    requires Sound(w) && InPhase(w, r, Deciding)
    ensures Sound(Decide(w, r))
  {
    DecidedOk(w, r, Decide(w, r));
    RequestStepKeeps(w, Decide(w, r), r);
  }

  lemma {:induction false} ReadKeepsOrders(w: World, accepted: bool)
    requires AskedFor(w) && OnceOnly(w) && w.wire != []
    ensures AskedFor(ReadCommand(w, accepted)) && OnceOnly(ReadCommand(w, accepted))
  {
    var v := ReadCommand(w, accepted);
    forall k | 0 <= k < |v.wire| ensures v.wire[k] == w.wire[k + 1] && Ordered(v, v.wire[k].id, v.wire[k].target) {
      assert Ordered(w, w.wire[k + 1].id, w.wire[k + 1].target);
    }
    forall j | 0 <= j < |v.jobs| ensures Ordered(v, v.jobs[j].id, v.jobs[j].target) {
      if j < |w.jobs| { assert Ordered(w, w.jobs[j].id, w.jobs[j].target); } else { assert Ordered(w, w.wire[0].id, w.wire[0].target); }
    }
  }

  lemma {:induction false} ReadKeeps(w: World, accepted: bool)
    requires Sound(w) && w.wire != []
    ensures Sound(ReadCommand(w, accepted))
  {
    var v := ReadCommand(w, accepted);
    ReadKeepsOrders(w, accepted);
    if |v.jobs| > |w.jobs| { HoldingAppend(w.jobs, v.jobs[|w.jobs|]); }
    forall i | 0 <= i < |v.requests| ensures RequestOk(v, v.requests[i]) { assert RequestOk(w, w.requests[i]); }
  }

  lemma {:induction false} CommandReadKeeps(w: World, accepted: bool)
    requires Sound(w)
    ensures Sound(Step(w, CommandRead(accepted)))
  {
    if w.wire != [] { ReadKeeps(w, accepted); }
  }

  lemma {:induction false} WaitEndsKeeps(w: World, r: nat)
    requires Sound(w)
    ensures Sound(Step(w, WaitEnds(r)))
  {
    if InPhase(w, r, Waiting) { EndWaitKeeps(w, r); }
  }

  lemma {:induction false} DecidesKeeps(w: World, r: nat)
    requires Sound(w)
    ensures Sound(Step(w, Decides(r)))
  {
    if InPhase(w, r, Deciding) { DecideKeeps(w, r); }
  }

  lemma {:induction false} RelayEndsKeeps(w: World, r: nat)
    requires Sound(w)
    ensures Sound(Step(w, RelayEnds(r)))
  {
    if r < |w.requests| && w.requests[r].phase.Relaying? {
      assert RequestOk(w, w.requests[r]);
      RequestStepKeeps(w, Step(w, RelayEnds(r)), r);
    }
  }

  /** A job moves on; it keeps its id and target and never takes back an
      announcement. */
  lemma {:induction false} JobStepKeeps(w: World, v: World, j: nat)
    requires Sound(w) && j < |w.jobs| && j < |v.jobs| && v == w.(jobs := w.jobs[j := v.jobs[j]], free := v.free, errors := v.errors)
    requires v.jobs[j].id == w.jobs[j].id && v.jobs[j].target == w.jobs[j].target && (w.jobs[j].announced ==> v.jobs[j].announced)
    requires v.free == w.free + (if w.jobs[j].stage.Finished? then 0 else 1) - (if v.jobs[j].stage.Finished? then 0 else 1)
    ensures Sound(v)
  {
    HoldingAfter(w.jobs, j, v.jobs[j]);
    JobStepKeepsOrders(w, v, j);
    forall i | 0 <= i < |v.requests| ensures RequestOk(v, v.requests[i]) { assert RequestOk(w, w.requests[i]); }
  }

  lemma {:induction false} JobStepKeepsOrders(w: World, v: World, j: nat)
    requires AskedFor(w) && OnceOnly(w) && j < |w.jobs| && j < |v.jobs| && v == w.(jobs := w.jobs[j := v.jobs[j]], free := v.free, errors := v.errors)
    requires v.jobs[j].id == w.jobs[j].id && v.jobs[j].target == w.jobs[j].target
    ensures AskedFor(v) && OnceOnly(v)
  {
    forall k | 0 <= k < |w.wire| ensures Ordered(v, v.wire[k].id, v.wire[k].target) { assert Ordered(w, w.wire[k].id, w.wire[k].target); }
    forall i | 0 <= i < |w.jobs| ensures Ordered(v, v.jobs[i].id, v.jobs[i].target) { assert Ordered(w, w.jobs[i].id, w.jobs[i].target); }
  }

  /** Records and handlers change; ids stay with their owners. */
  lemma {:induction false} RecordStepKeeps(w: World, v: World)
    requires Sound(w) && v == w.(entries := v.entries, handlers := v.handlers, errors := v.errors) && |v.handlers| == |w.handlers|
    requires |v.entries| == |w.entries| && forall id :: 0 <= id < |w.entries| ==> v.entries[id].owner == w.entries[id].owner
    requires TunnelsOk(v) && forall j :: 0 <= j < |w.handlers| && w.handlers[j].Stored? ==> v.handlers[j].Stored?
    ensures Sound(v)
  {
    forall i | 0 <= i < |v.requests| ensures RequestOk(v, v.requests[i]) { assert RequestOk(w, w.requests[i]); }
    forall k | 0 <= k < |w.wire| ensures Ordered(v, v.wire[k].id, v.wire[k].target) { assert Ordered(w, w.wire[k].id, w.wire[k].target); }
    forall i | 0 <= i < |w.jobs| ensures Ordered(v, v.jobs[i].id, v.jobs[i].target) { assert Ordered(w, w.jobs[i].id, w.jobs[i].target); }
  }

  /** The control channel comes, or goes with what was on it. */
  lemma {:induction false} ChannelKeeps(w: World, v: World)
    requires Sound(w) && v == w.(online := v.online, wire := v.wire, errors := v.errors) && (v.wire == w.wire || v.wire == [])
    ensures Sound(v)
  {
    forall i | 0 <= i < |w.requests| ensures RequestOk(v, v.requests[i]) { assert RequestOk(w, w.requests[i]); }
    forall k | 0 <= k < |v.wire| ensures Ordered(v, v.wire[k].id, v.wire[k].target) { assert Ordered(w, w.wire[k].id, w.wire[k].target); }
    forall i | 0 <= i < |w.jobs| ensures Ordered(v, v.jobs[i].id, v.jobs[i].target) { assert Ordered(w, w.jobs[i].id, w.jobs[i].target); }
  }

  lemma {:induction false} StageKeeps(w: World, j: nat, stage: Stage)
    requires Sound(w) && j < |w.jobs| && !w.jobs[j].stage.Finished? && !stage.Finished?
    ensures Sound(SetStage(w, j, stage))
  {
    JobStepKeeps(w, SetStage(w, j, stage), j);
  }

  lemma {:induction false} GivingUpKeeps(w: World, j: nat)
    requires Sound(w) && j < |w.jobs| && !w.jobs[j].stage.Finished?
    ensures Sound(GiveUp(w, j))
  {
    JobStepKeeps(w, GiveUp(w, j), j);
  }

  lemma {:induction false} AnnounceKeeps(w: World, j: nat)
    requires Sound(w) && AtStage(w, j, Joining)
    ensures Sound(w.(jobs := w.jobs[j := w.jobs[j].(stage := Announced, announced := true)]))
  {
    JobStepKeeps(w, w.(jobs := w.jobs[j := w.jobs[j].(stage := Announced, announced := true)]), j);
  }

  lemma {:induction false} ReturnKeeps(w: World, j: nat)
    requires Sound(w) && j < |w.jobs| && !w.jobs[j].stage.Finished?
    ensures Sound(Return(w, j))
  {
    JobStepKeeps(w, Return(w, j), j);
  }

  lemma {:induction false} TaskCreatedKeeps(w: World, j: nat, ok: bool)
    requires Sound(w)
    ensures Sound(Step(w, TaskCreated(j, ok)))
  {
    if AtStage(w, j, Granted) { if ok { StageKeeps(w, j, Dialling); } else { GivingUpKeeps(w, j); } }
  }

  lemma {:induction false} TargetDialledKeeps(w: World, j: nat, ok: bool)
    requires Sound(w)
    ensures Sound(Step(w, TargetDialled(j, ok)))
  {
    if AtStage(w, j, Dialling) { if ok { StageKeeps(w, j, Joining); } else { GivingUpKeeps(w, j); } }
  }

  lemma {:induction false} DataDialledKeeps(w: World, j: nat, ok: bool)
    requires Sound(w)
    ensures Sound(Step(w, DataDialled(j, ok)))
  {
    if AtStage(w, j, Joining) { if ok { AnnounceKeeps(w, j); } else { GivingUpKeeps(w, j); } }
  }

  lemma {:induction false} PumpEndsKeeps(w: World, j: nat)
    requires Sound(w)
    ensures Sound(Step(w, PumpEnds(j)))
  {
    if AtStage(w, j, Announced) { ReturnKeeps(w, j); }
  }

  lemma {:induction false} ErrorReadKeeps(w: World)
    requires Sound(w)
    ensures Sound(Step(w, ErrorRead))
  {
    if w.errors != [] {
      var id := w.errors[0];
      if id in w.pending && id < |w.entries| { FailedEntryKeeps(w, id); } else { NoErrorKeeps(w, w.errors[1..]); }
    }
  }

  lemma {:induction false} NoErrorKeeps(w: World, errors: seq<nat>)
    requires Sound(w)
    ensures Sound(w.(errors := errors))
  {
    RecordStepKeeps(w, w.(errors := errors));
  }

  lemma {:induction false} FailedEntryKeeps(w: World, id: nat)
    requires Sound(w) && id < |w.entries| && w.errors != []
    ensures Sound(w.(errors := w.errors[1..], entries := w.entries[id := w.entries[id].(failed := true, ready := true)]))
  {
    RecordStepKeeps(w, w.(errors := w.errors[1..], entries := w.entries[id := w.entries[id].(failed := true, ready := true)]));
  }

  lemma {:induction false} LookUpKeeps(w: World, j: nat)
    requires Sound(w)
    ensures Sound(Step(w, SocketLookedUp(j)))
  {
    RecordStepKeeps(w, Step(w, SocketLookedUp(j)));
  }

  lemma {:induction false} StoredTunnels(w: World, j: nat)
    requires TunnelsOk(w) && HandlerAt(w, j, Found) && w.jobs[j].id < |w.entries|
    ensures TunnelsOk(Store(w, j))
  {
  }

  lemma {:induction false} StoreKeeps(w: World, j: nat)
    requires Sound(w)
    ensures Sound(Step(w, SocketStored(j)))
  {
    if HandlerAt(w, j, Found) && w.jobs[j].id < |w.entries| {
      StoredTunnels(w, j);
      RecordStepKeeps(w, Store(w, j));
    }
  }

  lemma {:induction false} StepKeeps(w: World, e: Event)
    requires Sound(w)
    ensures Sound(Step(w, e))
  {
    match e
    case DeviceJoins => ChannelKeeps(w, Step(w, DeviceJoins));
    case DeviceLeaves => ChannelKeeps(w, Step(w, DeviceLeaves));
    case Asks(client, target) => AskKeeps(w, client, target);
    case Sends(r) => SendsKeeps(w, r);
    case SendFails(r, left) => SendFailsKeeps(w, r, left);
    case CommandRead(accepted) => CommandReadKeeps(w, accepted);
    case TaskCreated(j, ok) => TaskCreatedKeeps(w, j, ok);
    case TargetDialled(j, ok) => TargetDialledKeeps(w, j, ok);
    case DataDialled(j, ok) => DataDialledKeeps(w, j, ok);
    case PumpEnds(j) => PumpEndsKeeps(w, j);
    case ErrorRead => ErrorReadKeeps(w);
    case SocketLookedUp(j) => LookUpKeeps(w, j);
    case SocketStored(j) => StoreKeeps(w, j);
    case WaitEnds(r) => WaitEndsKeeps(w, r);
    case Decides(r) => DecidesKeeps(w, r);
    case RelayEnds(r) => RelayEndsKeeps(w, r);
  }

  lemma {:induction false} EveryRunIsSound(trace: seq<Event>)
    ensures Sound(Run(trace))
  {
    forall w: World, k: nat | k < |trace| && Sound(w) ensures Sound(Step(w, trace[k])) { StepKeeps(w, trace[k]); }
    IterateKeeps(Start(), trace, (w: World, e: Event) => Step(w, e), (w, k) => Sound(w));
  }

  /** In every interleaving the free slots and the jobs holding one make four. */
  lemma {:induction false} SlotsConserved(trace: seq<Event>)
    ensures Run(trace).free + Holding(Run(trace).jobs) == MAX_TUNNELS
  {
    EveryRunIsSound(trace);
  }

  /** A data socket is relayed only to the request whose own id and target its
      job was started for, and no two requests ever share one. */
  lemma {:induction false} RelaysAreOwn(trace: seq<Event>, r: nat, q: nat)
    requires r < |Run(trace).requests| && Run(trace).requests[r].phase.Relaying?
    requires q < |Run(trace).requests| && Run(trace).requests[q].phase.Relaying?
    ensures var w := Run(trace); var s := w.requests[r].phase.socket;
      && s < |w.jobs| && w.requests[r].id == Some(w.jobs[s].id) && w.requests[r].target == w.jobs[s].target
      && (r != q ==> w.requests[q].phase.socket != s && w.requests[q].id != w.requests[r].id)
  {
    EveryRunIsSound(trace);
    var w := Run(trace);
    assert RequestOk(w, w.requests[r]) && RequestOk(w, w.requests[q]);
  }

  /** A client sees one status line once its request is decided and none
      before, and one that is being relayed saw exactly a 200. */
  lemma {:induction false} OneStatusLine(trace: seq<Event>, r: nat)
    requires r < |Run(trace).requests|
    ensures var q := Run(trace).requests[r];
      && |q.statuses| == (if q.client && (q.phase.Relaying? || q.phase.Over?) then 1 else 0)
      && (q.client && q.phase.Relaying? ==> q.statuses == [200])
  {
    EveryRunIsSound(trace);
    assert RequestOk(Run(trace), Run(trace).requests[r]);
  }

  /** What a client may have been told by now. */
  ghost predicate Told(q: Request) {
    && (q.id.None? ==> q.phase.Over? && q.statuses == if q.client then [503] else [])
    && (q.id.Some? ==> forall k :: 0 <= k < |q.statuses| ==> q.statuses[k] == 200 || q.statuses[k] == 502)
  }

  ghost predicate AllTold(w: World) { forall r :: 0 <= r < |w.requests| ==> Told(w.requests[r]) }

  lemma {:induction false} AnswerTells(w: World, r: nat, code: int, phase: Phase)
    requires AllTold(w) && r < |w.requests| && w.requests[r].id.Some? && (code == 200 || code == 502)
    ensures AllTold(Answer(w, r, code, phase))
  {
  }

  lemma {:induction false} PhaseTells(w: World, v: World, r: nat, phase: Phase)
    requires AllTold(w) && r < |w.requests| && w.requests[r].id.Some? && v.requests == w.requests[r := w.requests[r].(phase := phase)]
    ensures AllTold(v)
  {
  }

  lemma {:induction false} AskTells(w: World, client: bool, target: string)
    requires AllTold(w)
    ensures AllTold(Ask(w, client, target))
  {
  }

  lemma {:induction false} StepTells(w: World, e: Event)
    requires AllTold(w)
    ensures AllTold(Step(w, e))
  {
    match e
    case Asks(client, target) => AskTells(w, client, target);
    case Sends(r) => if InPhase(w, r, Drawn) { PhaseTells(w, Send(w, r), r, Waiting); }
    case SendFails(r, left) =>
      if InPhase(w, r, Drawn) {
        PhaseTells(w, Send(w, r), r, Waiting);
        AnswerTells(Popped(if left then Send(w, r) else w, r), r, 502, Over);
      }
    case WaitEnds(r) => if InPhase(w, r, Waiting) { PhaseTells(w, EndWait(w, r), r, Deciding); }
    case Decides(r) =>
      if InPhase(w, r, Deciding) {
        var tunnel := w.entries[w.requests[r].id.value].tunnel;
        if tunnel.Some? { AnswerTells(w, r, 200, Relaying(tunnel.value)); } else { AnswerTells(w, r, 502, Over); }
      }
    case RelayEnds(r) =>
      if r < |w.requests| && w.requests[r].phase.Relaying? {
        assert Told(w.requests[r]);
        PhaseTells(w, Step(w, e), r, Over);
      }
    case _ => OthersLeaveRequests(w, e);
  }

  lemma {:induction false} EveryRunTells(trace: seq<Event>)
    ensures AllTold(Run(trace))
  {
    forall w: World, k: nat | k < |trace| && AllTold(w) ensures AllTold(Step(w, trace[k])) { StepTells(w, trace[k]); }
    IterateKeeps(Start(), trace, (w: World, e: Event) => Step(w, e), (w, k) => AllTold(w));
  }

  /** A CONNECT that is over was told 503 exactly when the device was offline as
      it came, so that it never drew an id; any other is told 200 or 502. */
  lemma {:induction false} StatusMeans(trace: seq<Event>, r: nat)
    requires r < |Run(trace).requests| && Run(trace).requests[r].client && Run(trace).requests[r].phase.Over?
    ensures var q := Run(trace).requests[r];
      |q.statuses| == 1 && if q.id.None? then q.statuses[0] == 503 else q.statuses[0] == 200 || q.statuses[0] == 502
  {
    EveryRunTells(trace);
    OneStatusLine(trace, r);
    assert Told(Run(trace).requests[r]);
  }

  /** The moment of decision: 200 and a relay on the stored socket exactly when
      one is stored by then, 502 otherwise; a device that is away means 503 at
      once. */
  lemma {:induction false} DecisionMeans(w: World, r: nat, target: string)
    requires InPhase(w, r, Deciding) && w.requests[r].client
    ensures var v := Step(w, Decides(r)); var socket := w.entries[w.requests[r].id.value].tunnel;
      && (v.requests[r].phase.Relaying? <==> socket.Some?)
      && v.requests[r].statuses == (if socket.Some? then w.requests[r].statuses + [200] else w.requests[r].statuses + [502])
      && (socket.Some? ==> v.requests[r].phase.socket == socket.value)
    ensures !w.online ==>
      Step(w, Asks(true, target)).requests == w.requests + [Request(true, None, target, [503], Over)]
  {
  }

  /** An id is worked on by at most one job. */
  lemma {:induction false} OneJobPerId(trace: seq<Event>, i: nat, j: nat)
    requires i < |Run(trace).jobs| && j < |Run(trace).jobs| && Run(trace).jobs[i].id == Run(trace).jobs[j].id
    ensures i == j
  {
    EveryRunIsSound(trace);
  }

  // ------------------------------------------- what becomes of a data socket

  function Later(w: World, trace: seq<Event>): World { Iterate(w, trace, (v: World, e: Event) => Step(v, e)) }

  lemma {:induction false} LaterIsSound(w: World, trace: seq<Event>)
    requires Sound(w)
    ensures Sound(Later(w, trace))
  {
    if trace != [] {
      LaterIsSound(w, trace[..|trace| - 1]);
      StepKeeps(Later(w, trace[..|trace| - 1]), trace[|trace| - 1]);
    }
  }

  /** Some request is being relayed on the socket of job `j`. */
  ghost predicate Relayed(w: World, j: nat) { exists r :: 0 <= r < |w.requests| && w.requests[r].phase == Relaying(j) }

  /** Request `r` has given up, on the id of job `j`. */
  ghost predicate GaveUp(w: World, r: nat, j: nat) {
    && r < |w.requests| && w.requests[r].phase.Over? && j < |w.jobs| && w.requests[r].id == Some(w.jobs[j].id)
  }

  predicate MovesRequests(e: Event) { e.Asks? || e.Sends? || e.SendFails? || e.WaitEnds? || e.Decides? || e.RelayEnds? }

  lemma {:induction false} OthersLeaveRequests(w: World, e: Event)
    requires !MovesRequests(e)
    ensures Step(w, e).requests == w.requests
  {
  }

  lemma {:induction false} StaysOver(w: World, r: nat, e: Event)
    requires r < |w.requests| && w.requests[r].phase.Over?
    ensures r < |Step(w, e).requests| && Step(w, e).requests[r].phase.Over? && Step(w, e).requests[r].id == w.requests[r].id
  {
    if !MovesRequests(e) { OthersLeaveRequests(w, e); }
  }

  lemma {:induction false} JobKeepsId(w: World, j: nat, e: Event)
    requires j < |w.jobs|
    ensures j < |Step(w, e).jobs| && Step(w, e).jobs[j].id == w.jobs[j].id
  {
  }

  lemma {:induction false} StaysGivenUp(w: World, r: nat, j: nat, e: Event)
    requires GaveUp(w, r, j)
    ensures GaveUp(Step(w, e), r, j)
  {
    StaysOver(w, r, e);
    JobKeepsId(w, j, e);
  }

  lemma {:induction false} StaysClosed(w: World, j: nat, e: Event)
    requires j < |w.handlers|
    ensures j < |Step(w, e).handlers|
    ensures (w.handlers[j].Closed? ==> Step(w, e).handlers[j].Closed?) && (w.handlers[j].Stored? ==> Step(w, e).handlers[j].Stored?)
  {
  }

  lemma {:induction false} GivenUpNeverRelayed(w: World, r: nat, j: nat, trace: seq<Event>)
    requires Sound(w) && GaveUp(w, r, j)
    ensures GaveUp(Later(w, trace), r, j) && !Relayed(Later(w, trace), j)
  {
    LaterIsSound(w, trace);
    if trace != [] {
      GivenUpNeverRelayed(w, r, j, trace[..|trace| - 1]);
      StaysGivenUp(Later(w, trace[..|trace| - 1]), r, j, trace[|trace| - 1]);
    }
    NotRelayedByOthers(Later(w, trace), r, j);
  }

  lemma {:induction false} NotRelayedByOthers(w: World, r: nat, j: nat)
    requires Sound(w) && GaveUp(w, r, j)
    ensures !Relayed(w, j)
  {
    forall q | 0 <= q < |w.requests| ensures w.requests[q].phase != Relaying(j) {
      assert RequestOk(w, w.requests[q]);
    }
  }

  /** The handler's verdict on a socket is final: one it closed is never relayed,
      and one it stored it never closes. */
  lemma {:induction false} VerdictIsFinal(w: World, j: nat, trace: seq<Event>)
    requires Sound(w) && j < |w.handlers|
    ensures var v := Later(w, trace);
      && j < |v.handlers| && (w.handlers[j].Stored? ==> v.handlers[j].Stored?)
      && (w.handlers[j].Closed? ==> v.handlers[j].Closed? && !Relayed(v, j))
  {
    LaterIsSound(w, trace);
    var v := Later(w, trace);
    if trace != [] {
      VerdictIsFinal(w, j, trace[..|trace| - 1]);
      StaysClosed(Later(w, trace[..|trace| - 1]), j, trace[|trace| - 1]);
    }
    if w.handlers[j].Closed? {
      forall q | 0 <= q < |v.requests| ensures v.requests[q].phase != Relaying(j) {
        assert RequestOk(v, v.requests[q]);
      }
    }
  }

  lemma {:induction false} OneEvent(w: World, e: Event)
    ensures Later(w, [e]) == Step(w, e)
  {
    assert [e][..0] == [];
    assert Later(w, [e][..0]) == w;
  }

  lemma {:induction false} TwoEvents(w: World, e: Event, f: Event)
    ensures Later(w, [e, f]) == Step(Step(w, e), f)
  {
    OneEvent(w, e);
    assert [e, f][..1] == [e];
  }

  lemma {:induction false} DecidingRelays(v: World, j: nat, r: nat)
    requires InPhase(v, r, Deciding) && v.entries[v.requests[r].id.value].tunnel == Some(j)
    ensures Relayed(Step(v, Decides(r)), j)
  {
    assert Step(v, Decides(r)).requests[r].phase == Relaying(j);
  }

  lemma {:induction false} WaitingDecides(v: World, r: nat)
    requires InPhase(v, r, Waiting)
    ensures var u := Step(v, WaitEnds(r));
      InPhase(u, r, Deciding) && u.entries == v.entries && u.requests[r].id == v.requests[r].id
  {
  }

  lemma {:induction false} WaiterRelays(w: World, j: nat, r: nat)
    requires HandlerAt(w, j, Found) && r < |w.requests| && w.requests[r].id == Some(w.jobs[j].id) && w.jobs[j].id < |w.entries|
    requires w.requests[r].phase.Waiting? || w.requests[r].phase.Deciding?
    ensures exists trace :: Relayed(Later(Step(w, SocketStored(j)), trace), j)
  {
    var v := Step(w, SocketStored(j));
    if w.requests[r].phase.Deciding? {
      OneEvent(v, Decides(r));
      DecidingRelays(v, j, r);
      assert Relayed(Later(v, [Decides(r)]), j);
    } else {
      TwoEvents(v, WaitEnds(r), Decides(r));
      WaitingDecides(v, r);
      DecidingRelays(Step(v, WaitEnds(r)), j, r);
      assert Relayed(Later(v, [WaitEnds(r), Decides(r)]), j);
    }
  }

  /** A socket that was looked up in time is stored, and can still come to be
      relayed exactly when its request has not given up by then. */
  lemma {:induction false} StoredInTimeExactly(w: World, j: nat, r: nat)
    requires Sound(w) && HandlerAt(w, j, Found) && r < |w.requests| && w.requests[r].id == Some(w.jobs[j].id)
    ensures (exists trace :: Relayed(Later(Step(w, SocketStored(j)), trace), j)) <==> !w.requests[r].phase.Over?
  {
    assert RequestOk(w, w.requests[r]) && Ordered(w, w.jobs[j].id, w.jobs[j].target);
    if w.requests[r].phase.Over? {
      StepKeeps(w, SocketStored(j));
      StaysGivenUp(w, r, j, SocketStored(j));
      forall trace ensures !Relayed(Later(Step(w, SocketStored(j)), trace), j) {
        GivenUpNeverRelayed(Step(w, SocketStored(j)), r, j, trace);
      }
    } else {
      WaiterRelays(w, j, r);
    }
  }

  /** Stored for nobody: from here on no code relays or closes it. */
  ghost predicate Stranded(w: World, j: nat) {
    forall trace ::
      var v := Later(w, trace); j < |v.handlers| && v.handlers[j].Stored? && !Relayed(v, j)
  }

  lemma {:induction false} RunAppend(trace: seq<Event>, e: Event)
    ensures Run(trace + [e]) == Step(Run(trace), e)
  {
    assert (trace + [e])[..|trace|] == trace;
  }

  /** One more event, from a state already known. */
  lemma {:induction false} RunTo(trace: seq<Event>, e: Event, w: World, v: World)
    requires Run(trace) == w && Step(w, e) == v
    ensures Run(trace + [e]) == v
  {
    RunAppend(trace, e);
  }

  const EMPTY_ENTRY := Entry(0, None, false, false)

  /** One request asked for, its command taken up; and where its job, socket and
      record stand. */
  function Single(target: string, phase: Phase, statuses: seq<int>, entry: Entry, pending: set<nat>, stage: Stage, announced: bool, h: Handler): World {
    World(true, [Request(true, Some(0), target, statuses, phase)], [entry], pending, [], MAX_TUNNELS - 1, [Job(0, target, stage, announced)], [h], [])
  }

  function Asking(target: string): seq<Event> { [DeviceJoins] + [Asks(true, target)] + [Sends(0)] + [CommandRead(true)] }

  function Announcing(target: string): seq<Event> {
    Asking(target) + [TaskCreated(0, true)] + [TargetDialled(0, true)] + [DataDialled(0, true)] + [SocketLookedUp(0)]
  }

  /** Before there is a job. */
  function Alone(target: string, phase: Phase, wire: seq<Command>): World {
    World(true, [Request(true, Some(0), target, [], phase)], [EMPTY_ENTRY], {0}, wire, MAX_TUNNELS, [], [], [])
  }

  lemma {:induction false} FirstSteps(target: string)
    ensures Step(Step(Start(), DeviceJoins), Asks(true, target)) == Alone(target, Drawn, [])
    ensures Step(Alone(target, Drawn, []), Sends(0)) == Alone(target, Waiting, [Command(0, target)])
    ensures Step(Alone(target, Waiting, [Command(0, target)]), CommandRead(true))
         == Single(target, Waiting, [], EMPTY_ENTRY, {0}, Granted, false, Unread)
  {
  }

  lemma {:induction false} AskingState(target: string)
    ensures Run(Asking(target)) == Single(target, Waiting, [], EMPTY_ENTRY, {0}, Granted, false, Unread)
  {
    FirstSteps(target);
    RunTo([], DeviceJoins, Start(), Step(Start(), DeviceJoins));
    assert [] + [DeviceJoins] == [DeviceJoins];
    RunTo([DeviceJoins], Asks(true, target), Step(Start(), DeviceJoins), Alone(target, Drawn, []));
    var t := [DeviceJoins] + [Asks(true, target)];
    RunTo(t, Sends(0), Alone(target, Drawn, []), Alone(target, Waiting, [Command(0, target)]));
    RunTo(t + [Sends(0)], CommandRead(true), Alone(target, Waiting, [Command(0, target)]),
          Single(target, Waiting, [], EMPTY_ENTRY, {0}, Granted, false, Unread));
  }

  /** The job of the waiting request, and its socket. */
  function AtWork(target: string, stage: Stage, announced: bool, h: Handler): World {
    Single(target, Waiting, [], EMPTY_ENTRY, {0}, stage, announced, h)
  }

  lemma {:induction false} JobSteps(target: string)
    ensures Step(AtWork(target, Granted, false, Unread), TaskCreated(0, true)) == AtWork(target, Dialling, false, Unread)
    ensures Step(AtWork(target, Dialling, false, Unread), TargetDialled(0, true)) == AtWork(target, Joining, false, Unread)
    ensures Step(AtWork(target, Joining, false, Unread), DataDialled(0, true)) == AtWork(target, Announced, true, Unread)
    ensures Step(AtWork(target, Announced, true, Unread), SocketLookedUp(0)) == AtWork(target, Announced, true, Found)
  {
  }

  lemma {:induction false} AnnouncingState(target: string)
    ensures Run(Announcing(target)) == AtWork(target, Announced, true, Found)
  {
    AskingState(target);
    JobSteps(target);
    var t := Asking(target);
    RunTo(t, TaskCreated(0, true), AtWork(target, Granted, false, Unread), AtWork(target, Dialling, false, Unread));
    RunTo(t + [TaskCreated(0, true)], TargetDialled(0, true), AtWork(target, Dialling, false, Unread), AtWork(target, Joining, false, Unread));
    var u := t + [TaskCreated(0, true)] + [TargetDialled(0, true)];
    RunTo(u, DataDialled(0, true), AtWork(target, Joining, false, Unread), AtWork(target, Announced, true, Unread));
    RunTo(u + [DataDialled(0, true)], SocketLookedUp(0), AtWork(target, Announced, true, Unread), AtWork(target, Announced, true, Found));
  }

  /** The request gives up between the look-up and the store. */
  function Late(target: string): seq<Event> { Announcing(target) + [WaitEnds(0)] + [Decides(0)] + [SocketStored(0)] }

  lemma {:induction false} LatePop(target: string)
    ensures Step(Single(target, Waiting, [], EMPTY_ENTRY, {0}, Announced, true, Found), WaitEnds(0))
         == Single(target, Deciding, [], EMPTY_ENTRY, {}, Announced, true, Found)
  {
    var v := Step(Single(target, Waiting, [], EMPTY_ENTRY, {0}, Announced, true, Found), WaitEnds(0));
    assert v.pending == {};
    assert v.requests == [Request(true, Some(0), target, [], Deciding)];
  }

  lemma {:induction false} LateAnswer(target: string)
    ensures Step(Single(target, Deciding, [], EMPTY_ENTRY, {}, Announced, true, Found), Decides(0))
         == Single(target, Over, [502], EMPTY_ENTRY, {}, Announced, true, Found)
  {
    var v := Step(Single(target, Deciding, [], EMPTY_ENTRY, {}, Announced, true, Found), Decides(0));
    assert [] + [502] == [502];
    assert v.requests[0] == Request(true, Some(0), target, [502], Over);
  }

  lemma {:induction false} LateStore(target: string)
    ensures Step(Single(target, Over, [502], EMPTY_ENTRY, {}, Announced, true, Found), SocketStored(0))
         == Single(target, Over, [502], Entry(0, Some(0), false, true), {}, Announced, true, Stored)
  {
    var v := Step(Single(target, Over, [502], EMPTY_ENTRY, {}, Announced, true, Found), SocketStored(0));
    assert v.entries == [Entry(0, Some(0), false, true)] && v.handlers == [Stored];
  }

  lemma {:induction false} LateState(target: string)
    ensures Run(Late(target)) == Single(target, Over, [502], Entry(0, Some(0), false, true), {}, Announced, true, Stored)
  {
    AnnouncingState(target);
    LatePop(target);
    LateAnswer(target);
    LateStore(target);
    var t := Announcing(target);
    var popped := Single(target, Deciding, [], EMPTY_ENTRY, {}, Announced, true, Found);
    var over := Single(target, Over, [502], EMPTY_ENTRY, {}, Announced, true, Found);
    RunTo(t, WaitEnds(0), AtWork(target, Announced, true, Found), popped);
    RunTo(t + [WaitEnds(0)], Decides(0), popped, over);
    RunTo(t + [WaitEnds(0)] + [Decides(0)], SocketStored(0), over, Single(target, Over, [502], Entry(0, Some(0), false, true), {}, Announced, true, Stored));
  }

  /** It does happen: nothing in the adapter relays or closes such a socket. */
  lemma {:induction false} LateSocketIsStranded(target: string)
    ensures Stranded(Run(Late(target)), 0)
  {
    LateState(target);
    EveryRunIsSound(Late(target));
    var v := Run(Late(target));
    forall trace ensures var u := Later(v, trace); 0 < |u.handlers| && u.handlers[0].Stored? && !Relayed(u, 0) {
      GivenUpNeverRelayed(v, 0, 0, trace);
      VerdictIsFinal(v, 0, trace);
    }
  }
}
