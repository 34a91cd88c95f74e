/** The P2P worker and the network driver together (src/p2p/worker.rs, src/p2p/driver.rs): commands are
    calls handled by the driver between two of its own iterations, events come back through a FIFO
    channel. The worker is its source cut at every await, so the driver may run between any two worker
    steps; store contents, provider lists, timers and the network are arbitrary. */
module P2pSystem {
  import opened Common
  import opened Proofs
  import opened Records
  import opened DriverModel
  import opened Retrieval
  import StoreOps

  datatype Config = Config(driver: DriverConfig, retrieval: RetrievalConfig)

  /** Where the worker is. `todo` is what reconcile_store has yet to ensure. */
  datatype Pc =
    | Idle
    | Ensuring(todo: seq<VerificationId>)
    | Driving(todo: seq<VerificationId>)                                 // loop head of drive_pending
    | Picking(id: VerificationId, todo: seq<VerificationId>)             // try_retrieve, asking for providers
    | Requesting(id: VerificationId, peer: PeerId, todo: seq<VerificationId>)
    | Replied(id: VerificationId, peer: PeerId, reply: Result<nat, RequestError>, todo: seq<VerificationId>)
    | Querying(id: VerificationId, todo: seq<VerificationId>)
    | QueryReplied(id: VerificationId, query: QueryId, sent: bool, todo: seq<VerificationId>)
    | Answering(token: nat, asked: VerificationId)                       // read ProofRequested, before respond_proof
    | Ended(why: Ending)

  /** Errors that end the worker. */
  datatype Ending = DuplicateRequest | AnswerRefused(error: RespondError) | Broken(cause: Breakage)

  /** What the swarm or the store does to it: a query that is not published, an announcement that is not
      published (of the content just stored, or of some content during a reconcile), a closed event channel. */
  datatype Breakage = QueryUnpublished | AnnouncementUnpublished(stored: Option<VerificationId>) | StoreClosed

  datatype P2p = P2p(driver: Driver, channel: seq<DriverEvent>, w: Worker, pc: Pc, now: nat, draining: bool)

  /** How the store took a downloaded proof. */
  datatype StoreReply = Stored | Refused | NotObserved

  datatype Step =
    | DriverRuns(input: Input)
    | Tick(time: nat)
    | TakeEvent(reply: StoreReply, waiting: seq<VerificationId>)
    | TakeStoreEvent(event: Event)
    | Reconcile(waiting: seq<VerificationId>)
    | EnsureNext(waits: bool)
    | DriveNext
    | Pick(choice: Option<PeerId>)
    | SendRequest
    | TakeReply
    | SendQuery(query: QueryId)
    | TakeQueryReply(delay: nat)
    | Fire(wake: Wake)
    | Answer(limits: StoreOps.Limits, st: StoreOps.Store, open: bool)    // the store as it is when read
    | Break(cause: Breakage)
    | StopWorker

  // ---------------------------------------------------------------- transitions

  function Resume(todo: seq<VerificationId>): Pc { if todo == [] then Idle else Ensuring(todo) }

  predicate IsCompletion(e: DriverEvent) { e.ProofReceived? || e.ProofNotFound? || e.ProofRequestFailed? }

  function DriverStep(cfg: Config, s: P2p, input: Input): P2p {
    var (d, events) := Handle(cfg.driver, s.driver, input);
    s.(driver := d, channel := s.channel + events)
  }

  function Finished(w: Worker, e: DriverEvent, reply: StoreReply, now: nat): Worker
    requires IsCompletion(e)
  {
    if e.ProofReceived? then
      match reply
      case Stored => FinishRequest(w, e.id, e.request, e.peer, true, now)
      case Refused => FinishRequest(w, e.id, e.request, e.peer, false, now)
      case NotObserved => StopRetrieval(FinishRequest(w, e.id, e.request, e.peer, true, now), e.id)
    else FinishRequest(w, e.id, e.request, e.peer, false, now)
  }

  function ReconcileTo(s: P2p, waiting: seq<VerificationId>): P2p {
    s.(w := StopAllBut(s.w, set id | id in waiting), pc := Resume(waiting))
  }

  function HandleEvent(s: P2p, e: DriverEvent, reply: StoreReply, waiting: seq<VerificationId>): P2p {
    if IsCompletion(e) then
      s.(w := Finished(s.w, e, reply, s.now), pc := if s.draining then Idle else Driving([]))
    else if e.ProofRequested? then s.(pc := Answering(e.token, e.id))
    else if s.draining then s
    else
      match e
      case AvailabilityAnnounced(peer, id) =>
        if id in s.w.retrievals && peer in s.w.retrievals[id].attempted then s else s.(pc := Ensuring([id]))
      case ProvidersDiscovered(query, id, _) =>
        if id in s.w.retrievals && s.w.retrievals[id].query == Some(query)
        then s.(w := Enqueue(ClearQuery(s.w, id), id), pc := Driving([])) else s
      case PeerConnected(_) => ReconcileTo(s, waiting)
      case _ => s
  }

  function HandleStoreEvent(s: P2p, e: Event): P2p {
    if s.draining then s
    else if e.VerificationObserved? then s.(pc := Ensuring([e.id]))
    else s.(w := StopRetrieval(s.w, e.id), pc := Driving([]))
  }

  function EnsureHead(s: P2p, waits: bool): P2p
    requires s.pc.Ensuring? && s.pc.todo != []
  {
    var id, rest := s.pc.todo[0], s.pc.todo[1..];
    if waits then s.(w := Enqueue(EnsureEntry(s.w, id), id), pc := Driving(rest))
    else s.(w := StopRetrieval(s.w, id), pc := Resume(rest))
  }

  function DriveHead(cfg: Config, s: P2p): P2p
    requires s.pc.Driving?
  {
    if s.w.active >= cfg.retrieval.maxActive || s.w.pending == [] then s.(pc := Resume(s.pc.todo))
    else
      var id := s.w.pending[0];
      var w := s.w.(pending := s.w.pending[1..]);
      if id !in w.retrievals then s.(w := w)
      else
        var r := w.retrievals[id];
        var w' := w.(retrievals := w.retrievals[id := r.(queued := false)]);
        if r.finished || r.active.Some? then s.(w := w') else s.(w := w', pc := Picking(id, s.pc.todo))
  }

  /** `choice` is the provider drawn from the known ones, minus the local peer and those attempted. */
  function PickProvider(cfg: Config, s: P2p, choice: Option<PeerId>): P2p
    requires s.pc.Picking? && s.pc.id in s.w.retrievals
  {
    var id, todo, r := s.pc.id, s.pc.todo, s.w.retrievals[s.pc.id];
    match choice
    case Some(peer) =>
      if Passed(r.transferDeadline, s.now) then s.(w := StopRetrieval(s.w, id), pc := Driving(todo))
      else if s.w.active >= cfg.retrieval.maxActive then s.(w := Enqueue(s.w, id), pc := Driving(todo))
      else s.(pc := Requesting(id, peer, todo))
    case None =>
      if r.query.Some? then s.(pc := Driving(todo))
      else if Passed(ActiveDeadline(r), s.now) then s.(w := StopRetrieval(s.w, id), pc := Driving(todo))
      else s.(pc := Querying(id, todo))
  }

  /** The driver handles the command, then finishes its loop iteration. */
  function RequestFromDriver(s: P2p): P2p
    requires s.pc.Requesting?
  {
    var (d, reply) := RequestProof(s.driver, s.pc.peer, s.pc.id);
    s.(driver := FinishDrain(d), pc := Replied(s.pc.id, s.pc.peer, reply, s.pc.todo))
  }

  function HandleReply(cfg: Config, s: P2p): P2p
    requires s.pc.Replied?
  {
    var id, peer, todo := s.pc.id, s.pc.peer, s.pc.todo;
    match s.pc.reply
    case Ok(request) => s.(w := Accept(cfg.retrieval, s.w, id, request, peer, s.now), pc := Driving(todo))
    case Err(Unauthorized) => s.(w := MarkAttempted(s.w, id, peer), pc := Picking(id, todo))
    case Err(DrainingRefused) => s.(w := StopRetrieval(s.w, id), pc := Driving(todo))
    case Err(AlreadyInFlight) => s.(pc := Ended(DuplicateRequest))
  }

  function QueryDriver(s: P2p, query: QueryId): P2p
    requires s.pc.Querying?
  {
    var (d, sent) := QueryAvailability(s.driver, s.pc.id, query);
    s.(driver := FinishDrain(d), pc := QueryReplied(s.pc.id, query, sent, s.pc.todo))
  }

  function HandleQueryReply(cfg: Config, s: P2p, delay: nat): P2p
    requires s.pc.QueryReplied?
  {
    var id, todo := s.pc.id, s.pc.todo;
    if s.pc.sent then s.(w := OpenQuery(cfg.retrieval, s.w, id, s.pc.query, delay, s.now), pc := Driving(todo))
    else s.(w := StopRetrieval(s.w, id), pc := Driving(todo))
  }

  function FireWake(s: P2p, wake: Wake): P2p {
    var (w, drive) := WakeUp(s.w, wake, s.now);
    s.(w := w, pc := if drive then Driving([]) else s.pc)
  }

  function StoredProof(st: StoreOps.Store, id: VerificationId): Option<Proof> {
    if id in st.entries then st.entries[id].record.proof else None
  }

  /** What the store holds is sent back, found or not; a refusal by the driver ends the worker. */
  function AnswerRequest(cfg: Config, s: P2p, proof: Option<Proof>, open: bool): P2p
    requires s.pc.Answering?
  {
    var (d, error) := RespondProof(cfg.driver, s.driver, s.pc.token, proof, open);
    s.(driver := FinishDrain(d), pc := if error.None? then Idle else Ended(AnswerRefused(error.value)))
  }

  /** The worker forgets the retrieval of stored content before it announces it. */
  function BreakOff(s: P2p, cause: Breakage): P2p {
    var w := if cause.AnnouncementUnpublished? && cause.stored.Some? then StopRetrieval(s.w, cause.stored.value) else s.w;
    s.(w := w, pc := Ended(Broken(cause)))
  }

  /** Inputs that do not come from this worker: everything but its own requests, queries and answers. The
      swarm is assumed to report an outbound failure with the peer the request went to. */
  ghost predicate Foreign(d: Driver, input: Input) {
    && !input.RequestCommand? && !input.QueryCommand? && !input.RespondCommand?
    && (input.FailureInput? && input.oid in d.outbound ==> input.peer == d.outbound[input.oid].peer)
  }

  ghost predicate Enabled(cfg: Config, s: P2p, step: Step) {
    match step
    case DriverRuns(input) => Foreign(s.driver, input)
    case Tick(t) => s.now <= t
    case TakeEvent(_, _) => s.pc.Idle? && s.channel != []
    case TakeStoreEvent(_) => s.pc.Idle?
    case Reconcile(_) => s.pc.Idle? && !s.draining
    case EnsureNext(_) => s.pc.Ensuring? && s.pc.todo != []
    case DriveNext => s.pc.Driving?
    case Pick(choice) =>
      && s.pc.Picking? && s.pc.id in s.w.retrievals
      && (choice.Some? ==> choice.value != cfg.driver.local && choice.value !in s.w.retrievals[s.pc.id].attempted)
    case SendRequest => s.pc.Requesting?
    case TakeReply => s.pc.Replied?
    case SendQuery(_) => s.pc.Querying?
    case TakeQueryReply(_) => s.pc.QueryReplied?
    case Fire(wake) => s.pc.Idle? && !s.draining && wake in s.w.wakes && wake.due <= s.now
    case Answer(limits, st, _) =>
      && s.pc.Answering? && StoreOps.StoreOk(limits, st)
      && limits.sha == cfg.driver.sha && limits.maxProofBytes == cfg.driver.maxProofBytes
    case Break(QueryUnpublished) => s.pc.Querying? && s.driver.phase.Running?
    case Break(AnnouncementUnpublished(_)) => s.pc.Idle? && !s.draining && s.driver.phase.Running?
    case Break(StoreClosed) => s.pc.Idle?
    case StopWorker => s.pc.Idle? && !s.draining
  }

  ghost function Next(cfg: Config, s: P2p, step: Step): P2p
    requires Enabled(cfg, s, step)
  {
    match step
    case DriverRuns(input) => DriverStep(cfg, s, input)
    case Tick(t) => s.(now := t)
    case TakeEvent(reply, waiting) => HandleEvent(s.(channel := s.channel[1..]), s.channel[0], reply, waiting)
    case TakeStoreEvent(e) => HandleStoreEvent(s, e)
    case Reconcile(waiting) => ReconcileTo(s, waiting)
    case EnsureNext(waits) => EnsureHead(s, waits)
    case DriveNext => DriveHead(cfg, s)
    case Pick(choice) => PickProvider(cfg, s, choice)
    case SendRequest => RequestFromDriver(s)
    case TakeReply => HandleReply(cfg, s)
    case SendQuery(query) => QueryDriver(s, query)
    case TakeQueryReply(delay) => HandleQueryReply(cfg, s, delay)
    case Fire(wake) => FireWake(s, wake)
    case Answer(_, st, open) => AnswerRequest(cfg, s, StoredProof(st, s.pc.asked), open)
    case Break(cause) => BreakOff(s, cause)
    case StopWorker => s.(w := s.w.(pending := [], wakes := multiset{}), draining := true)
  }

  function Initial(cfg: Config, validators: set<PeerId>): P2p {
    P2p(Fresh(cfg.driver, validators), [], Worker(map[], [], 0, multiset{}), Idle, 0, false)
  }

  // ---------------------------------------------------------------- the invariant

  function ActiveOf(w: Worker, id: VerificationId): Option<(nat, PeerId)> {
    if id in w.retrievals then w.retrievals[id].active else None
  }

  /** The request a retrieval answers for: the one recorded, or the one whose acceptance is on its way. */
  function Held(w: Worker, pc: Pc, id: VerificationId): Option<(nat, PeerId)> {
    if ActiveOf(w, id).Some? then ActiveOf(w, id)
    else if pc.Replied? && pc.id == id && pc.reply.Ok? then Some((pc.reply.value, pc.peer))
    else None
  }

  ghost predicate OnWire(outbound: map<nat, OutboundRequest>, id: VerificationId) {
    exists a :: a in outbound && outbound[a].id == id
  }

  ghost predicate InChannel(channel: seq<DriverEvent>, id: VerificationId) {
    exists k :: 0 <= k < |channel| && IsCompletion(channel[k]) && channel[k].id == id
  }

  /** No two requests on the wire and completions not yet taken are for one id. */
  ghost predicate Apart(outbound: map<nat, OutboundRequest>, channel: seq<DriverEvent>) {
    && (forall a, b :: a in outbound && b in outbound && outbound[a].id == outbound[b].id ==> a == b)
    && (forall i, j :: 0 <= i < j < |channel| && IsCompletion(channel[i]) && IsCompletion(channel[j]) ==>
          channel[i].id != channel[j].id)
    && (forall a, k :: a in outbound && 0 <= k < |channel| && IsCompletion(channel[k]) ==>
          outbound[a].id != channel[k].id)
  }

  /** Slots correspond one to one with requests on the wire and completions not yet taken. */
  ghost predicate SlotsMatch(outbound: map<nat, OutboundRequest>, channel: seq<DriverEvent>, w: Worker, pc: Pc) {
    && (forall a :: a in outbound ==> Held(w, pc, outbound[a].id) == Some((outbound[a].appId, outbound[a].peer)))
    && (forall k :: 0 <= k < |channel| && IsCompletion(channel[k]) ==>
          Held(w, pc, channel[k].id) == Some((channel[k].request, channel[k].peer)))
    && Apart(outbound, channel)
    && (forall id :: Held(w, pc, id).Some? ==> OnWire(outbound, id) || InChannel(channel, id))
  }

  /** The retrieval the worker is in the middle of. */
  predicate InHand(pc: Pc, id: VerificationId) {
    (pc.Picking? || pc.Requesting? || pc.Replied? || pc.Querying? || pc.QueryReplied?) && pc.id == id
  }

  predicate HasHand(pc: Pc) { pc.Picking? || pc.Requesting? || pc.Replied? || pc.Querying? || pc.QueryReplied? }

  ghost predicate HandOk(cfg: Config, w: Worker, pc: Pc) {
    && (HasHand(pc) ==>
        && pc.id in w.retrievals && w.active < cfg.retrieval.maxActive
        && w.retrievals[pc.id].active.None? && !w.retrievals[pc.id].finished && !w.retrievals[pc.id].queued)
    && (pc.Requesting? || pc.Replied? ==> pc.peer !in w.retrievals[pc.id].attempted && pc.peer != cfg.driver.local)
    && (pc.Querying? || pc.QueryReplied? ==> w.retrievals[pc.id].query.None?)
    && (pc.Replied? ==> pc.reply != Err(AlreadyInFlight))
    && (pc.Ended? ==> pc.why == AnswerRefused(ChannelClosed) || pc.why.Broken?)
  }

  /** Why a retrieval need not be looked at now. */
  ghost predicate Parked(pc: Pc, id: VerificationId, r: Retrieval) {
    pc.Ended? || InHand(pc, id) || r.active.Some? || r.queued || r.query.Some?
  }

  ghost predicate NoneStalled(w: Worker, pc: Pc) {
    forall id :: id in w.retrievals ==> Parked(pc, id, w.retrievals[id])
  }

  ghost predicate NothingQueued(w: Worker) { forall id :: id in w.retrievals ==> !w.retrievals[id].queued }

  /** Waiting points are reached only with every slot taken or nothing queued. */
  ghost predicate Saturated(cfg: Config, w: Worker, pc: Pc) {
    pc.Idle? || pc.Ensuring? || pc.Answering? ==>
      w.active == cfg.retrieval.maxActive || NothingQueued(w)
  }

  /** Unanswered inbound requests correspond one to one with the ones the worker has yet to read or has in
      hand, and the worker was told the right id. */
  ghost predicate TokensMatch(inbound: map<nat, InboundRequest>, channel: seq<DriverEvent>, pc: Pc) {
    && (forall k :: 0 <= k < |channel| && channel[k].ProofRequested? ==>
          channel[k].token in inbound && inbound[channel[k].token].id == channel[k].id)
    && (forall i, j :: 0 <= i < j < |channel| && channel[i].ProofRequested? && channel[j].ProofRequested? ==>
          channel[i].token != channel[j].token)
    && (pc.Answering? ==> pc.token in inbound && inbound[pc.token].id == pc.asked && !AskedIn(channel, pc.token))
    && (forall t :: t in inbound ==> AskedIn(channel, t) || (pc.Answering? && pc.token == t))
  }

  ghost predicate AskedIn(channel: seq<DriverEvent>, token: nat) {
    exists k :: 0 <= k < |channel| && channel[k].ProofRequested? && channel[k].token == token
  }

  predicate Drainable(pc: Pc) { pc.Idle? || pc.Answering? || pc.Ended? }

  ghost predicate Inv(cfg: Config, s: P2p) {
    && DriverOk(cfg.driver, s.driver)
    && TokensMatch(s.driver.inbound, s.channel, s.pc)
    && AllOk(s.w.retrievals)
    && SlotsOk(cfg.retrieval, s.w)
    && SlotsMatch(s.driver.outbound, s.channel, s.w, s.pc)
    && HandOk(cfg, s.w, s.pc)
    && (s.draining ==> Drainable(s.pc))
    && (!s.draining ==> AllScheduled(s.w) && NoneStalled(s.w, s.pc) && Saturated(cfg, s.w, s.pc))
  }
}

/** Every step of the worker and of the driver keeps the invariant of P2pSystem. */
module P2pInvariant {
  import opened Common
  import opened Proofs
  import opened Records
  import opened DriverModel
  import opened Retrieval
  import opened P2pSystem

  lemma InitialInv(cfg: Config, validators: set<PeerId>)
    ensures Inv(cfg, Initial(cfg, validators))
  {
    FreshOk(cfg.driver, validators);
    var w := Worker(map[], [], 0, multiset{});
    assert ActiveIds(w.retrievals) == {};
  }

  // ---------------------------------------------------------------- slots and the wire

  lemma SameHeldKeepsMatch(
    outbound: map<nat, OutboundRequest>, channel: seq<DriverEvent>, w: Worker, pc: Pc, w': Worker, pc': Pc)
    requires SlotsMatch(outbound, channel, w, pc)
    requires forall id :: Held(w', pc', id) == Held(w, pc, id)
    ensures SlotsMatch(outbound, channel, w', pc')
  {
    forall id | Held(w', pc', id).Some? ensures OnWire(outbound, id) || InChannel(channel, id) {
      assert Held(w, pc, id).Some?;
    }
  }

  /** Events that complete nothing leave the correspondence alone. */
  lemma QuietEventsKeepMatch(
    outbound: map<nat, OutboundRequest>, channel: seq<DriverEvent>, events: seq<DriverEvent>, w: Worker, pc: Pc)
    requires SlotsMatch(outbound, channel, w, pc) && forall e :: e in events ==> !IsCompletion(e)
    ensures SlotsMatch(outbound, channel + events, w, pc)
  {
    var channel' := channel + events;
    forall k | |channel| <= k < |channel'| ensures !IsCompletion(channel'[k]) {
      assert channel'[k] == events[k - |channel|];
    }
    forall id | InChannel(channel, id) ensures InChannel(channel', id) {
      var k :| 0 <= k < |channel| && IsCompletion(channel[k]) && channel[k].id == id;
      assert channel'[k] == channel[k];
    }
  }

  lemma CompletionKeepsApart(outbound: map<nat, OutboundRequest>, channel: seq<DriverEvent>, a: nat, e: DriverEvent)
    requires Apart(outbound, channel) && a in outbound && IsCompletion(e) && e.id == outbound[a].id
    ensures Apart(outbound - {a}, channel + [e])
  {
    var channel' := channel + [e];
    assert channel'[|channel|] == e;
    forall k | 0 <= k < |channel| ensures channel'[k] == channel[k] {}
  }

  /** A request that ends moves from the wire to the back of the channel. */
  lemma CompletionKeepsMatch(
    outbound: map<nat, OutboundRequest>, channel: seq<DriverEvent>, a: nat, e: DriverEvent, w: Worker, pc: Pc)
    requires SlotsMatch(outbound, channel, w, pc) && a in outbound
    requires IsCompletion(e) && e.request == outbound[a].appId && e.peer == outbound[a].peer && e.id == outbound[a].id
    ensures SlotsMatch(outbound - {a}, channel + [e], w, pc)
  {
    var outbound', channel' := outbound - {a}, channel + [e];
    CompletionKeepsApart(outbound, channel, a, e);
    forall k | 0 <= k < |channel'| && IsCompletion(channel'[k])
      ensures Held(w, pc, channel'[k].id) == Some((channel'[k].request, channel'[k].peer))
    {
      assert k < |channel| ==> channel'[k] == channel[k];
    }
    forall id | Held(w, pc, id).Some? ensures OnWire(outbound', id) || InChannel(channel', id) {
      CompletionMoves(outbound, channel, a, e, id);
    }
  }

  lemma CompletionMoves(outbound: map<nat, OutboundRequest>, channel: seq<DriverEvent>, a: nat, e: DriverEvent, id: VerificationId)
    requires a in outbound && IsCompletion(e) && e.id == outbound[a].id
    requires OnWire(outbound, id) || InChannel(channel, id)
    ensures OnWire(outbound - {a}, id) || InChannel(channel + [e], id)
  {
    var outbound', channel' := outbound - {a}, channel + [e];
    assert channel'[|channel|] == e;
    if InChannel(channel, id) {
      var k :| 0 <= k < |channel| && IsCompletion(channel[k]) && channel[k].id == id;
      assert channel'[k] == channel[k];
    } else {
      var b :| b in outbound && outbound[b].id == id;
      if b != a { assert b in outbound'; }
    }
  }

  /** Taking a completion releases exactly the slot it was owed. */
  lemma TakingKeepsMatch(
    outbound: map<nat, OutboundRequest>, channel: seq<DriverEvent>, w: Worker, pc: Pc, w': Worker, pc': Pc)
    requires SlotsMatch(outbound, channel, w, pc) && channel != [] && IsCompletion(channel[0])
    requires Held(w', pc', channel[0].id).None?
    requires forall id :: id != channel[0].id ==> Held(w', pc', id) == Held(w, pc, id)
    ensures SlotsMatch(outbound, channel[1..], w', pc')
  {
    var rest := channel[1..];
    forall k | 0 <= k < |rest| ensures rest[k] == channel[k + 1] {}
    forall k | 0 <= k < |rest| && IsCompletion(rest[k]) ensures rest[k].id != channel[0].id {}
    forall id | Held(w', pc', id).Some? ensures OnWire(outbound, id) || InChannel(rest, id) {
      assert Held(w, pc, id).Some? && id != channel[0].id;
      if InChannel(channel, id) {
        var k :| 0 <= k < |channel| && IsCompletion(channel[k]) && channel[k].id == id;
        assert rest[k - 1] == channel[k];
      }
    }
  }

  lemma DroppingKeepsMatch(outbound: map<nat, OutboundRequest>, channel: seq<DriverEvent>, w: Worker, pc: Pc)
    requires SlotsMatch(outbound, channel, w, pc) && channel != [] && !IsCompletion(channel[0])
    ensures SlotsMatch(outbound, channel[1..], w, pc)
  {
    var rest := channel[1..];
    forall k | 0 <= k < |rest| ensures rest[k] == channel[k + 1] {}
    forall id | InChannel(channel, id) ensures InChannel(rest, id) {
      var k :| 0 <= k < |channel| && IsCompletion(channel[k]) && channel[k].id == id;
      assert rest[k - 1] == channel[k];
    }
  }

  /** An accepted request goes on the wire while its acceptance travels back. */
  lemma RequestingKeepsMatch(
    outbound: map<nat, OutboundRequest>, channel: seq<DriverEvent>, a: nat, request: OutboundRequest, w: Worker, pc: Pc, pc': Pc)
    requires SlotsMatch(outbound, channel, w, pc) && a !in outbound
    requires Held(w, pc, request.id).None? && Held(w, pc', request.id) == Some((request.appId, request.peer))
    requires forall id :: id != request.id ==> Held(w, pc', id) == Held(w, pc, id)
    ensures SlotsMatch(outbound[a := request], channel, w, pc')
  {
    var outbound' := outbound[a := request];
    forall b | b in outbound ensures outbound[b].id != request.id {}
    forall id | Held(w, pc', id).Some? ensures OnWire(outbound', id) || InChannel(channel, id) {
      if id == request.id {
        assert a in outbound' && outbound'[a].id == id;
      } else if OnWire(outbound, id) {
        var b :| b in outbound && outbound[b].id == id;
        assert b in outbound' && outbound'[b].id == id;
      }
    }
  }

  // ---------------------------------------------------------------- driver iterations

  lemma HandleOutbound(cfg: DriverConfig, d: Driver, input: Input)
    ensures Handle(cfg, d, input).0.outbound == React(cfg, d, input).0.outbound
    ensures Handle(cfg, d, input).1 == React(cfg, d, input).1
  {
    FinishDrainLeavesOutbound(React(cfg, d, input).0);
  }

  lemma FinishDrainLeavesOutbound(d: Driver)
    ensures FinishDrain(d).outbound == d.outbound
  {
  }

  lemma QuietCommands(cfg: DriverConfig, d: Driver, input: Input)
    requires input.AnnounceCommand? || input.ForgetCommand? || input.ReplaceLocalCommand?
      || input.AuthorizeCommand? || input.DrainCommand? || input.DelayedSentInput? || input.QueryExpiredInput?
    ensures React(cfg, d, input).0.outbound == d.outbound && React(cfg, d, input).1 == []
  {
  }

  lemma QuietSwarmInputs(cfg: DriverConfig, d: Driver, input: Input)
    requires input.InboundInput? || input.GossipInput? || input.ConnectedInput? || input.ClosedInput?
    ensures React(cfg, d, input).0.outbound == d.outbound
    ensures forall e :: e in React(cfg, d, input).1 ==> !IsCompletion(e)
  {
    if input.GossipInput? { QuietGossip(d, input.source, input.via, input.message); }
  }

  lemma QuietGossip(d: Driver, source: PeerId, via: PeerId, g: Gossip)
    ensures HandleGossip(d, source, via, g).0.outbound == d.outbound
    ensures forall e :: e in HandleGossip(d, source, via, g).1 ==> !IsCompletion(e)
  {
  }

  lemma QuietInputs(cfg: DriverConfig, d: Driver, input: Input)
    requires Foreign(d, input) && !input.ResponseInput? && !input.FailureInput?
    ensures var (d', events) := Handle(cfg, d, input);
            d'.outbound == d.outbound && forall e :: e in events ==> !IsCompletion(e)
  {
    HandleOutbound(cfg, d, input);
    if input.InboundInput? || input.GossipInput? || input.ConnectedInput? || input.ClosedInput? {
      QuietSwarmInputs(cfg, d, input);
    } else {
      QuietCommands(cfg, d, input);
    }
  }

  /** The one event that ends a request carries the request's own id, peer and application id. */
  ghost predicate Ends(d: Driver, oid: nat, d': Driver, events: seq<DriverEvent>) {
    if oid !in d.outbound then d'.outbound == d.outbound && events == []
    else
      && d'.outbound == d.outbound - {oid} && |events| == 1 && IsCompletion(events[0])
      && events[0].request == d.outbound[oid].appId && events[0].peer == d.outbound[oid].peer
      && events[0].id == d.outbound[oid].id
  }

  lemma ResponseEnds(cfg: DriverConfig, d: Driver, oid: nat, peer: PeerId, sameChain: bool, result: WireResult)
    ensures var (d', events) := HandleResponse(cfg, d, oid, peer, sameChain, result); Ends(d, oid, d', events)
  {
  }

  lemma FailureEnds(d: Driver, oid: nat, peer: PeerId)
    requires oid in d.outbound ==> peer == d.outbound[oid].peer
    ensures var (d', events) := HandleFailure(d, oid, peer); Ends(d, oid, d', events)
  {
  }

  lemma EndingInputs(cfg: DriverConfig, d: Driver, input: Input)
    requires Foreign(d, input) && (input.ResponseInput? || input.FailureInput?)
    ensures var (d', events) := Handle(cfg, d, input); Ends(d, input.oid, d', events)
  {
    HandleOutbound(cfg, d, input);
    if input.ResponseInput? {
      ResponseEnds(cfg, d, input.oid, input.peer, input.sameChain, input.result);
    } else {
      FailureEnds(d, input.oid, input.peer);
    }
  }

  // ---------------------------------------------------------------- inbound requests

  /** One foreign input admits at most one inbound request, and tells of it in the same iteration. */
  ghost predicate Admits(d: Driver, d': Driver, events: seq<DriverEvent>) {
    || (d'.inbound == d.inbound && forall e :: e in events ==> !e.ProofRequested?)
    || (&& |events| == 1 && events[0].ProofRequested? && events[0].token !in d.inbound
        && d'.inbound == d.inbound[events[0].token := InboundRequest(events[0].peer, events[0].id)])
  }

  lemma InboundAdmits(cfg: DriverConfig, d: Driver, peer: PeerId, sameChain: bool, id: Option<VerificationId>, delivered: bool)
    requires DriverOk(cfg, d)
    ensures var (d', events) := HandleInbound(d, peer, sameChain, id, delivered); Admits(d, d', events)
  {
  }

  lemma EndingsAdmitNothing(cfg: DriverConfig, d: Driver, oid: nat, peer: PeerId, sameChain: bool, result: WireResult)
    ensures var (d', events) := HandleResponse(cfg, d, oid, peer, sameChain, result); Admits(d, d', events)
    ensures var (d', events) := HandleFailure(d, oid, peer); Admits(d, d', events)
  {
  }

  lemma OthersAdmitNothing(cfg: DriverConfig, d: Driver, input: Input)
    requires !input.InboundInput? && !input.ResponseInput? && !input.FailureInput? && !input.RespondCommand?
    ensures var (d', events) := React(cfg, d, input); Admits(d, d', events)
  {
  }

  lemma FinishDrainLeavesInbound(d: Driver)
    ensures FinishDrain(d).inbound == d.inbound
  {
  }

  lemma ForeignAdmits(cfg: DriverConfig, d: Driver, input: Input)
    requires DriverOk(cfg, d) && Foreign(d, input)
    ensures var (d', events) := Handle(cfg, d, input); Admits(d, d', events)
  {
    FinishDrainLeavesInbound(React(cfg, d, input).0);
    match input
    case InboundInput(peer, sameChain, asked, delivered) => InboundAdmits(cfg, d, peer, sameChain, asked, delivered);
    case ResponseInput(oid, peer, sameChain, result) => EndingsAdmitNothing(cfg, d, oid, peer, sameChain, result);
    case FailureInput(oid, peer) => EndingsAdmitNothing(cfg, d, oid, peer, true, NoResult);
    case _ => OthersAdmitNothing(cfg, d, input);
  }

  lemma AppendKeepsAsked(channel: seq<DriverEvent>, events: seq<DriverEvent>, t: nat)
    ensures AskedIn(channel, t) ==> AskedIn(channel + events, t)
    ensures AskedIn(channel + events, t) ==> AskedIn(channel, t) || exists e :: e in events && e.ProofRequested? && e.token == t
  {
    var more := channel + events;
    if AskedIn(channel, t) {
      var k :| 0 <= k < |channel| && channel[k].ProofRequested? && channel[k].token == t;
      assert more[k] == channel[k];
    }
    if AskedIn(more, t) {
      var k :| 0 <= k < |more| && more[k].ProofRequested? && more[k].token == t;
      if k < |channel| { assert channel[k] == more[k]; } else { assert more[k] in events; }
    }
  }

  lemma AdmittingKeepsTokens(d: Driver, d': Driver, channel: seq<DriverEvent>, events: seq<DriverEvent>, pc: Pc)
    requires TokensMatch(d.inbound, channel, pc) && Admits(d, d', events)
    ensures TokensMatch(d'.inbound, channel + events, pc)
  {
    var more := channel + events;
    forall t: nat ensures (AskedIn(channel, t) ==> AskedIn(more, t))
      && (AskedIn(more, t) ==> AskedIn(channel, t) || exists e :: e in events && e.ProofRequested? && e.token == t) {
      AppendKeepsAsked(channel, events, t);
    }
    forall k | 0 <= k < |channel| ensures more[k] == channel[k] {}
    if d'.inbound == d.inbound && forall e :: e in events ==> !e.ProofRequested? {
      forall k | |channel| <= k < |more| ensures !more[k].ProofRequested? { assert more[k] == events[k - |channel|]; }
    } else {
      assert more[|channel|] == events[0] && AskedIn(more, events[0].token);
      assert events == [events[0]];
    }
  }

  lemma SameTokens(inbound: map<nat, InboundRequest>, channel: seq<DriverEvent>, pc: Pc, pc': Pc)
    requires TokensMatch(inbound, channel, pc) && !pc.Answering? && !pc'.Answering?
    ensures TokensMatch(inbound, channel, pc')
  {
  }

  lemma TakingOthersKeepsTokens(inbound: map<nat, InboundRequest>, channel: seq<DriverEvent>, pc: Pc, pc': Pc)
    requires TokensMatch(inbound, channel, pc) && channel != [] && !channel[0].ProofRequested?
    requires !pc.Answering? && !pc'.Answering?
    ensures TokensMatch(inbound, channel[1..], pc')
  {
    var rest := channel[1..];
    forall k | 0 <= k < |rest| ensures rest[k] == channel[k + 1] {}
    forall t | t in inbound ensures AskedIn(rest, t) {
      var k :| 0 <= k < |channel| && channel[k].ProofRequested? && channel[k].token == t;
      assert rest[k - 1] == channel[k];
    }
  }

  /** Reading a request moves it from the channel into the worker's hand. */
  lemma ReadingKeepsTokens(inbound: map<nat, InboundRequest>, channel: seq<DriverEvent>, pc: Pc)
    requires TokensMatch(inbound, channel, pc) && channel != [] && channel[0].ProofRequested? && !pc.Answering?
    ensures TokensMatch(inbound, channel[1..], Answering(channel[0].token, channel[0].id))
  {
    var rest := channel[1..];
    forall k | 0 <= k < |rest| ensures rest[k] == channel[k + 1] {}
    forall t | t in inbound && t != channel[0].token ensures AskedIn(rest, t) {
      var k :| 0 <= k < |channel| && channel[k].ProofRequested? && channel[k].token == t;
      assert rest[k - 1] == channel[k];
    }
  }

  lemma AnsweringKeepsTokens(inbound: map<nat, InboundRequest>, channel: seq<DriverEvent>, pc: Pc, pc': Pc)
    requires TokensMatch(inbound, channel, pc) && pc.Answering? && !pc'.Answering?
    ensures TokensMatch(inbound - {pc.token}, channel, pc')
  {
    forall k | 0 <= k < |channel| && channel[k].ProofRequested? ensures channel[k].token != pc.token {}
  }

  /** For content read from a sound store under the same limits, the only refusal left is that the peer has
      gone: the token is known, the size fits and the identity matches. */
  lemma AnswerRefusedOnlyIfClosed(cfg: Config, s: P2p, limits: StoreOps.Limits, st: StoreOps.Store, open: bool)
    requires Inv(cfg, s) && Enabled(cfg, s, Answer(limits, st, open))
    ensures RespondProof(cfg.driver, s.driver, s.pc.token, StoredProof(st, s.pc.asked), open).1 ==
            if open then None else Some(ChannelClosed)
  {
    var id := s.pc.asked;
    if id in st.entries { assert StoreOps.EntryOk(limits, id, st.entries[id]); }
  }

  lemma RespondSpends(cfg: DriverConfig, d: Driver, token: nat, proof: Option<Proof>, open: bool)
    requires token in d.inbound
    ensures var d' := RespondProof(cfg, d, token, proof, open).0;
            d'.outbound == d.outbound && d'.inbound == d.inbound - {token}
  {
  }

  lemma RespondKeepsDriver(cfg: DriverConfig, d: Driver, token: nat, proof: Option<Proof>, open: bool)
    requires DriverOk(cfg, d)
    ensures var d' := RespondProof(cfg, d, token, proof, open).0; ReactOk(cfg, d, d')
  {
    RespondKeeps(cfg, d, token, proof, open);
  }

  lemma AnsweredDriver(cfg: Config, d: Driver, token: nat, proof: Option<Proof>, open: bool)
    requires DriverOk(cfg.driver, d) && token in d.inbound
    ensures var d' := FinishDrain(RespondProof(cfg.driver, d, token, proof, open).0);
            DriverOk(cfg.driver, d') && d'.outbound == d.outbound && d'.inbound == d.inbound - {token}
  {
    var d1 := RespondProof(cfg.driver, d, token, proof, open).0;
    RespondSpends(cfg.driver, d, token, proof, open);
    RespondKeepsDriver(cfg.driver, d, token, proof, open);
    FinishDrainKeeps(cfg.driver, d1);
    FinishDrainLeavesInbound(d1);
  }

  lemma AnsweredKeepsInv(cfg: Config, s: P2p, d: Driver, pc: Pc)
    requires Inv(cfg, s) && s.pc.Answering? && (pc.Idle? || pc == Ended(AnswerRefused(ChannelClosed)))
    requires DriverOk(cfg.driver, d) && d.outbound == s.driver.outbound && d.inbound == s.driver.inbound - {s.pc.token}
    ensures Inv(cfg, s.(driver := d, pc := pc))
  {
    AnsweringKeepsTokens(s.driver.inbound, s.channel, s.pc, pc);
    SameHeldKeepsMatch(s.driver.outbound, s.channel, s.w, s.pc, s.w, pc);
    if !s.draining { NoHandMoveKeepsNoneStalled(s.w, s.pc, pc); }
  }

  lemma AnswerKeepsInv(cfg: Config, s: P2p, limits: StoreOps.Limits, st: StoreOps.Store, open: bool)
    requires Inv(cfg, s) && Enabled(cfg, s, Answer(limits, st, open))
    ensures Inv(cfg, AnswerRequest(cfg, s, StoredProof(st, s.pc.asked), open))
  {
    var proof := StoredProof(st, s.pc.asked);
    var s' := AnswerRequest(cfg, s, proof, open);
    AnswerRefusedOnlyIfClosed(cfg, s, limits, st, open);
    AnsweredDriver(cfg, s.driver, s.pc.token, proof, open);
    AnsweredKeepsInv(cfg, s, s'.driver, s'.pc);
  }

  // ---------------------------------------------------------------- one iteration

  lemma DriverStepKeepsInv(cfg: Config, s: P2p, input: Input)
    requires Inv(cfg, s) && Foreign(s.driver, input)
    ensures Inv(cfg, DriverStep(cfg, s, input))
  {
    HandleKeeps(cfg.driver, s.driver, input);
    ForeignAdmits(cfg.driver, s.driver, input);
    var (d, events) := Handle(cfg.driver, s.driver, input);
    AdmittingKeepsTokens(s.driver, d, s.channel, events, s.pc);
    if input.ResponseInput? || input.FailureInput? {
      EndingInputs(cfg.driver, s.driver, input);
      if input.oid in s.driver.outbound {
        assert events == [events[0]];
        CompletionKeepsMatch(s.driver.outbound, s.channel, input.oid, events[0], s.w, s.pc);
      } else {
        assert s.channel + events == s.channel;
      }
    } else {
      QuietInputs(cfg.driver, s.driver, input);
      QuietEventsKeepMatch(s.driver.outbound, s.channel, events, s.w, s.pc);
    }
  }

  // ---------------------------------------------------------------- worker methods, one retrieval at a time

  ghost predicate SameSlots(w: Worker, w': Worker) {
    w'.active == w.active && forall x :: ActiveOf(w', x) == ActiveOf(w, x)
  }

  lemma SameSlotsKeepCount(cfg: RetrievalConfig, w: Worker, w': Worker)
    requires SlotsOk(cfg, w) && SameSlots(w, w')
    ensures SlotsOk(cfg, w')
  {
    forall x ensures x in ActiveIds(w'.retrievals) <==> x in ActiveIds(w.retrievals) {
      assert ActiveOf(w', x) == ActiveOf(w, x);
    }
    assert ActiveIds(w'.retrievals) == ActiveIds(w.retrievals);
  }

  /** Nothing but the entry of one id differs. */
  ghost predicate OnlyAt(w: Worker, w': Worker, id: VerificationId) {
    forall x :: x != id ==>
      && (x in w'.retrievals <==> x in w.retrievals)
      && (x in w.retrievals ==> w'.retrievals[x] == w.retrievals[x])
  }

  /** A method that works on one id keeps the rest if it keeps that id and only adds to the schedule. */
  lemma OneIdKeepsAll(w: Worker, w': Worker, id: VerificationId)
    requires OnlyAt(w, w', id) && AllOk(w.retrievals)
    requires id in w'.retrievals ==> RetrievalOk(w'.retrievals[id])
    ensures AllOk(w'.retrievals)
  {
  }

  lemma OneIdKeepsSchedule(w: Worker, w': Worker, id: VerificationId)
    requires OnlyAt(w, w', id) && AllScheduled(w) && w.wakes <= w'.wakes
    requires forall x :: x in w.pending ==> x in w'.pending
    requires id in w'.retrievals ==> ScheduledOk(w'.pending, w'.wakes, id, w'.retrievals[id])
    ensures AllScheduled(w')
  {
    forall x | x in w'.retrievals ensures ScheduledOk(w'.pending, w'.wakes, x, w'.retrievals[x]) {
      if x != id {
        var r := w.retrievals[x];
        assert ScheduledOk(w.pending, w.wakes, x, r);
        if r.query.Some? {
          var due: nat :| Wake(x, r.generation, due) in w.wakes;
          assert Wake(x, r.generation, due) in w'.wakes;
        }
      }
    }
  }

  lemma OneIdKeepsNoneStalled(w: Worker, pc: Pc, w': Worker, pc': Pc, id: VerificationId)
    requires OnlyAt(w, w', id) && NoneStalled(w, pc) && !pc.Ended?
    requires forall x :: x != id && InHand(pc, x) ==> InHand(pc', x)
    requires id in w'.retrievals ==> Parked(pc', id, w'.retrievals[id])
    ensures NoneStalled(w', pc')
  {
    forall x | x in w'.retrievals ensures Parked(pc', x, w'.retrievals[x]) {
      if x != id { assert Parked(pc, x, w.retrievals[x]); }
    }
  }

  /** What the quiet methods have in common. */
  ghost predicate Quiet(w: Worker, w': Worker, id: VerificationId) {
    && OnlyAt(w, w', id) && SameSlots(w, w') && AllOk(w'.retrievals)
    && (AllScheduled(w) ==> AllScheduled(w'))
  }

  lemma EnqueueQuiet(w: Worker, id: VerificationId)
    requires AllOk(w.retrievals)
    ensures Quiet(w, Enqueue(w, id), id)
    ensures id in w.retrievals ==> var r := Enqueue(w, id).retrievals[id]; r.active.Some? || r.queued
    ensures id in w.retrievals <==> id in Enqueue(w, id).retrievals
  {
    var w' := Enqueue(w, id);
    OneIdKeepsAll(w, w', id);
    if AllScheduled(w) {
      if id in w.retrievals { assert ScheduledOk(w.pending, w.wakes, id, w.retrievals[id]); }
      OneIdKeepsSchedule(w, w', id);
    }
  }

  lemma EnsureQuiet(w: Worker, id: VerificationId)
    requires AllOk(w.retrievals)
    ensures Quiet(w, EnsureEntry(w, id), id) && id in EnsureEntry(w, id).retrievals
  {
    var w' := EnsureEntry(w, id);
    OneIdKeepsAll(w, w', id);
    if AllScheduled(w) { OneIdKeepsSchedule(w, w', id); }
  }

  lemma StopQuiet(w: Worker, id: VerificationId)
    requires AllOk(w.retrievals)
    ensures Quiet(w, StopRetrieval(w, id), id)
    ensures var w' := StopRetrieval(w, id); id in w'.retrievals ==> w'.retrievals[id].active.Some? && !w'.retrievals[id].queued
  {
    var w' := StopRetrieval(w, id);
    OneIdKeepsAll(w, w', id);
    if AllScheduled(w) { OneIdKeepsSchedule(w, w', id); }
  }

  lemma ClearQueryQuiet(w: Worker, id: VerificationId)
    requires AllOk(w.retrievals)
    ensures Quiet(w, ClearQuery(w, id), id) && (id in w.retrievals <==> id in ClearQuery(w, id).retrievals)
  {
    var w' := ClearQuery(w, id);
    OneIdKeepsAll(w, w', id);
    if AllScheduled(w) {
      if id in w.retrievals { assert ScheduledOk(w.pending, w.wakes, id, w.retrievals[id]); }
      OneIdKeepsSchedule(w, w', id);
    }
  }

  lemma MarkAttemptedQuiet(w: Worker, id: VerificationId, peer: PeerId)
    requires AllOk(w.retrievals) && id in w.retrievals && w.retrievals[id].active.None?
    ensures Quiet(w, MarkAttempted(w, id, peer), id)
  {
    var w' := MarkAttempted(w, id, peer);
    OneIdKeepsAll(w, w', id);
    if AllScheduled(w) {
      var r, r' := w.retrievals[id], w'.retrievals[id];
      assert ScheduledOk(w.pending, w.wakes, id, r);
      if r'.query.Some? { assert HasWake(w'.wakes, id, r'); }
      OneIdKeepsSchedule(w, w', id);
    }
  }

  lemma OpenQueryQuiet(cfg: RetrievalConfig, w: Worker, id: VerificationId, query: QueryId, delay: nat, now: nat)
    requires AllOk(w.retrievals) && id in w.retrievals && !w.retrievals[id].finished && !w.retrievals[id].queued
    requires w.retrievals[id].active.None?
    ensures Quiet(w, OpenQuery(cfg, w, id, query, delay, now), id)
    ensures var w' := OpenQuery(cfg, w, id, query, delay, now);
            id in w'.retrievals && w'.retrievals[id].query.Some? && !w'.retrievals[id].queued
  {
    var w' := OpenQuery(cfg, w, id, query, delay, now);
    OneIdKeepsAll(w, w', id);
    var r := w.retrievals[id].(
      discoveryDeadline := OrElse(w.retrievals[id].discoveryDeadline, now + cfg.timeout), query := Some(query));
    var due := now + Min(delay, MaxDelay(cfg, r, now));
    var r' := w'.retrievals[id];
    assert Wake(id, r'.generation, due) in w'.wakes;
    if AllScheduled(w) { OneIdKeepsSchedule(w, w', id); }
  }

  // ---------------------------------------------------------------- releasing and taking slots

  lemma ReleaseCount(cfg: RetrievalConfig, w: Worker, w': Worker, id: VerificationId)
    requires SlotsOk(cfg, w) && ActiveOf(w, id).Some? && ActiveOf(w', id).None? && w'.active == w.active - 1
    requires forall x :: x != id ==> ActiveOf(w', x) == ActiveOf(w, x)
    ensures SlotsOk(cfg, w')
  {
    assert id in ActiveIds(w.retrievals);
    forall x ensures x in ActiveIds(w'.retrievals) <==> x in ActiveIds(w.retrievals) - {id} {
      if x != id { assert ActiveOf(w', x) == ActiveOf(w, x); }
    }
    assert ActiveIds(w'.retrievals) == ActiveIds(w.retrievals) - {id};
  }

  lemma OwnedSlotIsCounted(cfg: RetrievalConfig, w: Worker, id: VerificationId)
    requires SlotsOk(cfg, w) && ActiveOf(w, id).Some?
    ensures w.active > 0
  {
    assert id in ActiveIds(w.retrievals);
  }

  lemma TakeCount(cfg: RetrievalConfig, w: Worker, w': Worker, id: VerificationId)
    requires SlotsOk(cfg, w) && w.active < cfg.maxActive
    requires ActiveOf(w, id).None? && ActiveOf(w', id).Some? && w'.active == w.active + 1
    requires forall x :: x != id ==> ActiveOf(w', x) == ActiveOf(w, x)
    ensures SlotsOk(cfg, w')
  {
    forall x ensures x in ActiveIds(w'.retrievals) <==> x in ActiveIds(w.retrievals) + {id} {
      if x != id { assert ActiveOf(w', x) == ActiveOf(w, x); }
    }
    assert ActiveIds(w'.retrievals) == ActiveIds(w.retrievals) + {id};
  }

  /** Ending an owned request frees its slot and either drops the retrieval or queues it again with the
      peer ruled out. The underflow guard of the counter is never needed. */
  lemma FinishReleases(cfg: RetrievalConfig, w: Worker, id: VerificationId, request: nat, peer: PeerId, succeeded: bool, now: nat)
    requires AllOk(w.retrievals) && SlotsOk(cfg, w) && ActiveOf(w, id) == Some((request, peer))
    ensures var w' := FinishRequest(w, id, request, peer, succeeded, now);
            && w.active > 0 && w'.active == w.active - 1
            && OnlyAt(w, w', id) && ActiveOf(w', id).None? && AllOk(w'.retrievals) && SlotsOk(cfg, w')
            && (AllScheduled(w) ==> AllScheduled(w'))
            && (id in w'.retrievals ==> w'.retrievals[id].queued)
            && (succeeded ==> id !in w'.retrievals)
  {
    OwnedSlotIsCounted(cfg, w, id);
    var w' := FinishRequest(w, id, request, peer, succeeded, now);
    OneIdKeepsAll(w, w', id);
    ReleaseCount(cfg, w, w', id);
    if AllScheduled(w) {
      assert ScheduledOk(w.pending, w.wakes, id, w.retrievals[id]);
      if id in w'.retrievals && w'.retrievals[id].query.Some? {
        var r := w.retrievals[id];
        var due: nat :| Wake(id, r.generation, due) in w.wakes;
        assert Wake(id, w'.retrievals[id].generation, due) in w'.wakes;
      }
      OneIdKeepsSchedule(w, w', id);
    }
  }

  lemma AcceptTakes(cfg: RetrievalConfig, w: Worker, id: VerificationId, request: nat, peer: PeerId, now: nat)
    requires AllOk(w.retrievals) && SlotsOk(cfg, w) && w.active < cfg.maxActive
    requires id in w.retrievals && w.retrievals[id].active.None? && !w.retrievals[id].finished
    requires !w.retrievals[id].queued && peer !in w.retrievals[id].attempted
    ensures var w' := Accept(cfg, w, id, request, peer, now);
            && OnlyAt(w, w', id) && ActiveOf(w', id) == Some((request, peer)) && AllOk(w'.retrievals) && SlotsOk(cfg, w')
            && (AllScheduled(w) ==> AllScheduled(w'))
  {
    var w' := Accept(cfg, w, id, request, peer, now);
    var r, r' := w.retrievals[id], w'.retrievals[id];
    assert RetrievalOk(r);
    assert peer !in r.accepted;
    OneIdKeepsAll(w, w', id);
    TakeCount(cfg, w, w', id);
    if AllScheduled(w) { OneIdKeepsSchedule(w, w', id); }
  }

  // ---------------------------------------------------------------- assembling a step

  predicate Accepting(pc: Pc) { pc.Replied? && pc.reply.Ok? }

  lemma SameSlotsSameHeld(w: Worker, pc: Pc, w': Worker, pc': Pc)
    requires SameSlots(w, w') && !Accepting(pc) && !Accepting(pc')
    ensures forall id :: Held(w', pc', id) == Held(w, pc, id)
  {
    forall id ensures Held(w', pc', id) == Held(w, pc, id) {
      assert ActiveOf(w', id) == ActiveOf(w, id);
    }
  }

  /** A worker step that takes and releases no slot. */
  lemma QuietStepKeepsInv(cfg: Config, s: P2p, s': P2p)
    requires Inv(cfg, s) && s' == s.(w := s'.w, pc := s'.pc)
    requires SameSlots(s.w, s'.w) && AllOk(s'.w.retrievals)
    requires !Accepting(s.pc) && !Accepting(s'.pc) && HandOk(cfg, s'.w, s'.pc)
    requires !s.pc.Answering? && !s'.pc.Answering? && (s.draining ==> Drainable(s'.pc))
    requires !s.draining ==> AllScheduled(s'.w) && NoneStalled(s'.w, s'.pc) && Saturated(cfg, s'.w, s'.pc)
    ensures Inv(cfg, s')
  {
    SameTokens(s.driver.inbound, s.channel, s.pc, s'.pc);
    SameSlotsKeepCount(cfg.retrieval, s.w, s'.w);
    SameSlotsSameHeld(s.w, s.pc, s'.w, s'.pc);
    SameHeldKeepsMatch(s.driver.outbound, s.channel, s.w, s.pc, s'.w, s'.pc);
  }

  lemma NoHandIsOk(cfg: Config, w: Worker, pc: Pc)
    requires pc.Idle? || pc.Ensuring? || pc.Driving? || (pc.Ended? && pc.why.Broken?)
    ensures HandOk(cfg, w, pc) && !Accepting(pc) && forall id :: !InHand(pc, id)
  {
  }

  lemma QuietComposes(w: Worker, w1: Worker, w2: Worker, id: VerificationId)
    requires Quiet(w, w1, id) && Quiet(w1, w2, id)
    ensures Quiet(w, w2, id)
  {
    forall x ensures ActiveOf(w2, x) == ActiveOf(w, x) {
      assert ActiveOf(w1, x) == ActiveOf(w, x) && ActiveOf(w2, x) == ActiveOf(w1, x);
    }
  }

  lemma TickKeepsInv(cfg: Config, s: P2p, now: nat)
    requires Inv(cfg, s)
    ensures Inv(cfg, s.(now := now))
  {
  }

  /** Stopping one retrieval and going on, from a point where the worker holds at most that one. */
  lemma StopKeepsInv(cfg: Config, s: P2p, id: VerificationId, pc: Pc)
    requires Inv(cfg, s) && !s.draining && !Accepting(s.pc) && !s.pc.Answering? && !s.pc.Ended?
    requires forall x :: InHand(s.pc, x) ==> x == id
    requires pc.Driving? || ((pc.Idle? || pc.Ensuring?) && Saturated(cfg, s.w, Idle))
    ensures Inv(cfg, s.(w := StopRetrieval(s.w, id), pc := pc))
  {
    var w' := StopRetrieval(s.w, id);
    StopQuiet(s.w, id);
    NoHandIsOk(cfg, w', pc);
    OneIdKeepsNoneStalled(s.w, s.pc, w', pc, id);
    if NothingQueued(s.w) { StopKeepsNothingQueued(s.w, id); }
    QuietStepKeepsInv(cfg, s, s.(w := w', pc := pc));
  }

  lemma StopKeepsNothingQueued(w: Worker, id: VerificationId)
    requires NothingQueued(w)
    ensures NothingQueued(StopRetrieval(w, id))
  {
  }

  lemma EnsureKeepsInv(cfg: Config, s: P2p, waits: bool)
    requires Inv(cfg, s) && s.pc.Ensuring? && s.pc.todo != []
    ensures Inv(cfg, EnsureHead(s, waits))
  {
    var id, rest := s.pc.todo[0], s.pc.todo[1..];
    if waits {
      EnsureQuiet(s.w, id);
      var w1 := EnsureEntry(s.w, id);
      EnqueueQuiet(w1, id);
      var w2 := Enqueue(w1, id);
      QuietComposes(s.w, w1, w2, id);
      NoHandIsOk(cfg, w2, Driving(rest));
      OneIdKeepsNoneStalled(s.w, s.pc, w2, Driving(rest), id);
      QuietStepKeepsInv(cfg, s, s.(w := w2, pc := Driving(rest)));
    } else {
      StopKeepsInv(cfg, s, id, Resume(rest));
    }
  }

  lemma StoreEventKeepsInv(cfg: Config, s: P2p, e: Event)
    requires Inv(cfg, s) && s.pc.Idle?
    ensures Inv(cfg, HandleStoreEvent(s, e))
  {
    if !s.draining {
      if e.VerificationObserved? {
        NoHandIsOk(cfg, s.w, Ensuring([e.id]));
        NoHandMoveKeepsNoneStalled(s.w, s.pc, Ensuring([e.id]));
        QuietStepKeepsInv(cfg, s, s.(pc := Ensuring([e.id])));
      } else {
        StopKeepsInv(cfg, s, e.id, Driving([]));
      }
    }
  }

  lemma NoHandMoveKeepsNoneStalled(w: Worker, pc: Pc, pc': Pc)
    requires NoneStalled(w, pc) && !HasHand(pc) && !pc.Ended?
    ensures NoneStalled(w, pc')
  {
    forall x | x in w.retrievals ensures Parked(pc', x, w.retrievals[x]) { assert Parked(pc, x, w.retrievals[x]); }
  }

  // ---------------------------------------------------------------- driving the queue

  function Popped(w: Worker): Worker
    requires w.pending != []
  {
    var id := w.pending[0];
    var rest := w.(pending := w.pending[1..]);
    if id !in w.retrievals then rest
    else rest.(retrievals := w.retrievals[id := w.retrievals[id].(queued := false)])
  }

  lemma PoppedQuiet(w: Worker)
    requires AllOk(w.retrievals) && AllScheduled(w) && w.pending != []
    ensures Quiet(w, Popped(w), w.pending[0])
  {
    var id, w' := w.pending[0], Popped(w);
    OneIdKeepsAll(w, w', id);
    assert w.pending == [id] + w'.pending;
    forall x | x in w'.retrievals ensures ScheduledOk(w'.pending, w'.wakes, x, w'.retrievals[x]) {
      var r, r' := w.retrievals[x], w'.retrievals[x];
      assert ScheduledOk(w.pending, w.wakes, x, r);
      if r'.query.Some? {
        var due: nat :| Wake(x, r.generation, due) in w.wakes;
        assert Wake(x, r'.generation, due) in w'.wakes;
      }
    }
  }

  lemma EmptyQueueNothingQueued(w: Worker)
    requires AllScheduled(w) && w.pending == []
    ensures NothingQueued(w)
  {
    forall id | id in w.retrievals ensures !w.retrievals[id].queued {
      assert ScheduledOk(w.pending, w.wakes, id, w.retrievals[id]);
    }
  }

  lemma DriveKeepsInv(cfg: Config, s: P2p)
    requires Inv(cfg, s) && s.pc.Driving?
    ensures Inv(cfg, DriveHead(cfg, s))
  {
    var s' := DriveHead(cfg, s);
    if s.w.active >= cfg.retrieval.maxActive || s.w.pending == [] {
      if s.w.pending == [] { EmptyQueueNothingQueued(s.w); }
      NoHandIsOk(cfg, s.w, s'.pc);
      NoHandMoveKeepsNoneStalled(s.w, s.pc, s'.pc);
      QuietStepKeepsInv(cfg, s, s');
    } else {
      PoppedQuiet(s.w);
      assert s'.w == Popped(s.w);
      OneIdKeepsNoneStalled(s.w, s.pc, s'.w, s'.pc, s.w.pending[0]);
      QuietStepKeepsInv(cfg, s, s');
    }
  }

  lemma MoveHandKeepsInv(cfg: Config, s: P2p, pc: Pc)
    requires Inv(cfg, s) && HasHand(s.pc) && !Accepting(s.pc) && HasHand(pc) && pc.id == s.pc.id && !Accepting(pc)
    requires HandOk(cfg, s.w, pc)
    ensures Inv(cfg, s.(pc := pc))
  {
    forall x | x in s.w.retrievals ensures Parked(pc, x, s.w.retrievals[x]) {
      assert Parked(s.pc, x, s.w.retrievals[x]);
    }
    QuietStepKeepsInv(cfg, s, s.(pc := pc));
  }

  lemma PickKeepsInv(cfg: Config, s: P2p, choice: Option<PeerId>)
    requires Inv(cfg, s) && Enabled(cfg, s, Pick(choice))
    ensures Inv(cfg, PickProvider(cfg, s, choice))
  {
    var id, todo, r := s.pc.id, s.pc.todo, s.w.retrievals[s.pc.id];
    if choice.Some? {
      if Passed(r.transferDeadline, s.now) {
        StopKeepsInv(cfg, s, id, Driving(todo));
      } else {
        MoveHandKeepsInv(cfg, s, Requesting(id, choice.value, todo));
      }
    } else if r.query.Some? {
      forall x | x in s.w.retrievals ensures Parked(Driving(todo), x, s.w.retrievals[x]) {
        assert Parked(s.pc, x, s.w.retrievals[x]);
      }
      NoHandIsOk(cfg, s.w, Driving(todo));
      QuietStepKeepsInv(cfg, s, s.(pc := Driving(todo)));
    } else if Passed(ActiveDeadline(r), s.now) {
      StopKeepsInv(cfg, s, id, Driving(todo));
    } else {
      MoveHandKeepsInv(cfg, s, Querying(id, todo));
    }
  }

  // ---------------------------------------------------------------- talking to the driver

  /** No request is on the wire for a retrieval without one, so the driver never refuses a duplicate. */
  lemma NotInFlight(cfg: Config, s: P2p)
    requires Inv(cfg, s) && s.pc.Requesting?
    ensures (s.pc.peer, s.pc.id) !in s.driver.inFlight
  {
    assert Held(s.w, s.pc, s.pc.id).None?;
    forall a | a in s.driver.outbound ensures s.driver.outbound[a].id != s.pc.id {
      assert Held(s.w, s.pc, s.driver.outbound[a].id).Some?;
    }
  }

  lemma SendKeepsMatch(cfg: Config, s: P2p)
    requires Inv(cfg, s) && s.pc.Requesting?
    ensures var s' := RequestFromDriver(s); SlotsMatch(s'.driver.outbound, s'.channel, s'.w, s'.pc)
  {
    var id, peer := s.pc.id, s.pc.peer;
    var (d, reply) := RequestProof(s.driver, peer, id);
    var pc := Replied(id, peer, reply, s.pc.todo);
    assert FinishDrain(d).outbound == d.outbound;
    if reply.Ok? {
      var a := s.driver.nextOutbound;
      assert a !in s.driver.outbound;
      RequestingKeepsMatch(s.driver.outbound, s.channel, a, OutboundRequest(reply.value, peer, id), s.w, s.pc, pc);
    } else {
      SameHeldKeepsMatch(s.driver.outbound, s.channel, s.w, s.pc, s.w, pc);
    }
  }

  lemma SendRequestKeepsInv(cfg: Config, s: P2p)
    requires Inv(cfg, s) && s.pc.Requesting?
    ensures Inv(cfg, RequestFromDriver(s))
  {
    var s' := RequestFromDriver(s);
    NotInFlight(cfg, s);
    SendKeepsMatch(cfg, s);
    RequestInputKeeps(cfg.driver, s.driver, s.pc.peer, s.pc.id);
    FinishDrainKeeps(cfg.driver, RequestProof(s.driver, s.pc.peer, s.pc.id).0);
    FinishDrainLeavesInbound(RequestProof(s.driver, s.pc.peer, s.pc.id).0);
    SameTokens(s.driver.inbound, s.channel, s.pc, s'.pc);
    forall x | x in s.w.retrievals ensures Parked(s'.pc, x, s.w.retrievals[x]) {
      assert Parked(s.pc, x, s.w.retrievals[x]);
    }
  }

  lemma AcceptKeepsInv(cfg: Config, s: P2p)
    requires Inv(cfg, s) && Accepting(s.pc)
    ensures Inv(cfg, HandleReply(cfg, s))
  {
    var id, peer, todo, request := s.pc.id, s.pc.peer, s.pc.todo, s.pc.reply.value;
    var w' := Accept(cfg.retrieval, s.w, id, request, peer, s.now);
    AcceptTakes(cfg.retrieval, s.w, id, request, peer, s.now);
    SameTokens(s.driver.inbound, s.channel, s.pc, Driving(todo));
    forall x ensures Held(w', Driving(todo), x) == Held(s.w, s.pc, x) {}
    SameHeldKeepsMatch(s.driver.outbound, s.channel, s.w, s.pc, w', Driving(todo));
    OneIdKeepsNoneStalled(s.w, s.pc, w', Driving(todo), id);
  }

  lemma UnauthorizedKeepsInv(cfg: Config, s: P2p)
    requires Inv(cfg, s) && s.pc.Replied? && s.pc.reply == Err(Unauthorized)
    ensures Inv(cfg, HandleReply(cfg, s))
  {
    var id, pc := s.pc.id, Picking(s.pc.id, s.pc.todo);
    var w' := MarkAttempted(s.w, id, s.pc.peer);
    MarkAttemptedQuiet(s.w, id, s.pc.peer);
    OneIdKeepsNoneStalled(s.w, s.pc, w', pc, id);
    QuietStepKeepsInv(cfg, s, s.(w := w', pc := pc));
  }

  lemma RefusedKeepsInv(cfg: Config, s: P2p)
    requires Inv(cfg, s) && s.pc.Replied? && s.pc.reply == Err(DrainingRefused)
    ensures Inv(cfg, HandleReply(cfg, s))
  {
    StopKeepsInv(cfg, s, s.pc.id, Driving(s.pc.todo));
  }

  lemma ReplyKeepsInv(cfg: Config, s: P2p)
    requires Inv(cfg, s) && s.pc.Replied?
    ensures Inv(cfg, HandleReply(cfg, s))
  {
    if s.pc.reply.Ok? {
      AcceptKeepsInv(cfg, s);
    } else if s.pc.reply.error.Unauthorized? {
      UnauthorizedKeepsInv(cfg, s);
    } else {
      RefusedKeepsInv(cfg, s);
    }
  }

  lemma SendQueryKeepsInv(cfg: Config, s: P2p, query: QueryId)
    requires Inv(cfg, s) && s.pc.Querying?
    ensures Inv(cfg, QueryDriver(s, query))
  {
    var d := QueryAvailability(s.driver, s.pc.id, query).0;
    SmallChangeKeeps(cfg.driver, s.driver, d);
    FinishDrainKeeps(cfg.driver, d);
    FinishDrainLeavesInbound(d);
    var s1 := s.(driver := FinishDrain(d));
    assert Inv(cfg, s1);
    MoveHandKeepsInv(cfg, s1, QueryDriver(s, query).pc);
  }

  lemma QueryReplyKeepsInv(cfg: Config, s: P2p, delay: nat)
    requires Inv(cfg, s) && s.pc.QueryReplied?
    ensures Inv(cfg, HandleQueryReply(cfg, s, delay))
  {
    var id, todo := s.pc.id, s.pc.todo;
    if s.pc.sent {
      OpenQueryQuiet(cfg.retrieval, s.w, id, s.pc.query, delay, s.now);
      var w' := OpenQuery(cfg.retrieval, s.w, id, s.pc.query, delay, s.now);
      NoHandIsOk(cfg, w', Driving(todo));
      OneIdKeepsNoneStalled(s.w, s.pc, w', Driving(todo), id);
      QuietStepKeepsInv(cfg, s, s.(w := w', pc := Driving(todo)));
    } else {
      StopKeepsInv(cfg, s, id, Driving(todo));
    }
  }

  // ---------------------------------------------------------------- timers

  /** Taking a timer off touches no other open query: its wake differs in id or generation. */
  lemma FiringKeepsSchedule(w: Worker, wake: Wake, w': Worker)
    requires AllScheduled(w) && OnlyAt(w, w', wake.id) && w'.wakes == w.wakes - multiset{wake} && w'.pending == w.pending
    requires wake.id in w'.retrievals ==>
               && wake.id in w.retrievals && w'.retrievals[wake.id].queued == w.retrievals[wake.id].queued
               && (w'.retrievals[wake.id].query.Some? ==>
                     w'.retrievals[wake.id] == w.retrievals[wake.id] && w.retrievals[wake.id].generation != wake.generation)
    ensures AllScheduled(w')
  {
    forall x | x in w'.retrievals ensures ScheduledOk(w'.pending, w'.wakes, x, w'.retrievals[x]) {
      var r := w.retrievals[x];
      assert ScheduledOk(w.pending, w.wakes, x, r);
      if w'.retrievals[x].query.Some? {
        var due: nat :| Wake(x, r.generation, due) in w.wakes;
        assert Wake(x, r.generation, due) != wake;
        assert Wake(x, r.generation, due) in w'.wakes;
      }
    }
  }

  lemma StaleWakeKeepsInv(cfg: Config, s: P2p, wake: Wake)
    requires Inv(cfg, s) && s.pc.Idle? && !s.draining
    requires wake.id in s.w.retrievals ==>
               s.w.retrievals[wake.id].generation != wake.generation || s.w.retrievals[wake.id].finished
    ensures Inv(cfg, FireWake(s, wake))
  {
    var w' := s.w.(wakes := s.w.wakes - multiset{wake});
    FiringKeepsSchedule(s.w, wake, w');
    NoHandIsOk(cfg, w', Idle);
    QuietStepKeepsInv(cfg, s, s.(w := w'));
  }

  lemma LiveWakeKeepsInv(cfg: Config, s: P2p, wake: Wake)
    requires Inv(cfg, s) && s.pc.Idle? && !s.draining && wake.id in s.w.retrievals
    requires s.w.retrievals[wake.id].generation == wake.generation && !s.w.retrievals[wake.id].finished
    ensures Inv(cfg, FireWake(s, wake))
  {
    var id, r := wake.id, s.w.retrievals[wake.id];
    var w1 := s.w.(wakes := s.w.wakes - multiset{wake}, retrievals := s.w.retrievals[id := r.(query := None)]);
    var s' := FireWake(s, wake);
    LiveWakeQuiet(s.w, wake, w1);
    if Passed(ActiveDeadline(r), s.now) {
      StopQuiet(w1, id);
      if NothingQueued(s.w) { StopKeepsNothingQueued(w1, id); }
    } else {
      EnqueueQuiet(w1, id);
    }
    QuietComposes(s.w, w1, s'.w, id);
    NoHandIsOk(cfg, s'.w, s'.pc);
    OneIdKeepsNoneStalled(s.w, s.pc, s'.w, s'.pc, id);
    QuietStepKeepsInv(cfg, s, s');
  }

  lemma LiveWakeQuiet(w: Worker, wake: Wake, w': Worker)
    requires AllOk(w.retrievals) && AllScheduled(w) && wake.id in w.retrievals
    requires w' == w.(wakes := w.wakes - multiset{wake},
                      retrievals := w.retrievals[wake.id := w.retrievals[wake.id].(query := None)])
    ensures Quiet(w, w', wake.id)
  {
    FiringKeepsSchedule(w, wake, w');
    OneIdKeepsAll(w, w', wake.id);
  }

  // ---------------------------------------------------------------- reconciling and stopping

  lemma StopAllButQuiet(w: Worker, waiting: set<VerificationId>)
    requires AllOk(w.retrievals) && AllScheduled(w) && NoneStalled(w, Idle)
    ensures var w' := StopAllBut(w, waiting);
            && SameSlots(w, w') && AllOk(w'.retrievals) && AllScheduled(w') && NoneStalled(w', Idle)
            && (NothingQueued(w) ==> NothingQueued(w'))
  {
    var w' := StopAllBut(w, waiting);
    forall x | x in w'.retrievals
      ensures ScheduledOk(w'.pending, w'.wakes, x, w'.retrievals[x]) && RetrievalOk(w'.retrievals[x])
      ensures Parked(Idle, x, w'.retrievals[x])
    {
      assert ScheduledOk(w.pending, w.wakes, x, w.retrievals[x]) && RetrievalOk(w.retrievals[x]);
      assert Parked(Idle, x, w.retrievals[x]);
    }
  }

  lemma ReconcileKeepsInv(cfg: Config, s: P2p, waiting: seq<VerificationId>)
    requires Inv(cfg, s) && s.pc.Idle? && !s.draining
    ensures Inv(cfg, ReconcileTo(s, waiting))
  {
    var ids := set id | id in waiting;
    var w' := StopAllBut(s.w, ids);
    StopAllButQuiet(s.w, ids);
    NoHandIsOk(cfg, w', Resume(waiting));
    NoHandMoveKeepsNoneStalled(w', Idle, Resume(waiting));
    QuietStepKeepsInv(cfg, s, s.(w := w', pc := Resume(waiting)));
  }

  lemma StopWorkerKeepsInv(cfg: Config, s: P2p)
    requires Inv(cfg, s) && s.pc.Idle?
    ensures Inv(cfg, s.(w := s.w.(pending := [], wakes := multiset{}), draining := true))
  {
    var w' := s.w.(pending := [], wakes := multiset{});
    forall x ensures Held(w', s.pc, x) == Held(s.w, s.pc, x) {}
    SameHeldKeepsMatch(s.driver.outbound, s.channel, s.w, s.pc, w', s.pc);
  }

  // ---------------------------------------------------------------- driver events

  lemma CompletionTaken(cfg: Config, s: P2p, reply: StoreReply)
    requires Inv(cfg, s) && s.pc.Idle? && s.channel != [] && IsCompletion(s.channel[0])
    ensures var e, w' := s.channel[0], Finished(s.w, s.channel[0], reply, s.now);
            && OnlyAt(s.w, w', e.id) && ActiveOf(w', e.id).None? && w'.active == s.w.active - 1
            && AllOk(w'.retrievals) && SlotsOk(cfg.retrieval, w')
            && (AllScheduled(s.w) ==> AllScheduled(w'))
            && (e.id in w'.retrievals ==> w'.retrievals[e.id].queued)
  {
    var e := s.channel[0];
    assert Held(s.w, s.pc, e.id) == Some((e.request, e.peer));
    FinishReleases(cfg.retrieval, s.w, e.id, e.request, e.peer, e.ProofReceived? && !reply.Refused?, s.now);
  }

  lemma CompletionReleasesMatch(s: P2p, w': Worker, pc': Pc)
    requires SlotsMatch(s.driver.outbound, s.channel, s.w, s.pc) && s.pc.Idle? && !Accepting(pc')
    requires s.channel != [] && IsCompletion(s.channel[0])
    requires OnlyAt(s.w, w', s.channel[0].id) && ActiveOf(w', s.channel[0].id).None?
    ensures SlotsMatch(s.driver.outbound, s.channel[1..], w', pc')
  {
    forall x | x != s.channel[0].id ensures Held(w', pc', x) == Held(s.w, s.pc, x) {}
    TakingKeepsMatch(s.driver.outbound, s.channel, s.w, s.pc, w', pc');
  }

  lemma CompletionKeepsInv(cfg: Config, s: P2p, reply: StoreReply, waiting: seq<VerificationId>)
    requires Inv(cfg, s) && s.pc.Idle? && s.channel != [] && IsCompletion(s.channel[0])
    ensures Inv(cfg, HandleEvent(s.(channel := s.channel[1..]), s.channel[0], reply, waiting))
  {
    var e := s.channel[0];
    var s' := HandleEvent(s.(channel := s.channel[1..]), e, reply, waiting);
    CompletionTaken(cfg, s, reply);
    NoHandIsOk(cfg, s'.w, s'.pc);
    CompletionReleasesMatch(s, s'.w, s'.pc);
    TakingOthersKeepsTokens(s.driver.inbound, s.channel, s.pc, s'.pc);
    if !s.draining { OneIdKeepsNoneStalled(s.w, s.pc, s'.w, s'.pc, e.id); }
  }

  lemma OtherEventKeepsInv(cfg: Config, s: P2p, e: DriverEvent, reply: StoreReply, waiting: seq<VerificationId>)
    requires Inv(cfg, s) && s.pc.Idle? && !s.draining && !IsCompletion(e) && !e.ProofRequested?
    ensures Inv(cfg, HandleEvent(s, e, reply, waiting))
  {
    if e.AvailabilityAnnounced? {
      NoHandIsOk(cfg, s.w, Ensuring([e.id]));
      NoHandMoveKeepsNoneStalled(s.w, s.pc, Ensuring([e.id]));
      QuietStepKeepsInv(cfg, s, s.(pc := Ensuring([e.id])));
    } else if e.ProvidersDiscovered? {
      var w1 := ClearQuery(s.w, e.id);
      ClearQueryQuiet(s.w, e.id);
      EnqueueQuiet(w1, e.id);
      var w2 := Enqueue(w1, e.id);
      QuietComposes(s.w, w1, w2, e.id);
      NoHandIsOk(cfg, w2, Driving([]));
      OneIdKeepsNoneStalled(s.w, s.pc, w2, Driving([]), e.id);
      QuietStepKeepsInv(cfg, s, s.(w := w2, pc := Driving([])));
    } else if e.PeerConnected? {
      ReconcileKeepsInv(cfg, s, waiting);
    }
  }

  lemma RequestReadKeepsInv(cfg: Config, s: P2p)
    requires Inv(cfg, s) && s.pc.Idle? && s.channel != [] && s.channel[0].ProofRequested?
    ensures Inv(cfg, s.(channel := s.channel[1..], pc := Answering(s.channel[0].token, s.channel[0].id)))
  {
    var pc := Answering(s.channel[0].token, s.channel[0].id);
    DroppingKeepsMatch(s.driver.outbound, s.channel, s.w, s.pc);
    ReadingKeepsTokens(s.driver.inbound, s.channel, s.pc);
    SameHeldKeepsMatch(s.driver.outbound, s.channel[1..], s.w, s.pc, s.w, pc);
    if !s.draining { NoHandMoveKeepsNoneStalled(s.w, s.pc, pc); }
  }

  lemma TakeEventKeepsInv(cfg: Config, s: P2p, reply: StoreReply, waiting: seq<VerificationId>)
    requires Inv(cfg, s) && s.pc.Idle? && s.channel != []
    ensures Inv(cfg, HandleEvent(s.(channel := s.channel[1..]), s.channel[0], reply, waiting))
  {
    if IsCompletion(s.channel[0]) {
      CompletionKeepsInv(cfg, s, reply, waiting);
    } else if s.channel[0].ProofRequested? {
      RequestReadKeepsInv(cfg, s);
    } else {
      TakingOthersKeepsTokens(s.driver.inbound, s.channel, s.pc, s.pc);
      var s1 := s.(channel := s.channel[1..]);
      DroppingKeepsMatch(s.driver.outbound, s.channel, s.w, s.pc);
      assert Inv(cfg, s1);
      if !s.draining { OtherEventKeepsInv(cfg, s1, s.channel[0], reply, waiting); }
    }
  }

  lemma BreakKeepsInv(cfg: Config, s: P2p, cause: Breakage)
    requires Inv(cfg, s) && Enabled(cfg, s, Break(cause))
    ensures Inv(cfg, BreakOff(s, cause))
  {
    var s', end := BreakOff(s, cause), Ended(Broken(cause));
    NoHandIsOk(cfg, s'.w, end);
    if s'.w == s.w {
      QuietStepKeepsInv(cfg, s, s');
    } else {
      StopQuiet(s.w, cause.stored.value);
      QuietStepKeepsInv(cfg, s, s');
    }
  }

  lemma ExchangeStepKeepsInv(cfg: Config, s: P2p, step: Step)
    requires Inv(cfg, s) && Enabled(cfg, s, step)
    requires step.Pick? || step.SendRequest? || step.TakeReply? || step.SendQuery? || step.TakeQueryReply? || step.Answer?
    ensures Inv(cfg, Next(cfg, s, step))
  {
    match step
    case Pick(choice) => PickKeepsInv(cfg, s, choice);
    case SendRequest => SendRequestKeepsInv(cfg, s);
    case TakeReply => ReplyKeepsInv(cfg, s);
    case SendQuery(query) => SendQueryKeepsInv(cfg, s, query);
    case TakeQueryReply(delay) => QueryReplyKeepsInv(cfg, s, delay);
    case Answer(limits, st, open) => AnswerKeepsInv(cfg, s, limits, st, open);
  }

  lemma NextKeepsInv(cfg: Config, s: P2p, step: Step)
    requires Inv(cfg, s) && Enabled(cfg, s, step)
    ensures Inv(cfg, Next(cfg, s, step))
  {
    match step
    case DriverRuns(input) => DriverStepKeepsInv(cfg, s, input);
    case Tick(t) => TickKeepsInv(cfg, s, t);
    case TakeEvent(reply, waiting) => TakeEventKeepsInv(cfg, s, reply, waiting);
    case TakeStoreEvent(e) => StoreEventKeepsInv(cfg, s, e);
    case Reconcile(waiting) => ReconcileKeepsInv(cfg, s, waiting);
    case Pick(_) | SendRequest | TakeReply | SendQuery(_) | TakeQueryReply(_) | Answer(_, _, _) =>
      ExchangeStepKeepsInv(cfg, s, step);
    case _ => OwnStepKeepsInv(cfg, s, step);
  }

  lemma OwnStepKeepsInv(cfg: Config, s: P2p, step: Step)
    requires Inv(cfg, s) && Enabled(cfg, s, step)
    requires step.EnsureNext? || step.DriveNext? || step.Fire? || step.Break? || step.StopWorker?
    ensures Inv(cfg, Next(cfg, s, step))
  {
    match step
    case EnsureNext(waits) => EnsureKeepsInv(cfg, s, waits);
    case DriveNext => DriveKeepsInv(cfg, s);
    case Fire(wake) => FireKeepsInv(cfg, s, wake);
    case Break(cause) => BreakKeepsInv(cfg, s, cause);
    case StopWorker => StopWorkerKeepsInv(cfg, s);
  }

  lemma FireKeepsInv(cfg: Config, s: P2p, wake: Wake)
    requires Inv(cfg, s) && s.pc.Idle? && !s.draining
    ensures Inv(cfg, FireWake(s, wake))
  {
    if wake.id in s.w.retrievals && s.w.retrievals[wake.id].generation == wake.generation
       && !s.w.retrievals[wake.id].finished {
      LiveWakeKeepsInv(cfg, s, wake);
    } else {
      StaleWakeKeepsInv(cfg, s, wake);
    }
  }
}
