/** The network driver's request correlation, authorization and drain (src/p2p/driver.rs).

    Each function is one handler of the driver's select loop applied to the driver's fields; `Handle`
    adds the finish_drain call that follows every iteration. The swarm is the source of arbitrary
    inputs. Its outbound request ids are taken from a counter, as libp2p's are. */
module DriverModel {
  import opened Common
  import opened Proofs
  import opened Protobuf
  import opened Records
  import opened Availability

  datatype DriverConfig = DriverConfig(local: PeerId, sha: Sha256, maxProofBytes: nat)

  datatype QueryId = QueryId(bytes: Bytes)

  datatype OutboundRequest = OutboundRequest(appId: nat, peer: PeerId, id: VerificationId)

  datatype InboundRequest = InboundRequest(peer: PeerId, id: VerificationId)

  /** While draining the driver keeps the reply channel of the Drain call that started it. */
  datatype Phase = Running | Draining(starter: nat) | Drained

  /** The answer to the call-th Drain command; a refusal when not ok. */
  datatype DrainReply = DrainReply(call: nat, ok: bool)

  datatype DriverEvent =
    | PeerConnected(peer: PeerId)
    | PeerDisconnected(peer: PeerId)
    | AvailabilityAnnounced(peer: PeerId, id: VerificationId)
    | ProvidersDiscovered(query: QueryId, id: VerificationId, providers: set<PeerId>)
    | ProofRequested(token: nat, peer: PeerId, id: VerificationId)
    | ProofReceived(request: nat, peer: PeerId, id: VerificationId, proof: Proof)
    | ProofNotFound(request: nat, peer: PeerId, id: VerificationId)
    | ProofRequestFailed(request: nat, peer: PeerId, id: VerificationId)

  datatype Driver = Driver(
    authorized: set<PeerId>,
    allowed: set<PeerId>,          // the swarm's allow-list
    explicitPeers: set<PeerId>,    // gossipsub's explicit peers
    index: Index,
    queries: map<QueryId, VerificationId>,
    outbound: map<nat, OutboundRequest>,
    inFlight: set<(PeerId, VerificationId)>,
    inbound: map<nat, InboundRequest>,
    nextOutbound: nat,
    nextRequest: nat,
    nextInbound: nat,
    delayed: nat,
    phase: Phase,
    drainCalls: nat,               // Drain commands received
    drainReplies: seq<DrainReply>) // their answers, in the order sent

  function Fresh(cfg: DriverConfig, validators: set<PeerId>): Driver {
    var peers := validators - {cfg.local};
    Driver(peers, peers, peers, map[], map[], map[], {}, map[], 0, 1, 1, 0, Running, 0, [])
  }

  // ---------------------------------------------------------------- commands

  datatype RequestError = DrainingRefused | Unauthorized | AlreadyInFlight

  function RequestProof(d: Driver, peer: PeerId, id: VerificationId): (Driver, Result<nat, RequestError>) {
    if !d.phase.Running? then (d, Err(DrainingRefused))
    else if peer !in d.authorized then (d, Err(Unauthorized))
    else if (peer, id) in d.inFlight then (d, Err(AlreadyInFlight))
    else
      (d.(inFlight := d.inFlight + {(peer, id)},
          outbound := d.outbound[d.nextOutbound := OutboundRequest(d.nextRequest, peer, id)],
          nextOutbound := d.nextOutbound + 1,
          nextRequest := d.nextRequest + 1),
       Ok(d.nextRequest))
  }

  datatype RespondError = UnknownToken | TooLarge | WrongProof | ChannelClosed

  /** The token is consumed before the answer is checked. `open` is whether the peer still waits. */
  function RespondProof(cfg: DriverConfig, d: Driver, token: nat, proof: Option<Proof>, open: bool)
    : (Driver, Option<RespondError>)
  {
    if token !in d.inbound then (d, Some(UnknownToken))
    else
      var d' := d.(inbound := d.inbound - {token});
      if proof.Some? && EncodedLen(proof.value) > cfg.maxProofBytes then (d', Some(TooLarge))
      else if proof.Some? && IdOf(cfg.sha, proof.value) != d.inbound[token].id then (d', Some(WrongProof))
      else (d', if open then None else Some(ChannelClosed))
  }

  function Announce(cfg: DriverConfig, d: Driver, id: VerificationId): Driver {
    d.(index := Add(d.index, id, cfg.local))
  }

  function ForgetLocalProof(cfg: DriverConfig, d: Driver, id: VerificationId): Driver {
    d.(index := RemoveProvider(d.index, id, cfg.local))
  }

  function ReplaceLocalProofs(cfg: DriverConfig, d: Driver, ids: set<VerificationId>): Driver {
    d.(index := AddForAll(RemovePeer(d.index, cfg.local), cfg.local, ids))
  }

  /** Adds one peer under each id. */
  function AddForAll(ix: Index, peer: PeerId, ids: set<VerificationId>): (r: Index)
    ensures forall i, p :: Lists(r, i, p) <==> Lists(ix, i, p) || (p == peer && i in ids)
    ensures NoEmptyBuckets(ix) ==> NoEmptyBuckets(r)
  {
    map id | id in ix.Keys + ids :: ProvidersOf(ix, id) + if id in ids then {peer} else {}
  }

  function QueryAvailability(d: Driver, id: VerificationId, query: QueryId): (Driver, bool) {
    if d.phase.Running? then (d.(queries := d.queries[query := id]), true) else (d, false)
  }

  /** The incremental diff against the current set; a removed peer also leaves the index. */
  function ReplaceAuthorizedPeers(cfg: DriverConfig, d: Driver, validators: set<PeerId>): Driver {
    var peers := validators - {cfg.local};
    var removed, added := d.authorized - peers, peers - d.authorized;
    d.(allowed := d.allowed - removed + added,
       explicitPeers := d.explicitPeers - removed + added,
       index := RemovePeers(d.index, removed),
       authorized := peers)
  }

  function RemovePeers(ix: Index, peers: set<PeerId>): (r: Index)
    ensures forall i, p :: Lists(r, i, p) <==> Lists(ix, i, p) && p !in peers
    ensures NoEmptyBuckets(r)
  {
    assert forall i, p :: Lists(ix, i, p) && p !in peers ==> p in ix[i] - peers;
    map id | id in ix && ix[id] - peers != {} :: ix[id] - peers
  }

  /** The Drain command: the first one starts the drain and waits for its reply, one during the drain is
      refused, one after it succeeds at once. */
  function HandleDrain(d: Driver): Driver {
    var call, counted := d.drainCalls, d.(drainCalls := d.drainCalls + 1);
    match d.phase
    case Running => counted.(queries := map[], phase := Draining(call))
    case Draining(_) => counted.(drainReplies := d.drainReplies + [DrainReply(call, false)])
    case Drained => counted.(drainReplies := d.drainReplies + [DrainReply(call, true)])
  }

  function FinishDrain(d: Driver): Driver {
    if d.phase.Draining? && |d.inbound| == 0 && |d.outbound| == 0 && d.inFlight == {} && d.delayed == 0
    then d.(phase := Drained, drainReplies := d.drainReplies + [DrainReply(d.phase.starter, true)]) else d
  }

  // ---------------------------------------------------------------- swarm events

  datatype WireResult = FoundProof(wire: WireProof) | NotFound | NoResult

  /** prost's size of the received message: a zero type is left out. */
  function WireEncodedLen(w: WireProof): nat {
    (if w.proofType == 0 then 0 else 1 + VarintLen(w.proofType))
    + EncodedBytesLen(w.proof) + EncodedBytesLen(w.publicInputs) + EncodedBytesLen(w.verificationKey)
  }

  function ValidateResponse(cfg: DriverConfig, wire: WireProof, id: VerificationId): Option<Proof> {
    if WireEncodedLen(wire) > cfg.maxProofBytes then None
    else
      match FromWire(wire)
      case None => None
      case Some(p) => if IdOf(cfg.sha, p) == id then Some(p) else None
  }

  function CloseOutbound(d: Driver, oid: nat): Driver
    requires oid in d.outbound
  {
    d.(outbound := d.outbound - {oid}, inFlight := d.inFlight - {(d.outbound[oid].peer, d.outbound[oid].id)})
  }

  function FailRequest(d: Driver, request: OutboundRequest): (Driver, seq<DriverEvent>) {
    (d.(index := RemoveProvider(d.index, request.id, request.peer)),
     [ProofRequestFailed(request.appId, request.peer, request.id)])
  }

  function HandleResponse(cfg: DriverConfig, d: Driver, oid: nat, peer: PeerId, sameChain: bool, result: WireResult)
    : (Driver, seq<DriverEvent>)
  {
    if oid !in d.outbound then (d, [])
    else
      var request, d' := d.outbound[oid], CloseOutbound(d, oid);
      if peer != request.peer || !sameChain then FailRequest(d', request)
      else
        match result
        case FoundProof(wire) =>
          (match ValidateResponse(cfg, wire, request.id)
           case None => FailRequest(d', request)
           case Some(p) =>
             (d'.(index := Add(d'.index, request.id, peer)), [ProofReceived(request.appId, peer, request.id, p)]))
        case NotFound =>
          (d'.(index := RemoveProvider(d'.index, request.id, peer)), [ProofNotFound(request.appId, peer, request.id)])
        case NoResult => FailRequest(d', request)
  }

  /** The event names the peer the swarm reports, not the one the request remembers. */
  function HandleFailure(d: Driver, oid: nat, peer: PeerId): (Driver, seq<DriverEvent>) {
    if oid !in d.outbound then (d, [])
    else
      var request := d.outbound[oid];
      var (d', _) := FailRequest(CloseOutbound(d, oid), request);
      (d', [ProofRequestFailed(request.appId, peer, request.id)])
  }

  /** A request in the wrong phase, from an unauthorized peer, for another chain or with a malformed id
      is answered NotFound at once. `delivered` is whether the worker still takes events. */
  function HandleInbound(d: Driver, peer: PeerId, sameChain: bool, id: Option<VerificationId>, delivered: bool)
    : (Driver, seq<DriverEvent>)
  {
    if !d.phase.Running? || peer !in d.authorized || !sameChain || id.None? then (d, [])
    else if !delivered then (d.(nextInbound := d.nextInbound + 1), [])
    else
      (d.(inbound := d.inbound[d.nextInbound := InboundRequest(peer, id.value)], nextInbound := d.nextInbound + 1),
       [ProofRequested(d.nextInbound, peer, id.value)])
  }

  datatype Gossip =
    | Announcement(id: VerificationId)
    | Query(query: QueryId, id: VerificationId)
    | Response(query: QueryId, id: VerificationId, raw: seq<Option<PeerId>>)

  const MAX_PROVIDER_HINTS: nat := 128

  /** `source` signed the message, `via` forwarded it; both must be authorized, and a response must name
      few enough providers, all of them authorized. */
  function HandleGossip(d: Driver, source: PeerId, via: PeerId, g: Gossip): (Driver, seq<DriverEvent>) {
    if source !in d.authorized || via !in d.authorized || (g.Response? && !ProvidersOk(g.raw, d.authorized, MAX_PROVIDER_HINTS))
       || !d.phase.Running?
    then (d, [])
    else
      match g
      case Announcement(id) => (d.(index := Add(d.index, id, source)), [AvailabilityAnnounced(source, id)])
      case Query(_, id) => (if ProvidersOf(d.index, id) == {} then d else d.(delayed := d.delayed + 1), [])
      case Response(query, id, raw) =>
        (d.(index := AddAll(d.index, id, Named(raw))),
         if query in d.queries && d.queries[query] == id then [ProvidersDiscovered(query, id, Named(raw))] else [])
  }

  // ---------------------------------------------------------------- one loop iteration

  datatype Input =
    | AnnounceCommand(id: VerificationId)
    | ForgetCommand(id: VerificationId)
    | ReplaceLocalCommand(ids: set<VerificationId>)
    | QueryCommand(id: VerificationId, query: QueryId)
    | RequestCommand(peer: PeerId, id: VerificationId)
    | RespondCommand(token: nat, proof: Option<Proof>, open: bool)
    | AuthorizeCommand(validators: set<PeerId>)
    | DrainCommand
    | ResponseInput(oid: nat, peer: PeerId, sameChain: bool, result: WireResult)
    | FailureInput(oid: nat, peer: PeerId)
    | InboundInput(peer: PeerId, sameChain: bool, asked: Option<VerificationId>, delivered: bool)
    | GossipInput(source: PeerId, via: PeerId, message: Gossip)
    | ConnectedInput(peer: PeerId)
    | ClosedInput(peer: PeerId)
    | DelayedSentInput
    | QueryExpiredInput(query: QueryId)

  function React(cfg: DriverConfig, d: Driver, input: Input): (Driver, seq<DriverEvent>) {
    match input
    case AnnounceCommand(id) => (Announce(cfg, d, id), [])
    case ForgetCommand(id) => (ForgetLocalProof(cfg, d, id), [])
    case ReplaceLocalCommand(ids) => (ReplaceLocalProofs(cfg, d, ids), [])
    case QueryCommand(id, query) => (QueryAvailability(d, id, query).0, [])
    case RequestCommand(peer, id) => (RequestProof(d, peer, id).0, [])
    case RespondCommand(token, proof, open) => (RespondProof(cfg, d, token, proof, open).0, [])
    case AuthorizeCommand(validators) =>
      (if d.phase.Running? then ReplaceAuthorizedPeers(cfg, d, validators) else d, [])
    case DrainCommand => (HandleDrain(d), [])
    case ResponseInput(oid, peer, sameChain, result) => HandleResponse(cfg, d, oid, peer, sameChain, result)
    case FailureInput(oid, peer) => HandleFailure(d, oid, peer)
    case InboundInput(peer, sameChain, id, delivered) => HandleInbound(d, peer, sameChain, id, delivered)
    case GossipInput(source, via, message) => HandleGossip(d, source, via, message)
    case ConnectedInput(peer) => (d, if d.phase.Running? then [PeerConnected(peer)] else [])
    case ClosedInput(peer) =>
      (d.(index := RemovePeer(d.index, peer)), if d.phase.Running? then [PeerDisconnected(peer)] else [])
    case DelayedSentInput => (if d.delayed > 0 then d.(delayed := d.delayed - 1) else d, [])
    case QueryExpiredInput(query) => (d.(queries := d.queries - {query}), [])
  }

  function Handle(cfg: DriverConfig, d: Driver, input: Input): (Driver, seq<DriverEvent>) {
    var (d', events) := React(cfg, d, input);
    (FinishDrain(d'), events)
  }

  // ---------------------------------------------------------------- invariant

  /** (peer, id) of every request on the wire. */
  ghost function Pairs(outbound: map<nat, OutboundRequest>): set<(PeerId, VerificationId)> {
    set oid | oid in outbound :: (outbound[oid].peer, outbound[oid].id)
  }

  ghost predicate OutboundOk(
    outbound: map<nat, OutboundRequest>, inFlight: set<(PeerId, VerificationId)>, nextOutbound: nat, nextRequest: nat)
  {
    && inFlight == Pairs(outbound)
    && (forall a :: a in outbound ==> a < nextOutbound && outbound[a].appId < nextRequest)
    && (forall a, b :: a in outbound && b in outbound && a != b ==>
          && outbound[a].appId != outbound[b].appId
          && (outbound[a].peer, outbound[a].id) != (outbound[b].peer, outbound[b].id))
  }

  ghost predicate Correlated(d: Driver) { OutboundOk(d.outbound, d.inFlight, d.nextOutbound, d.nextRequest) }

  ghost predicate TokensOk(inbound: map<nat, InboundRequest>, nextInbound: nat) {
    forall t :: t in inbound ==> t < nextInbound
  }

  ghost predicate NoSelfRequests(local: PeerId, outbound: map<nat, OutboundRequest>) {
    forall a :: a in outbound ==> outbound[a].peer != local
  }

  ghost predicate DriverOk(cfg: DriverConfig, d: Driver) {
    && Correlated(d)
    && TokensOk(d.inbound, d.nextInbound)
    && cfg.local !in d.authorized
    && NoSelfRequests(cfg.local, d.outbound)
    && d.allowed == d.explicitPeers == d.authorized
    && NoEmptyBuckets(d.index)
    && (d.phase.Drained? ==> Unfinished(d) == 0)
    && DrainLogOk(d.phase, d.drainCalls, d.drainReplies)
  }

  ghost predicate Answered(replies: seq<DrainReply>, call: nat) {
    exists i :: 0 <= i < |replies| && replies[i].call == call
  }

  /** No Drain call is answered twice, and each is answered but the one the driver still drains for. The
      first call started the drain; until the driver is drained nobody was told so. */
  ghost predicate DrainLogOk(phase: Phase, calls: nat, replies: seq<DrainReply>) {
    && (forall i, j :: 0 <= i < j < |replies| ==> replies[i].call != replies[j].call)
    && (forall i :: 0 <= i < |replies| ==> replies[i].call < calls && (replies[i].ok ==> phase.Drained?))
    && (forall i :: 0 <= i < |replies| && replies[i].call == 0 ==> replies[i].ok)
    && (forall c: nat :: c < calls ==> (Answered(replies, c) <==> phase != Draining(c)))
    && (phase.Running? <==> calls == 0)
    && (phase.Draining? ==> phase.starter == 0)
  }

  /** Work the drain waits for. */
  function Unfinished(d: Driver): nat { |d.inbound| + |d.outbound| + d.delayed }

  function PhaseNumber(p: Phase): nat {
    match p
    case Running => 0
    case Draining(_) => 1
    case Drained => 2
  }

  // ---------------------------------------------------------------- every input keeps it

  /** What one handler may do while the driver drains: finish work, never take on more. */
  ghost predicate ReactOk(cfg: DriverConfig, d: Driver, d': Driver) {
    && DriverOk(cfg, d')
    && (d'.phase == d.phase || (d.phase.Running? && d'.phase.Draining?))
    && (!d.phase.Running? ==> Unfinished(d') <= Unfinished(d))
    && (forall t :: t in d'.inbound && t !in d.inbound ==> d.nextInbound <= t < d'.nextInbound)
    && d.nextInbound <= d'.nextInbound
  }

  lemma FreshOk(cfg: DriverConfig, validators: set<PeerId>)
    ensures DriverOk(cfg, Fresh(cfg, validators))
  {
    assert Pairs(map[]) == {};
  }

  lemma RequestKeeps(d: Driver, peer: PeerId, id: VerificationId)
    requires Correlated(d)
    ensures Correlated(RequestProof(d, peer, id).0)
  {
    var d' := RequestProof(d, peer, id).0;
    if d' != d {
      assert d'.outbound.Keys == d.outbound.Keys + {d.nextOutbound};
      forall pair ensures pair in Pairs(d'.outbound) <==> pair in Pairs(d.outbound) + {(peer, id)} {
        if pair in Pairs(d.outbound) {
          var a :| a in d.outbound && pair == (d.outbound[a].peer, d.outbound[a].id);
          assert a in d'.outbound && d'.outbound[a] == d.outbound[a];
        }
        if pair == (peer, id) { assert d.nextOutbound in d'.outbound; }
      }
      forall a | a in d.outbound ensures (d.outbound[a].peer, d.outbound[a].id) != (peer, id) {
        assert (d.outbound[a].peer, d.outbound[a].id) in Pairs(d.outbound);
      }
    }
  }

  lemma CloseKeeps(d: Driver, oid: nat)
    requires Correlated(d) && oid in d.outbound
    ensures Correlated(CloseOutbound(d, oid)) && |CloseOutbound(d, oid).outbound| == |d.outbound| - 1
  {
    var d' := CloseOutbound(d, oid);
    assert d'.outbound.Keys == d.outbound.Keys - {oid};
    forall pair ensures pair in Pairs(d'.outbound) <==> pair in d'.inFlight {
      if pair in d'.inFlight {
        var a :| a in d.outbound && pair == (d.outbound[a].peer, d.outbound[a].id);
        assert a in d'.outbound;
      }
    }
  }

  lemma IndexKeeps(cfg: DriverConfig, d: Driver, ix: Index)
    requires DriverOk(cfg, d) && NoEmptyBuckets(ix)
    ensures DriverOk(cfg, d.(index := ix)) && Unfinished(d.(index := ix)) == Unfinished(d)
  {
  }

  lemma ClosedKeeps(cfg: DriverConfig, d: Driver, oid: nat)
    requires DriverOk(cfg, d) && oid in d.outbound
    ensures ReactOk(cfg, d, CloseOutbound(d, oid)) && Unfinished(CloseOutbound(d, oid)) == Unfinished(d) - 1
  {
    CloseKeeps(d, oid);
  }

  /** Both ways an outbound request ends only close it and touch the index. */
  lemma ResponseShape(cfg: DriverConfig, d: Driver, oid: nat, peer: PeerId, sameChain: bool, result: WireResult)
    requires NoEmptyBuckets(d.index)
    ensures var d' := HandleResponse(cfg, d, oid, peer, sameChain, result).0;
            && d' == (if oid in d.outbound then CloseOutbound(d, oid).(index := d'.index) else d)
            && NoEmptyBuckets(d'.index)
  {
  }

  lemma ResponseKeeps(cfg: DriverConfig, d: Driver, oid: nat, peer: PeerId, sameChain: bool, result: WireResult)
    requires DriverOk(cfg, d)
    ensures var d' := HandleResponse(cfg, d, oid, peer, sameChain, result).0;
            && ReactOk(cfg, d, d') && Unfinished(d') == Unfinished(d) - (if oid in d.outbound then 1 else 0)
            && d' == (if oid in d.outbound then CloseOutbound(d, oid).(index := d'.index) else d)
  {
    ResponseShape(cfg, d, oid, peer, sameChain, result);
    if oid in d.outbound {
      ClosedKeeps(cfg, d, oid);
      IndexKeeps(cfg, CloseOutbound(d, oid), HandleResponse(cfg, d, oid, peer, sameChain, result).0.index);
    }
  }

  lemma FailureKeeps(cfg: DriverConfig, d: Driver, oid: nat, peer: PeerId)
    requires DriverOk(cfg, d)
    ensures var d' := HandleFailure(d, oid, peer).0;
            && ReactOk(cfg, d, d') && Unfinished(d') == Unfinished(d) - (if oid in d.outbound then 1 else 0)
            && d' == (if oid in d.outbound then CloseOutbound(d, oid).(index := d'.index) else d)
  {
    if oid in d.outbound {
      ClosedKeeps(cfg, d, oid);
      IndexKeeps(cfg, CloseOutbound(d, oid), HandleFailure(d, oid, peer).0.index);
    }
  }

  lemma RespondKeeps(cfg: DriverConfig, d: Driver, token: nat, proof: Option<Proof>, open: bool)
    requires DriverOk(cfg, d)
    ensures var d' := RespondProof(cfg, d, token, proof, open).0;
            && ReactOk(cfg, d, d') && Unfinished(d') == Unfinished(d) - (if token in d.inbound then 1 else 0)
            && token !in d'.inbound && d'.nextInbound == d.nextInbound
  {
    if token in d.inbound {
      var d' := d.(inbound := d.inbound - {token});
      assert d'.inbound.Keys == d.inbound.Keys - {token};
    }
  }

  lemma InboundKeeps(cfg: DriverConfig, d: Driver, peer: PeerId, sameChain: bool, id: Option<VerificationId>, delivered: bool)
    requires DriverOk(cfg, d)
    ensures var d' := HandleInbound(d, peer, sameChain, id, delivered).0;
            && ReactOk(cfg, d, d')
            && (!d.phase.Running? ==> d' == d)
            && (forall t :: t in d'.inbound && t !in d.inbound ==> t == d.nextInbound && d'.nextInbound == t + 1)
  {
  }

  lemma GossipKeeps(cfg: DriverConfig, d: Driver, source: PeerId, via: PeerId, g: Gossip)
    requires DriverOk(cfg, d)
    ensures var d' := HandleGossip(d, source, via, g).0; ReactOk(cfg, d, d') && (!d.phase.Running? ==> d' == d)
  {
  }

  lemma AuthorizeKeeps(cfg: DriverConfig, d: Driver, validators: set<PeerId>)
    requires DriverOk(cfg, d)
    ensures var d' := ReplaceAuthorizedPeers(cfg, d, validators);
            && DriverOk(cfg, d') && (d.phase.Running? ==> ReactOk(cfg, d, d'))
            && d'.authorized == d'.allowed == d'.explicitPeers == validators - {cfg.local}
  {
    var d' := ReplaceAuthorizedPeers(cfg, d, validators);
    var peers := validators - {cfg.local};
    assert d.authorized - (d.authorized - peers) + (peers - d.authorized) == peers;
  }

  lemma FinishDrainKeeps(cfg: DriverConfig, d: Driver)
    requires DriverOk(cfg, d)
    ensures var d' := FinishDrain(d);
            && DriverOk(cfg, d') && Unfinished(d') == Unfinished(d)
            && (d' != d <==> d.phase.Draining? && Unfinished(d) == 0)
            && (d' != d ==> d'.phase.Drained? && d'.drainReplies == d.drainReplies + [DrainReply(d.phase.starter, true)])
            && d' == d.(phase := d'.phase, drainReplies := d'.drainReplies)
  {
    if |d.outbound| == 0 {
      assert d.outbound == map[];
      assert Pairs(d.outbound) == {};
    }
    if d.phase.Draining? { ReplyKeepsLog(d.phase, d.drainCalls, d.drainReplies, d.phase.starter, true, Drained, d.drainCalls); }
  }

  /** One more answer, to the call the driver drains for or to a new one. */
  lemma ReplyKeepsLog(phase: Phase, calls: nat, replies: seq<DrainReply>, call: nat, ok: bool, phase': Phase, calls': nat)
    requires DrainLogOk(phase, calls, replies) && !phase.Running?
    requires (phase == Draining(call) && ok && phase'.Drained? && calls' == calls)
      || (call == calls && calls' == calls + 1 && phase' == phase && ok == phase.Drained?)
    ensures DrainLogOk(phase', calls', replies + [DrainReply(call, ok)])
  {
    var replies' := replies + [DrainReply(call, ok)];
    assert replies'[|replies|].call == call;
    assert forall i :: 0 <= i < |replies| ==> replies'[i] == replies[i];
    forall i | 0 <= i < |replies| ensures replies[i].call != call {
      assert Answered(replies, replies[i].call);
    }
    forall c: nat | c < calls' && c != call ensures Answered(replies', c) <==> Answered(replies, c) {
      if Answered(replies, c) {
        var i :| 0 <= i < |replies| && replies[i].call == c;
        assert replies'[i].call == c;
      }
    }
  }

  lemma DrainCommandKeeps(cfg: DriverConfig, d: Driver)
    requires DriverOk(cfg, d)
    ensures var d' := HandleDrain(d);
            && ReactOk(cfg, d, d') && Unfinished(d') == Unfinished(d) && d.drainReplies <= d'.drainReplies
  {
    if !d.phase.Running? {
      ReplyKeepsLog(d.phase, d.drainCalls, d.drainReplies, d.drainCalls, d.phase.Drained?, d.phase, d.drainCalls + 1);
    }
  }

  lemma IndexInputKeeps(cfg: DriverConfig, d: Driver, input: Input)
    requires DriverOk(cfg, d)
    requires input.AnnounceCommand? || input.ForgetCommand? || input.ReplaceLocalCommand? || input.ClosedInput?
    ensures ReactOk(cfg, d, React(cfg, d, input).0)
  {
    IndexKeeps(cfg, d, React(cfg, d, input).0.index);
  }

  lemma RequestInputKeeps(cfg: DriverConfig, d: Driver, peer: PeerId, id: VerificationId)
    requires DriverOk(cfg, d)
    ensures ReactOk(cfg, d, RequestProof(d, peer, id).0)
  {
    RequestKeeps(d, peer, id);
  }

  lemma SmallInputKeeps(cfg: DriverConfig, d: Driver, input: Input)
    requires DriverOk(cfg, d)
    requires input.QueryCommand? || input.QueryExpiredInput? || input.DelayedSentInput? || input.ConnectedInput?
    ensures ReactOk(cfg, d, React(cfg, d, input).0)
  {
    SmallChangeKeeps(cfg, d, React(cfg, d, input).0);
  }

  /** Queries and delayed responses are not correlated with anything else. */
  lemma SmallChangeKeeps(cfg: DriverConfig, d: Driver, d': Driver)
    requires DriverOk(cfg, d)
    requires d' == d.(queries := d'.queries, delayed := d'.delayed) && d'.delayed <= d.delayed
    ensures ReactOk(cfg, d, d')
  {
  }

  lemma SwarmInputKeeps(cfg: DriverConfig, d: Driver, input: Input)
    requires DriverOk(cfg, d)
    requires input.ResponseInput? || input.FailureInput? || input.RespondCommand? || input.InboundInput?
      || input.GossipInput? || input.AuthorizeCommand?
    ensures ReactOk(cfg, d, React(cfg, d, input).0)
  {
    match input
    case ResponseInput(oid, peer, sameChain, result) => ResponseKeeps(cfg, d, oid, peer, sameChain, result);
    case FailureInput(oid, peer) => FailureKeeps(cfg, d, oid, peer);
    case RespondCommand(token, proof, open) => RespondKeeps(cfg, d, token, proof, open);
    case InboundInput(peer, sameChain, asked, delivered) => InboundKeeps(cfg, d, peer, sameChain, asked, delivered);
    case GossipInput(source, via, message) => GossipKeeps(cfg, d, source, via, message);
    case AuthorizeCommand(validators) => AuthorizeKeeps(cfg, d, validators);
  }

  lemma ReactKeeps(cfg: DriverConfig, d: Driver, input: Input)
    requires DriverOk(cfg, d)
    ensures ReactOk(cfg, d, React(cfg, d, input).0)
  {
    if input.AnnounceCommand? || input.ForgetCommand? || input.ReplaceLocalCommand? || input.ClosedInput? {
      IndexInputKeeps(cfg, d, input);
    } else if input.RequestCommand? {
      RequestInputKeeps(cfg, d, input.peer, input.id);
    } else if input.DrainCommand? {
      DrainCommandKeeps(cfg, d);
    } else if input.QueryCommand? || input.QueryExpiredInput? || input.DelayedSentInput? || input.ConnectedInput? {
      SmallInputKeeps(cfg, d, input);
    } else {
      SwarmInputKeeps(cfg, d, input);
    }
  }

  /** One iteration of the driver loop. */
  lemma HandleKeeps(cfg: DriverConfig, d: Driver, input: Input)
    requires DriverOk(cfg, d)
    ensures var d' := Handle(cfg, d, input).0;
            && DriverOk(cfg, d')
            && PhaseNumber(d.phase) <= PhaseNumber(d'.phase)
            && (!d.phase.Running? ==> Unfinished(d') <= Unfinished(d))
            && (d'.phase.Draining? ==> Unfinished(d') > 0)
            && d.nextInbound <= d'.nextInbound
            && (forall t :: t in d'.inbound && t !in d.inbound ==> d.nextInbound <= t < d'.nextInbound)
  {
    ReactKeeps(cfg, d, input);
    FinishDrainKeeps(cfg, React(cfg, d, input).0);
  }
}
