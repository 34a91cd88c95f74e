/** Whole runs of the driver: any sequence of commands, swarm events and timers. */
module DriverRuns {
  import opened Common
  import opened Proofs
  import opened Protobuf
  import opened Records
  import opened Availability
  import opened DriverModel

  datatype DriverRun = DriverRun(drivers: seq<Driver>, inputs: seq<Input>)

  ghost predicate IterationOk(cfg: DriverConfig, r: DriverRun, i: nat)
    requires i < |r.inputs| && |r.drivers| == |r.inputs| + 1
  {
    r.drivers[i + 1] == Handle(cfg, r.drivers[i], r.inputs[i]).0
  }

  ghost predicate IsDriverRun(cfg: DriverConfig, validators: set<PeerId>, r: DriverRun) {
    && |r.drivers| == |r.inputs| + 1
    && r.drivers[0] == Fresh(cfg, validators)
    && forall i :: 0 <= i < |r.inputs| ==> IterationOk(cfg, r, i)
  }

  lemma {:induction false} RunOk(cfg: DriverConfig, validators: set<PeerId>, r: DriverRun, n: nat)
    requires IsDriverRun(cfg, validators, r) && n < |r.drivers|
    ensures DriverOk(cfg, r.drivers[n])
    ensures r.drivers[n].phase.Draining? ==> Unfinished(r.drivers[n]) > 0
  {
    if n == 0 {
      FreshOk(cfg, validators);
    } else {
      RunOk(cfg, validators, r, n - 1);
      assert IterationOk(cfg, r, n - 1);
      HandleKeeps(cfg, r.drivers[n - 1], r.inputs[n - 1]);
    }
  }

  lemma OneIteration(cfg: DriverConfig, validators: set<PeerId>, r: DriverRun, i: nat)
    requires IsDriverRun(cfg, validators, r) && i < |r.inputs|
    ensures var d, d' := r.drivers[i], r.drivers[i + 1];
            && PhaseNumber(d.phase) <= PhaseNumber(d'.phase)
            && (!d.phase.Running? ==> Unfinished(d') <= Unfinished(d))
            && d.nextInbound <= d'.nextInbound
            && (forall t :: t in d'.inbound && t !in d.inbound ==> d.nextInbound <= t < d'.nextInbound)
  {
    RunOk(cfg, validators, r, i);
    assert IterationOk(cfg, r, i);
    HandleKeeps(cfg, r.drivers[i], r.inputs[i]);
  }

  /** The drain protocol. The driver only moves Running to Draining to Drained. From the start of the
      drain the unfinished work never grows, and a driver that waits between iterations is not withholding
      the reply, because unfinished work remains. Every Drain call is answered exactly once, save that the
      one that started the drain waits until the driver is Drained; a success is told only then. At every
      moment `in_flight` is exactly the set of pairs on the wire. */
  lemma {:induction false} DrainProtocol(cfg: DriverConfig, validators: set<PeerId>, r: DriverRun, m: nat, n: nat)
    requires IsDriverRun(cfg, validators, r) && m <= n < |r.drivers|
    ensures PhaseNumber(r.drivers[m].phase) <= PhaseNumber(r.drivers[n].phase)
    ensures !r.drivers[m].phase.Running? ==> Unfinished(r.drivers[n]) <= Unfinished(r.drivers[m])
    ensures r.drivers[n].phase.Drained? ==> Unfinished(r.drivers[n]) == 0
    ensures r.drivers[n].phase.Draining? ==> Unfinished(r.drivers[n]) > 0
    ensures var d := r.drivers[n];
            && (forall i, j :: 0 <= i < j < |d.drainReplies| ==> d.drainReplies[i].call != d.drainReplies[j].call)
            && (forall c: nat :: c < d.drainCalls ==> (Answered(d.drainReplies, c) <==> d.phase != Draining(c)))
            && (forall i :: 0 <= i < |d.drainReplies| && d.drainReplies[i].ok ==> d.phase.Drained?)
    ensures r.drivers[n].inFlight == Pairs(r.drivers[n].outbound)
  {
    RunOk(cfg, validators, r, n);
    if m < n {
      DrainProtocol(cfg, validators, r, m, n - 1);
      OneIteration(cfg, validators, r, n - 1);
    }
  }

  /** What one iteration tells the callers of Drain: at most one answer, a success only with nothing
      unfinished. The call that starts the drain is answered when the driver becomes Drained and then
      successfully, one that arrives during the drain is refused at once, one after it succeeds at once. */
  lemma DrainAnswers(cfg: DriverConfig, validators: set<PeerId>, r: DriverRun, i: nat)
    requires IsDriverRun(cfg, validators, r) && i < |r.inputs|
    ensures var d, d' := r.drivers[i], r.drivers[i + 1];
            && d.drainReplies <= d'.drainReplies && |d'.drainReplies| <= |d.drainReplies| + 1
            && (d'.drainReplies != d.drainReplies && d'.drainReplies[|d.drainReplies|].ok ==> Unfinished(d') == 0)
            && (r.inputs[i].DrainCommand? && d.phase.Draining? ==>
                d'.drainReplies == d.drainReplies + [DrainReply(d.drainCalls, false)])
            && (r.inputs[i].DrainCommand? && d.phase.Drained? ==>
                d'.drainReplies == d.drainReplies + [DrainReply(d.drainCalls, true)])
            && (d'.phase.Drained? && !d.phase.Drained? ==> d'.drainReplies == d.drainReplies + [DrainReply(0, true)])
            && (r.inputs[i].DrainCommand? && d.phase.Running? && !d'.phase.Drained? ==>
                d'.drainReplies == d.drainReplies && d'.phase == Draining(d.drainCalls))
  {
    RunOk(cfg, validators, r, i);
    RunOk(cfg, validators, r, i + 1);
    assert IterationOk(cfg, r, i);
    var d, input := r.drivers[i], r.inputs[i];
    ReactKeeps(cfg, d, input);
    FinishDrainKeeps(cfg, React(cfg, d, input).0);
    if input.DrainCommand? { DrainCommandKeeps(cfg, d); } else { OnlyDrainAnswers(cfg, d, input); }
  }

  lemma OnlyDrainAnswers(cfg: DriverConfig, d: Driver, input: Input)
    requires !input.DrainCommand?
    ensures React(cfg, d, input).0.drainReplies == d.drainReplies && React(cfg, d, input).0.phase == d.phase
    ensures React(cfg, d, input).0.drainCalls == d.drainCalls
  {
    match input
    case ResponseInput(oid, peer, sameChain, result) => EndingsAnswerNoDrain(cfg, d, oid, peer, sameChain, result);
    case FailureInput(oid, peer) => EndingsAnswerNoDrain(cfg, d, oid, peer, true, NoResult);
    case _ =>
  }

  lemma EndingsAnswerNoDrain(cfg: DriverConfig, d: Driver, oid: nat, peer: PeerId, sameChain: bool, result: WireResult)
    ensures var d' := HandleResponse(cfg, d, oid, peer, sameChain, result).0;
            d'.drainReplies == d.drainReplies && d'.phase == d.phase && d'.drainCalls == d.drainCalls
    ensures var d' := HandleFailure(d, oid, peer).0;
            d'.drainReplies == d.drainReplies && d'.phase == d.phase && d'.drainCalls == d.drainCalls
  {
  }

  /** Draining makes progress: answering a waiting peer, a response or failure of an outstanding request,
      and a delayed gossip response going out each take one unit off. */
  lemma DrainProgress(cfg: DriverConfig, d: Driver, input: Input)
    requires DriverOk(cfg, d) && d.phase.Draining?
    requires match input
             case RespondCommand(token, _, _) => token in d.inbound
             case ResponseInput(oid, _, _, _) => oid in d.outbound
             case FailureInput(oid, _) => oid in d.outbound
             case DelayedSentInput => d.delayed > 0
             case _ => false
    ensures Unfinished(Handle(cfg, d, input).0) == Unfinished(d) - 1
  {
    match input
    case RespondCommand(token, proof, open) =>
      RespondKeeps(cfg, d, token, proof, open);
      FinishDrainKeeps(cfg, React(cfg, d, input).0);
    case ResponseInput(oid, peer, sameChain, result) =>
      ResponseKeeps(cfg, d, oid, peer, sameChain, result);
      FinishDrainKeeps(cfg, React(cfg, d, input).0);
    case FailureInput(oid, peer) =>
      FailureKeeps(cfg, d, oid, peer);
      FinishDrainKeeps(cfg, React(cfg, d, input).0);
    case DelayedSentInput =>
      SmallInputKeeps(cfg, d, input);
      FinishDrainKeeps(cfg, React(cfg, d, input).0);
  }

  lemma {:induction false} SpentTokenStaysSpent(cfg: DriverConfig, validators: set<PeerId>, r: DriverRun, m: nat, n: nat, token: nat)
    requires IsDriverRun(cfg, validators, r) && m <= n < |r.drivers|
    requires token < r.drivers[m].nextInbound && token !in r.drivers[m].inbound
    ensures token < r.drivers[n].nextInbound && token !in r.drivers[n].inbound
  {
    if m < n {
      SpentTokenStaysSpent(cfg, validators, r, m, n - 1, token);
      OneIteration(cfg, validators, r, n - 1);
    }
  }

  /** An inbound token answers at most one request: once it was used, whatever the answer was, every
      later use of it is refused as unknown. */
  lemma TokenConsumedOnce(cfg: DriverConfig, validators: set<PeerId>, r: DriverRun, i: nat, j: nat, proof: Option<Proof>, open: bool)
    requires IsDriverRun(cfg, validators, r) && i < j < |r.drivers|
    requires r.inputs[i].RespondCommand? && r.inputs[i].token in r.drivers[i].inbound
    ensures RespondProof(cfg, r.drivers[j], r.inputs[i].token, proof, open) == (r.drivers[j], Some(UnknownToken))
  {
    var d, input := r.drivers[i], r.inputs[i];
    RunOk(cfg, validators, r, i);
    assert IterationOk(cfg, r, i);
    RespondKeeps(cfg, d, input.token, input.proof, input.open);
    FinishDrainKeeps(cfg, React(cfg, d, input).0);
    SpentTokenStaysSpent(cfg, validators, r, i + 1, j, input.token);
  }

  // ---------------------------------------------------------------- single exchanges

  /** A request goes out exactly when the driver runs, the peer is authorized and the pair is not in
      flight; it then gets ids nobody else has, and nothing else changes. */
  lemma RequestEffect(cfg: DriverConfig, d: Driver, peer: PeerId, id: VerificationId)
    requires DriverOk(cfg, d)
    ensures var (d', r) := RequestProof(d, peer, id);
            && (r.Ok? <==> d.phase.Running? && peer in d.authorized && !exists a :: a in d.outbound && Asks(d.outbound[a], peer, id))
            && (r.Err? ==> d' == d)
            && (r.Ok? ==>
                && d.outbound.Keys < d'.outbound.Keys && (forall a :: a in d.outbound ==> d'.outbound[a] == d.outbound[a])
                && (forall a :: a in d'.outbound && a !in d.outbound ==> d'.outbound[a] == OutboundRequest(r.value, peer, id))
                && (forall a :: a in d.outbound ==> d.outbound[a].appId != r.value))
  {
    assert (peer, id) in d.inFlight <==> exists a :: a in d.outbound && Asks(d.outbound[a], peer, id) by {
      if (peer, id) in Pairs(d.outbound) {
        var a :| a in d.outbound && (peer, id) == (d.outbound[a].peer, d.outbound[a].id);
        assert Asks(d.outbound[a], peer, id);
      }
    }
    assert d.nextOutbound !in d.outbound;
  }

  predicate Asks(request: OutboundRequest, peer: PeerId, id: VerificationId) { request.peer == peer && request.id == id }

  /** A proof is delivered exactly when the peer asked sends, for this chain, content of a known type that
      is within the limit and hashes to the id asked for. Afterwards that peer is listed for the id exactly
      in this case, and every other listing is as before. */
  lemma ResponseEffect(
    cfg: DriverConfig, d: Driver, oid: nat, peer: PeerId, sameChain: bool, result: WireResult, i: VerificationId, p: PeerId)
    requires oid in d.outbound
    ensures var (d', events) := HandleResponse(cfg, d, oid, peer, sameChain, result);
            var request := d.outbound[oid];
            && |events| == 1
            && (events[0].ProofReceived? <==>
                && peer == request.peer && sameChain && result.FoundProof?
                && exists proof :: FromWire(result.wire) == Some(proof) && Wanted(cfg, request.id, proof))
            && (events[0].ProofReceived? ==>
                && Wanted(cfg, request.id, events[0].proof) && FromWire(result.wire) == Some(events[0].proof)
                && events[0].request == request.appId && events[0].peer == request.peer && events[0].id == request.id)
            && (Lists(d'.index, i, p) <==>
                if Asks(request, p, i) then events[0].ProofReceived? else Lists(d.index, i, p))
  {
    var request := d.outbound[oid];
    if result.FoundProof? && FromWire(result.wire).Some? {
      var proof := FromWire(result.wire).value;
      assert WireEncodedLen(result.wire) == EncodedLen(proof) by { assert result.wire.proofType in {1, 2}; }
      assert Wanted(cfg, request.id, proof) <==> ValidateResponse(cfg, result.wire, request.id) == Some(proof);
    }
  }

  predicate Wanted(cfg: DriverConfig, id: VerificationId, proof: Proof) {
    IdOf(cfg.sha, proof) == id && EncodedLen(proof) <= cfg.maxProofBytes
  }

  /** An answer leaves exactly when the token is known, the content is the one asked for and within the
      limit, or there is none, and the peer still waits. Right or wrong, the token is gone and the other
      tokens stay. */
  lemma RespondEffect(cfg: DriverConfig, d: Driver, token: nat, proof: Option<Proof>, open: bool)
    ensures var (d', error) := RespondProof(cfg, d, token, proof, open);
            && (error.None? <==>
                && token in d.inbound && open
                && (proof.Some? ==> Wanted(cfg, d.inbound[token].id, proof.value)))
            && d'.inbound.Keys == d.inbound.Keys - {token}
            && (forall t :: t in d'.inbound ==> d'.inbound[t] == d.inbound[t])
  {
  }

  // ---------------------------------------------------------------- the local peer's own entries

  predicate IsLocalCommand(input: Input) {
    input.AnnounceCommand? || input.ForgetCommand? || input.ReplaceLocalCommand?
  }

  lemma HandleIndex(cfg: DriverConfig, d: Driver, input: Input)
    ensures Handle(cfg, d, input).0.index == React(cfg, d, input).0.index
  {
    FinishDrainLeavesIndex(React(cfg, d, input).0);
  }

  lemma FinishDrainLeavesIndex(d: Driver)
    ensures FinishDrain(d).index == d.index
  {
  }

  lemma ExchangeLeavesLocalPairs(
    cfg: DriverConfig, d: Driver, oid: nat, peer: PeerId, sameChain: bool, result: WireResult, id: VerificationId)
    requires NoSelfRequests(cfg.local, d.outbound)
    ensures Lists(HandleResponse(cfg, d, oid, peer, sameChain, result).0.index, id, cfg.local) <==> Lists(d.index, id, cfg.local)
    ensures Lists(HandleFailure(d, oid, peer).0.index, id, cfg.local) <==> Lists(d.index, id, cfg.local)
  {
    if oid in d.outbound {
      assert d.outbound[oid].peer != cfg.local;
      assert CloseOutbound(d, oid).index == d.index;
    }
  }

  lemma GossipLeavesLocalPairs(cfg: DriverConfig, d: Driver, source: PeerId, via: PeerId, g: Gossip, id: VerificationId)
    requires cfg.local !in d.authorized
    ensures Lists(HandleGossip(d, source, via, g).0.index, id, cfg.local) <==> Lists(d.index, id, cfg.local)
  {
  }

  /** Nobody else can speak for the local peer: because it is never in its own allow-list, what the index
      says about it changes only through the local announce, forget and replace commands. */
  lemma LocalPairsOnlyLocal(cfg: DriverConfig, d: Driver, input: Input, id: VerificationId)
    requires DriverOk(cfg, d) && !IsLocalCommand(input)
    requires input.ClosedInput? ==> input.peer != cfg.local
    ensures Lists(Handle(cfg, d, input).0.index, id, cfg.local) <==> Lists(d.index, id, cfg.local)
  {
    HandleIndex(cfg, d, input);
    match input
    case ResponseInput(oid, peer, sameChain, result) =>
      ExchangeLeavesLocalPairs(cfg, d, oid, peer, sameChain, result, id);
    case FailureInput(oid, peer) => ExchangeLeavesLocalPairs(cfg, d, oid, peer, true, NoResult, id);
    case GossipInput(source, via, message) => GossipLeavesLocalPairs(cfg, d, source, via, message, id);
    case AuthorizeCommand(validators) =>
    case _ =>
  }

  /** A query response counts exactly when both the signer and the forwarder are authorized, it has at most
      128 entries, and every entry is the id of an authorized peer. The local peer never is, so a response
      that offers the local peer as a provider is dropped whole, whatever else it offers. */
  lemma ResponseAcceptedIff(
    cfg: DriverConfig, d: Driver, source: PeerId, via: PeerId, query: QueryId, id: VerificationId,
    raw: seq<Option<PeerId>>, p: PeerId)
    requires DriverOk(cfg, d) && d.phase.Running?
    ensures var (d', events) := HandleGossip(d, source, via, Response(query, id, raw));
            var accepted := && source in d.authorized && via in d.authorized && |raw| <= 128
                            && forall x :: x in raw ==> x.Some? && x.value in d.authorized;
            && (Lists(d'.index, id, p) <==> Lists(d.index, id, p) || (accepted && Some(p) in raw))
            && (events != [] <==> accepted && query in d.queries && d.queries[query] == id)
            && (events != [] ==> |events| == 1 && events[0] == ProvidersDiscovered(query, id, events[0].providers)
                                 && (p in events[0].providers <==> Some(p) in raw))
            && (Some(cfg.local) in raw ==> (d', events) == (d, []))
  {
    assert p in Named(raw) <==> Some(p) in raw;
    if Some(cfg.local) in raw { assert !ProvidersOk(raw, d.authorized, MAX_PROVIDER_HINTS); }
  }

  /** And those commands set it exactly. */
  lemma LocalCommandsSetLocalPairs(cfg: DriverConfig, d: Driver, id: VerificationId, ids: set<VerificationId>, x: VerificationId)
    ensures Lists(Handle(cfg, d, AnnounceCommand(id)).0.index, x, cfg.local) <==> x == id || Lists(d.index, x, cfg.local)
    ensures Lists(Handle(cfg, d, ForgetCommand(id)).0.index, x, cfg.local) <==> x != id && Lists(d.index, x, cfg.local)
    ensures Lists(Handle(cfg, d, ReplaceLocalCommand(ids)).0.index, x, cfg.local) <==> x in ids
  {
    HandleIndex(cfg, d, AnnounceCommand(id));
    HandleIndex(cfg, d, ForgetCommand(id));
    HandleIndex(cfg, d, ReplaceLocalCommand(ids));
  }

  // ---------------------------------------------------------------- peers that were removed

  /** Every listed provider is authorized or the local peer. */
  ghost predicate OnlyAuthorizedListed(cfg: DriverConfig, d: Driver) {
    forall i, p :: Lists(d.index, i, p) ==> p in d.authorized || p == cfg.local
  }

  /** The input is an acceptable proof from the peer asked, who has lost its authorization since. */
  predicate LateDelivery(cfg: DriverConfig, d: Driver, input: Input) {
    && input.ResponseInput? && input.oid in d.outbound
    && input.peer == d.outbound[input.oid].peer && input.sameChain && input.result.FoundProof?
    && ValidateResponse(cfg, input.result.wire, d.outbound[input.oid].id).Some?
    && input.peer !in d.authorized
  }

  lemma ExchangeListing(cfg: DriverConfig, d: Driver, input: Input)
    requires DriverOk(cfg, d) && OnlyAuthorizedListed(cfg, d) && (input.ResponseInput? || input.FailureInput?)
    ensures OnlyAuthorizedListed(cfg, React(cfg, d, input).0) <==> !LateDelivery(cfg, d, input)
  {
    if input.oid in d.outbound {
      var request, d' := d.outbound[input.oid], React(cfg, d, input).0;
      assert request.peer != cfg.local;
      assert CloseOutbound(d, input.oid).index == d.index && d'.authorized == d.authorized;
      if LateDelivery(cfg, d, input) { assert Lists(d'.index, request.id, request.peer); }
    }
  }

  lemma OtherListing(cfg: DriverConfig, d: Driver, input: Input)
    requires DriverOk(cfg, d) && OnlyAuthorizedListed(cfg, d) && !input.ResponseInput? && !input.FailureInput?
    ensures OnlyAuthorizedListed(cfg, React(cfg, d, input).0)
  {
    match input
    case AuthorizeCommand(validators) =>
      var peers := validators - {cfg.local};
      assert d.authorized - (d.authorized - peers) <= peers;
    case GossipInput(source, via, message) => GossipListing(cfg, d, source, via, message);
    case _ =>
  }

  lemma GossipListing(cfg: DriverConfig, d: Driver, source: PeerId, via: PeerId, g: Gossip)
    requires OnlyAuthorizedListed(cfg, d)
    ensures OnlyAuthorizedListed(cfg, HandleGossip(d, source, via, g).0)
  {
  }

  /** One iteration keeps removed validators out of the index exactly unless it accepts a late delivery. */
  lemma ListingStaysAuthorizedIff(cfg: DriverConfig, d: Driver, input: Input)
    requires DriverOk(cfg, d) && OnlyAuthorizedListed(cfg, d)
    ensures OnlyAuthorizedListed(cfg, Handle(cfg, d, input).0) <==> !LateDelivery(cfg, d, input)
  {
    HandleIndex(cfg, d, input);
    FinishDrainLeavesAuthorized(React(cfg, d, input).0);
    if input.ResponseInput? || input.FailureInput? { ExchangeListing(cfg, d, input); } else { OtherListing(cfg, d, input); }
  }

  lemma FinishDrainLeavesAuthorized(d: Driver)
    ensures FinishDrain(d).authorized == d.authorized
  {
  }

  predicate LateAt(cfg: DriverConfig, r: DriverRun, i: nat)
    requires i < |r.inputs| && |r.drivers| == |r.inputs| + 1
  {
    LateDelivery(cfg, r.drivers[i], r.inputs[i])
  }

  lemma ListingStep(cfg: DriverConfig, validators: set<PeerId>, r: DriverRun, i: nat)
    requires IsDriverRun(cfg, validators, r) && i < |r.inputs| && OnlyAuthorizedListed(cfg, r.drivers[i])
    ensures OnlyAuthorizedListed(cfg, r.drivers[i + 1]) <==> !LateAt(cfg, r, i)
  {
    RunOk(cfg, validators, r, i);
    assert IterationOk(cfg, r, i);
    ListingStaysAuthorizedIff(cfg, r.drivers[i], r.inputs[i]);
  }

  /** So a run without late deliveries never lists a removed validator. */
  lemma {:induction false} OnlyValidatorsListed(cfg: DriverConfig, validators: set<PeerId>, r: DriverRun, n: nat)
    requires IsDriverRun(cfg, validators, r) && n < |r.drivers| && forall i :: 0 <= i < n ==> !LateAt(cfg, r, i)
    ensures OnlyAuthorizedListed(cfg, r.drivers[n])
  {
    if n == 0 {
      assert r.drivers[0].index == map[];
    } else {
      OnlyValidatorsListed(cfg, validators, r, n - 1);
      ListingStep(cfg, validators, r, n - 1);
    }
  }

  /** And with one it does: the peer is asked, removed from the validators, and its answer lists it. */
  lemma RemovedPeerGetsListed(cfg: DriverConfig, peer: PeerId, proof: Proof) returns (r: DriverRun)
    requires peer != cfg.local && EncodedLen(proof) <= cfg.maxProofBytes
    ensures IsDriverRun(cfg, {peer}, r) && |r.inputs| == 3
    ensures peer !in r.drivers[3].authorized && Lists(r.drivers[3].index, IdOf(cfg.sha, proof), peer)
  {
    var id := IdOf(cfg.sha, proof);
    var request, remove, answer :=
      RequestCommand(peer, id), AuthorizeCommand({}), ResponseInput(0, peer, true, FoundProof(ToWire(proof)));
    var d0 := Fresh(cfg, {peer});
    var d1 := Handle(cfg, d0, request).0;
    var d2 := Handle(cfg, d1, remove).0;
    var d3 := Handle(cfg, d2, answer).0;
    AskedThenRemoved(cfg, peer, id);
    LateProofIsAccepted(cfg, d2, peer, proof);
    r := DriverRun([d0, d1, d2, d3], [request, remove, answer]);
    assert IterationOk(cfg, r, 0) && IterationOk(cfg, r, 1) && IterationOk(cfg, r, 2);
  }

  lemma AskedThenRemoved(cfg: DriverConfig, peer: PeerId, id: VerificationId)
    requires peer != cfg.local
    ensures var d1 := Handle(cfg, Fresh(cfg, {peer}), RequestCommand(peer, id)).0;
            var d2 := Handle(cfg, d1, AuthorizeCommand({})).0;
            && d2.phase.Running? && peer !in d2.authorized
            && 0 in d2.outbound && d2.outbound[0].peer == peer && d2.outbound[0].id == id
  {
    var d0 := Fresh(cfg, {peer});
    var d1 := Handle(cfg, d0, RequestCommand(peer, id)).0;
    assert d1 == RequestProof(d0, peer, id).0;
    assert d1.phase.Running? && d1.outbound[0] == OutboundRequest(1, peer, id);
  }

  lemma LateProofIsAccepted(cfg: DriverConfig, d: Driver, peer: PeerId, proof: Proof)
    requires EncodedLen(proof) <= cfg.maxProofBytes && d.phase.Running?
    requires 0 in d.outbound && d.outbound[0].peer == peer && d.outbound[0].id == IdOf(cfg.sha, proof)
    ensures var d' := Handle(cfg, d, ResponseInput(0, peer, true, FoundProof(ToWire(proof)))).0;
            Lists(d'.index, IdOf(cfg.sha, proof), peer) && d'.authorized == d.authorized
  {
    assert FromWire(ToWire(proof)) == Some(proof);
    assert WireEncodedLen(ToWire(proof)) == EncodedLen(proof);
    assert ValidateResponse(cfg, ToWire(proof), IdOf(cfg.sha, proof)) == Some(proof);
    assert CloseOutbound(d, 0).phase.Running?;
  }
}
