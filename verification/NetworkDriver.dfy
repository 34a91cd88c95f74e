/** The network driver as the object that owns the swarm: request maps, counters and peer sets changed in
    place. Every handler keeps the driver's invariant and does exactly what DriverModel says. */
module NetworkDrivers {
  import opened Common
  import opened Proofs
  import opened Protobuf
  import opened Records
  import opened Availability
  import opened DriverModel

  class NetworkDriver {
    const config: DriverConfig
    const availability: AvailabilityIndex
    var authorizedPeers: set<PeerId>
    var allowedPeers: set<PeerId>
    var explicitPeers: set<PeerId>
    var queries: map<QueryId, VerificationId>
    var outboundRequests: map<nat, OutboundRequest>
    var inFlight: set<(PeerId, VerificationId)>
    var inboundRequests: map<nat, InboundRequest>
    var nextOutbound: nat
    var nextRequestId: nat
    var nextInboundId: nat
    var delayedResponses: nat
    var phase: Phase
    var drainCalls: nat
    var drainReplies: seq<DrainReply>

    constructor (config: DriverConfig, validators: set<PeerId>)
      ensures Valid() && this.config == config && Value() == Fresh(config, validators) && fresh(availability)
    {
      this.config := config;
      availability := new AvailabilityIndex();
      var peers := validators - {config.local};
      authorizedPeers, allowedPeers, explicitPeers := peers, peers, peers;
      queries, outboundRequests, inFlight, inboundRequests := map[], map[], {}, map[];
      nextOutbound, nextRequestId, nextInboundId, delayedResponses := 0, 1, 1, 0;
      phase, drainCalls, drainReplies := Running, 0, [];
      new;
      FreshOk(config, validators);
    }

    function Value(): Driver
      reads this, availability
    {
      Driver(authorizedPeers, allowedPeers, explicitPeers, availability.providers, queries, outboundRequests, inFlight,
             inboundRequests, nextOutbound, nextRequestId, nextInboundId, delayedResponses, phase,
             drainCalls, drainReplies)
    }

    ghost predicate Valid()
      reads this, availability
    {
      DriverOk(config, Value())
    }

    method RequestProofFrom(peer: PeerId, id: VerificationId) returns (r: Result<nat, RequestError>)
      requires Valid()
      modifies `inFlight, `outboundRequests, `nextOutbound, `nextRequestId
      ensures Valid() && (Value(), r) == RequestProof(old(Value()), peer, id)
    {
      RequestInputKeeps(config, Value(), peer, id);
      if !phase.Running? {
        return Err(DrainingRefused);
      }
      if peer !in authorizedPeers {
        return Err(Unauthorized);
      }
      if (peer, id) in inFlight {
        return Err(AlreadyInFlight);
      }
      inFlight := inFlight + {(peer, id)};
      r := Ok(nextRequestId);
      outboundRequests := outboundRequests[nextOutbound := OutboundRequest(nextRequestId, peer, id)];
      nextOutbound, nextRequestId := nextOutbound + 1, nextRequestId + 1;
    }

    /** Removes the token first, so a second answer finds nothing. */
    method Respond(token: nat, proof: Option<Proof>, open: bool) returns (r: Option<RespondError>)
      requires Valid()
      modifies `inboundRequests
      ensures Valid() && (Value(), r) == RespondProof(config, old(Value()), token, proof, open)
      ensures token !in inboundRequests
    {
      RespondKeeps(config, Value(), token, proof, open);
      if token !in inboundRequests {
        return Some(UnknownToken);
      }
      var pending := inboundRequests[token];
      inboundRequests := inboundRequests - {token};
      if proof.Some? {
        if EncodedLen(proof.value) > config.maxProofBytes {
          return Some(TooLarge);
        }
        if IdOf(config.sha, proof.value) != pending.id {
          return Some(WrongProof);
        }
      }
      r := if open then None else Some(ChannelClosed);
    }

    method Close(oid: nat)
      requires oid in outboundRequests
      modifies `outboundRequests, `inFlight
      ensures Value() == CloseOutbound(old(Value()), oid)
    {
      var request := outboundRequests[oid];
      outboundRequests := outboundRequests - {oid};
      inFlight := inFlight - {(request.peer, request.id)};
    }

    method HandleOutboundResponse(oid: nat, peer: PeerId, sameChain: bool, result: WireResult) returns (events: seq<DriverEvent>)
      requires Valid()
      modifies `outboundRequests, `inFlight, availability
      ensures Valid() && (Value(), events) == HandleResponse(config, old(Value()), oid, peer, sameChain, result)
    {
      ResponseKeeps(config, Value(), oid, peer, sameChain, result);
      if oid !in outboundRequests {
        return [];
      }
      var request := outboundRequests[oid];
      Close(oid);
      if peer == request.peer && sameChain {
        if result.NotFound? {
          availability.RemoveOne(request.id, peer);
          return [ProofNotFound(request.appId, peer, request.id)];
        }
        if result.FoundProof? {
          var proof := ValidateResponse(config, result.wire, request.id);
          if proof.Some? {
            availability.AddOne(request.id, peer);
            return [ProofReceived(request.appId, peer, request.id, proof.value)];
          }
        }
      }
      availability.RemoveOne(request.id, request.peer);
      return [ProofRequestFailed(request.appId, request.peer, request.id)];
    }

    method HandleOutboundFailure(oid: nat, peer: PeerId) returns (events: seq<DriverEvent>)
      requires Valid()
      modifies `outboundRequests, `inFlight, availability
      ensures Valid() && (Value(), events) == HandleFailure(old(Value()), oid, peer)
    {
      FailureKeeps(config, Value(), oid, peer);
      if oid !in outboundRequests {
        return [];
      }
      var request := outboundRequests[oid];
      Close(oid);
      availability.RemoveOne(request.id, request.peer);
      return [ProofRequestFailed(request.appId, peer, request.id)];
    }

    method HandleInboundRequest(peer: PeerId, sameChain: bool, id: Option<VerificationId>, delivered: bool)
      returns (events: seq<DriverEvent>)
      requires Valid()
      modifies `inboundRequests, `nextInboundId
      ensures Valid() && (Value(), events) == HandleInbound(old(Value()), peer, sameChain, id, delivered)
    {
      InboundKeeps(config, Value(), peer, sameChain, id, delivered);
      if !phase.Running? || peer !in authorizedPeers || !sameChain || id.None? {
        return [];
      }
      var token := nextInboundId;
      nextInboundId := nextInboundId + 1;
      inboundRequests := inboundRequests[token := InboundRequest(peer, id.value)];
      if !delivered {
        inboundRequests := inboundRequests - {token};
        FreshTokenRemoved(old(inboundRequests), token, InboundRequest(peer, id.value));
        return [];
      }
      return [ProofRequested(token, peer, id.value)];
    }

    /** The diff against the current set: first the peers that left, then the new ones. Afterwards the
        allow-list, the gossip peers and the authorized set are all the new validators, and no peer that
        left is listed as a provider. */
    method ReplacePeers(validators: set<PeerId>)
      requires Valid()
      modifies `authorizedPeers, `allowedPeers, `explicitPeers, availability
      ensures Valid() && Value() == ReplaceAuthorizedPeers(config, old(Value()), validators)
      ensures authorizedPeers == allowedPeers == explicitPeers == validators - {config.local}
    {
      AuthorizeKeeps(config, Value(), validators);
      var peers := validators - {config.local};
      Disallow(authorizedPeers - peers);
      Allow(peers - authorizedPeers);
      authorizedPeers := peers;
    }

    method Disallow(removed: set<PeerId>)
      requires NoEmptyBuckets(availability.providers)
      modifies `allowedPeers, `explicitPeers, availability
      ensures allowedPeers == old(allowedPeers) - removed && explicitPeers == old(explicitPeers) - removed
      ensures availability.providers == RemovePeers(old(availability.providers), removed)
    {
      var todo := removed;
      while todo != {}
        invariant todo <= removed && NoEmptyBuckets(availability.providers)
        invariant allowedPeers == old(allowedPeers) - (removed - todo) && explicitPeers == old(explicitPeers) - (removed - todo)
        invariant forall i, p :: Lists(availability.providers, i, p) <==>
                    Lists(old(availability.providers), i, p) && p !in removed - todo
        decreases todo
      {
        var peer :| peer in todo;
        todo := todo - {peer};
        allowedPeers, explicitPeers := allowedPeers - {peer}, explicitPeers - {peer};
        availability.RemoveEverywhere(peer);
      }
      RelationDeterminesIndex(availability.providers, RemovePeers(old(availability.providers), removed));
    }

    method Allow(added: set<PeerId>)
      modifies `allowedPeers, `explicitPeers
      ensures allowedPeers == old(allowedPeers) + added && explicitPeers == old(explicitPeers) + added
    {
      var todo := added;
      while todo != {}
        invariant todo <= added
        invariant allowedPeers == old(allowedPeers) + (added - todo) && explicitPeers == old(explicitPeers) + (added - todo)
        decreases todo
      {
        var peer :| peer in todo;
        todo := todo - {peer};
        allowedPeers, explicitPeers := allowedPeers + {peer}, explicitPeers + {peer};
      }
    }

    /** The Drain command: starts the drain, refuses, or succeeds at once, by phase. */
    method Drain()
      requires Valid()
      modifies `queries, `phase, `drainCalls, `drainReplies
      ensures Valid() && Value() == HandleDrain(old(Value()))
    {
      ghost var drained := HandleDrain(Value());
      DrainCommandKeeps(config, Value());
      var call := drainCalls;
      drainCalls := drainCalls + 1;
      match phase {
        case Running =>
          queries, phase := map[], Draining(call);
        case Draining(_) =>
          drainReplies := drainReplies + [DrainReply(call, false)];
        case Drained =>
          drainReplies := drainReplies + [DrainReply(call, true)];
      }
      assert Value() == drained;
    }

    /** Run after every iteration: answers the call that started the drain once everything accepted is
        finished. */
    method CompleteDrain()
      requires Valid()
      modifies `phase, `drainReplies
      ensures Valid() && Value() == FinishDrain(old(Value()))
      ensures drainReplies != old(drainReplies) <==> old(phase).Draining? && Unfinished(old(Value())) == 0
    {
      FinishDrainKeeps(config, Value());
      if phase.Draining? && |inboundRequests| == 0 && |outboundRequests| == 0 && inFlight == {} && delayedResponses == 0 {
        drainReplies := drainReplies + [DrainReply(phase.starter, true)];
        phase := Drained;
      }
    }
  }

  lemma FreshTokenRemoved(m: map<nat, InboundRequest>, token: nat, request: InboundRequest)
    requires token !in m
    ensures m[token := request] - {token} == m
  {
  }
}
