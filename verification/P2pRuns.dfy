/** Whole runs of the P2P worker with its driver, under any interleaving, any network behaviour that
    reports failures with the peer the request went to, and any store contents. */
module P2pRuns {
  import opened Common
  import opened Proofs
  import opened Records
  import opened JobExecution
  import opened DriverModel
  import opened Retrieval
  import opened P2pSystem
  import opened P2pInvariant

  datatype Run = Run(states: seq<P2p>, steps: seq<Step>)

  ghost predicate StepOk(cfg: Config, r: Run, i: nat)
    requires i < |r.steps| && |r.states| == |r.steps| + 1
  {
    Enabled(cfg, r.states[i], r.steps[i]) && r.states[i + 1] == Next(cfg, r.states[i], r.steps[i])
  }

  ghost predicate IsRun(cfg: Config, validators: set<PeerId>, r: Run) {
    && |r.states| == |r.steps| + 1
    && r.states[0] == Initial(cfg, validators)
    && forall i :: 0 <= i < |r.steps| ==> StepOk(cfg, r, i)
  }

  lemma {:induction false} RunInv(cfg: Config, validators: set<PeerId>, r: Run, n: nat)
    requires IsRun(cfg, validators, r) && n < |r.states|
    ensures Inv(cfg, r.states[n])
  {
    if n == 0 {
      InitialInv(cfg, validators);
    } else {
      RunInv(cfg, validators, r, n - 1);
      assert StepOk(cfg, r, n - 1);
      NextKeepsInv(cfg, r.states[n - 1], r.steps[n - 1]);
    }
  }

  // ---------------------------------------------------------------- slots are conserved

  /** Completions the driver reported that the worker has yet to take. */
  function Completions(channel: seq<DriverEvent>): nat {
    if channel == [] then 0
    else (if IsCompletion(channel[0]) then 1 else 0) + Completions(channel[1..])
  }

  ghost function WireIds(outbound: map<nat, OutboundRequest>): set<VerificationId> {
    set a | a in outbound :: outbound[a].id
  }

  ghost function ChannelIds(channel: seq<DriverEvent>): set<VerificationId> {
    set k | 0 <= k < |channel| && IsCompletion(channel[k]) :: channel[k].id
  }

  ghost predicate DistinctIds(outbound: map<nat, OutboundRequest>, keys: set<nat>) {
    keys <= outbound.Keys && forall a, b :: a in keys && b in keys && outbound[a].id == outbound[b].id ==> a == b
  }

  lemma {:induction false} WireIdsCount(outbound: map<nat, OutboundRequest>, keys: set<nat>)
    requires DistinctIds(outbound, keys)
    ensures |set a | a in keys :: outbound[a].id| == |keys|
  {
    var ids := set a | a in keys :: outbound[a].id;
    if keys == {} {
      assert ids == {};
    } else {
      var k :| k in keys;
      var rest := keys - {k};
      var others := set a | a in rest :: outbound[a].id;
      WireIdsCount(outbound, rest);
      assert ids == others + {outbound[k].id};
    }
  }

  lemma {:induction false} ChannelIdsCount(channel: seq<DriverEvent>)
    requires forall i, j :: 0 <= i < j < |channel| && IsCompletion(channel[i]) && IsCompletion(channel[j]) ==>
               channel[i].id != channel[j].id
    ensures |ChannelIds(channel)| == Completions(channel)
  {
    if channel == [] {
      assert ChannelIds(channel) == {};
    } else {
      var rest := channel[1..];
      forall k | 0 <= k < |rest| ensures rest[k] == channel[k + 1] {}
      ChannelIdsCount(rest);
      var first := if IsCompletion(channel[0]) then {channel[0].id} else {};
      forall id ensures id in ChannelIds(channel) <==> id in ChannelIds(rest) + first {
        if id in ChannelIds(channel) && id !in first {
          var k :| 0 <= k < |channel| && IsCompletion(channel[k]) && channel[k].id == id;
          assert rest[k - 1] == channel[k];
        }
      }
      assert ChannelIds(channel) == ChannelIds(rest) + first;
    }
  }

  ghost function HeldIds(w: Worker, pc: Pc): set<VerificationId> {
    ActiveIds(w.retrievals) + if Accepting(pc) then {pc.id} else {}
  }

  /** Ids that hold a slot are exactly the ids on the wire or in the channel. */
  lemma HeldIdsSplit(outbound: map<nat, OutboundRequest>, channel: seq<DriverEvent>, w: Worker, pc: Pc)
    requires SlotsMatch(outbound, channel, w, pc)
    ensures HeldIds(w, pc) == WireIds(outbound) + ChannelIds(channel) && WireIds(outbound) !! ChannelIds(channel)
  {
    forall id ensures id in HeldIds(w, pc) <==> id in WireIds(outbound) + ChannelIds(channel) {
      assert id in HeldIds(w, pc) <==> Held(w, pc, id).Some?;
      assert id in WireIds(outbound) <==> OnWire(outbound, id);
      assert id in ChannelIds(channel) <==> InChannel(channel, id);
    }
  }

  /** Conservation: at every moment the occupied slots, plus the acceptance that may be travelling back,
      number exactly the requests on the wire plus the completions not yet taken. The counter never
      exceeds the configured limit and never disagrees with the retrievals that claim a slot. */
  lemma SlotConservation(cfg: Config, validators: set<PeerId>, r: Run, n: nat)
    requires IsRun(cfg, validators, r) && n < |r.states|
    ensures var s := r.states[n];
            && s.w.active + (if Accepting(s.pc) then 1 else 0) == |s.driver.outbound| + Completions(s.channel)
            && s.w.active == |ActiveIds(s.w.retrievals)| && s.w.active <= cfg.retrieval.maxActive
  {
    RunInv(cfg, validators, r, n);
    var s := r.states[n];
    HeldIdsSplit(s.driver.outbound, s.channel, s.w, s.pc);
    WireIdsCount(s.driver.outbound, s.driver.outbound.Keys);
    assert WireIds(s.driver.outbound) == set a | a in s.driver.outbound.Keys :: s.driver.outbound[a].id;
    ChannelIdsCount(s.channel);
    assert Accepting(s.pc) ==> s.pc.id !in ActiveIds(s.w.retrievals);
    assert HeldIds(s.w, s.pc) == ActiveIds(s.w.retrievals) + if Accepting(s.pc) then {s.pc.id} else {};
  }

  /** The worker never asks for a pair that is on the wire, so the driver's duplicate-request error never
      reaches it; every completion finds the retrieval that owns it, so the slot counter is never asked to
      go below zero. */
  lemma RequestsAreOwned(cfg: Config, validators: set<PeerId>, r: Run, n: nat)
    requires IsRun(cfg, validators, r) && n < |r.states|
    ensures r.states[n].pc.Requesting? ==>
              RequestProof(r.states[n].driver, r.states[n].pc.peer, r.states[n].pc.id).1 != Err(AlreadyInFlight)
    ensures var s := r.states[n];
            s.pc.Idle? && s.channel != [] && IsCompletion(s.channel[0]) ==>
              ActiveOf(s.w, s.channel[0].id) == Some((s.channel[0].request, s.channel[0].peer)) && s.w.active > 0
  {
    RunInv(cfg, validators, r, n);
    var s := r.states[n];
    if s.pc.Requesting? { NotInFlight(cfg, s); }
    if s.pc.Idle? && s.channel != [] && IsCompletion(s.channel[0]) {
      assert Held(s.w, s.pc, s.channel[0].id).Some?;
      OwnedSlotIsCounted(cfg.retrieval, s.w, s.channel[0].id);
    }
  }

  /** Inbound requests are conserved: each one the driver has not answered is told of exactly once, in an
      event the worker has yet to read or in the one it is answering, under its own id. */
  lemma InboundRequestsAccounted(cfg: Config, validators: set<PeerId>, r: Run, n: nat, t: nat)
    requires IsRun(cfg, validators, r) && n < |r.states|
    ensures var s := r.states[n];
            && (t in s.driver.inbound <==> AskedIn(s.channel, t) || (s.pc.Answering? && s.pc.token == t))
            && !(AskedIn(s.channel, t) && s.pc.Answering? && s.pc.token == t)
            && (forall i, j :: 0 <= i < j < |s.channel| && s.channel[i].ProofRequested? && s.channel[j].ProofRequested? ==>
                  s.channel[i].token != s.channel[j].token)
            && (s.pc.Answering? ==> s.pc.token in s.driver.inbound && s.driver.inbound[s.pc.token].id == s.pc.asked)
  {
    RunInv(cfg, validators, r, n);
  }

  /** What ends a worker other than its stopping: answering a peer that has gone, and being broken off by the
      swarm or the store. The other refusals of an answer (an unknown token, too large a proof, the wrong
      proof) and of a request (a duplicate) never happen. */
  lemma WorkerEndsIff(cfg: Config, validators: set<PeerId>, r: Run, i: nat)
    requires IsRun(cfg, validators, r) && i < |r.steps| && !r.states[i].pc.Ended?
    ensures r.states[i + 1].pc.Ended? <==> (r.steps[i].Answer? && !r.steps[i].open) || r.steps[i].Break?
    ensures r.states[i + 1].pc.Ended? ==>
              r.states[i + 1].pc.why == if r.steps[i].Break? then Broken(r.steps[i].cause) else AnswerRefused(ChannelClosed)
  {
    RunInv(cfg, validators, r, i);
    RunInv(cfg, validators, r, i + 1);
    assert StepOk(cfg, r, i);
    var s, step := r.states[i], r.steps[i];
    if step.Answer? {
      AnswerRefusedOnlyIfClosed(cfg, s, step.limits, step.st, step.open);
    } else if !step.Break? {
      OnlyAnswersEnd(cfg, s, step);
    }
  }

  lemma OnlyAnswersEnd(cfg: Config, s: P2p, step: Step)
    requires HandOk(cfg, s.w, s.pc) && !s.pc.Ended? && Enabled(cfg, s, step) && !step.Answer? && !step.Break?
    ensures !Next(cfg, s, step).pc.Ended?
  {
  }

  /** No retrieval is forgotten: whenever the worker waits for its next input, every retrieval holds a
      slot, or has an open query and a timer of its current generation, or is queued. A queued one is
      really in the queue and every slot is taken; a finished one still holds its slot. */
  lemma NoRetrievalStalls(cfg: Config, validators: set<PeerId>, r: Run, n: nat, id: VerificationId)
    requires IsRun(cfg, validators, r) && n < |r.states|
    requires r.states[n].pc.Idle? && !r.states[n].draining && id in r.states[n].w.retrievals
    ensures var w := r.states[n].w;
            var x := w.retrievals[id];
            && (x.active.Some? || (x.query.Some? && HasWake(w.wakes, id, x)) || x.queued)
            && (x.queued ==> id in w.pending && w.active == cfg.retrieval.maxActive)
            && (x.finished ==> x.active.Some?)
  {
    RunInv(cfg, validators, r, n);
    var w := r.states[n].w;
    assert Parked(Idle, id, w.retrievals[id]) && ScheduledOk(w.pending, w.wakes, id, w.retrievals[id]);
  }

  // ---------------------------------------------------------------- a retrieval's own life

  /** What a retrieval never loses while it is tracked: its deadlines once set, its history. */
  predicate Ages(x: Retrieval, y: Retrieval) {
    && (x.discoveryDeadline.Some? ==> y.discoveryDeadline == x.discoveryDeadline)
    && (x.transferDeadline.Some? ==> y.transferDeadline == x.transferDeadline)
    && x.accepted <= y.accepted && x.attempted <= y.attempted && x.retryRound <= y.retryRound
    && (x.finished ==> y.finished)
  }

  /** Its timer generation stays or moves on by one. */
  predicate Turns(x: Retrieval, y: Retrieval) {
    y.generation == x.generation || y.generation == NextGeneration(x.generation)
  }

  predicate AgesAt(w: Worker, w': Worker, id: VerificationId) {
    id in w.retrievals && id in w'.retrievals ==>
      Ages(w.retrievals[id], w'.retrievals[id]) && Turns(w.retrievals[id], w'.retrievals[id])
  }

  lemma QueueingAges(w: Worker, id: VerificationId, x: VerificationId)
    ensures AgesAt(w, EnsureEntry(w, id), x) && AgesAt(w, Enqueue(w, id), x) && AgesAt(w, StopRetrieval(w, id), x)
    ensures AgesAt(w, ClearQuery(w, id), x) && AgesAt(w, Enqueue(ClearQuery(w, id), id), x)
    ensures AgesAt(w, Enqueue(EnsureEntry(w, id), id), x)
  {
  }

  lemma FinishingAges(w: Worker, e: DriverEvent, reply: StoreReply, now: nat, x: VerificationId)
    requires IsCompletion(e)
    ensures AgesAt(w, Finished(w, e, reply, now), x)
  {
  }

  lemma EventAges(s: P2p, e: DriverEvent, reply: StoreReply, waiting: seq<VerificationId>, x: VerificationId)
    ensures AgesAt(s.w, HandleEvent(s, e, reply, waiting).w, x)
  {
    if IsCompletion(e) {
      FinishingAges(s.w, e, reply, s.now, x);
    } else if e.ProvidersDiscovered? {
      QueueingAges(s.w, e.id, x);
    }
  }

  lemma WakingAges(s: P2p, wake: Wake, x: VerificationId)
    ensures AgesAt(s.w, FireWake(s, wake).w, x)
  {
  }

  lemma DrivingAges(cfg: Config, s: P2p, x: VerificationId)
    requires s.pc.Driving?
    ensures AgesAt(s.w, DriveHead(cfg, s).w, x)
  {
  }

  lemma AcceptAges(cfg: RetrievalConfig, w: Worker, id: VerificationId, request: nat, peer: PeerId, now: nat, x: VerificationId)
    ensures AgesAt(w, Accept(cfg, w, id, request, peer, now), x) && AgesAt(w, MarkAttempted(w, id, peer), x)
  {
  }

  lemma ReplyAges(cfg: Config, s: P2p, x: VerificationId)
    requires s.pc.Replied?
    ensures AgesAt(s.w, HandleReply(cfg, s).w, x)
  {
    QueueingAges(s.w, s.pc.id, x);
    AcceptAges(cfg.retrieval, s.w, s.pc.id, if s.pc.reply.Ok? then s.pc.reply.value else 0, s.pc.peer, s.now, x);
  }

  lemma AskingAges(cfg: Config, s: P2p, choice: Option<PeerId>, delay: nat, x: VerificationId)
    ensures s.pc.Picking? && s.pc.id in s.w.retrievals ==> AgesAt(s.w, PickProvider(cfg, s, choice).w, x)
    ensures s.pc.QueryReplied? ==> AgesAt(s.w, HandleQueryReply(cfg, s, delay).w, x)
  {
    if HasHand(s.pc) { QueueingAges(s.w, s.pc.id, x); }
  }

  lemma StepAges(cfg: Config, s: P2p, step: Step, x: VerificationId)
    requires Enabled(cfg, s, step)
    ensures AgesAt(s.w, Next(cfg, s, step).w, x)
  {
    match step
    case TakeEvent(reply, waiting) => EventAges(s.(channel := s.channel[1..]), s.channel[0], reply, waiting, x);
    case TakeStoreEvent(e) => QueueingAges(s.w, e.id, x);
    case EnsureNext(waits) => QueueingAges(s.w, s.pc.todo[0], x);
    case DriveNext => DrivingAges(cfg, s, x);
    case Pick(choice) => AskingAges(cfg, s, choice, 0, x);
    case TakeReply => ReplyAges(cfg, s, x);
    case TakeQueryReply(delay) => AskingAges(cfg, s, None, delay, x);
    case Fire(wake) => WakingAges(s, wake, x);
    case _ =>
  }

  /** The id is tracked in every state from the m-th to the n-th. */
  ghost predicate TrackedThroughout(r: Run, m: nat, n: nat, id: VerificationId)
    requires m <= n < |r.states|
  {
    forall i :: m <= i <= n ==> id in r.states[i].w.retrievals
  }

  /** While a retrieval is tracked its two deadlines are set at most once each, its backoff round never
      falls, no attempted peer is forgotten, and the requests made for it only accumulate: each went to a
      peer not asked before, so a retrieval makes at most one request per peer. */
  lemma {:induction false} RetrievalAges(cfg: Config, validators: set<PeerId>, r: Run, m: nat, n: nat, id: VerificationId)
    requires IsRun(cfg, validators, r) && m <= n < |r.states| && TrackedThroughout(r, m, n, id)
    ensures Ages(r.states[m].w.retrievals[id], r.states[n].w.retrievals[id])
    ensures NoDuplicates(r.states[n].w.retrievals[id].accepted)
    decreases n
  {
    RunInv(cfg, validators, r, n);
    assert id in r.states[m].w.retrievals && id in r.states[n].w.retrievals;
    assert RetrievalOk(r.states[n].w.retrievals[id]);
    if m < n {
      RetrievalAges(cfg, validators, r, m, n - 1, id);
      assert StepOk(cfg, r, n - 1);
      StepAges(cfg, r.states[n - 1], r.steps[n - 1], id);
    }
  }

  // ---------------------------------------------------------------- deadlines

  /** A step that decides what to do next about one retrieval. */
  predicate Decides(s: P2p, step: Step, id: VerificationId)
    requires id in s.w.retrievals
  {
    var x := s.w.retrievals[id];
    match step
    case TakeEvent(_, _) => s.channel != [] && IsCompletion(s.channel[0]) && s.channel[0].id == id
    case Fire(wake) => wake.id == id && wake.generation == x.generation && x.active.None?
    case Pick(choice) =>
      && s.pc.Picking? && s.pc.id == id
      && (if choice.Some? then x.transferDeadline.Some? else x.query.None?)
    case _ => false
  }

  /** Past its deadline a retrieval ends at the next step that decides about it, whatever the network or
      the store answered. */
  lemma PastDeadlineEnds(cfg: Config, s: P2p, step: Step, id: VerificationId)
    requires Inv(cfg, s) && Enabled(cfg, s, step) && id in s.w.retrievals && Decides(s, step, id)
    requires Passed(ActiveDeadline(s.w.retrievals[id]), s.now)
    ensures id !in Next(cfg, s, step).w.retrievals
  {
    match step
    case TakeEvent(reply, waiting) =>
      assert Held(s.w, s.pc, id).Some?;
      assert RetrievalOk(s.w.retrievals[id]);
    case Fire(wake) => LiveWakeEnds(s, wake);
    case Pick(choice) => assert s.w.retrievals[id].active.None?;
  }

  lemma LiveWakeEnds(s: P2p, wake: Wake)
    requires AllOk(s.w.retrievals) && wake.id in s.w.retrievals
    requires s.w.retrievals[wake.id].generation == wake.generation && s.w.retrievals[wake.id].active.None?
    requires Passed(ActiveDeadline(s.w.retrievals[wake.id]), s.now)
    ensures wake.id !in FireWake(s, wake).w.retrievals
  {
    assert RetrievalOk(s.w.retrievals[wake.id]);
  }

  /** The one timer an availability query schedules: of the retrieval's new generation, no sooner than
      now, within the capped exponential backoff, and not beyond the deadline unless that has passed. */
  lemma TimerBounds(cfg: RetrievalConfig, w: Worker, id: VerificationId, query: QueryId, delay: nat, now: nat)
    requires id in w.retrievals
    ensures var w' := OpenQuery(cfg, w, id, query, delay, now);
            var x := w'.retrievals[id];
            && ActiveDeadline(x).Some?
            && exists due: nat ::
                 && w'.wakes == w.wakes + multiset{Wake(id, x.generation, due)}
                 && now <= due <= now + cfg.maxBackoff
                 && due <= now + cfg.initialBackoff * Pow2(Min(w.retrievals[id].retryRound, 31))
                 && (due == now || due <= ActiveDeadline(x).value)
  {
    var x := w.retrievals[id].(
      discoveryDeadline := OrElse(w.retrievals[id].discoveryDeadline, now + cfg.timeout), query := Some(query));
    var w', due := OpenQuery(cfg, w, id, query, delay, now), now + Min(delay, MaxDelay(cfg, x, now));
    assert w'.wakes == w.wakes + multiset{Wake(id, w'.retrievals[id].generation, due)};
  }

  /** The backoff cap doubles from the initial value until it meets the configured maximum, and stays there
      when the round counter goes on. */
  lemma BackoffDoubles(cfg: RetrievalConfig, round: nat)
    ensures RetryCap(cfg, 0) == Min(cfg.initialBackoff, cfg.maxBackoff)
    ensures RetryCap(cfg, round) <= RetryCap(cfg, round + 1) <= cfg.maxBackoff
    ensures round < 31 ==> RetryCap(cfg, round + 1) == Min(2 * RetryCap(cfg, round), cfg.maxBackoff)
    ensures round >= 31 ==> RetryCap(cfg, round) == RetryCap(cfg, 31)
  {
    if round < 31 { assert cfg.initialBackoff * Pow2(round + 1) == 2 * (cfg.initialBackoff * Pow2(round)); }
  }

  /** The failure event carries the peer the swarm names. It releases the slot of the request it ends
      exactly when that is the peer the request was sent to; otherwise the request is gone from the wire
      and its slot stays taken. */
  lemma FailureReleasesIffPeerMatches(cfg: Config, s: P2p, oid: nat, peer: PeerId)
    requires Inv(cfg, s) && !Accepting(s.pc) && oid in s.driver.outbound
    ensures var request := s.driver.outbound[oid];
            var (d, events) := HandleFailure(s.driver, oid, peer);
            && |events| == 1 && IsCompletion(events[0]) && oid !in d.outbound
            && (ActiveOf(Finished(s.w, events[0], Stored, s.now), request.id).None? <==> peer == request.peer)
  {
    var request := s.driver.outbound[oid];
    assert Held(s.w, s.pc, request.id) == Some((request.appId, request.peer));
    if peer == request.peer {
      FinishReleases(cfg.retrieval, s.w, request.id, request.appId, peer, false, s.now);
    }
  }
}
