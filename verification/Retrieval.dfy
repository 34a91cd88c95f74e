/** Per-id retrieval bookkeeping of the P2P worker (src/p2p/worker.rs). Each function is one of the
    worker's methods between two awaits. */
module Retrieval {
  import opened Common
  import opened Proofs
  import opened Records
  import opened JobExecution
  import opened DriverModel

  datatype RetrievalConfig = RetrievalConfig(maxActive: nat, timeout: nat, initialBackoff: nat, maxBackoff: nat)

  datatype Retrieval = Retrieval(
    discoveryDeadline: Option<nat>,
    transferDeadline: Option<nat>,
    attempted: set<PeerId>,
    active: Option<(nat, PeerId)>,
    query: Option<QueryId>,
    retryRound: nat,
    generation: nat,
    queued: bool,
    finished: bool,
    accepted: seq<PeerId>)   // history: peers whose request the driver accepted, in order

  datatype Wake = Wake(id: VerificationId, generation: nat, due: nat)

  datatype Worker = Worker(
    retrievals: map<VerificationId, Retrieval>,
    pending: seq<VerificationId>,
    active: nat,
    wakes: multiset<Wake>)

  const NEW: Retrieval := Retrieval(None, None, {}, None, None, 0, 0, false, false, [])

  function NextGeneration(g: nat): nat { if g == U64_MAX then 0 else g + 1 }

  function NextRound(n: nat): nat { if n == U32_MAX then n else n + 1 }

  function ActiveDeadline(r: Retrieval): Option<nat> {
    if r.transferDeadline.Some? then r.transferDeadline else r.discoveryDeadline
  }

  predicate Passed(deadline: Option<nat>, now: nat) { deadline.Some? && now >= deadline.value }

  function Min(a: nat, b: nat): nat { if a < b then a else b }

  function RetryCap(cfg: RetrievalConfig, round: nat): nat {
    Min(cfg.initialBackoff * Pow2(Min(round, 31)), cfg.maxBackoff)
  }

  function OrElse(deadline: Option<nat>, t: nat): Option<nat> {
    if deadline.Some? then deadline else Some(t)
  }

  // ---------------------------------------------------------------- methods

  function EnsureEntry(w: Worker, id: VerificationId): Worker {
    if id in w.retrievals then w else w.(retrievals := w.retrievals[id := NEW])
  }

  function Enqueue(w: Worker, id: VerificationId): Worker {
    if id !in w.retrievals then w
    else
      var r := w.retrievals[id];
      if r.queued || r.active.Some? || r.finished then w
      else w.(retrievals := w.retrievals[id := r.(queued := true)], pending := w.pending + [id])
  }

  function StopRetrieval(w: Worker, id: VerificationId): Worker {
    if id !in w.retrievals then w
    else
      var r := w.retrievals[id].(finished := true, queued := false, query := None,
                                 generation := NextGeneration(w.retrievals[id].generation));
      if r.active.None? then w.(retrievals := w.retrievals - {id})
      else w.(retrievals := w.retrievals[id := r])
  }

  /** A request the retrieval does not own is ignored. */
  function FinishRequest(w: Worker, id: VerificationId, request: nat, peer: PeerId, succeeded: bool, now: nat): Worker {
    if id !in w.retrievals || w.retrievals[id].active != Some((request, peer)) then w
    else
      var r := w.retrievals[id].(active := None);
      var released := w.(active := if w.active == 0 then 0 else w.active - 1);
      if succeeded || r.finished || Passed(ActiveDeadline(r), now)
      then released.(retrievals := w.retrievals - {id})
      else Enqueue(released.(retrievals := w.retrievals[id := r.(attempted := r.attempted + {peer})]), id)
  }

  function ClearQuery(w: Worker, id: VerificationId): Worker {
    if id !in w.retrievals then w
    else
      var r := w.retrievals[id];
      w.(retrievals := w.retrievals[id := r.(query := None, generation := NextGeneration(r.generation))])
  }

  /** The driver accepted the request: the retrieval owns one slot. */
  function Accept(cfg: RetrievalConfig, w: Worker, id: VerificationId, request: nat, peer: PeerId, now: nat): Worker {
    if id !in w.retrievals then w
    else
      var r := w.retrievals[id];
      w.(retrievals := w.retrievals[id := r.(
           transferDeadline := OrElse(r.transferDeadline, now + cfg.timeout),
           query := None, generation := NextGeneration(r.generation), active := Some((request, peer)),
           accepted := r.accepted + [peer])],
         active := w.active + 1)
  }

  function MarkAttempted(w: Worker, id: VerificationId, peer: PeerId): Worker {
    if id !in w.retrievals then w
    else w.(retrievals := w.retrievals[id := w.retrievals[id].(attempted := w.retrievals[id].attempted + {peer})])
  }

  /** Longest delay schedule_retry may choose: the capped backoff, cut to the time left. */
  function MaxDelay(cfg: RetrievalConfig, r: Retrieval, now: nat): nat
    requires ActiveDeadline(r).Some?
  {
    var deadline := ActiveDeadline(r).value;
    Min(RetryCap(cfg, r.retryRound), if deadline > now then deadline - now else 0)
  }

  /** A query went out: remember it, start the discovery clock once, and schedule one wake after a
      random delay of at most MaxDelay. */
  function OpenQuery(cfg: RetrievalConfig, w: Worker, id: VerificationId, query: QueryId, delay: nat, now: nat): Worker {
    if id !in w.retrievals then w
    else
      var r := w.retrievals[id].(
        discoveryDeadline := OrElse(w.retrievals[id].discoveryDeadline, now + cfg.timeout), query := Some(query));
      var g := NextGeneration(r.generation);
      w.(retrievals := w.retrievals[id := r.(retryRound := NextRound(r.retryRound), generation := g)],
         wakes := w.wakes + multiset{Wake(id, g, now + Min(delay, MaxDelay(cfg, r, now)))})
  }

  /** What a wake changes before the queue is driven; None when it acts on nothing. */
  function WakeUp(w: Worker, wake: Wake, now: nat): (Worker, bool) {
    var fired := w.(wakes := w.wakes - multiset{wake});
    if wake.id !in w.retrievals then (fired, false)
    else
      var r := w.retrievals[wake.id];
      if r.generation != wake.generation || r.finished then (fired, false)
      else
        var cleared := fired.(retrievals := w.retrievals[wake.id := r.(query := None)]);
        if Passed(ActiveDeadline(r), now) then (StopRetrieval(cleared, wake.id), false)
        else (Enqueue(cleared, wake.id), true)
  }

  /** Stopping every retrieval whose id no longer waits for content. */
  function StopAllBut(w: Worker, waiting: set<VerificationId>): Worker {
    w.(retrievals := map id | id in w.retrievals && (id in waiting || w.retrievals[id].active.Some?) ::
         if id in waiting then w.retrievals[id]
         else w.retrievals[id].(finished := true, queued := false, query := None,
                                generation := NextGeneration(w.retrievals[id].generation)))
  }

  // ---------------------------------------------------------------- local facts

  ghost function ActiveIds(m: map<VerificationId, Retrieval>): set<VerificationId> {
    set id | id in m && m[id].active.Some?
  }

  /** A wake of the current generation is scheduled. */
  ghost predicate HasWake(wakes: multiset<Wake>, id: VerificationId, r: Retrieval) {
    ActiveDeadline(r).Some? && exists due: nat :: Wake(id, r.generation, due) in wakes
  }

  /** Soundness of one retrieval by itself. No peer is asked twice: every accepted request went to a peer
      that is now being waited for or has since been ruled out. */
  ghost predicate RetrievalOk(r: Retrieval) {
    && (r.finished ==> r.active.Some? && r.query.None?)
    && (r.active.Some? ==> !r.queued && r.transferDeadline.Some? && r.active.value.1 !in r.attempted)
    && r.generation <= U64_MAX
    && NoDuplicates(r.accepted)
    && (forall p :: p in r.accepted ==> p in r.attempted || (r.active.Some? && r.active.value.1 == p))
  }

  /** What is scheduled for it: a queued retrieval is in the queue, an open query has a timer. */
  ghost predicate ScheduledOk(pending: seq<VerificationId>, wakes: multiset<Wake>, id: VerificationId, r: Retrieval) {
    && (r.queued ==> id in pending)
    && (r.query.Some? ==> HasWake(wakes, id, r))
  }

  ghost predicate AllOk(m: map<VerificationId, Retrieval>) { forall id :: id in m ==> RetrievalOk(m[id]) }

  ghost predicate AllScheduled(w: Worker) {
    forall id :: id in w.retrievals ==> ScheduledOk(w.pending, w.wakes, id, w.retrievals[id])
  }

  ghost predicate SlotsOk(cfg: RetrievalConfig, w: Worker) {
    w.active == |ActiveIds(w.retrievals)| && w.active <= cfg.maxActive
  }
}
