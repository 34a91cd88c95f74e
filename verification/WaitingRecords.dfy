/** The proof store, its broadcast and the P2P worker together: what becomes of a record that was observed on
    the chain and has no content yet (src/p2p/worker.rs, handle_store_event, ensure_retrieval and
    reconcile_store). The worker is that of P2pSystem, with the store's answers no longer arbitrary: it reads
    the events the store sent, asks the store whether a record waits, and attaches what it downloads. */
module WaitingRecords {
  import opened Common
  import opened Proofs
  import opened Records
  import opened StoreOps
  import opened Retrieval
  import P = P2pSystem
  import P2pInvariant
  import RetrievalLives
  import L = LocalIndex

  datatype Config = Config(limits: Limits, p2p: P.Config, eventBuffer: nat)

  /** The record was observed and has no content. */
  predicate Waits(st: Store, id: VerificationId) {
    id in st.entries && st.entries[id].record.chainObservedAt.Some? && st.entries[id].record.proof.None?
  }

  /** Where the worker is in reconcile_store: before the snapshot of the waiting records, in it, or not in
      it at all; then `p.pc` says where it is. */
  datatype Stage = Due | Walking(unvisited: set<VerificationId>, found: seq<VerificationId>) | Working

  datatype Sys = Sys(
    store: Store,
    unpublished: multiset<Event>,
    queue: seq<Event>,
    lagged: bool,
    p: P.P2p,
    stage: Stage)

  datatype Step =
    | StoreCall(call: L.Call)                              // by whichever other task
    | Evicting(id: VerificationId, cause: EvictionCause)
    | Sending(event: Event)
    | Receive
    | ReceiveLag
    | BeginReconcile                                       // a peer connected
    | BeginWalk
    | Visit(id: VerificationId)
    | EndWalk(connected: bool)                             // whether the reconcile was for a connection
    | Attach                                               // a downloaded proof
    | Work(step: P.Step)                                   // every other step of worker, driver and clock

  // ---------------------------------------------------------------- transitions

  function Downloaded(cfg: Config, s: Sys): Result<Commit, StoreError>
    requires s.p.channel != [] && s.p.channel[0].ProofReceived?
  {
    var e := s.p.channel[0];
    AttachDownloaded(cfg.limits, s.store, e.id, e.proof, e.peer, s.p.now)
  }

  function ReplyOf(r: Result<Commit, StoreError>): P.StoreReply {
    match r
    case Ok(_) => P.Stored
    case Err(ProofNotObserved(_)) => P.NotObserved
    case Err(_) => P.Refused
  }

  function Send(cfg: Config, s: Sys, e: Event): Sys {
    if |s.queue| < cfg.eventBuffer then s.(queue := s.queue + [e])
    else s.(queue := (s.queue + [e])[1..], lagged := true)
  }

  function Committed(s: Sys, c: Commit): Sys {
    s.(store := c.store, unpublished := s.unpublished + multiset(c.events))
  }

  predicate AtRest(s: Sys) { s.stage.Working? && s.p.pc.Idle? }

  /** The step of P2pSystem that this step is, if any. */
  function OwnStep(cfg: Config, s: Sys, step: Step): Option<P.Step> {
    match step
    case Receive => if s.queue == [] then None else Some(P.TakeStoreEvent(s.queue[0]))
    case EndWalk(connected) =>
      if !s.stage.Walking? then None
      else Some(if connected then P.TakeEvent(P.Stored, s.stage.found) else P.Reconcile(s.stage.found))
    case Attach =>
      if s.p.channel == [] || !s.p.channel[0].ProofReceived? then None
      else Some(P.TakeEvent(ReplyOf(Downloaded(cfg, s)), []))
    case Work(own) => Some(own)
    case _ => None
  }

  /** The steps of P2pSystem that need nothing from the store but what it holds now. */
  ghost predicate WorkOk(cfg: Config, s: Sys, own: P.Step) {
    match own
    case DriverRuns(_) | Tick(_) => true
    case TakeEvent(_, waiting) =>
      && s.stage.Working? && waiting == [] && s.p.channel != []
      && !s.p.channel[0].ProofReceived? && (s.p.channel[0].PeerConnected? ==> s.p.draining)
    case TakeStoreEvent(_) | Reconcile(_) => false
    case EnsureNext(waits) =>
      s.stage.Working? && s.p.pc.Ensuring? && s.p.pc.todo != [] && (waits <==> Waits(s.store, s.p.pc.todo[0]))
    case Answer(limits, st, _) => s.stage.Working? && limits == cfg.limits && st == s.store
    case Break(_) => !s.stage.Walking?
    case _ => s.stage.Working?
  }

  ghost predicate Enabled(cfg: Config, s: Sys, step: Step) {
    && (match step
        case StoreCall(_) => true
        case Evicting(id, _) => id in s.store.entries
        case Sending(e) => e in s.unpublished
        case Receive => AtRest(s) && !s.lagged && s.queue != []
        case ReceiveLag => AtRest(s) && s.lagged
        case BeginReconcile => AtRest(s) && !s.p.draining
        case BeginWalk => s.stage.Due? && s.p.pc.Idle?
        case Visit(id) => s.stage.Walking? && id in s.stage.unvisited
        case EndWalk(connected) =>
          && s.stage.Walking? && s.stage.unvisited == {} && s.p.pc.Idle? && !s.p.draining
          && (connected ==> s.p.channel != [] && s.p.channel[0].PeerConnected?)
        case Attach => AtRest(s) && s.p.channel != [] && s.p.channel[0].ProofReceived?
        case Work(own) => WorkOk(cfg, s, own))
    && (OwnStep(cfg, s, step).Some? ==> P.Enabled(cfg.p2p, s.p, OwnStep(cfg, s, step).value))
  }

  /** What happens outside P2pSystem. */
  function Around(cfg: Config, s: Sys, step: Step): Sys {
    match step
    case StoreCall(call) => Committed(s, L.Commits(cfg.limits, s.store, call, s.p.now))
    case Evicting(id, cause) => Send(cfg, s.(store := Evict(s.store, id)), ProofEvicted(id, cause))
    case Sending(e) => Send(cfg, s.(unpublished := s.unpublished - multiset{e}), e)
    case Receive => if s.queue == [] then s else s.(queue := s.queue[1..])
    case ReceiveLag => s.(lagged := false, stage := if s.p.draining then Working else Due)
    case BeginReconcile => s.(stage := Due)
    case BeginWalk => s.(stage := Walking(s.store.entries.Keys, []))
    case Visit(id) =>
      if !s.stage.Walking? then s
      else
        var found := if Waits(s.store, id) then s.stage.found + [id] else s.stage.found;
        s.(stage := Walking(s.stage.unvisited - {id}, found))
    case EndWalk(_) => s.(stage := Working)
    case Attach =>
      if s.p.channel == [] || !s.p.channel[0].ProofReceived? then s
      else Committed(s, L.OrRefused(s.store, Downloaded(cfg, s)))
    case Work(_) => s
  }

  ghost function Next(cfg: Config, s: Sys, step: Step): Sys
    requires Enabled(cfg, s, step)
  {
    var own := OwnStep(cfg, s, step);
    Around(cfg, s, step).(p := if own.Some? then P.Next(cfg.p2p, s.p, own.value) else s.p)
  }

  function Initial(cfg: Config, st: Store, validators: set<PeerId>): Sys {
    Sys(st, multiset{}, [], false, P.Initial(cfg.p2p, validators), Due)
  }

  // ---------------------------------------------------------------- the invariant

  ghost predicate UnreadAfter(queue: seq<Event>, id: VerificationId, k: int) {
    exists i :: 0 <= i < |queue| && k < i && queue[i] == VerificationObserved(id)
  }

  /** An observation of the id is still to be sent, or to be read after place k of the queue. */
  ghost predicate Noticed(unpublished: multiset<Event>, queue: seq<Event>, id: VerificationId, k: int) {
    VerificationObserved(id) in unpublished || UnreadAfter(queue, id, k)
  }

  /** A record that waits again after an unread eviction is announced by a later event. */
  ghost predicate OrderOk(st: Store, unpublished: multiset<Event>, queue: seq<Event>) {
    forall id, k :: 0 <= k < |queue| && L.EvictedOf(queue[k], id) && Waits(st, id) ==> Noticed(unpublished, queue, id, k)
  }

  ghost predicate Inv(cfg: Config, s: Sys) {
    && StoreOk(cfg.limits, s.store)
    && P.Inv(cfg.p2p, s.p)
    && L.OwedOk(s.unpublished)
    && OrderOk(s.store, s.unpublished, s.queue)
    && (!s.stage.Working? ==> (s.p.pc.Idle? || s.p.pc.Ended?) && !s.p.draining)
  }

  // ---------------------------------------------------------------- who takes care of a waiting record

  predicate Over(s: Sys) { s.p.draining || s.p.pc.Ended? }

  /** What reconcile_store has yet to ensure. */
  function Todo(pc: P.Pc): seq<VerificationId> {
    match pc
    case Ensuring(todo) => todo
    case Driving(todo) => todo
    case Picking(_, todo) => todo
    case Requesting(_, _, todo) => todo
    case Replied(_, _, _, todo) => todo
    case Querying(_, todo) => todo
    case QueryReplied(_, _, _, todo) => todo
    case _ => []
  }

  /** The worker has it in hand. During the snapshot a retrieval does not count: what the snapshot does not
      find waiting is stopped. */
  predicate Tended(s: Sys, id: VerificationId) {
    match s.stage
    case Due => true
    case Walking(unvisited, found) => id in unvisited || id in found
    case Working => id in s.p.w.retrievals || id in Todo(s.p.pc)
  }

  /** Until the worker is stopped or ends: it has the record in hand, will learn of it from an event, or will
      reconcile because events were lost. */
  ghost predicate Covered(s: Sys, id: VerificationId) {
    Over(s) || s.lagged || Noticed(s.unpublished, s.queue, id, -1) || Tended(s, id)
  }

  /** The step gives up a retrieval although the record may still wait: a late event about an earlier life of
      the record, a request that failed after the retrieval was stopped or past its deadline, a deadline
      that has passed, a driver that drains. */
  predicate GivesUp(cfg: Config, s: Sys, step: Step, id: VerificationId)
    requires id in s.p.w.retrievals
  {
    match step
    case Receive =>
      && s.queue != [] && (s.queue[0].ProofStored? || s.queue[0].VerificationChanged?) && s.queue[0].id == id
      && s.p.w.retrievals[id].active.None?
    case Attach =>
      && s.p.channel != [] && s.p.channel[0].ProofReceived? && ReplyOf(Downloaded(cfg, s)).Refused?
      && RetrievalLives.CompletionDrops(s.p.channel[0], P.Refused, id, s.p.w.retrievals[id], s.p.now)
    case Work(own) => !own.EnsureNext? && !own.Break? && RetrievalLives.Drops(s.p, own, id)
    case _ => false
  }

  /** The step leaves a waiting record with nobody to take care of it. */
  ghost predicate Loses(cfg: Config, s: Sys, step: Step, id: VerificationId) {
    && s.stage.Working? && Waits(s.store, id) && id in s.p.w.retrievals
    && !Over(s) && !s.lagged && !Noticed(s.unpublished, s.queue, id, -1) && id !in Todo(s.p.pc)
    && GivesUp(cfg, s, step, id)
  }

  // ---------------------------------------------------------------- the store's side

  /** A record starts to wait only together with an owed observation. */
  ghost predicate WaitEffect(st: Store, c: Commit) {
    && (forall e :: e in c.events ==> !e.ProofEvicted?)
    && (forall id :: Waits(c.store, id) && !Waits(st, id) ==> VerificationObserved(id) in c.events)
  }

  lemma OneKeyWait(st: Store, c: Commit, id: VerificationId)
    requires c.store == st || (id in c.store.entries && c.store.entries == st.entries[id := c.store.entries[id]])
    requires forall e :: e in c.events ==> !e.ProofEvicted?
    requires Waits(c.store, id) && !Waits(st, id) ==> VerificationObserved(id) in c.events
    ensures WaitEffect(st, c)
  {
  }

  lemma CallWaits(cfg: Limits, st: Store, call: L.Call, now: nat)
    requires StoreOk(cfg, st)
    ensures var c := L.Commits(cfg, st, call, now); StoreOk(cfg, c.store) && WaitEffect(st, c)
  {
    L.CallContent(cfg, st, call, now);
    var c := L.Commits(cfg, st, call, now);
    match call
    case Observing(id) =>
      ObserveEffect(cfg, st, id, now);
      OneKeyWait(st, c, id);
    case Inserting(proof, source) =>
      InsertLocalEffect(cfg, st, proof, source, now);
      OneKeyWait(st, c, IdOf(cfg.sha, proof));
    case Attaching(id, proof, peer) =>
      AttachEffect(cfg, st, id, proof, peer, now);
      OneKeyWait(st, c, id);
    case Retrying(id) =>
      RetryEffect(cfg, st, id, now);
      OneKeyWait(st, c, id);
    case Beginning(id) =>
      BeginEffect(cfg, st, id, now);
      OneKeyWait(st, c, id);
    case Finishing(job, outcome) =>
      FinishEffect(cfg, st, job, outcome, now);
      OneKeyWait(st, c, job.id);
  }

  /** Committing loses no notice and gives one for every record that starts to wait. */
  lemma CommitNotices(s: Sys, c: Commit, id: VerificationId, k: int)
    requires WaitEffect(s.store, c)
    ensures var s' := Committed(s, c);
            && (Noticed(s.unpublished, s.queue, id, k) ==> Noticed(s'.unpublished, s'.queue, id, k))
            && (Waits(c.store, id) && !Waits(s.store, id) ==> Noticed(s'.unpublished, s'.queue, id, k))
  {
  }

  lemma CommitKeeps(s: Sys, c: Commit)
    requires WaitEffect(s.store, c) && L.OwedOk(s.unpublished) && OrderOk(s.store, s.unpublished, s.queue)
    ensures var s' := Committed(s, c); L.OwedOk(s'.unpublished) && OrderOk(s'.store, s'.unpublished, s'.queue)
  {
    var s' := Committed(s, c);
    forall e | e in s'.unpublished ensures !e.ProofEvicted? { assert e in s.unpublished || e in c.events; }
    forall id, k | 0 <= k < |s.queue| && L.EvictedOf(s.queue[k], id) && Waits(c.store, id)
      ensures Noticed(s'.unpublished, s.queue, id, k)
    {
      CommitNotices(s, c, id, k);
    }
  }

  // ---------------------------------------------------------------- the broadcast

  /** Delivery moves notices up by the entries dropped; dropping one raises the lag flag. */
  lemma SendNotices(cfg: Config, s: Sys, e: Event, id: VerificationId, k: int)
    requires cfg.eventBuffer >= 1 && k >= -1
    ensures var s', shift := Send(cfg, s, e), if |s.queue| < cfg.eventBuffer then 0 else 1;
            && (UnreadAfter(s.queue, id, k + shift) ==> UnreadAfter(s'.queue, id, k))
            && (e == VerificationObserved(id) && k + shift < |s.queue| ==> UnreadAfter(s'.queue, id, k))
            && (s'.lagged || (shift == 0 && s'.lagged == s.lagged))
  {
    var s', shift := Send(cfg, s, e), if |s.queue| < cfg.eventBuffer then 0 else 1;
    assert s'.queue[|s.queue| - shift] == e;
    if UnreadAfter(s.queue, id, k + shift) {
      var i :| 0 <= i < |s.queue| && k + shift < i && s.queue[i] == VerificationObserved(id);
      assert s'.queue[i - shift] == s.queue[i];
    }
  }

  /** Sending an event, with a store in which nothing new waits and whatever is no longer owed sent. */
  lemma DeliveryKeepsOrder(cfg: Config, s: Sys, st: Store, owed: multiset<Event>, e: Event)
    requires cfg.eventBuffer >= 1 && OrderOk(s.store, s.unpublished, s.queue)
    requires forall id :: Waits(st, id) ==> Waits(s.store, id) && !L.EvictedOf(e, id)
    requires forall x :: x in s.unpublished ==> x in owed || x == e
    ensures OrderOk(st, owed, Send(cfg, s, e).queue)
  {
    var s', shift := Send(cfg, s, e), if |s.queue| < cfg.eventBuffer then 0 else 1;
    forall id, k | 0 <= k < |s'.queue| && L.EvictedOf(s'.queue[k], id) && Waits(st, id)
      ensures Noticed(owed, s'.queue, id, k)
    {
      assert k + shift < |s.queue| && s'.queue[k] == s.queue[k + shift];
      assert Noticed(s.unpublished, s.queue, id, k + shift);
      SendNotices(cfg, s, e, id, k);
    }
  }

  lemma DeliveryKeepsNotice(cfg: Config, s: Sys, owed: multiset<Event>, e: Event, id: VerificationId)
    requires cfg.eventBuffer >= 1 && forall x :: x in s.unpublished ==> x in owed || x == e
    requires Noticed(s.unpublished, s.queue, id, -1) || s.lagged
    ensures Noticed(owed, Send(cfg, s, e).queue, id, -1) || Send(cfg, s, e).lagged
  {
    SendNotices(cfg, s, e, id, -1);
  }

  lemma ReadingKeepsOrder(s: Sys)
    requires s.queue != [] && OrderOk(s.store, s.unpublished, s.queue)
    ensures OrderOk(s.store, s.unpublished, s.queue[1..])
  {
    forall id, k | 0 <= k < |s.queue[1..]| && L.EvictedOf(s.queue[1..][k], id) && Waits(s.store, id)
      ensures Noticed(s.unpublished, s.queue[1..], id, k)
    {
      assert L.EvictedOf(s.queue[k + 1], id);
      assert Noticed(s.unpublished, s.queue, id, k + 1);
      ReadingNotices(s.queue, id, k);
    }
  }

  lemma ReadingNotices(queue: seq<Event>, id: VerificationId, k: int)
    requires queue != [] && k >= -1
    ensures UnreadAfter(queue[1..], id, k) <==> UnreadAfter(queue, id, k + 1)
  {
    if UnreadAfter(queue, id, k + 1) {
      var i :| 0 <= i < |queue| && k + 1 < i && queue[i] == VerificationObserved(id);
      assert queue[1..][i - 1] == queue[i];
    }
    if UnreadAfter(queue[1..], id, k) {
      var i :| 0 <= i < |queue[1..]| && k < i && queue[1..][i] == VerificationObserved(id);
      assert queue[i + 1] == queue[1..][i];
    }
  }

  // ---------------------------------------------------------------- the invariant is kept

  lemma StoreSideKeeps(cfg: Config, s: Sys, step: Step)
    requires cfg.eventBuffer >= 1 && StoreOk(cfg.limits, s.store) && L.OwedOk(s.unpublished)
    requires OrderOk(s.store, s.unpublished, s.queue) && (step.Sending? ==> step.event in s.unpublished)
    requires step.Attach? ==> s.p.channel != [] && s.p.channel[0].ProofReceived?
    ensures var s' := Around(cfg, s, step);
            && StoreOk(cfg.limits, s'.store) && L.OwedOk(s'.unpublished) && OrderOk(s'.store, s'.unpublished, s'.queue)
            && (forall id :: Waits(s'.store, id) && !Waits(s.store, id) ==> Noticed(s'.unpublished, s'.queue, id, -1))
  {
    match step
    case StoreCall(call) =>
      CallWaits(cfg.limits, s.store, call, s.p.now);
      CommitSideKeeps(s, L.Commits(cfg.limits, s.store, call, s.p.now));
    case Attach =>
      var e := s.p.channel[0];
      CallWaits(cfg.limits, s.store, L.Attaching(e.id, e.proof, e.peer), s.p.now);
      CommitSideKeeps(s, L.OrRefused(s.store, Downloaded(cfg, s)));
    case Evicting(id, cause) =>
      ReadAndEvictKeepStoreOk(cfg.limits, s.store, id, s.p.now);
      DeliveryKeepsOrder(cfg, s, Evict(s.store, id), s.unpublished, ProofEvicted(id, cause));
    case Sending(e) => DeliveryKeepsOrder(cfg, s, s.store, s.unpublished - multiset{e}, e);
    case Receive => if s.queue != [] { ReadingKeepsOrder(s); }
    case _ =>
  }

  lemma CommitSideKeeps(s: Sys, c: Commit)
    requires WaitEffect(s.store, c) && L.OwedOk(s.unpublished) && OrderOk(s.store, s.unpublished, s.queue)
    ensures var s' := Committed(s, c);
            && L.OwedOk(s'.unpublished) && OrderOk(s'.store, s'.unpublished, s'.queue)
            && (forall id :: Waits(s'.store, id) && !Waits(s.store, id) ==> Noticed(s'.unpublished, s'.queue, id, -1))
  {
    CommitKeeps(s, c);
    forall id | Waits(c.store, id) && !Waits(s.store, id) ensures Noticed(Committed(s, c).unpublished, s.queue, id, -1) {
      CommitNotices(s, c, id, -1);
    }
  }

  lemma OwnSideKeeps(cfg: Config, s: Sys, step: Step)
    requires P.Inv(cfg.p2p, s.p) && Enabled(cfg, s, step)
    ensures P.Inv(cfg.p2p, Next(cfg, s, step).p)
  {
    var own := OwnStep(cfg, s, step);
    if own.Some? { P2pInvariant.NextKeepsInv(cfg.p2p, s.p, own.value); }
  }

  /** In a reconcile the worker does nothing else. */
  lemma StageKept(cfg: Config, s: Sys, step: Step)
    requires Inv(cfg, s) && Enabled(cfg, s, step) && !Next(cfg, s, step).stage.Working?
    ensures var p := Next(cfg, s, step).p; (p.pc.Idle? || p.pc.Ended?) && !p.draining
  {
    match step
    case Work(own) => ReconcilingStays(cfg, s, own);
    case _ =>
  }

  lemma ReconcilingStays(cfg: Config, s: Sys, own: P.Step)
    requires !s.stage.Working? && WorkOk(cfg, s, own) && P.Enabled(cfg.p2p, s.p, own)
    requires (s.p.pc.Idle? || s.p.pc.Ended?) && !s.p.draining
    ensures var p := P.Next(cfg.p2p, s.p, own);
            (p.pc.Idle? || p.pc.Ended?) && !p.draining && (own.Break? ==> p.pc.Ended?) && (!own.Break? ==> p.w == s.p.w)
  {
  }

  lemma NextKeepsInv(cfg: Config, s: Sys, step: Step)
    requires cfg.eventBuffer >= 1 && Inv(cfg, s) && Enabled(cfg, s, step)
    ensures Inv(cfg, Next(cfg, s, step))
  {
    StoreSideKeeps(cfg, s, step);
    OwnSideKeeps(cfg, s, step);
    if !Next(cfg, s, step).stage.Working? { StageKept(cfg, s, step); }
  }

  // ---------------------------------------------------------------- worker steps and what is left to do

  /** What reconcile_store has yet to ensure is kept until it is looked at. */
  lemma TodoKept(cfg: P.Config, p: P.P2p, own: P.Step, id: VerificationId)
    requires P.Enabled(cfg, p, own) && id in Todo(p.pc) && !P.Next(cfg, p, own).pc.Ended?
    ensures id in Todo(P.Next(cfg, p, own).pc) || (own.EnsureNext? && p.pc.todo[0] == id)
  {
    if p.pc.Ensuring? && p.pc.todo[0] != id {
      var i :| 0 <= i < |p.pc.todo| && p.pc.todo[i] == id;
      assert p.pc.todo[1..][i - 1] == id;
    }
  }

  /** A step by which the worker gives something up leaves the rest to do as it was. */
  lemma DropKeepsTodo(cfg: P.Config, p: P.P2p, own: P.Step, id: VerificationId)
    requires P.Enabled(cfg, p, own) && id in p.w.retrievals && RetrievalLives.Drops(p, own, id)
    requires !own.EnsureNext? && !own.Break? && !own.TakeStoreEvent? && !own.Reconcile?
    requires own.TakeEvent? ==> P.IsCompletion(p.channel[0])
    ensures var p' := P.Next(cfg, p, own); Todo(p'.pc) == Todo(p.pc) && !p'.pc.Ended? && p'.draining == p.draining
  {
  }

  lemma OverStays(cfg: P.Config, p: P.P2p, own: P.Step)
    requires P.Enabled(cfg, p, own) && (p.draining || p.pc.Ended?)
    ensures P.Next(cfg, p, own).draining || P.Next(cfg, p, own).pc.Ended?
  {
  }

  // ---------------------------------------------------------------- each step and a waiting record

  /** Steps of the store and its broadcast: the worker is where it was. */
  lemma StoreStepCovers(cfg: Config, s: Sys, step: Step, id: VerificationId)
    requires cfg.eventBuffer >= 1 && StoreOk(cfg.limits, s.store) && L.OwedOk(s.unpublished)
    requires OrderOk(s.store, s.unpublished, s.queue) && (step.Sending? ==> step.event in s.unpublished)
    requires step.StoreCall? || step.Evicting? || step.Sending?
    requires Waits(Around(cfg, s, step).store, id) && (Waits(s.store, id) ==> Covered(s, id))
    ensures Covered(Around(cfg, s, step), id)
  {
    StoreSideKeeps(cfg, s, step);
    if Waits(s.store, id) && (s.lagged || Noticed(s.unpublished, s.queue, id, -1)) {
      match step
      case StoreCall(call) =>
        CallWaits(cfg.limits, s.store, call, s.p.now);
        CommitNotices(s, L.Commits(cfg.limits, s.store, call, s.p.now), id, -1);
      case Evicting(x, cause) => DeliveryKeepsNotice(cfg, s, s.unpublished, ProofEvicted(x, cause), id);
      case Sending(e) => DeliveryKeepsNotice(cfg, s, s.unpublished - multiset{e}, e, id);
    }
  }

  lemma BackgroundCovers(cfg: Config, s: Sys, step: Step, id: VerificationId)
    requires cfg.eventBuffer >= 1 && Inv(cfg, s) && Enabled(cfg, s, step)
    requires step.StoreCall? || step.Evicting? || step.Sending?
    requires Waits(Next(cfg, s, step).store, id) && (Waits(s.store, id) ==> Covered(s, id))
    ensures Covered(Next(cfg, s, step), id)
  {
    assert Next(cfg, s, step) == Around(cfg, s, step);
    StoreStepCovers(cfg, s, step, id);
  }

  /** Steps of the reconcile around its snapshot. */
  lemma WalkStepCovers(cfg: Config, s: Sys, step: Step, id: VerificationId)
    requires Inv(cfg, s) && Enabled(cfg, s, step)
    requires step.ReceiveLag? || step.BeginReconcile? || step.BeginWalk? || step.Visit?
    requires Waits(s.store, id) && Covered(s, id)
    ensures Covered(Next(cfg, s, step), id)
  {
  }

  /** The snapshot done, everything it found is to be ensured. */
  lemma EndWalkCovers(cfg: Config, s: Sys, step: Step, id: VerificationId)
    requires Inv(cfg, s) && Enabled(cfg, s, step) && step.EndWalk? && Covered(s, id)
    ensures Covered(Next(cfg, s, step), id)
  {
    ReconciledTodo(cfg.p2p, s.p, s.stage.found);
  }

  lemma ReconciledTodo(cfg: P.Config, p: P.P2p, found: seq<VerificationId>)
    requires p.pc.Idle? && !p.draining
    ensures Todo(P.Next(cfg, p, P.Reconcile(found)).pc) == found
    ensures p.channel != [] && p.channel[0].PeerConnected? ==>
              Todo(P.Next(cfg, p, P.TakeEvent(P.Stored, found)).pc) == found
  {
  }

  lemma ReceiveCovers(cfg: Config, s: Sys, id: VerificationId)
    requires Inv(cfg, s) && Enabled(cfg, s, Receive) && Waits(s.store, id) && Covered(s, id)
    ensures Covered(Next(cfg, s, Receive), id) <==> !Loses(cfg, s, Receive, id)
  {
    ReadingNotices(s.queue, id, -1);
    HeadNotices(s.queue, id);
    if L.EvictedOf(s.queue[0], id) { assert Noticed(s.unpublished, s.queue, id, 0); }
    EventTaken(cfg.p2p, s.p, s.queue[0], id);
  }

  lemma EventTaken(cfg: P.Config, p: P.P2p, e: Event, id: VerificationId)
    requires p.pc.Idle?
    ensures var p' := P.Next(cfg, p, P.TakeStoreEvent(e));
            && p'.draining == p.draining && !p'.pc.Ended?
            && (!p.draining ==> (id in Todo(p'.pc) <==> e == VerificationObserved(id)))
            && (id in p'.w.retrievals <==>
                && id in p.w.retrievals
                && (p.draining || e.VerificationObserved? || e.id != id || p.w.retrievals[id].active.Some?))
  {
  }

  lemma HeadNotices(queue: seq<Event>, id: VerificationId)
    requires queue != []
    ensures UnreadAfter(queue, id, -1) <==> UnreadAfter(queue, id, 0) || queue[0] == VerificationObserved(id)
  {
    if i :| 0 <= i < |queue| && -1 < i && queue[i] == VerificationObserved(id) { assert i == 0 || 0 < i; }
  }

  /** What attaching does to the store, for a record that waits afterwards. */
  lemma AttachStoreSide(cfg: Config, s: Sys, id: VerificationId)
    requires StoreOk(cfg.limits, s.store) && s.p.channel != [] && s.p.channel[0].ProofReceived?
    requires Waits(Committed(s, L.OrRefused(s.store, Downloaded(cfg, s))).store, id)
    ensures var s', e := Committed(s, L.OrRefused(s.store, Downloaded(cfg, s))), s.p.channel[0];
            && Waits(s.store, id)
            && (Noticed(s'.unpublished, s'.queue, id, -1) <==> Noticed(s.unpublished, s.queue, id, -1))
            && (e.id == id ==> ReplyOf(Downloaded(cfg, s)).Refused?)
  {
    var e := s.p.channel[0];
    AttachEffect(cfg.limits, s.store, e.id, e.proof, e.peer, s.p.now);
  }

  /** And to the worker. */
  lemma AttachWorkerSide(cfg: P.Config, p: P.P2p, reply: P.StoreReply, id: VerificationId)
    requires P.Inv(cfg, p) && p.pc.Idle? && p.channel != [] && p.channel[0].ProofReceived?
    ensures P.Enabled(cfg, p, P.TakeEvent(reply, []))
    ensures var p' := P.Next(cfg, p, P.TakeEvent(reply, []));
            && Todo(p'.pc) == [] && !p'.pc.Ended? && p'.draining == p.draining
            && (id in p.w.retrievals ==>
                (id !in p'.w.retrievals <==>
                 RetrievalLives.CompletionDrops(p.channel[0], reply, id, p.w.retrievals[id], p.now)))
  {
    if id in p.w.retrievals { RetrievalLives.EventDropsIff(cfg, p, reply, [], id); }
  }

  lemma AttachCovers(cfg: Config, s: Sys, id: VerificationId)
    requires Inv(cfg, s) && Enabled(cfg, s, Attach)
    requires Waits(Next(cfg, s, Attach).store, id) && (Waits(s.store, id) ==> Covered(s, id))
    ensures Covered(Next(cfg, s, Attach), id) <==> !Loses(cfg, s, Attach, id)
  {
    AttachStoreSide(cfg, s, id);
    AttachWorkerSide(cfg.p2p, s.p, ReplyOf(Downloaded(cfg, s)), id);
    assert Enabled(cfg, s, Attach);
    if !Over(s) && id in s.p.w.retrievals { AttachedTended(cfg, s, id); }
  }

  lemma AttachedTended(cfg: Config, s: Sys, id: VerificationId)
    requires Inv(cfg, s) && s.stage.Working? && s.p.pc.Idle? && id in s.p.w.retrievals
    requires s.p.channel != [] && s.p.channel[0].ProofReceived?
    requires Waits(Committed(s, L.OrRefused(s.store, Downloaded(cfg, s))).store, id)
    ensures var p' := P.Next(cfg.p2p, s.p, P.TakeEvent(ReplyOf(Downloaded(cfg, s)), []));
            id in p'.w.retrievals <==> !GivesUp(cfg, s, Attach, id)
  {
    AttachStoreSide(cfg, s, id);
    AttachWorkerSide(cfg.p2p, s.p, ReplyOf(Downloaded(cfg, s)), id);
  }

  lemma EnsuredIsTracked(cfg: P.Config, p: P.P2p)
    requires p.pc.Ensuring? && p.pc.todo != []
    ensures P.Enabled(cfg, p, P.EnsureNext(true)) && p.pc.todo[0] in P.Next(cfg, p, P.EnsureNext(true)).w.retrievals
  {
  }

  /** Nothing left to do is forgotten. */
  lemma WorkKeepsTodo(cfg: Config, s: Sys, own: P.Step, id: VerificationId)
    requires WorkOk(cfg, s, own) && P.Enabled(cfg.p2p, s.p, own) && Waits(s.store, id) && id in Todo(s.p.pc)
    ensures var p' := P.Next(cfg.p2p, s.p, own); p'.pc.Ended? || id in Todo(p'.pc) || id in p'.w.retrievals
  {
    if !P.Next(cfg.p2p, s.p, own).pc.Ended? {
      TodoKept(cfg.p2p, s.p, own, id);
      if own.EnsureNext? && s.p.pc.todo[0] == id { EnsuredIsTracked(cfg.p2p, s.p); }
    }
  }

  /** A retrieval is kept unless it is given up. */
  lemma WorkTracks(cfg: Config, s: Sys, own: P.Step, id: VerificationId)
    requires P.Inv(cfg.p2p, s.p) && WorkOk(cfg, s, own) && P.Enabled(cfg.p2p, s.p, own)
    requires Waits(s.store, id) && id in s.p.w.retrievals
    ensures var p' := P.Next(cfg.p2p, s.p, own);
            if GivesUp(cfg, s, Work(own), id)
            then id !in p'.w.retrievals && Todo(p'.pc) == Todo(s.p.pc) && !p'.pc.Ended? && p'.draining == s.p.draining
            else id in p'.w.retrievals || p'.pc.Ended?
  {
    RetrievalLives.DropsIff(cfg.p2p, s.p, own, id);
    if GivesUp(cfg, s, Work(own), id) { DropKeepsTodo(cfg.p2p, s.p, own, id); }
  }

  lemma WorkCovers(cfg: Config, s: Sys, own: P.Step, id: VerificationId)
    requires Inv(cfg, s) && Enabled(cfg, s, Work(own)) && Waits(s.store, id) && Covered(s, id)
    ensures Covered(Next(cfg, s, Work(own)), id) <==> !Loses(cfg, s, Work(own), id)
  {
    var p' := P.Next(cfg.p2p, s.p, own);
    if Over(s) { OverStays(cfg.p2p, s.p, own); }
    if id in Todo(s.p.pc) { WorkKeepsTodo(cfg, s, own, id); }
    if id in s.p.w.retrievals { WorkTracks(cfg, s, own, id); }
    WorkedCovers(cfg, s, own, p', id);
  }

  lemma WorkedCovers(cfg: Config, s: Sys, own: P.Step, p': P.P2p, id: VerificationId)
    requires Waits(s.store, id) && Covered(s, id)
    requires Over(s) ==> p'.draining || p'.pc.Ended?
    requires id in Todo(s.p.pc) ==> p'.pc.Ended? || id in Todo(p'.pc) || id in p'.w.retrievals
    requires id in s.p.w.retrievals ==>
               if GivesUp(cfg, s, Work(own), id)
               then id !in p'.w.retrievals && Todo(p'.pc) == Todo(s.p.pc) && !p'.pc.Ended? && p'.draining == s.p.draining
               else id in p'.w.retrievals || p'.pc.Ended?
    ensures Covered(s.(p := p'), id) <==> !Loses(cfg, s, Work(own), id)
  {
  }

  /** Each step leaves a waiting record taken care of exactly unless it loses it. */
  lemma CoverLostIff(cfg: Config, s: Sys, step: Step, id: VerificationId)
    requires cfg.eventBuffer >= 1 && Inv(cfg, s) && Enabled(cfg, s, step)
    requires Waits(Next(cfg, s, step).store, id) && (Waits(s.store, id) ==> Covered(s, id))
    ensures Covered(Next(cfg, s, step), id) <==> !Loses(cfg, s, step, id)
  {
    match step
    case StoreCall(_) | Evicting(_, _) | Sending(_) => BackgroundCovers(cfg, s, step, id);
    case Receive => ReceiveCovers(cfg, s, id);
    case EndWalk(_) => EndWalkCovers(cfg, s, step, id);
    case Attach => AttachCovers(cfg, s, id);
    case Work(own) => WorkCovers(cfg, s, own, id);
    case _ => WalkStepCovers(cfg, s, step, id);
  }

  // ---------------------------------------------------------------- whole runs

  datatype Run = Run(states: seq<Sys>, steps: seq<Step>)

  ghost predicate StepOk(cfg: Config, r: Run, i: nat)
    requires i < |r.steps| && |r.states| == |r.steps| + 1
  {
    Enabled(cfg, r.states[i], r.steps[i]) && r.states[i + 1] == Next(cfg, r.states[i], r.steps[i])
  }

  ghost predicate IsRun(cfg: Config, st: Store, validators: set<PeerId>, r: Run) {
    && cfg.eventBuffer >= 1 && StoreOk(cfg.limits, st)
    && |r.states| == |r.steps| + 1
    && r.states[0] == Initial(cfg, st, validators)
    && forall i :: 0 <= i < |r.steps| ==> StepOk(cfg, r, i)
  }

  lemma InitialInv(cfg: Config, st: Store, validators: set<PeerId>)
    requires StoreOk(cfg.limits, st)
    ensures Inv(cfg, Initial(cfg, st, validators)) && forall id :: Covered(Initial(cfg, st, validators), id)
  {
    P2pInvariant.InitialInv(cfg.p2p, validators);
  }

  lemma {:induction false} RunInv(cfg: Config, st: Store, validators: set<PeerId>, r: Run, n: nat)
    requires IsRun(cfg, st, validators, r) && n < |r.states|
    ensures Inv(cfg, r.states[n])
  {
    if n == 0 {
      InitialInv(cfg, st, validators);
    } else {
      RunInv(cfg, st, validators, r, n - 1);
      assert StepOk(cfg, r, n - 1);
      NextKeepsInv(cfg, r.states[n - 1], r.steps[n - 1]);
    }
  }

  ghost predicate LosesAt(cfg: Config, r: Run, i: nat, id: VerificationId)
    requires i < |r.steps| && |r.states| == |r.steps| + 1
  {
    Loses(cfg, r.states[i], r.steps[i], id)
  }

  /** From state m to state n the record waits and nobody takes care of it. */
  ghost predicate Forsaken(r: Run, m: nat, n: nat, id: VerificationId)
    requires m <= n < |r.states|
  {
    forall j :: m <= j <= n ==> Waits(r.states[j].store, id) && !Covered(r.states[j], id)
  }

  /** A waiting record that nobody takes care of was lost by one step, and has waited in vain since. */
  lemma {:induction false} UncoveredWasLost(
    cfg: Config, st: Store, validators: set<PeerId>, r: Run, n: nat, id: VerificationId) returns (i: nat)
    requires IsRun(cfg, st, validators, r) && n < |r.states|
    requires Waits(r.states[n].store, id) && !Covered(r.states[n], id)
    ensures i < n && LosesAt(cfg, r, i, id) && Forsaken(r, i + 1, n, id)
  {
    InitialInv(cfg, st, validators);
    assert n > 0;
    if Waits(r.states[n - 1].store, id) && !Covered(r.states[n - 1], id) {
      i := UncoveredWasLost(cfg, st, validators, r, n - 1, id);
    } else {
      LostHere(cfg, st, validators, r, n - 1, id);
      i := n - 1;
    }
  }

  lemma LostHere(cfg: Config, st: Store, validators: set<PeerId>, r: Run, i: nat, id: VerificationId)
    requires IsRun(cfg, st, validators, r) && i < |r.steps|
    requires Waits(r.states[i + 1].store, id) && (Waits(r.states[i].store, id) ==> Covered(r.states[i], id))
    ensures Covered(r.states[i + 1], id) <==> !LosesAt(cfg, r, i, id)
  {
    RunInv(cfg, st, validators, r, i);
    assert StepOk(cfg, r, i);
    CoverLostIff(cfg, r.states[i], r.steps[i], id);
  }

  /** A request for the content is out, or a query is and a timer of its generation with it, or the id is
      queued and every slot is taken. */
  ghost predicate Sought(cfg: Config, w: Worker, id: VerificationId) {
    && id in w.retrievals
    && var x := w.retrievals[id];
       || x.active.Some?
       || (x.query.Some? && HasWake(w.wakes, id, x))
       || (x.queued && id in w.pending && w.active == cfg.p2p.retrieval.maxActive)
  }

  /** Every observed request without content is being fetched. At every moment of every run, until the worker
      is stopped or ends, a waiting record is sought by the worker, is about to be (the worker is between two
      of its waiting points, has a reconcile to do or an observation to learn of), or was lost by one step
      of the run and has waited in vain since. */
  lemma WaitingIsSought(cfg: Config, st: Store, validators: set<PeerId>, r: Run, n: nat, id: VerificationId)
    requires IsRun(cfg, st, validators, r) && n < |r.states| && Waits(r.states[n].store, id) && !Over(r.states[n])
    ensures var s := r.states[n];
            || Sought(cfg, s.p.w, id)
            || !AtRest(s) || s.lagged || Noticed(s.unpublished, s.queue, id, -1)
            || exists i :: 0 <= i < n && LosesAt(cfg, r, i, id) && Forsaken(r, i + 1, n, id)
  {
    var s := r.states[n];
    RunInv(cfg, st, validators, r, n);
    if !Covered(s, id) {
      var i := UncoveredWasLost(cfg, st, validators, r, n, id);
      assert LosesAt(cfg, r, i, id);
    } else if AtRest(s) && id in s.p.w.retrievals {
      TrackedIsSought(cfg, s, id);
    }
  }

  lemma TrackedIsSought(cfg: Config, s: Sys, id: VerificationId)
    requires P.Inv(cfg.p2p, s.p) && AtRest(s) && !Over(s) && id in s.p.w.retrievals
    ensures Sought(cfg, s.p.w, id)
  {
    var w := s.p.w;
    assert P.Parked(P.Idle, id, w.retrievals[id]) && ScheduledOk(w.pending, w.wakes, id, w.retrievals[id]);
  }
}
