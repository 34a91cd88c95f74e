/** Keeping the provider index in step with the store (src/p2p/worker.rs, reconcile_store and
    handle_store_event): the store, the P2P worker's own broadcast receiver and the driver's index, with
    the worker cut at every await. Anything that does not touch the local peer's entries (retrievals,
    the network, other peers) is an arbitrary driver input or an event the worker skips. */
module LocalIndex {
  import opened Common
  import opened Proofs
  import opened Records
  import opened StoreOps
  import opened Availability
  import opened DriverModel
  import opened DriverRuns

  datatype Config = Config(limits: Limits, driver: DriverConfig, eventBuffer: nat)

  datatype Pc =
    | NotStarted
    | Walking(unvisited: set<VerificationId>, found: set<VerificationId>)  // locally_available_proofs
    | Replacing(found: set<VerificationId>)                                // before replace_local_proofs
    | Announcing(todo: set<VerificationId>)                                // the announce loop after it
    | Idle
    | Storing(id: VerificationId)                                          // read ProofStored, before announce
    | Forgetting(id: VerificationId)                                       // read ProofEvicted, before forget
    | Stopped

  datatype Sys = Sys(
    store: Store,
    now: nat,
    unpublished: multiset<Event>,
    queue: seq<Event>,
    lagged: bool,
    driver: Driver,
    pc: Pc)

  /** The store operations, by whichever task. */
  datatype Call =
    | Observing(id: VerificationId)
    | Inserting(proof: Proof, source: ProofSource)
    | Attaching(id: VerificationId, proof: Proof, peer: PeerId)
    | Retrying(id: VerificationId)
    | Beginning(id: VerificationId)
    | Finishing(job: Job, outcome: Outcome)

  datatype Step =
    | StoreCall(call: Call)
    | Evicting(id: VerificationId, cause: EvictionCause)
    | Sending(event: Event)
    | Ticking(time: nat)
    | DriverRuns(input: Input)
    | Reconcile
    | Visit(id: VerificationId)
    | WalkDone
    | Replace
    | AnnounceNext(id: VerificationId)
    | AnnounceDone
    | Receive
    | AnnounceStored
    | ForgetEvicted
    | StopWorker

  // ---------------------------------------------------------------- transitions

  function Refused(st: Store): Commit { Commit(st, Unchanged, []) }

  function OrRefused(st: Store, r: Result<Commit, StoreError>): Commit {
    match r
    case Ok(c) => c
    case Err(_) => Refused(st)
  }

  function Commits(cfg: Limits, st: Store, call: Call, now: nat): Commit {
    match call
    case Observing(id) => Observe(cfg, st, id, now)
    case Inserting(proof, source) => OrRefused(st, InsertLocal(cfg, st, proof, source, now))
    case Attaching(id, proof, peer) => OrRefused(st, AttachDownloaded(cfg, st, id, proof, peer, now))
    case Retrying(id) => OrRefused(st, Retry(cfg, st, id, now))
    case Beginning(id) => Begin(cfg, st, id, now).0
    case Finishing(job, outcome) => OrRefused(st, Finish(cfg, st, job, outcome, now))
  }

  function Committed(s: Sys, c: Commit): Sys {
    s.(store := c.store, unpublished := s.unpublished + multiset(c.events))
  }

  function Send(cfg: Config, s: Sys, e: Event): Sys {
    if |s.queue| < cfg.eventBuffer then s.(queue := s.queue + [e])
    else s.(queue := (s.queue + [e])[1..], lagged := true)
  }

  function Walk(s: Sys): Sys { s.(pc := Walking(s.store.entries.Keys, {})) }

  predicate HasContent(st: Store, id: VerificationId) {
    id in st.entries && st.entries[id].record.proof.Some?
  }

  function ReceiveNext(s: Sys): Sys
    requires s.lagged || s.queue != []
  {
    if s.lagged then Walk(s.(lagged := false))
    else
      var e := s.queue[0];
      s.(queue := s.queue[1..],
         pc := if e.ProofStored? then Storing(e.id) else if e.ProofEvicted? then Forgetting(e.id) else Idle)
  }

  function Command(cfg: Config, s: Sys, input: Input, pc: Pc): Sys {
    s.(driver := Handle(cfg.driver, s.driver, input).0, pc := pc)
  }

  /** Connections are to other peers, and the local commands come from this worker alone. */
  predicate Foreign(cfg: Config, input: Input) {
    !IsLocalCommand(input) && (input.ClosedInput? ==> input.peer != cfg.driver.local)
  }

  predicate Enabled(cfg: Config, s: Sys, step: Step) {
    match step
    case StoreCall(_) => true
    case Evicting(id, _) => id in s.store.entries
    case Sending(e) => e in s.unpublished
    case Ticking(t) => s.now <= t
    case DriverRuns(input) => Foreign(cfg, input)
    case Reconcile => s.pc.NotStarted? || s.pc.Idle?
    case Visit(id) => s.pc.Walking? && id in s.pc.unvisited
    case WalkDone => s.pc.Walking? && s.pc.unvisited == {}
    case Replace => s.pc.Replacing?
    case AnnounceNext(id) => s.pc.Announcing? && id in s.pc.todo
    case AnnounceDone => s.pc == Announcing({})
    case Receive => s.pc.Idle? && (s.lagged || s.queue != [])
    case AnnounceStored => s.pc.Storing?
    case ForgetEvicted => s.pc.Forgetting?
    case StopWorker => s.pc.Idle?
  }

  function Next(cfg: Config, s: Sys, step: Step): Sys
    requires Enabled(cfg, s, step)
  {
    match step
    case StoreCall(call) => Committed(s, Commits(cfg.limits, s.store, call, s.now))
    case Evicting(id, cause) => Send(cfg, s.(store := Evict(s.store, id)), ProofEvicted(id, cause))
    case Sending(e) => Send(cfg, s.(unpublished := s.unpublished - multiset{e}), e)
    case Ticking(t) => s.(now := t)
    case DriverRuns(input) => s.(driver := Handle(cfg.driver, s.driver, input).0)
    case Reconcile => Walk(s)
    case Visit(id) =>
      s.(pc := Walking(s.pc.unvisited - {id}, if HasContent(s.store, id) then s.pc.found + {id} else s.pc.found))
    case WalkDone => s.(pc := Replacing(s.pc.found))
    case Replace => Command(cfg, s, ReplaceLocalCommand(s.pc.found), Announcing(s.pc.found))
    case AnnounceNext(id) => Command(cfg, s, AnnounceCommand(id), Announcing(s.pc.todo - {id}))
    case AnnounceDone => s.(pc := Idle)
    case Receive => ReceiveNext(s)
    case AnnounceStored => Command(cfg, s, AnnounceCommand(s.pc.id), Idle)
    case ForgetEvicted => Command(cfg, s, ForgetCommand(s.pc.id), Idle)
    case StopWorker => s.(pc := Stopped)
  }

  function Initial(cfg: Config, st: Store, validators: set<PeerId>): Sys {
    Sys(st, 0, multiset{}, [], false, Fresh(cfg.driver, validators), NotStarted)
  }

  // ---------------------------------------------------------------- the invariant

  predicate StoredOf(e: Event, id: VerificationId) { e.ProofStored? && e.id == id }

  predicate EvictedOf(e: Event, id: VerificationId) { e.ProofEvicted? && e.id == id }

  ghost predicate Owed(unpublished: multiset<Event>, id: VerificationId) {
    exists e :: e in unpublished && StoredOf(e, id)
  }

  ghost predicate UnreadAfter(queue: seq<Event>, id: VerificationId, k: int) {
    exists i :: 0 <= i < |queue| && k < i && StoredOf(queue[i], id)
  }

  ghost predicate Noticed(unpublished: multiset<Event>, queue: seq<Event>, id: VerificationId, k: int) {
    Owed(unpublished, id) || UnreadAfter(queue, id, k)
  }

  ghost predicate OwedOk(unpublished: multiset<Event>) { forall e :: e in unpublished ==> !e.ProofEvicted? }

  /** Content stored again after an unread eviction is announced by a later event. */
  ghost predicate OrderOk(st: Store, unpublished: multiset<Event>, queue: seq<Event>) {
    forall id, k :: 0 <= k < |queue| && EvictedOf(queue[k], id) && HasContent(st, id) ==> Noticed(unpublished, queue, id, k)
  }

  /** The worker itself will still list the id, or has stopped for good. */
  predicate PcCovers(pc: Pc, id: VerificationId) {
    match pc
    case NotStarted | Stopped => true
    case Walking(unvisited, found) => id in unvisited || id in found
    case Replacing(found) => id in found
    case Storing(x) => x == id
    case Announcing(_) | Idle | Forgetting(_) => false
  }

  /** The entry counts unless the worker is about to overwrite or remove it. */
  predicate Listed(cfg: Config, s: Sys, id: VerificationId) {
    && !s.pc.Walking? && !s.pc.Replacing? && s.pc != Forgetting(id)
    && Lists(s.driver.index, id, cfg.driver.local)
  }

  ghost predicate Covered(cfg: Config, s: Sys, id: VerificationId) {
    Listed(cfg, s, id) || Noticed(s.unpublished, s.queue, id, -1) || s.lagged || PcCovers(s.pc, id)
  }

  ghost predicate AllCovered(cfg: Config, s: Sys) {
    forall id :: HasContent(s.store, id) ==> Covered(cfg, s, id)
  }

  ghost predicate Inv(cfg: Config, s: Sys) {
    && StoreOk(cfg.limits, s.store)
    && DriverOk(cfg.driver, s.driver)
    && OwedOk(s.unpublished)
    && OrderOk(s.store, s.unpublished, s.queue)
    && AllCovered(cfg, s)
  }

  // ---------------------------------------------------------------- store steps

  /** Content appears only together with an owed ProofStored event, and no operation removes it. */
  ghost predicate ContentEffect(st: Store, c: Commit) {
    && (forall e :: e in c.events ==> !e.ProofEvicted?)
    && (forall id :: HasContent(st, id) ==> HasContent(c.store, id))
    && (forall id :: HasContent(c.store, id) && !HasContent(st, id) ==> exists e :: e in c.events && StoredOf(e, id))
  }

  /** An operation writes one key. */
  lemma OneKeyContent(st: Store, c: Commit, id: VerificationId)
    requires c.store == st || (id in c.store.entries && c.store.entries == st.entries[id := c.store.entries[id]])
    requires forall e :: e in c.events ==> !e.ProofEvicted?
    requires HasContent(st, id) ==> HasContent(c.store, id)
    requires HasContent(c.store, id) && !HasContent(st, id) ==> exists e :: e in c.events && StoredOf(e, id)
    ensures ContentEffect(st, c)
  {
  }

  lemma ObserveContent(cfg: Limits, st: Store, id: VerificationId, now: nat)
    requires StoreOk(cfg, st)
    ensures var c := Observe(cfg, st, id, now); StoreOk(cfg, c.store) && ContentEffect(st, c)
  {
    ObserveEffect(cfg, st, id, now);
    OneKeyContent(st, Observe(cfg, st, id, now), id);
  }

  lemma InsertContent(cfg: Limits, st: Store, proof: Proof, source: ProofSource, now: nat)
    requires StoreOk(cfg, st)
    ensures var r := InsertLocal(cfg, st, proof, source, now);
            r.Ok? ==> StoreOk(cfg, r.value.store) && ContentEffect(st, r.value)
  {
    InsertLocalEffect(cfg, st, proof, source, now);
    var r, id := InsertLocal(cfg, st, proof, source, now), IdOf(cfg.sha, proof);
    assert StoredOf(ProofStored(id, source), id);
    if r.Ok? { OneKeyContent(st, r.value, id); }
  }

  lemma AttachContent(cfg: Limits, st: Store, id: VerificationId, proof: Proof, peer: PeerId, now: nat)
    requires StoreOk(cfg, st)
    ensures var r := AttachDownloaded(cfg, st, id, proof, peer, now);
            r.Ok? ==> StoreOk(cfg, r.value.store) && ContentEffect(st, r.value)
  {
    AttachEffect(cfg, st, id, proof, peer, now);
    var r := AttachDownloaded(cfg, st, id, proof, peer, now);
    assert StoredOf(ProofStored(id, Peer(peer)), id);
    if r.Ok? { OneKeyContent(st, r.value, id); }
  }

  lemma RetryContent(cfg: Limits, st: Store, id: VerificationId, now: nat)
    requires StoreOk(cfg, st)
    ensures var r := Retry(cfg, st, id, now); r.Ok? ==> StoreOk(cfg, r.value.store) && ContentEffect(st, r.value)
  {
    RetryEffect(cfg, st, id, now);
    var r := Retry(cfg, st, id, now);
    if r.Ok? { OneKeyContent(st, r.value, id); }
  }

  lemma BeginContent(cfg: Limits, st: Store, id: VerificationId, now: nat)
    requires StoreOk(cfg, st)
    ensures var c := Begin(cfg, st, id, now).0; StoreOk(cfg, c.store) && ContentEffect(st, c)
  {
    BeginEffect(cfg, st, id, now);
    OneKeyContent(st, Begin(cfg, st, id, now).0, id);
  }

  lemma FinishContent(cfg: Limits, st: Store, job: Job, outcome: Outcome, now: nat)
    requires StoreOk(cfg, st)
    ensures var r := Finish(cfg, st, job, outcome, now); r.Ok? ==> StoreOk(cfg, r.value.store) && ContentEffect(st, r.value)
  {
    FinishEffect(cfg, st, job, outcome, now);
    var r := Finish(cfg, st, job, outcome, now);
    if r.Ok? { OneKeyContent(st, r.value, job.id); }
  }

  lemma CallContent(cfg: Limits, st: Store, call: Call, now: nat)
    requires StoreOk(cfg, st)
    ensures var c := Commits(cfg, st, call, now); StoreOk(cfg, c.store) && ContentEffect(st, c)
  {
    match call
    case Observing(id) => ObserveContent(cfg, st, id, now);
    case Inserting(proof, source) => InsertContent(cfg, st, proof, source, now);
    case Attaching(id, proof, peer) => AttachContent(cfg, st, id, proof, peer, now);
    case Retrying(id) => RetryContent(cfg, st, id, now);
    case Beginning(id) => BeginContent(cfg, st, id, now);
    case Finishing(job, outcome) => FinishContent(cfg, st, job, outcome, now);
  }

  lemma CommitOwes(s: Sys, c: Commit)
    requires ContentEffect(s.store, c)
    ensures var s' := Committed(s, c);
            && (forall id :: Owed(s.unpublished, id) ==> Owed(s'.unpublished, id))
            && (forall id :: HasContent(c.store, id) && !HasContent(s.store, id) ==> Owed(s'.unpublished, id))
  {
    var s' := Committed(s, c);
    forall id | Owed(s.unpublished, id) ensures Owed(s'.unpublished, id) {
      var e :| e in s.unpublished && StoredOf(e, id);
      assert e in s'.unpublished;
    }
    forall id | HasContent(c.store, id) && !HasContent(s.store, id) ensures Owed(s'.unpublished, id) {
      var e :| e in c.events && StoredOf(e, id);
      assert e in s'.unpublished;
    }
  }

  lemma CommitKeepsInv(cfg: Config, s: Sys, c: Commit)
    requires Inv(cfg, s) && StoreOk(cfg.limits, c.store) && ContentEffect(s.store, c)
    ensures Inv(cfg, Committed(s, c))
  {
    var s' := Committed(s, c);
    CommitOwes(s, c);
    forall e | e in s'.unpublished ensures !e.ProofEvicted? { assert e in s.unpublished || e in c.events; }
    forall id, k | 0 <= k < |s.queue| && EvictedOf(s.queue[k], id) && HasContent(c.store, id)
      ensures Noticed(s'.unpublished, s.queue, id, k)
    {
      if HasContent(s.store, id) { assert Noticed(s.unpublished, s.queue, id, k); }
    }
    forall id | HasContent(c.store, id) ensures Covered(cfg, s', id) {
      if HasContent(s.store, id) { assert Covered(cfg, s, id); }
    }
  }

  // ---------------------------------------------------------------- the broadcast

  /** What delivery keeps of the notices, given that dropping an event raises the lag flag. */
  lemma SendNotices(cfg: Config, s: Sys, e: Event, id: VerificationId, k: nat)
    requires cfg.eventBuffer >= 1
    ensures var s' := Send(cfg, s, e);
            && (StoredOf(e, id) ==> UnreadAfter(s'.queue, id, -1))
            && (UnreadAfter(s.queue, id, -1) ==> s'.lagged || UnreadAfter(s'.queue, id, -1))
            && (var j := if |s.queue| < cfg.eventBuffer then k else k + 1;
                && (j < |s.queue| && UnreadAfter(s.queue, id, j) ==> UnreadAfter(s'.queue, id, k))
                && (j < |s.queue| && StoredOf(e, id) ==> UnreadAfter(s'.queue, id, k)))
  {
    var s' := Send(cfg, s, e);
    var shift := if |s.queue| < cfg.eventBuffer then 0 else 1;
    assert s'.queue[|s.queue| - shift] == e;
    if UnreadAfter(s.queue, id, -1) {
      var i :| 0 <= i < |s.queue| && StoredOf(s.queue[i], id);
      if i >= shift { assert s'.queue[i - shift] == s.queue[i]; }
    }
    if k + shift < |s.queue| && UnreadAfter(s.queue, id, k + shift) {
      var i :| 0 <= i < |s.queue| && k + shift < i && StoredOf(s.queue[i], id);
      assert s'.queue[i - shift] == s.queue[i];
    }
  }

  /** Owing one event less is made up for by delivering it. */
  lemma UnowedNotices(unpublished: multiset<Event>, e: Event, id: VerificationId)
    requires Owed(unpublished, id)
    ensures Owed(unpublished - multiset{e}, id) || StoredOf(e, id)
  {
    var x :| x in unpublished && StoredOf(x, id);
    if x != e { assert x in unpublished - multiset{e}; }
  }

  lemma DeliveryKeepsOrder(cfg: Config, s: Sys, st: Store, owed: multiset<Event>, e: Event, s': Sys)
    requires cfg.eventBuffer >= 1 && OrderOk(s.store, s.unpublished, s.queue) && s'.queue == Send(cfg, s, e).queue
    requires forall id :: HasContent(st, id) ==> HasContent(s.store, id) && !EvictedOf(e, id)
    requires forall id :: Owed(s.unpublished, id) ==> Owed(owed, id) || StoredOf(e, id)
    ensures OrderOk(st, owed, s'.queue)
  {
    var shift := if |s.queue| < cfg.eventBuffer then 0 else 1;
    forall id, k | 0 <= k < |s'.queue| && EvictedOf(s'.queue[k], id) && HasContent(st, id)
      ensures Noticed(owed, s'.queue, id, k)
    {
      assert k + shift < |s.queue| && s'.queue[k] == s.queue[k + shift];
      assert Noticed(s.unpublished, s.queue, id, k + shift);
      SendNotices(cfg, s, e, id, k);
    }
  }

  lemma DeliveryKeepsCover(cfg: Config, s: Sys, e: Event, s': Sys)
    requires cfg.eventBuffer >= 1 && AllCovered(cfg, s)
    requires s' == Send(cfg, s, e).(store := s'.store, unpublished := s'.unpublished)
    requires forall id :: HasContent(s'.store, id) ==> HasContent(s.store, id)
    requires forall id :: Owed(s.unpublished, id) ==> Owed(s'.unpublished, id) || StoredOf(e, id)
    ensures AllCovered(cfg, s')
  {
    forall id | HasContent(s'.store, id) ensures Covered(cfg, s', id) {
      assert Covered(cfg, s, id);
      SendNotices(cfg, s, e, id, 0);
    }
  }

  lemma EvictKeepsInv(cfg: Config, s: Sys, id: VerificationId, cause: EvictionCause)
    requires cfg.eventBuffer >= 1 && Inv(cfg, s)
    ensures Inv(cfg, Send(cfg, s.(store := Evict(s.store, id)), ProofEvicted(id, cause)))
  {
    var e, st := ProofEvicted(id, cause), Evict(s.store, id);
    var s' := Send(cfg, s.(store := st), e);
    ReadAndEvictKeepStoreOk(cfg.limits, s.store, id, s.now);
    DeliveryKeepsOrder(cfg, s, st, s.unpublished, e, s');
    DeliveryKeepsCover(cfg, s, e, s');
  }

  lemma SendingKeepsInv(cfg: Config, s: Sys, e: Event)
    requires cfg.eventBuffer >= 1 && Inv(cfg, s) && e in s.unpublished
    ensures Inv(cfg, Send(cfg, s.(unpublished := s.unpublished - multiset{e}), e))
  {
    var owed := s.unpublished - multiset{e};
    var s' := Send(cfg, s.(unpublished := owed), e);
    forall id | Owed(s.unpublished, id) ensures Owed(owed, id) || StoredOf(e, id) {
      UnowedNotices(s.unpublished, e, id);
    }
    DeliveryKeepsOrder(cfg, s, s.store, owed, e, s');
    DeliveryKeepsCover(cfg, s, e, s');
  }

  // ---------------------------------------------------------------- driver and worker steps

  /** A step of worker and driver that leaves the store, the notices and the lag flag alone. */
  lemma IndexStepKeepsInv(cfg: Config, s: Sys, s': Sys)
    requires Inv(cfg, s) && s' == s.(driver := s'.driver, pc := s'.pc) && DriverOk(cfg.driver, s'.driver)
    requires forall id :: HasContent(s.store, id) && (Listed(cfg, s, id) || PcCovers(s.pc, id)) ==>
               Listed(cfg, s', id) || PcCovers(s'.pc, id)
    ensures Inv(cfg, s')
  {
    forall id | HasContent(s'.store, id) ensures Covered(cfg, s', id) {
      assert Covered(cfg, s, id);
    }
  }

  lemma ForeignKeepsInv(cfg: Config, s: Sys, input: Input)
    requires Inv(cfg, s) && Foreign(cfg, input)
    ensures Inv(cfg, s.(driver := Handle(cfg.driver, s.driver, input).0))
  {
    HandleKeeps(cfg.driver, s.driver, input);
    forall id ensures Lists(Handle(cfg.driver, s.driver, input).0.index, id, cfg.driver.local) <==>
                        Lists(s.driver.index, id, cfg.driver.local) {
      LocalPairsOnlyLocal(cfg.driver, s.driver, input, id);
    }
    IndexStepKeepsInv(cfg, s, s.(driver := Handle(cfg.driver, s.driver, input).0));
  }

  lemma ReplaceKeepsInv(cfg: Config, s: Sys)
    requires Inv(cfg, s) && s.pc.Replacing?
    ensures Inv(cfg, Command(cfg, s, ReplaceLocalCommand(s.pc.found), Announcing(s.pc.found)))
  {
    var found := s.pc.found;
    var s' := Command(cfg, s, ReplaceLocalCommand(found), Announcing(found));
    HandleKeeps(cfg.driver, s.driver, ReplaceLocalCommand(found));
    forall id | id in found ensures Listed(cfg, s', id) {
      LocalCommandsSetLocalPairs(cfg.driver, s.driver, id, found, id);
    }
    IndexStepKeepsInv(cfg, s, s');
  }

  lemma AnnounceKeepsInv(cfg: Config, s: Sys, id: VerificationId, pc: Pc)
    requires Inv(cfg, s) && ((s.pc.Announcing? && pc.Announcing?) || (s.pc == Storing(id) && pc.Idle?))
    ensures Inv(cfg, Command(cfg, s, AnnounceCommand(id), pc))
  {
    var s' := Command(cfg, s, AnnounceCommand(id), pc);
    HandleKeeps(cfg.driver, s.driver, AnnounceCommand(id));
    forall x | Listed(cfg, s, x) || x == id ensures Listed(cfg, s', x) {
      LocalCommandsSetLocalPairs(cfg.driver, s.driver, id, {}, x);
    }
    IndexStepKeepsInv(cfg, s, s');
  }

  /** Forgetting an id that was stored again loses nothing: its event is still to come. */
  lemma ForgetKeepsInv(cfg: Config, s: Sys)
    requires Inv(cfg, s) && s.pc.Forgetting?
    ensures Inv(cfg, Command(cfg, s, ForgetCommand(s.pc.id), Idle))
  {
    var input := ForgetCommand(s.pc.id);
    HandleKeeps(cfg.driver, s.driver, input);
    var s' := Command(cfg, s, input, Idle);
    forall id | HasContent(s.store, id) && (Listed(cfg, s, id) || PcCovers(s.pc, id))
      ensures Listed(cfg, s', id)
    {
      LocalCommandsSetLocalPairs(cfg.driver, s.driver, s.pc.id, {}, id);
    }
    IndexStepKeepsInv(cfg, s, s');
  }

  lemma WalkKeepsInv(cfg: Config, s: Sys)
    requires Inv(cfg, s)
    ensures Inv(cfg, Walk(s)) && Inv(cfg, Walk(s.(lagged := false)))
  {
  }

  lemma ReadingKeepsInv(cfg: Config, s: Sys)
    requires Inv(cfg, s) && s.pc.Idle? && !s.lagged && s.queue != []
    ensures Inv(cfg, ReceiveNext(s))
  {
    var s', e := ReceiveNext(s), s.queue[0];
    assert forall i :: 0 <= i < |s'.queue| ==> s'.queue[i] == s.queue[i + 1];
    forall id, k | -1 <= k < |s'.queue| && UnreadAfter(s.queue, id, k + 1) ensures UnreadAfter(s'.queue, id, k) {
      var i :| 0 <= i < |s.queue| && k + 1 < i && StoredOf(s.queue[i], id);
      assert s'.queue[i - 1] == s.queue[i];
    }
    forall id, k | 0 <= k < |s'.queue| && EvictedOf(s'.queue[k], id) && HasContent(s'.store, id)
      ensures Noticed(s'.unpublished, s'.queue, id, k)
    {
      assert EvictedOf(s.queue[k + 1], id);
      assert Noticed(s.unpublished, s.queue, id, k + 1);
    }
    forall id | HasContent(s'.store, id) ensures Covered(cfg, s', id) {
      assert Covered(cfg, s, id);
      if EvictedOf(e, id) {
        assert Noticed(s.unpublished, s.queue, id, 0);
      } else if UnreadAfter(s.queue, id, -1) && !StoredOf(e, id) {
        assert UnreadAfter(s.queue, id, 0);
      }
    }
  }

  lemma WorkerStepKeepsInv(cfg: Config, s: Sys, step: Step)
    requires Inv(cfg, s) && Enabled(cfg, s, step)
    requires step.Visit? || step.WalkDone? || step.AnnounceDone? || step.StopWorker? || step.Ticking?
    ensures Inv(cfg, Next(cfg, s, step))
  {
    if step.Ticking? {
      forall id | HasContent(s.store, id) ensures Covered(cfg, Next(cfg, s, step), id) { assert Covered(cfg, s, id); }
    } else {
      IndexStepKeepsInv(cfg, s, Next(cfg, s, step));
    }
  }

  lemma NextKeepsInv(cfg: Config, s: Sys, step: Step)
    requires cfg.eventBuffer >= 1 && Inv(cfg, s) && Enabled(cfg, s, step)
    ensures Inv(cfg, Next(cfg, s, step))
  {
    match step
    case StoreCall(call) =>
      CallContent(cfg.limits, s.store, call, s.now);
      CommitKeepsInv(cfg, s, Commits(cfg.limits, s.store, call, s.now));
    case Evicting(id, cause) => EvictKeepsInv(cfg, s, id, cause);
    case Sending(e) => SendingKeepsInv(cfg, s, e);
    case DriverRuns(input) => ForeignKeepsInv(cfg, s, input);
    case Reconcile => WalkKeepsInv(cfg, s);
    case Replace => ReplaceKeepsInv(cfg, s);
    case AnnounceNext(id) => AnnounceKeepsInv(cfg, s, id, Announcing(s.pc.todo - {id}));
    case Receive => if s.lagged { WalkKeepsInv(cfg, s); } else { ReadingKeepsInv(cfg, s); }
    case AnnounceStored => AnnounceKeepsInv(cfg, s, s.pc.id, Idle);
    case ForgetEvicted => ForgetKeepsInv(cfg, s);
    case _ => WorkerStepKeepsInv(cfg, s, step);
  }

  // ---------------------------------------------------------------- whole runs

  datatype Run = Run(states: seq<Sys>, steps: seq<Step>)

  ghost predicate StepOk(cfg: Config, r: Run, i: nat)
    requires i < |r.steps| && |r.states| == |r.steps| + 1
  {
    Enabled(cfg, r.states[i], r.steps[i]) && r.states[i + 1] == Next(cfg, r.states[i], r.steps[i])
  }

  ghost predicate IsRun(cfg: Config, st: Store, validators: set<PeerId>, r: Run) {
    && cfg.eventBuffer >= 1 && StoreOk(cfg.limits, st)
    && |r.states| == |r.steps| + 1
    && r.states[0] == Initial(cfg, st, validators)
    && forall i :: 0 <= i < |r.steps| ==> StepOk(cfg, r, i)
  }

  lemma {:induction false} RunInv(cfg: Config, st: Store, validators: set<PeerId>, r: Run, n: nat)
    requires IsRun(cfg, st, validators, r) && n < |r.states|
    ensures Inv(cfg, r.states[n])
  {
    if n == 0 {
      FreshOk(cfg.driver, validators);
    } else {
      RunInv(cfg, st, validators, r, n - 1);
      assert StepOk(cfg, r, n - 1);
      NextKeepsInv(cfg, r.states[n - 1], r.steps[n - 1]);
    }
  }

  /** Every stored proof is offered to peers or about to be: at every moment of every run its id is
      listed for the local peer, or a ProofStored event for it is unsent or unread, or a reconcile is due
      or under way, or the worker is about to announce it; until the worker stops. */
  lemma StoredProofsAreListed(cfg: Config, st: Store, validators: set<PeerId>, r: Run, n: nat, id: VerificationId)
    requires IsRun(cfg, st, validators, r) && n < |r.states| && HasContent(r.states[n].store, id)
    ensures var s := r.states[n];
            || Lists(s.driver.index, id, cfg.driver.local)
            || Noticed(s.unpublished, s.queue, id, -1)
            || s.lagged
            || s.pc.NotStarted? || s.pc.Walking? || s.pc.Replacing? || s.pc == Storing(id) || s.pc.Stopped?
  {
    RunInv(cfg, st, validators, r, n);
    assert Covered(cfg, r.states[n], id);
  }

  /** So once nothing is in flight the local peer is listed for every stored proof. */
  lemma QuiescentIndexIsComplete(cfg: Config, st: Store, validators: set<PeerId>, r: Run, n: nat)
    requires IsRun(cfg, st, validators, r) && n < |r.states|
    requires var s := r.states[n]; s.pc.Idle? && !s.lagged && s.queue == [] && s.unpublished == multiset{}
    ensures forall id :: HasContent(r.states[n].store, id) ==> Lists(r.states[n].driver.index, id, cfg.driver.local)
  {
    forall id | HasContent(r.states[n].store, id) ensures Lists(r.states[n].driver.index, id, cfg.driver.local) {
      StoredProofsAreListed(cfg, st, validators, r, n, id);
    }
  }
}
