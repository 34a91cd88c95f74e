/** The store, its event broadcast, and the verification worker running together.

    Clients (listener, peers, submissions, operators) commit store transitions at any moment; the
    events a commit owes are sent later, in any order; records may be evicted at any moment; the
    worker's receiver is a bounded queue that drops its oldest entry and raises a lag flag. The worker
    is its source loop cut at every await (src/verification/worker.rs), so any client step may fall
    between any two worker steps. */
module VerifierSystem {
  import opened Common
  import opened Proofs
  import opened Records
  import opened StoreOps
  import opened JobExecution
  import opened Scheduler

  datatype Config = Config(limits: Limits, eventBuffer: nat, maxJobs: nat, maxRetries: nat, registered: set<ProofType>)

  ghost predicate ConfigOk(cfg: Config) { cfg.maxJobs >= 1 && cfg.eventBuffer >= 1 }

  datatype ErrorReason = JoinFailed | BadTransition

  /** Where the worker is. `draining` marks the same code running after stop was seen. */
  datatype Pc =
    | Unsubscribed
    | NotStarted
    | Snapshot(unvisited: set<VerificationId>)  // reconcile_ready_records walking the cache
    | Top                                       // loop head, before the stop check
    | Starting                                  // head of the loop in start_ready_jobs
    | Claiming(id: VerificationId)              // popped, begin_verification not yet committed
    | Selecting
    | Finishing(job: Job, outcome: Outcome, draining: bool)
    | Rechecking(id: VerificationId, draining: bool)
    | Draining
    | Exited
    | Errored(reason: ErrorReason)

  datatype Sys = Sys(
    store: Store,
    now: nat,
    unpublished: multiset<Event>,
    queue: seq<Event>,
    lagged: bool,
    stop: bool,
    w: Sched,
    pc: Pc)

  const INITIAL: Sys := Sys(Store(map[], 0), 0, multiset{}, [], false, false, IDLE, Unsubscribed)

  datatype Step =
    // clients
    | Observing(id: VerificationId)
    | Inserting(proof: Proof, source: ProofSource)
    | Attaching(id: VerificationId, proof: Proof, peer: PeerId)
    | Retrying(id: VerificationId)
    | Reading(id: VerificationId)
    | Evicting(id: VerificationId, cause: EvictionCause)
    | Sending(event: Event)
    | Ticking(time: nat)
    | Cancelling
    // worker
    | Subscribe
    | Start
    | Visit(id: VerificationId)
    | VisitDone
    | EnterLoop
    | PopNext
    | Claim
    | SeeStop
    | Receive
    | Join(job: Job, results: seq<AttemptResult>, outcome: Outcome)
    | JoinError(job: Job)
    | CommitOutcome
    | Recheck
    | DrainDone

  // ---------------------------------------------------------------- transitions

  function Append(s: Sys, e: Event): Sys { s.(queue := s.queue + [e]) }

  function DropOldest(s: Sys): Sys
    requires s.queue != []
  {
    s.(queue := s.queue[1..], lagged := true)
  }

  /** Delivers to the worker's receiver, if it has subscribed. */
  function Send(cfg: Config, s: Sys, e: Event): Sys {
    if s.pc.Unsubscribed? then s
    else if |s.queue| < cfg.eventBuffer then Append(s, e)
    else DropOldest(Append(s, e))
  }

  function Unowed(s: Sys, e: Event): Sys { s.(unpublished := s.unpublished - multiset{e}) }

  function Committed(s: Sys, c: Commit): Sys {
    s.(store := c.store, unpublished := s.unpublished + multiset(c.events))
  }

  function OrRefused(s: Sys, r: Result<Commit, StoreError>): Sys {
    match r
    case Ok(c) => Committed(s, c)
    case Err(_) => s
  }

  function EvictRecord(cfg: Config, s: Sys, id: VerificationId, cause: EvictionCause): Sys {
    Send(cfg, s.(store := Evict(s.store, id)), ProofEvicted(id, cause))
  }

  function ReconcileFrom(s: Sys): Sys {
    s.(w := ClearPending(s.w), pc := Snapshot(s.store.entries.Keys))
  }

  function VisitRecord(s: Sys, id: VerificationId): Sys
    requires s.pc.Snapshot?
  {
    s.(w := if StateOf(s.store, id) == Some(Queued) then Enqueue(s.w, id) else s.w,
       pc := Snapshot(s.pc.unvisited - {id}))
  }

  function PopOrSelect(cfg: Config, s: Sys): Sys {
    if |s.w.jobs| >= cfg.maxJobs || s.stop || s.w.pending == [] then s.(pc := Selecting)
    else
      var id := s.w.pending[0];
      s.(w := PopFront(s.w), pc := if id in s.w.activeIds then Starting else Claiming(id))
  }

  function ClaimNext(cfg: Config, s: Sys): Sys
    requires s.pc.Claiming?
  {
    var (c, r) := Begin(cfg.limits, s.store, s.pc.id, s.now);
    match r
    case Err(_) => s.(pc := Errored(BadTransition))
    case Ok(None) => s.(pc := Starting)
    case Ok(Some(job)) => Committed(s, c).(w := Spawn(s.w, job), pc := Starting)
  }

  function ReceiveNext(s: Sys): Sys
    requires s.lagged || s.queue != []
  {
    if s.lagged then ReconcileFrom(s.(lagged := false))
    else s.(queue := s.queue[1..], w := HandleEvent(s.w, s.queue[0]), pc := Top)
  }

  function CommitNext(cfg: Config, s: Sys): Sys
    requires s.pc.Finishing?
  {
    match Finish(cfg.limits, s.store, s.pc.job, s.pc.outcome, s.now)
    case Err(_) => s.(pc := Errored(BadTransition))
    case Ok(c) => Committed(s, c).(pc := Rechecking(s.pc.job.id, s.pc.draining))
  }

  function RecheckRecord(s: Sys): Sys
    requires s.pc.Rechecking?
  {
    s.(w := if StateOf(s.store, s.pc.id) == Some(Queued) then Enqueue(s.w, s.pc.id) else s.w,
       pc := if s.pc.draining then Draining else Top)
  }

  ghost predicate Enabled(cfg: Config, s: Sys, step: Step) {
    match step
    case Observing(_) | Inserting(_, _) | Attaching(_, _, _) | Retrying(_) | Reading(_) | Cancelling => true
    case Evicting(id, cause) =>
      && id in s.store.entries
      && (cause.Expired? ==> s.store.entries[id].deadline.Some? && s.store.entries[id].deadline.value <= s.now)
    case Sending(e) => e in s.unpublished
    case Ticking(t) => s.now <= t
    case Subscribe => s.pc.Unsubscribed?
    case Start => s.pc.NotStarted?
    case Visit(id) => s.pc.Snapshot? && id in s.pc.unvisited
    case VisitDone => s.pc == Snapshot({})
    case EnterLoop => s.pc.Top?
    case PopNext => s.pc.Starting?
    case Claim => s.pc.Claiming?
    case SeeStop => s.pc.Selecting? && s.stop
    case Receive => s.pc.Selecting? && (s.lagged || s.queue != [])
    case Join(job, results, outcome) =>
      && (s.pc.Selecting? || s.pc.Draining?) && job in s.w.jobs
      && Produced(cfg.maxRetries, job.proof.proofType in cfg.registered, results, outcome)
    case JoinError(job) => (s.pc.Selecting? || s.pc.Draining?) && job in s.w.jobs
    case CommitOutcome => s.pc.Finishing?
    case Recheck => s.pc.Rechecking?
    case DrainDone => s.pc.Draining? && s.w.jobs == {}
  }

  ghost function Next(cfg: Config, s: Sys, step: Step): Sys
    requires Enabled(cfg, s, step)
  {
    match step
    case Observing(id) => Committed(s, Observe(cfg.limits, s.store, id, s.now))
    case Inserting(proof, source) => OrRefused(s, InsertLocal(cfg.limits, s.store, proof, source, s.now))
    case Attaching(id, proof, peer) => OrRefused(s, AttachDownloaded(cfg.limits, s.store, id, proof, peer, s.now))
    case Retrying(id) => OrRefused(s, Retry(cfg.limits, s.store, id, s.now))
    case Reading(id) => s.(store := Read(s.store, id, s.now))
    case Evicting(id, cause) => EvictRecord(cfg, s, id, cause)
    case Sending(e) => Send(cfg, Unowed(s, e), e)
    case Ticking(t) => s.(now := t)
    case Cancelling => s.(stop := true)
    case Subscribe => s.(pc := NotStarted)
    case Start => ReconcileFrom(s)
    case Visit(id) => VisitRecord(s, id)
    case VisitDone => s.(pc := Top)
    case EnterLoop => if s.stop then s.(w := ClearPending(s.w), pc := Draining) else s.(pc := Starting)
    case PopNext => PopOrSelect(cfg, s)
    case Claim => ClaimNext(cfg, s)
    case SeeStop => s.(w := ClearPending(s.w), pc := Draining)
    case Receive => ReceiveNext(s)
    case Join(job, _, outcome) => s.(w := Joined(s.w, job), pc := Finishing(job, outcome, s.pc.Draining?))
    case JoinError(job) => s.(w := s.w.(jobs := s.w.jobs - {job}), pc := Errored(JoinFailed))
    case CommitOutcome => CommitNext(cfg, s)
    case Recheck => RecheckRecord(s)
    case DrainDone => s.(pc := Exited)
  }

  // ---------------------------------------------------------------- the invariant

  /** Jobs that hold a claim: running, finished but not joined, or being committed. */
  ghost function Live(s: Sys): set<Job> {
    s.w.jobs + if s.pc.Finishing? then {s.pc.job} else {}
  }

  ghost predicate Holds(st: Store, j: Job) {
    j.id in st.entries && st.entries[j.id].tag == j.claim
  }

  /** Each live Verifying record is the object held by exactly one job; a job whose object is still
      installed finds it Verifying with the content it claimed. */
  ghost predicate ClaimsOk(st: Store, live: set<Job>) {
    && (forall j :: j in live ==> j.claim < st.nextTag)
    && (forall a, b :: a in live && b in live && a.id == b.id ==> a == b)
    && (forall j :: j in live && Holds(st, j) ==>
          StateOf(st, j.id) == Some(Verifying) && st.entries[j.id].record.proof == Some(j.proof))
    && (forall id :: StateOf(st, id) == Some(Verifying) ==> exists j :: j in live && j.id == id && Holds(st, j))
  }

  function Notice(id: VerificationId): Event { VerificationChanged(id, Queued) }

  /** A queued record's notice is unsent, or unread beyond position k of the receiver. */
  ghost predicate NoticedAfter(s: Sys, id: VerificationId, k: int) {
    Notice(id) in s.unpublished || exists i :: 0 <= i < |s.queue| && k < i && s.queue[i] == Notice(id)
  }

  /** An unread eviction event of a record that is queued again precedes a notice of the new queueing,
      so forgetting the id when the eviction is read loses nothing. */
  ghost predicate OrderOk(s: Sys) {
    forall id, k :: 0 <= k < |s.queue| && EvictionOf(s.queue[k], id) && StateOf(s.store, id) == Some(Queued)
      ==> NoticedAfter(s, id, k)
  }

  predicate EvictionOf(e: Event, id: VerificationId) { e.ProofEvicted? && e.id == id }

  /** The worker will still look at this id by itself, or has stopped looking for good. */
  predicate PcCovers(pc: Pc, id: VerificationId) {
    match pc
    case Unsubscribed | NotStarted => true
    case Snapshot(unvisited) => id in unvisited
    case Claiming(x) => x == id
    case Finishing(job, _, draining) => draining || job.id == id
    case Rechecking(x, draining) => draining || x == id
    case Draining | Exited | Errored(_) => true
    case Top | Starting | Selecting => false
  }

  ghost predicate Covered(s: Sys, id: VerificationId) {
    || id in s.w.pendingIds
    || id in s.w.activeIds
    || NoticedAfter(s, id, -1)
    || s.lagged
    || PcCovers(s.pc, id)
  }

  ghost predicate NoneStranded(s: Sys) {
    forall id :: StateOf(s.store, id) == Some(Queued) ==> Covered(s, id)
  }

  /** Past the point where stop was seen: only already claimed jobs are finished. */
  predicate AfterStop(pc: Pc) {
    || pc.Draining? || pc.Exited?
    || (pc.Finishing? && pc.draining)
    || (pc.Rechecking? && pc.draining)
  }

  ghost predicate PcOk(cfg: Config, s: Sys) {
    && (s.pc.Claiming? ==> s.pc.id !in s.w.activeIds && s.pc.id !in s.w.pendingIds && |s.w.jobs| < cfg.maxJobs)
    && (s.pc.Finishing? ==> s.pc.job !in s.w.jobs)
    && (s.pc.Selecting? && !s.stop ==> |s.w.jobs| == cfg.maxJobs || s.w.pending == [])
    && (s.pc.Exited? ==> s.w.jobs == {})
    && (s.pc.Unsubscribed? ==> s.queue == [] && !s.lagged)
    && (AfterStop(s.pc) ==> s.stop)
  }

  /** Evictions are sent as part of the removal, never left to be sent later. */
  ghost predicate OwedOk(owed: multiset<Event>) { forall e :: e in owed ==> !e.ProofEvicted? }

  ghost predicate Inv(cfg: Config, s: Sys) {
    && StoreOk(cfg.limits, s.store)
    && OwedOk(s.unpublished)
    && PcOk(cfg, s)
    && s.pc != Errored(BadTransition)
    && (!s.pc.Errored? ==>
        && SchedOk(cfg.maxJobs, s.w)
        && ClaimsOk(s.store, Live(s))
        && OrderOk(s)
        && NoneStranded(s))
  }
}

/** Every step keeps the invariant of VerifierSystem. */
module VerifierInvariant {
  import opened Common
  import opened Proofs
  import opened Records
  import opened StoreOps
  import opened Scheduler
  import opened VerifierSystem

  lemma InitialInv(cfg: Config)
    ensures Inv(cfg, INITIAL)
  {
  }

  // ---------------------------------------------------------------- client commits

  lemma ClientKeepsClaims(cfg: Config, st: Store, id: VerificationId, c: Commit, live: set<Job>)
    requires StoreOk(cfg.limits, st) && ClientEffect(st, id, c) && ClaimsOk(st, live)
    ensures ClaimsOk(c.store, live)
  {
    forall x | StateOf(c.store, x) == Some(Verifying)
      ensures exists j :: j in live && j.id == x && Holds(c.store, j)
    {
      assert StateOf(st, x) == Some(Verifying);
      var j :| j in live && j.id == x && Holds(st, j);
      assert Holds(c.store, j);
    }
  }

  lemma ClientQueuesWithNotice(s: Sys, id: VerificationId, c: Commit, x: VerificationId)
    requires ClientEffect(s.store, id, c) && StateOf(c.store, x) == Some(Queued)
    ensures StateOf(s.store, x) == Some(Queued) || Notice(x) in Committed(s, c).unpublished
  {
    if x == id && c.store != s.store {
      assert Notice(x) in c.events;
    }
  }

  lemma ClientKeepsOrder(s: Sys, id: VerificationId, c: Commit)
    requires ClientEffect(s.store, id, c) && OrderOk(s)
    ensures OrderOk(Committed(s, c))
  {
    var s' := Committed(s, c);
    forall x, k | 0 <= k < |s'.queue| && EvictionOf(s'.queue[k], x) && StateOf(s'.store, x) == Some(Queued)
      ensures NoticedAfter(s', x, k)
    {
      ClientQueuesWithNotice(s, id, c, x);
      if StateOf(s.store, x) == Some(Queued) { assert NoticedAfter(s, x, k); }
    }
  }

  lemma ClientKeepsCover(s: Sys, id: VerificationId, c: Commit)
    requires ClientEffect(s.store, id, c) && NoneStranded(s)
    ensures NoneStranded(Committed(s, c))
  {
    var s' := Committed(s, c);
    forall x | StateOf(s'.store, x) == Some(Queued)
      ensures Covered(s', x)
    {
      ClientQueuesWithNotice(s, id, c, x);
      if StateOf(s.store, x) == Some(Queued) { assert Covered(s, x); }
    }
  }

  lemma ClientKeepsInv(cfg: Config, s: Sys, id: VerificationId, c: Commit)
    requires Inv(cfg, s) && StoreOk(cfg.limits, c.store) && ClientEffect(s.store, id, c)
    ensures Inv(cfg, Committed(s, c))
  {
    if !s.pc.Errored? {
      ClientKeepsClaims(cfg, s.store, id, c, Live(s));
      ClientKeepsOrder(s, id, c);
      ClientKeepsCover(s, id, c);
    }
  }

  // ---------------------------------------------------------------- delivery and eviction

  /** Moving a notice from unsent to the back of the receiver keeps it behind everything read before. */
  lemma AppendKeepsNotice(s: Sys, e: Event, id: VerificationId, k: int)
    requires -1 <= k < |s.queue| && NoticedAfter(s, id, k)
    ensures NoticedAfter(Append(s, e), id, k) && NoticedAfter(Append(Unowed(s, e), e), id, k)
  {
    var q := s.queue + [e];
    if Notice(id) !in s.unpublished {
      var i :| 0 <= i < |s.queue| && k < i && s.queue[i] == Notice(id);
      assert q[i] == Notice(id);
    } else if e == Notice(id) {
      assert q[|s.queue|] == Notice(id);
    }
  }

  lemma AppendKeepsOrder(s: Sys, e: Event)
    requires OrderOk(s) && (e.ProofEvicted? ==> StateOf(s.store, e.id) != Some(Queued))
    ensures OrderOk(Append(s, e)) && OrderOk(Append(Unowed(s, e), e))
  {
    forall id, k | 0 <= k < |s.queue| + 1 && EvictionOf((s.queue + [e])[k], id) && StateOf(s.store, id) == Some(Queued)
      ensures NoticedAfter(Append(s, e), id, k) && NoticedAfter(Append(Unowed(s, e), e), id, k)
    {
      assert k < |s.queue|;
      AppendKeepsNotice(s, e, id, k);
    }
  }

  lemma AppendKeepsCover(s: Sys, e: Event)
    requires NoneStranded(s)
    ensures NoneStranded(Append(s, e)) && NoneStranded(Append(Unowed(s, e), e))
  {
    forall id | StateOf(s.store, id) == Some(Queued)
      ensures Covered(Append(s, e), id) && Covered(Append(Unowed(s, e), e), id)
    {
      assert Covered(s, id);
      if NoticedAfter(s, id, -1) { AppendKeepsNotice(s, e, id, -1); }
    }
  }

  /** The oldest entry may be lost; what matters about it is recovered because lag is now flagged. */
  lemma DropKeepsOrder(s: Sys)
    requires OrderOk(s) && s.queue != []
    ensures OrderOk(DropOldest(s)) && NoneStranded(DropOldest(s))
  {
    var s' := DropOldest(s);
    forall id, k | 0 <= k < |s'.queue| && EvictionOf(s'.queue[k], id) && StateOf(s'.store, id) == Some(Queued)
      ensures NoticedAfter(s', id, k)
    {
      assert s'.queue[k] == s.queue[k + 1];
      assert NoticedAfter(s, id, k + 1);
      if Notice(id) !in s.unpublished {
        var i :| 0 <= i < |s.queue| && k + 1 < i && s.queue[i] == Notice(id);
        assert s'.queue[i - 1] == Notice(id);
      }
    }
  }

  /** A change of the receiver and of what is owed to it. */
  lemma ReceiverStepKeepsInv(cfg: Config, s: Sys, s': Sys)
    requires Inv(cfg, s) && s' == s.(unpublished := s'.unpublished, queue := s'.queue, lagged := s'.lagged)
    requires OwedOk(s'.unpublished) && (s.pc.Unsubscribed? ==> s'.queue == s.queue && s'.lagged == s.lagged)
    requires !s.pc.Errored? ==> OrderOk(s') && NoneStranded(s')
    ensures Inv(cfg, s')
  {
    assert Live(s') == Live(s);
  }

  lemma SendQueueFacts(cfg: Config, s: Sys, e: Event)
    requires ConfigOk(cfg) && OrderOk(s) && NoneStranded(s) && !s.pc.Unsubscribed?
    requires e.ProofEvicted? ==> StateOf(s.store, e.id) != Some(Queued)
    ensures OrderOk(Send(cfg, s, e)) && NoneStranded(Send(cfg, s, e))
    ensures OrderOk(Send(cfg, Unowed(s, e), e)) && NoneStranded(Send(cfg, Unowed(s, e), e))
  {
    AppendKeepsOrder(s, e);
    AppendKeepsCover(s, e);
    if |s.queue| >= cfg.eventBuffer {
      DropKeepsOrder(Append(s, e));
      DropKeepsOrder(Append(Unowed(s, e), e));
    }
  }

  lemma SendKeepsInv(cfg: Config, s: Sys, e: Event)
    requires ConfigOk(cfg) && Inv(cfg, s) && (e.ProofEvicted? ==> StateOf(s.store, e.id) != Some(Queued))
    ensures Inv(cfg, Send(cfg, s, e))
  {
    if !s.pc.Unsubscribed? {
      if !s.pc.Errored? { SendQueueFacts(cfg, s, e); }
      ReceiverStepKeepsInv(cfg, s, Send(cfg, s, e));
    }
  }

  lemma UnownedKeepsNothingStranded(s: Sys, e: Event)
    requires OrderOk(s) && s.pc.Unsubscribed? && s.queue == []
    ensures OrderOk(Unowed(s, e)) && NoneStranded(Unowed(s, e))
  {
  }

  lemma SendOwedKeepsInv(cfg: Config, s: Sys, e: Event)
    requires ConfigOk(cfg) && Inv(cfg, s) && e in s.unpublished
    ensures Inv(cfg, Send(cfg, Unowed(s, e), e))
  {
    if !s.pc.Errored? {
      if s.pc.Unsubscribed? { UnownedKeepsNothingStranded(s, e); } else { SendQueueFacts(cfg, s, e); }
    }
    ReceiverStepKeepsInv(cfg, s, Send(cfg, Unowed(s, e), e));
  }

  lemma EvictKeepsClaims(st: Store, id: VerificationId, live: set<Job>)
    requires ClaimsOk(st, live)
    ensures ClaimsOk(Evict(st, id), live)
  {
    var st' := Evict(st, id);
    forall x | StateOf(st', x) == Some(Verifying)
      ensures exists j :: j in live && j.id == x && Holds(st', j)
    {
      assert StateOf(st, x) == Some(Verifying);
      var j :| j in live && j.id == x && Holds(st, j);
      assert Holds(st', j);
    }
  }

  lemma EvictKeepsQueueFacts(s: Sys, id: VerificationId)
    requires OrderOk(s) && NoneStranded(s)
    ensures var s' := s.(store := Evict(s.store, id)); OrderOk(s') && NoneStranded(s')
  {
    var s' := s.(store := Evict(s.store, id));
    forall x, k | 0 <= k < |s'.queue| && EvictionOf(s'.queue[k], x) && StateOf(s'.store, x) == Some(Queued)
      ensures NoticedAfter(s', x, k)
    {
      assert NoticedAfter(s, x, k);
    }
    forall x | StateOf(s'.store, x) == Some(Queued) ensures Covered(s', x) { assert Covered(s, x); }
  }

  lemma EvictingKeepsInv(cfg: Config, s: Sys, id: VerificationId, cause: EvictionCause)
    requires ConfigOk(cfg) && Inv(cfg, s)
    ensures Inv(cfg, EvictRecord(cfg, s, id, cause))
  {
    ReadAndEvictKeepStoreOk(cfg.limits, s.store, id, s.now);
    if !s.pc.Errored? {
      EvictKeepsClaims(s.store, id, Live(s));
      EvictKeepsQueueFacts(s, id);
    }
    SendKeepsInv(cfg, s.(store := Evict(s.store, id)), ProofEvicted(id, cause));
  }

  // ---------------------------------------------------------------- worker steps

  lemma LocalStepKeepsOrder(s: Sys, s': Sys)
    requires OrderOk(s) && s'.store == s.store && s'.unpublished == s.unpublished && s'.queue == s.queue
    ensures OrderOk(s')
  {
    forall x, k | 0 <= k < |s'.queue| && EvictionOf(s'.queue[k], x) && StateOf(s'.store, x) == Some(Queued)
      ensures NoticedAfter(s', x, k)
    {
      assert NoticedAfter(s, x, k);
    }
  }

  /** The worker itself answers for this id. */
  ghost predicate HeldByWorker(s: Sys, id: VerificationId) {
    id in s.w.pendingIds || id in s.w.activeIds || s.lagged || PcCovers(s.pc, id)
  }

  lemma LocalStepKeepsCover(s: Sys, s': Sys)
    requires NoneStranded(s) && s'.store == s.store && s'.unpublished == s.unpublished && s'.queue == s.queue
    requires forall id :: StateOf(s.store, id) == Some(Queued) && HeldByWorker(s, id) ==> HeldByWorker(s', id)
    ensures NoneStranded(s')
  {
    forall x | StateOf(s'.store, x) == Some(Queued) ensures Covered(s', x) {
      assert Covered(s, x);
      assert HeldByWorker(s, x) ==> HeldByWorker(s', x);
    }
  }

  /** A step that only moves worker-local state keeps the invariant when no job appears or disappears
      and no queued record loses its cover. */
  lemma LocalStepKeepsInv(cfg: Config, s: Sys, s': Sys)
    requires Inv(cfg, s) && !s.pc.Errored? && !s'.pc.Errored?
    requires s' == s.(w := s'.w, pc := s'.pc, lagged := s'.lagged)
    requires SchedOk(cfg.maxJobs, s'.w) && PcOk(cfg, s') && Live(s') == Live(s)
    requires forall id :: StateOf(s.store, id) == Some(Queued) && HeldByWorker(s, id) ==> HeldByWorker(s', id)
    ensures Inv(cfg, s')
  {
    LocalStepKeepsOrder(s, s');
    LocalStepKeepsCover(s, s');
  }

  lemma ClearPendingKeeps(maxJobs: nat, w: Sched)
    requires SchedOk(maxJobs, w)
    ensures SchedOk(maxJobs, ClearPending(w))
  {
  }

  /** Every queued record is in the cache, so a walk over the cache will meet it. */
  lemma ReconcileKeepsInv(cfg: Config, s: Sys, lagged: bool)
    requires Inv(cfg, s) && !s.pc.Errored? && !s.pc.Finishing? && !s.pc.Unsubscribed?
    ensures Inv(cfg, ReconcileFrom(s.(lagged := lagged)))
  {
    ClearPendingKeeps(cfg.maxJobs, s.w);
    assert Live(ReconcileFrom(s.(lagged := lagged))) == Live(s);
    LocalStepKeepsInv(cfg, s, ReconcileFrom(s.(lagged := lagged)));
  }

  lemma VisitKeepsHolders(s: Sys, id: VerificationId)
    requires s.pc.Snapshot? && id in s.pc.unvisited
    ensures forall x :: StateOf(s.store, x) == Some(Queued) && HeldByWorker(s, x) ==> HeldByWorker(VisitRecord(s, id), x)
  {
  }

  lemma VisitKeepsInv(cfg: Config, s: Sys, id: VerificationId)
    requires Inv(cfg, s) && s.pc.Snapshot? && id in s.pc.unvisited
    ensures Inv(cfg, VisitRecord(s, id))
  {
    EnqueueKeeps(cfg.maxJobs, s.w, id);
    VisitKeepsHolders(s, id);
    assert Live(VisitRecord(s, id)) == Live(s);
    LocalStepKeepsInv(cfg, s, VisitRecord(s, id));
  }

  lemma RecheckKeepsHolders(s: Sys)
    requires s.pc.Rechecking?
    ensures forall x :: StateOf(s.store, x) == Some(Queued) && HeldByWorker(s, x) ==> HeldByWorker(RecheckRecord(s), x)
  {
  }

  lemma RecheckKeepsInv(cfg: Config, s: Sys)
    requires Inv(cfg, s) && s.pc.Rechecking?
    ensures Inv(cfg, RecheckRecord(s))
  {
    EnqueueKeeps(cfg.maxJobs, s.w, s.pc.id);
    RecheckKeepsHolders(s);
    assert Live(RecheckRecord(s)) == Live(s);
    LocalStepKeepsInv(cfg, s, RecheckRecord(s));
  }

  lemma PopKeepsInv(cfg: Config, s: Sys)
    requires Inv(cfg, s) && s.pc.Starting?
    ensures Inv(cfg, PopOrSelect(cfg, s))
  {
    if s.w.pending != [] { PopFrontKeeps(cfg.maxJobs, s.w); }
    assert Live(PopOrSelect(cfg, s)) == Live(s);
    LocalStepKeepsInv(cfg, s, PopOrSelect(cfg, s));
  }

  lemma EnterLoopKeepsInv(cfg: Config, s: Sys)
    requires Inv(cfg, s) && s.pc.Top?
    ensures Inv(cfg, s.(pc := Starting))
  {
    LocalStepKeepsInv(cfg, s, s.(pc := Starting));
  }

  lemma SeeStopKeepsInv(cfg: Config, s: Sys)
    requires Inv(cfg, s) && (s.pc.Top? || s.pc.Selecting?) && s.stop
    ensures Inv(cfg, s.(w := ClearPending(s.w), pc := Draining))
  {
    ClearPendingKeeps(cfg.maxJobs, s.w);
    LocalStepKeepsInv(cfg, s, s.(w := ClearPending(s.w), pc := Draining));
  }

  lemma JoinedKeepsLive(s: Sys, s': Sys, job: Job)
    requires !s.pc.Finishing? && job in s.w.jobs
    requires s'.w == Joined(s.w, job) && s'.pc.Finishing? && s'.pc.job == job
    ensures Live(s') == Live(s)
  {
    assert (s.w.jobs - {job}) + {job} == s.w.jobs;
  }

  lemma JoinedKeepsHolders(s: Sys, job: Job, outcome: Outcome)
    requires s.pc.Selecting? || s.pc.Draining?
    ensures var s' := s.(w := Joined(s.w, job), pc := Finishing(job, outcome, s.pc.Draining?));
            forall id :: HeldByWorker(s, id) ==> HeldByWorker(s', id)
  {
  }

  lemma JoinKeepsInv(cfg: Config, s: Sys, job: Job, outcome: Outcome)
    requires Inv(cfg, s) && (s.pc.Selecting? || s.pc.Draining?) && job in s.w.jobs
    ensures Inv(cfg, s.(w := Joined(s.w, job), pc := Finishing(job, outcome, s.pc.Draining?)))
  {
    var s' := s.(w := Joined(s.w, job), pc := Finishing(job, outcome, s.pc.Draining?));
    JoinedKeeps(cfg.maxJobs, s.w, job);
    JoinedKeepsLive(s, s', job);
    JoinedKeepsHolders(s, job, outcome);
    LocalStepKeepsInv(cfg, s, s');
  }

  /** Claiming replaces one queued record by a Verifying one that the new job holds. */
  lemma ClaimKeepsClaims(st: Store, st': Store, job: Job, live: set<Job>)
    requires ClaimsOk(st, live) && StateOf(st, job.id) == Some(Queued)
    requires job.claim == st.nextTag && st'.nextTag == st.nextTag + 1
    requires job.id in st'.entries && st'.entries == st.entries[job.id := st'.entries[job.id]]
    requires st'.entries[job.id].tag == job.claim && StateOf(st', job.id) == Some(Verifying)
    requires st'.entries[job.id].record.proof == Some(job.proof)
    requires job.id !in Ids(live)
    ensures ClaimsOk(st', live + {job})
  {
    forall j | j in live ensures j.id != job.id { assert j.id in Ids(live); }
    forall x | StateOf(st', x) == Some(Verifying)
      ensures exists j :: j in live + {job} && j.id == x && Holds(st', j)
    {
      if x == job.id {
        assert job in live + {job} && Holds(st', job);
      } else {
        assert StateOf(st, x) == Some(Verifying);
        var j :| j in live && j.id == x && Holds(st, j);
        assert j in live + {job} && Holds(st', j);
      }
    }
  }

  /** A worker commit never queues a record, so order and cover carry over. */
  lemma WorkerCommitKeepsOrder(s: Sys, s': Sys)
    requires OrderOk(s) && s'.queue == s.queue && s.unpublished <= s'.unpublished
    requires forall id :: StateOf(s'.store, id) == Some(Queued) ==> StateOf(s.store, id) == Some(Queued)
    ensures OrderOk(s')
  {
    forall x, k | 0 <= k < |s'.queue| && EvictionOf(s'.queue[k], x) && StateOf(s'.store, x) == Some(Queued)
      ensures NoticedAfter(s', x, k)
    {
      assert NoticedAfter(s, x, k);
    }
  }

  lemma WorkerCommitKeepsCover(s: Sys, s': Sys)
    requires NoneStranded(s) && s'.queue == s.queue && s.unpublished <= s'.unpublished
    requires forall id :: StateOf(s'.store, id) == Some(Queued) ==> StateOf(s.store, id) == Some(Queued)
    requires forall id :: StateOf(s'.store, id) == Some(Queued) && HeldByWorker(s, id) ==> HeldByWorker(s', id)
    ensures NoneStranded(s')
  {
    forall x | StateOf(s'.store, x) == Some(Queued) ensures Covered(s', x) {
      assert Covered(s, x);
      assert HeldByWorker(s, x) ==> HeldByWorker(s', x);
    }
  }

  lemma WorkerCommitKeepsInv(cfg: Config, s: Sys, s': Sys)
    requires Inv(cfg, s) && !s.pc.Errored? && !s'.pc.Errored?
    requires s' == s.(store := s'.store, unpublished := s'.unpublished, w := s'.w, pc := s'.pc)
    requires s.unpublished <= s'.unpublished && OwedOk(s'.unpublished) && PcOk(cfg, s')
    requires StoreOk(cfg.limits, s'.store) && SchedOk(cfg.maxJobs, s'.w) && ClaimsOk(s'.store, Live(s'))
    requires forall id :: StateOf(s'.store, id) == Some(Queued) ==> StateOf(s.store, id) == Some(Queued)
    requires forall id :: StateOf(s'.store, id) == Some(Queued) && HeldByWorker(s, id) ==> HeldByWorker(s', id)
    ensures Inv(cfg, s')
  {
    WorkerCommitKeepsOrder(s, s');
    WorkerCommitKeepsCover(s, s');
  }

  /** Replacing one entry by one that is not queued queues nothing. */
  lemma ReplacedQueuesNothing(st: Store, st': Store, id: VerificationId)
    requires id in st'.entries && st'.entries == st.entries[id := st'.entries[id]]
    requires StateOf(st', id) != Some(Queued)
    ensures forall x :: StateOf(st', x) == Some(Queued) ==> x != id && StateOf(st, x) == Some(Queued)
  {
  }

  lemma CommitOwes(s: Sys, c: Commit)
    requires OwedOk(s.unpublished) && forall e :: e in c.events ==> !e.ProofEvicted?
    ensures s.unpublished <= Committed(s, c).unpublished && OwedOk(Committed(s, c).unpublished)
  {
  }

  lemma ClaimKeepsHolders(s: Sys, s': Sys, job: Job)
    requires s.pc == Claiming(job.id) && StateOf(s'.store, job.id) != Some(Queued)
    requires s'.w == Spawn(s.w, job) && s'.lagged == s.lagged
    ensures forall id :: StateOf(s'.store, id) == Some(Queued) && HeldByWorker(s, id) ==> HeldByWorker(s', id)
  {
  }

  lemma StartingIsPcOk(cfg: Config, s: Sys)
    requires s.pc.Starting?
    ensures PcOk(cfg, s)
  {
  }

  lemma ClaimedQueueFacts(s: Sys, s': Sys, job: Job)
    requires OrderOk(s) && NoneStranded(s) && s.pc == Claiming(job.id)
    requires s'.queue == s.queue && s'.lagged == s.lagged && s.unpublished <= s'.unpublished
    requires s'.w == Spawn(s.w, job) && s'.pc.Starting?
    requires job.id in s'.store.entries && s'.store.entries == s.store.entries[job.id := s'.store.entries[job.id]]
    requires StateOf(s'.store, job.id) == Some(Verifying)
    ensures OrderOk(s') && NoneStranded(s')
  {
    ReplacedQueuesNothing(s.store, s'.store, job.id);
    ClaimKeepsHolders(s, s', job);
    WorkerCommitKeepsOrder(s, s');
    WorkerCommitKeepsCover(s, s');
  }

  lemma ClaimedKeepsInv(cfg: Config, s: Sys, s': Sys, job: Job)
    requires s.pc == Claiming(job.id) && PcOk(cfg, s) && SchedOk(cfg.maxJobs, s.w) && OrderOk(s) && NoneStranded(s)
    requires s' == s.(store := s'.store, unpublished := s'.unpublished, w := Spawn(s.w, job), pc := Starting)
    requires s.unpublished <= s'.unpublished && OwedOk(s'.unpublished)
    requires StoreOk(cfg.limits, s'.store) && ClaimsOk(s'.store, s.w.jobs + {job})
    requires job.id in s'.store.entries && s'.store.entries == s.store.entries[job.id := s'.store.entries[job.id]]
    requires StateOf(s'.store, job.id) == Some(Verifying)
    ensures Inv(cfg, s')
  {
    SpawnKeeps(cfg.maxJobs, s.w, job);
    ClaimedQueueFacts(s, s', job);
    StartingIsPcOk(cfg, s');
    assert Live(s') == s.w.jobs + {job};
  }

  lemma NoClaimKeepsInv(cfg: Config, s: Sys)
    requires Inv(cfg, s) && s.pc.Claiming? && StateOf(s.store, s.pc.id) != Some(Queued)
    ensures Inv(cfg, s.(pc := Starting))
  {
    StartingIsPcOk(cfg, s.(pc := Starting));
    assert Live(s.(pc := Starting)) == Live(s);
    LocalStepKeepsInv(cfg, s, s.(pc := Starting));
  }

  lemma ClaimKeepsInv(cfg: Config, s: Sys)
    requires Inv(cfg, s) && s.pc.Claiming?
    ensures Inv(cfg, ClaimNext(cfg, s))
  {
    BeginEffect(cfg.limits, s.store, s.pc.id, s.now);
    var (c, r) := Begin(cfg.limits, s.store, s.pc.id, s.now);
    if r.value.Some? {
      assert Live(s) == s.w.jobs;
      ClaimKeepsClaims(s.store, c.store, r.value.value, s.w.jobs);
      CommitOwes(s, c);
      ClaimedKeepsInv(cfg, s, ClaimNext(cfg, s), r.value.value);
    } else {
      NoClaimKeepsInv(cfg, s);
    }
  }

  /** Committing an outcome releases the job's claim: either its record stops Verifying, or the job no
      longer held any record. */
  lemma ReleaseKeepsClaims(st: Store, st': Store, job: Job, jobs: set<Job>)
    requires ClaimsOk(st, jobs + {job}) && job !in jobs && st.nextTag <= st'.nextTag
    requires if Holds(st, job)
             then && job.id in st'.entries && st'.entries == st.entries[job.id := st'.entries[job.id]]
                  && st'.entries[job.id].tag == st.nextTag && StateOf(st', job.id) != Some(Verifying)
             else st' == st
    ensures ClaimsOk(st', jobs)
  {
    forall j | j in jobs ensures j in jobs + {job} && j.id != job.id {
      assert job in jobs + {job};
    }
    forall x | StateOf(st', x) == Some(Verifying)
      ensures exists j :: j in jobs && j.id == x && Holds(st', j)
    {
      assert StateOf(st, x) == Some(Verifying);
      var j :| j in jobs + {job} && j.id == x && Holds(st, j);
      assert j in jobs && Holds(st', j);
    }
  }

  lemma FinishKeepsClaims(cfg: Config, st: Store, job: Job, outcome: Outcome, now: nat, jobs: set<Job>)
    requires StoreOk(cfg.limits, st) && ClaimsOk(st, jobs + {job}) && job !in jobs
    ensures var r := Finish(cfg.limits, st, job, outcome, now); r.Ok? && ClaimsOk(r.value.store, jobs)
  {
    FinishEffect(cfg.limits, st, job, outcome, now);
    assert job in jobs + {job};
    ReleaseKeepsClaims(st, Finish(cfg.limits, st, job, outcome, now).value.store, job, jobs);
  }

  lemma FinishKeepsHolders(s: Sys, c: Commit)
    requires s.pc.Finishing?
    ensures var s' := Committed(s, c).(pc := Rechecking(s.pc.job.id, s.pc.draining));
            forall id :: HeldByWorker(s, id) ==> HeldByWorker(s', id)
  {
  }

  lemma FinishedKeepsInv(cfg: Config, s: Sys, c: Commit)
    requires Inv(cfg, s) && s.pc.Finishing?
    requires StoreOk(cfg.limits, c.store) && ClaimsOk(c.store, s.w.jobs)
    requires forall e :: e in c.events ==> !e.ProofEvicted?
    requires forall x :: StateOf(c.store, x) == Some(Queued) ==> StateOf(s.store, x) == Some(Queued)
    ensures Inv(cfg, Committed(s, c).(pc := Rechecking(s.pc.job.id, s.pc.draining)))
  {
    var s' := Committed(s, c).(pc := Rechecking(s.pc.job.id, s.pc.draining));
    assert Live(s') == s.w.jobs;
    CommitOwes(s, c);
    FinishKeepsHolders(s, c);
    WorkerCommitKeepsInv(cfg, s, s');
  }

  lemma CommitOutcomeKeepsInv(cfg: Config, s: Sys)
    requires Inv(cfg, s) && s.pc.Finishing?
    ensures Inv(cfg, CommitNext(cfg, s))
  {
    var job, outcome := s.pc.job, s.pc.outcome;
    assert Live(s) == s.w.jobs + {job};
    FinishEffect(cfg.limits, s.store, job, outcome, s.now);
    FinishKeepsClaims(cfg, s.store, job, outcome, s.now, s.w.jobs);
    var c := Finish(cfg.limits, s.store, job, outcome, s.now).value;
    if c.store != s.store { ReplacedQueuesNothing(s.store, c.store, job.id); }
    FinishedKeepsInv(cfg, s, c);
  }

  lemma ReadKeepsNotice(s: Sys, s': Sys, id: VerificationId, k: nat)
    requires s.queue != [] && s'.queue == s.queue[1..] && s'.unpublished == s.unpublished
    requires NoticedAfter(s, id, k)
    ensures NoticedAfter(s', id, k - 1)
  {
    if Notice(id) !in s.unpublished {
      var i :| 0 <= i < |s.queue| && k < i && s.queue[i] == Notice(id);
      assert s'.queue[i - 1] == Notice(id);
    }
  }

  /** Reading an event moves what it says into the worker; a stale eviction may drop the id from the
      pending queue, but then a later notice is still ahead. */
  lemma ReadKeepsCover(maxJobs: nat, s: Sys)
    requires SchedOk(maxJobs, s.w) && OrderOk(s) && NoneStranded(s) && s.pc.Selecting? && !s.lagged && s.queue != []
    ensures NoneStranded(ReceiveNext(s))
  {
    var s', e := ReceiveNext(s), s.queue[0];
    HandleEventKeeps(maxJobs, s.w, e);
    forall x | StateOf(s'.store, x) == Some(Queued) ensures Covered(s', x) {
      assert Covered(s, x);
      if EvictionOf(e, x) || (NoticedAfter(s, x, -1) && e != Notice(x)) {
        assert NoticedAfter(s, x, 0);
        ReadKeepsNotice(s, s', x, 0);
      }
    }
  }

  lemma ReadKeepsOrder(s: Sys)
    requires OrderOk(s) && s.pc.Selecting? && !s.lagged && s.queue != []
    ensures OrderOk(ReceiveNext(s))
  {
    var s' := ReceiveNext(s);
    forall x, k | 0 <= k < |s'.queue| && EvictionOf(s'.queue[k], x) && StateOf(s'.store, x) == Some(Queued)
      ensures NoticedAfter(s', x, k)
    {
      assert s.queue[k + 1] == s'.queue[k];
      assert NoticedAfter(s, x, k + 1);
      ReadKeepsNotice(s, s', x, k + 1);
    }
  }

  lemma ReceiveKeepsInv(cfg: Config, s: Sys)
    requires Inv(cfg, s) && s.pc.Selecting? && (s.lagged || s.queue != [])
    ensures Inv(cfg, ReceiveNext(s))
  {
    if s.lagged {
      ReconcileKeepsInv(cfg, s, false);
    } else {
      HandleEventKeeps(cfg.maxJobs, s.w, s.queue[0]);
      ReadKeepsOrder(s);
      ReadKeepsCover(cfg.maxJobs, s);
      assert Live(ReceiveNext(s)) == Live(s);
    }
  }

  // ---------------------------------------------------------------- all steps

  lemma ClientStepKeepsInv(cfg: Config, s: Sys, step: Step)
    requires ConfigOk(cfg) && Inv(cfg, s) && Enabled(cfg, s, step)
    requires step.Observing? || step.Inserting? || step.Attaching? || step.Retrying? || step.Reading?
    ensures Inv(cfg, Next(cfg, s, step))
  {
    match step
    case Observing(id) =>
      ObserveEffect(cfg.limits, s.store, id, s.now);
      ClientKeepsInv(cfg, s, id, Observe(cfg.limits, s.store, id, s.now));
    case Inserting(proof, source) =>
      InsertLocalEffect(cfg.limits, s.store, proof, source, s.now);
      var r := InsertLocal(cfg.limits, s.store, proof, source, s.now);
      if r.Ok? { ClientKeepsInv(cfg, s, IdOf(cfg.limits.sha, proof), r.value); }
    case Attaching(id, proof, peer) =>
      AttachEffect(cfg.limits, s.store, id, proof, peer, s.now);
      var r := AttachDownloaded(cfg.limits, s.store, id, proof, peer, s.now);
      if r.Ok? { ClientKeepsInv(cfg, s, id, r.value); }
    case Retrying(id) =>
      RetryEffect(cfg.limits, s.store, id, s.now);
      var r := StoreOps.Retry(cfg.limits, s.store, id, s.now);
      if r.Ok? { ClientKeepsInv(cfg, s, id, r.value); }
    case Reading(id) =>
      ReadAndEvictKeepStoreOk(cfg.limits, s.store, id, s.now);
  }

  lemma ClockAndStopKeepInv(cfg: Config, s: Sys, now: nat)
    requires Inv(cfg, s)
    ensures Inv(cfg, s.(now := now)) && Inv(cfg, s.(stop := true))
  {
    assert Live(s.(now := now)) == Live(s) == Live(s.(stop := true));
    if !s.pc.Errored? {
      LocalStepKeepsOrder(s, s.(now := now));
      LocalStepKeepsOrder(s, s.(stop := true));
      LocalStepKeepsCover(s, s.(now := now));
      LocalStepKeepsCover(s, s.(stop := true));
    }
  }

  lemma SubscribeKeepsInv(cfg: Config, s: Sys)
    requires Inv(cfg, s) && s.pc.Unsubscribed?
    ensures Inv(cfg, s.(pc := NotStarted))
  {
    LocalStepKeepsInv(cfg, s, s.(pc := NotStarted));
  }

  lemma VisitDoneKeepsInv(cfg: Config, s: Sys)
    requires Inv(cfg, s) && s.pc == Snapshot({})
    ensures Inv(cfg, s.(pc := Top))
  {
    LocalStepKeepsInv(cfg, s, s.(pc := Top));
  }

  lemma ExitKeepsInv(cfg: Config, s: Sys)
    requires Inv(cfg, s) && s.pc.Draining? && s.w.jobs == {}
    ensures Inv(cfg, s.(pc := Exited))
  {
    LocalStepKeepsInv(cfg, s, s.(pc := Exited));
  }

  lemma EnvironmentStepKeepsInv(cfg: Config, s: Sys, step: Step)
    requires ConfigOk(cfg) && Inv(cfg, s) && Enabled(cfg, s, step)
    requires step.Evicting? || step.Sending? || step.Ticking? || step.Cancelling?
    ensures Inv(cfg, Next(cfg, s, step))
  {
    match step
    case Evicting(id, cause) => EvictingKeepsInv(cfg, s, id, cause);
    case Sending(e) => SendOwedKeepsInv(cfg, s, e);
    case Ticking(t) => ClockAndStopKeepInv(cfg, s, t);
    case Cancelling => ClockAndStopKeepInv(cfg, s, 0);
  }

  lemma WorkerStepKeepsInv(cfg: Config, s: Sys, step: Step)
    requires Inv(cfg, s) && Enabled(cfg, s, step)
    requires step.Subscribe? || step.Start? || step.Visit? || step.VisitDone? || step.EnterLoop? || step.PopNext?
      || step.Claim? || step.SeeStop? || step.Receive?
    ensures Inv(cfg, Next(cfg, s, step))
  {
    match step
    case Subscribe => SubscribeKeepsInv(cfg, s);
    case Start => ReconcileKeepsInv(cfg, s, s.lagged);
    case Visit(id) => VisitKeepsInv(cfg, s, id);
    case VisitDone => VisitDoneKeepsInv(cfg, s);
    case EnterLoop => if s.stop { SeeStopKeepsInv(cfg, s); } else { EnterLoopKeepsInv(cfg, s); }
    case PopNext => PopKeepsInv(cfg, s);
    case Claim => ClaimKeepsInv(cfg, s);
    case SeeStop => SeeStopKeepsInv(cfg, s);
    case Receive => ReceiveKeepsInv(cfg, s);
  }

  lemma JobStepKeepsInv(cfg: Config, s: Sys, step: Step)
    requires Inv(cfg, s) && Enabled(cfg, s, step)
    requires step.Join? || step.JoinError? || step.CommitOutcome? || step.Recheck? || step.DrainDone?
    ensures Inv(cfg, Next(cfg, s, step))
  {
    match step
    case Join(job, _, outcome) => JoinKeepsInv(cfg, s, job, outcome);
    case CommitOutcome => CommitOutcomeKeepsInv(cfg, s);
    case Recheck => RecheckKeepsInv(cfg, s);
    case DrainDone => ExitKeepsInv(cfg, s);
    case JoinError(job) => JoinErrorKeepsInv(cfg, s, job);
  }

  lemma JoinErrorKeepsInv(cfg: Config, s: Sys, job: Job)
    requires Inv(cfg, s) && (s.pc.Selecting? || s.pc.Draining?)
    ensures Inv(cfg, s.(w := s.w.(jobs := s.w.jobs - {job}), pc := Errored(JoinFailed)))
  {
  }

  /** Every step of every component keeps the invariant. */
  lemma NextKeepsInv(cfg: Config, s: Sys, step: Step)
    requires ConfigOk(cfg) && Inv(cfg, s) && Enabled(cfg, s, step)
    ensures Inv(cfg, Next(cfg, s, step))
  {
    if step.Observing? || step.Inserting? || step.Attaching? || step.Retrying? || step.Reading? {
      ClientStepKeepsInv(cfg, s, step);
    } else if step.Evicting? || step.Sending? || step.Ticking? || step.Cancelling? {
      EnvironmentStepKeepsInv(cfg, s, step);
    } else if step.Join? || step.JoinError? || step.CommitOutcome? || step.Recheck? || step.DrainDone? {
      JobStepKeepsInv(cfg, s, step);
    } else {
      WorkerStepKeepsInv(cfg, s, step);
    }
  }
}
