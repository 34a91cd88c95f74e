/** The proof store's transitions (src/store/mod.rs, src/store/expiry.rs).

    Moka is an atomic per-key compute: an operation looks at one entry and either leaves it alone or
    installs a fresh record object. Object identity (the Arc that finish_verification compares by address)
    is a tag taken from a counter that only grows, so evicting a record and storing it again is
    visible. Publication is not part of the commit: each operation returns the events it still has to
    send. */
module StoreOps {
  import opened Common
  import opened Proofs
  import opened Protobuf
  import opened Records

  datatype Limits = Limits(sha: Sha256, maxProofBytes: nat, retention: nat)

  datatype Entry = Entry(tag: nat, record: ProofRecord, deadline: Option<nat>)

  datatype Store = Store(entries: map<VerificationId, Entry>, nextTag: nat)

  datatype Op = Nop | Put(record: ProofRecord)

  datatype Commit = Commit(store: Store, change: StoreChange, events: seq<Event>)

  datatype StoreError =
    | ProofTooLarge(id: VerificationId, actual: nat, max: nat)
    | VerificationIdMismatch(id: VerificationId)
    | ProofNotObserved(id: VerificationId)
    | InvalidTransition(id: VerificationId)

  function Lookup(st: Store, id: VerificationId): Option<ProofRecord> {
    if id in st.entries then Some(st.entries[id].record) else None
  }

  function StateOf(st: Store, id: VerificationId): Option<VerificationState> {
    if id in st.entries then st.entries[id].record.verification else None
  }

  // ---------------------------------------------------------------- retention

  /** TerminalExpiry::duration, turned into a point in time. */
  function DeadlineOnWrite(cfg: Limits, r: ProofRecord, now: nat): Option<nat> {
    if r.verification.Some? && r.verification.value.Completed? then Some(now + cfg.retention) else None
  }

  /** A get that finds a live entry re-arms its timer with what expire_after_read returns: the time
      that was left. */
  function Read(st: Store, id: VerificationId, now: nat): Store {
    if id in st.entries && st.entries[id].deadline.Some? && now < st.entries[id].deadline.value then
      var left := st.entries[id].deadline.value - now;
      st.(entries := st.entries[id := st.entries[id].(deadline := Some(now + left))])
    else st
  }

  // ---------------------------------------------------------------- per-entry computes

  function QueueIfReady(r: ProofRecord): ProofRecord {
    if r.chainObservedAt.Some? && r.proof.Some? && r.verification.None?
    then r.(verification := Some(Queued)) else r
  }

  function ObserveOp(entry: Option<ProofRecord>, now: nat): Op {
    match entry
    case None => Put(ProofRecord(Some(now), None, None, None, None, None))
    case Some(r) =>
      if r.chainObservedAt.Some? then Nop
      else Put(QueueIfReady(r.(chainObservedAt := Some(now))))
  }

  function InsertOp(entry: Option<ProofRecord>, proof: Proof, source: ProofSource, now: nat): Op {
    match entry
    case None => Put(ProofRecord(None, Some(source), Some(now), None, None, Some(proof)))
    case Some(r) =>
      if r.proof.Some? then Nop
      else Put(QueueIfReady(r.(proof := Some(proof), contentSource := Some(source), contentStoredAt := Some(now))))
  }

  function AttachOp(id: VerificationId, entry: Option<ProofRecord>, proof: Proof, source: ProofSource, now: nat)
    : Result<Op, StoreError>
  {
    if entry.None? || entry.value.chainObservedAt.None? then Err(ProofNotObserved(id))
    else if entry.value.proof.Some? then Ok(Nop)
    else Ok(InsertOp(entry, proof, source, now))
  }

  function BeginOp(entry: Option<ProofRecord>): Op {
    match entry
    case None => Nop
    case Some(r) =>
      if r.chainObservedAt.None? || r.proof.None? || r.verification != Some(Queued) then Nop
      else Put(r.(verification := Some(Verifying)))
  }

  function FinishOp(id: VerificationId, entry: Option<Entry>, claim: nat, outcome: Outcome, now: nat)
    : Result<Op, StoreError>
  {
    if entry.None? || entry.value.tag != claim then Ok(Nop)
    else
      var r := entry.value.record;
      if r.verification != Some(Verifying) then Err(InvalidTransition(id))
      else
        match outcome
        case Verdict(v) => Ok(Put(r.(verification := Some(Completed(v)), completedAt := Some(now))))
        case Failure(f) => Ok(Put(r.(verification := Some(Failed(f)), completedAt := None)))
  }

  function RetryOp(id: VerificationId, entry: Option<ProofRecord>): Result<Op, StoreError> {
    match entry
    case None => Err(InvalidTransition(id))
    case Some(r) =>
      match r.verification
      case Some(Queued) => Ok(Nop)
      case Some(Failed(f)) =>
        if f.retryable then Ok(Put(r.(verification := Some(Queued), completedAt := None)))
        else Err(InvalidTransition(id))
      case _ => Err(InvalidTransition(id))
  }

  function Apply(cfg: Limits, st: Store, id: VerificationId, op: Op, now: nat): Store {
    match op
    case Nop => st
    case Put(r) => Store(st.entries[id := Entry(st.nextTag, r, DeadlineOnWrite(cfg, r, now))], st.nextTag + 1)
  }

  function ChangeOf(st: Store, id: VerificationId, op: Op): StoreChange {
    if op.Nop? then Unchanged else if id in st.entries then Updated else Inserted
  }

  function QueuedNotice(id: VerificationId, r: ProofRecord): seq<Event> {
    if r.verification == Some(Queued) then [VerificationChanged(id, Queued)] else []
  }

  // ---------------------------------------------------------------- operations

  function ValidateProof(cfg: Limits, id: VerificationId, proof: Proof): Option<StoreError> {
    if EncodedLen(proof) > cfg.maxProofBytes then Some(ProofTooLarge(id, EncodedLen(proof), cfg.maxProofBytes))
    else if IdOf(cfg.sha, proof) != id then Some(VerificationIdMismatch(id))
    else None
  }

  function Observe(cfg: Limits, st: Store, id: VerificationId, now: nat): Commit {
    var op := ObserveOp(Lookup(st, id), now);
    Commit(Apply(cfg, st, id, op, now), ChangeOf(st, id, op),
      if op.Nop? then [] else [VerificationObserved(id)] + QueuedNotice(id, op.record))
  }

  function InsertLocal(cfg: Limits, st: Store, proof: Proof, source: ProofSource, now: nat): Result<Commit, StoreError> {
    var id := IdOf(cfg.sha, proof);
    match ValidateProof(cfg, id, proof)
    case Some(e) => Err(e)
    case None =>
      var op := InsertOp(Lookup(st, id), proof, source, now);
      Ok(Commit(Apply(cfg, st, id, op, now), ChangeOf(st, id, op),
        if op.Nop? then [] else [ProofStored(id, source)] + QueuedNotice(id, op.record)))
  }

  function AttachDownloaded(cfg: Limits, st: Store, id: VerificationId, proof: Proof, peer: PeerId, now: nat)
    : Result<Commit, StoreError>
  {
    match ValidateProof(cfg, id, proof)
    case Some(e) => Err(e)
    case None =>
      match AttachOp(id, Lookup(st, id), proof, Peer(peer), now)
      case Err(e) => Err(e)
      case Ok(op) =>
        Ok(Commit(Apply(cfg, st, id, op, now), ChangeOf(st, id, op),
          if op.Nop? then [] else [ProofStored(id, Peer(peer))] + QueuedNotice(id, op.record)))
  }

  function Begin(cfg: Limits, st: Store, id: VerificationId, now: nat): (Commit, Result<Option<Job>, StoreError>) {
    var op := BeginOp(Lookup(st, id));
    var c := Commit(Apply(cfg, st, id, op, now), ChangeOf(st, id, op),
      if op.Nop? then [] else [VerificationChanged(id, Verifying)]);
    match op
    case Nop => (c, Ok(None))
    case Put(r) =>
      (c, if r.proof.None? then Err(InvalidTransition(id)) else Ok(Some(Job(id, r.proof.value, st.nextTag))))
  }

  function Finish(cfg: Limits, st: Store, job: Job, outcome: Outcome, now: nat): Result<Commit, StoreError> {
    var entry := if job.id in st.entries then Some(st.entries[job.id]) else None;
    match FinishOp(job.id, entry, job.claim, outcome, now)
    case Err(e) => Err(e)
    case Ok(op) =>
      Ok(Commit(Apply(cfg, st, job.id, op, now), ChangeOf(st, job.id, op),
        if op.Nop? then [] else [VerificationChanged(job.id, op.record.verification.value)]))
  }

  function Retry(cfg: Limits, st: Store, id: VerificationId, now: nat): Result<Commit, StoreError> {
    match RetryOp(id, Lookup(st, id))
    case Err(e) => Err(e)
    case Ok(op) =>
      Ok(Commit(Apply(cfg, st, id, op, now), ChangeOf(st, id, op),
        if op.Nop? then [] else [VerificationChanged(id, Queued)]))
  }

  function Evict(st: Store, id: VerificationId): Store {
    st.(entries := st.entries - {id})
  }

  // ---------------------------------------------------------------- the record invariant

  ghost predicate ContentOk(cfg: Limits, id: VerificationId, p: Proof) {
    IdOf(cfg.sha, p) == id && EncodedLen(p) <= cfg.maxProofBytes
  }

  predicate IsCompleted(s: Option<VerificationState>) { s.Some? && s.value.Completed? }

  ghost predicate RecordOk(cfg: Limits, id: VerificationId, r: ProofRecord) {
    && (r.verification.Some? <==> r.chainObservedAt.Some? && r.proof.Some?)
    && (r.proof.Some? ==> ContentOk(cfg, id, r.proof.value))
    && (r.contentSource.Some? <==> r.proof.Some?)
    && (r.contentStoredAt.Some? <==> r.proof.Some?)
    && (r.completedAt.Some? <==> IsCompleted(r.verification))
    && (r.chainObservedAt.Some? || r.proof.Some?)
  }

  /** A retention deadline exists exactly for completed records and counts from completion. */
  ghost predicate EntryOk(cfg: Limits, id: VerificationId, e: Entry) {
    && RecordOk(cfg, id, e.record)
    && e.deadline == (if IsCompleted(e.record.verification)
                      then Some(e.record.completedAt.value + cfg.retention) else None)
  }

  ghost predicate StoreOk(cfg: Limits, st: Store) {
    && (forall id :: id in st.entries ==> EntryOk(cfg, id, st.entries[id]))
    && (forall id :: id in st.entries ==> st.entries[id].tag < st.nextTag)
    && (forall a, b :: a in st.entries && b in st.entries && st.entries[a].tag == st.entries[b].tag ==> a == b)
  }

  /** Everything a commit may do to the store and the state machine of one record. The four client
      operations move an absent, unready or failed record to an unready or queued one, and queueing
      always owes a Queued event. */
  ghost predicate ClientEffect(st: Store, id: VerificationId, c: Commit) {
    && (forall e :: e in c.events ==> !e.ProofEvicted? && e.id == id)
    && if c.store == st then c.events == [] && c.change == Unchanged
       else
         && c.change == (if id in st.entries then Updated else Inserted)
         && c.store.nextTag == st.nextTag + 1
         && id in c.store.entries && c.store.entries[id].tag == st.nextTag
         && c.store.entries == st.entries[id := c.store.entries[id]]
         && (StateOf(st, id).None? || StateOf(st, id).value.Failed?)
         && StateOf(c.store, id) in {None, Some(Queued)}
         && (VerificationChanged(id, Queued) in c.events <==> StateOf(c.store, id) == Some(Queued))
  }

  /** The content part of the record is what it was. */
  ghost predicate SameContent(was: Option<ProofRecord>, r: ProofRecord) {
    if was.Some? then
      && r.proof == was.value.proof && r.contentSource == was.value.contentSource
      && r.contentStoredAt == was.value.contentStoredAt
    else r.proof.None? && r.contentSource.None? && r.contentStoredAt.None?
  }

  /** The content part is new, the chain part is what it was. */
  ghost predicate StoredNow(was: Option<ProofRecord>, r: ProofRecord, proof: Proof, source: ProofSource, now: nat) {
    && r.proof == Some(proof) && r.contentSource == Some(source) && r.contentStoredAt == Some(now)
    && r.chainObservedAt == if was.Some? then was.value.chainObservedAt else None
  }

  lemma ApplyKeepsStoreOk(cfg: Limits, st: Store, id: VerificationId, op: Op, now: nat)
    requires StoreOk(cfg, st)
    requires op.Put? ==> RecordOk(cfg, id, op.record)
    requires op.Put? && IsCompleted(op.record.verification) ==> op.record.completedAt == Some(now)
    ensures StoreOk(cfg, Apply(cfg, st, id, op, now))
  {
  }

  lemma ObserveEffect(cfg: Limits, st: Store, id: VerificationId, now: nat)
    requires StoreOk(cfg, st)
    ensures var c := Observe(cfg, st, id, now);
            && StoreOk(cfg, c.store) && ClientEffect(st, id, c)
            && id in c.store.entries && c.store.entries[id].record.chainObservedAt.Some?
            && (VerificationObserved(id) in c.events <==>
                !(id in st.entries && st.entries[id].record.chainObservedAt.Some?))
            && (forall e :: e in c.events ==> !e.ProofStored?)
            && (c.store != st ==> c.store.entries[id].record.chainObservedAt == Some(now))
            && SameContent(Lookup(st, id), c.store.entries[id].record)
  {
    ApplyKeepsStoreOk(cfg, st, id, ObserveOp(Lookup(st, id), now), now);
  }

  lemma InsertLocalEffect(cfg: Limits, st: Store, proof: Proof, source: ProofSource, now: nat)
    requires StoreOk(cfg, st)
    ensures var r := InsertLocal(cfg, st, proof, source, now); var id := IdOf(cfg.sha, proof);
            && (r.Ok? <==> EncodedLen(proof) <= cfg.maxProofBytes)
            && (r.Ok? ==>
                && StoreOk(cfg, r.value.store) && ClientEffect(st, id, r.value)
                && id in r.value.store.entries && r.value.store.entries[id].record.proof.Some?
                && (ProofStored(id, source) in r.value.events <==>
                    !(id in st.entries && st.entries[id].record.proof.Some?))
                && (id in st.entries && st.entries[id].record.proof.Some? ==> r.value.store == st)
                && (!(id in st.entries && st.entries[id].record.proof.Some?) ==>
                    StoredNow(Lookup(st, id), r.value.store.entries[id].record, proof, source, now)))
  {
    var id := IdOf(cfg.sha, proof);
    if EncodedLen(proof) <= cfg.maxProofBytes {
      ApplyKeepsStoreOk(cfg, st, id, InsertOp(Lookup(st, id), proof, source, now), now);
    }
  }

  lemma AttachEffect(cfg: Limits, st: Store, id: VerificationId, proof: Proof, peer: PeerId, now: nat)
    requires StoreOk(cfg, st)
    ensures var r := AttachDownloaded(cfg, st, id, proof, peer, now);
            && (r.Ok? <==> ContentOk(cfg, id, proof) && id in st.entries && st.entries[id].record.chainObservedAt.Some?)
            && (r.Err? && ContentOk(cfg, id, proof) ==> r.error == ProofNotObserved(id))
            && (r.Ok? ==>
                && StoreOk(cfg, r.value.store) && ClientEffect(st, id, r.value)
                && r.value.store.entries[id].record.proof.Some?
                && (ProofStored(id, Peer(peer)) in r.value.events <==> st.entries[id].record.proof.None?)
                && (st.entries[id].record.proof.None? ==>
                    && StoredNow(Lookup(st, id), r.value.store.entries[id].record, proof, Peer(peer), now)
                    && StateOf(r.value.store, id) == Some(Queued)))
  {
    var op := AttachOp(id, Lookup(st, id), proof, Peer(peer), now);
    if op.Ok? && ContentOk(cfg, id, proof) { ApplyKeepsStoreOk(cfg, st, id, op.value, now); }
  }

  lemma RetryEffect(cfg: Limits, st: Store, id: VerificationId, now: nat)
    requires StoreOk(cfg, st)
    ensures var r := Retry(cfg, st, id, now); var s := StateOf(st, id);
            && (r.Ok? <==> s.Some? && (s.value.Queued? || (s.value.Failed? && s.value.failure.retryable)))
            && (r.Ok? ==>
                && StoreOk(cfg, r.value.store) && ClientEffect(st, id, r.value)
                && StateOf(r.value.store, id) == Some(Queued)
                && r.value.store.entries[id].record.proof == st.entries[id].record.proof)
  {
    var op := RetryOp(id, Lookup(st, id));
    if op.Ok? { ApplyKeepsStoreOk(cfg, st, id, op.value, now); }
  }

  /** A claim is issued exactly for a queued record, carries that record's content, and its identity
      is the freshly installed object. The "claimed record has no proof" error never happens. */
  lemma BeginEffect(cfg: Limits, st: Store, id: VerificationId, now: nat)
    requires StoreOk(cfg, st)
    ensures var (c, r) := Begin(cfg, st, id, now);
            && r.Ok? && (r.value.Some? <==> StateOf(st, id) == Some(Queued))
            && (r.value.None? ==> c.store == st && c.events == [])
            && (r.value.Some? ==>
                && StoreOk(cfg, c.store) && c.store.nextTag == st.nextTag + 1
                && c.events == [VerificationChanged(id, Verifying)]
                && id in c.store.entries
                && c.store.entries == st.entries[id := c.store.entries[id]]
                && StateOf(c.store, id) == Some(Verifying)
                && c.store.entries[id].tag == st.nextTag == r.value.value.claim
                && r.value.value.id == id
                && c.store.entries[id].record.proof == Some(r.value.value.proof) == st.entries[id].record.proof)
  {
    ApplyKeepsStoreOk(cfg, st, id, BeginOp(Lookup(st, id)), now);
  }

  function StateFor(outcome: Outcome): VerificationState {
    match outcome
    case Verdict(v) => Completed(v)
    case Failure(f) => Failed(f)
  }

  /** A finish changes the store exactly when the very record it claimed is still installed and
      verifying; it then installs the outcome and nothing else. */
  lemma FinishEffect(cfg: Limits, st: Store, job: Job, outcome: Outcome, now: nat)
    requires StoreOk(cfg, st)
    ensures var r := Finish(cfg, st, job, outcome, now);
            var held := job.id in st.entries && st.entries[job.id].tag == job.claim;
            && (r.Err? <==> held && StateOf(st, job.id) != Some(Verifying))
            && (!held ==> r == Ok(Commit(st, Unchanged, [])))
            && (held && r.Ok? ==>
                && StoreOk(cfg, r.value.store) && r.value.change == Updated
                && r.value.store.nextTag == st.nextTag + 1
                && job.id in r.value.store.entries
                && r.value.store.entries == st.entries[job.id := r.value.store.entries[job.id]]
                && r.value.store.entries[job.id].tag == st.nextTag
                && StateOf(r.value.store, job.id) == Some(StateFor(outcome))
                && r.value.events == [VerificationChanged(job.id, StateFor(outcome))]
                && r.value.store.entries[job.id].record.proof == st.entries[job.id].record.proof
                && r.value.store.entries[job.id].record.chainObservedAt == st.entries[job.id].record.chainObservedAt)
  {
    var entry := if job.id in st.entries then Some(st.entries[job.id]) else None;
    var op := FinishOp(job.id, entry, job.claim, outcome, now);
    if op.Ok? { ApplyKeepsStoreOk(cfg, st, job.id, op.value, now); }
  }

  /** Reading never moves a deadline, and evicting one entry leaves the rest sound. */
  lemma ReadAndEvictKeepStoreOk(cfg: Limits, st: Store, id: VerificationId, now: nat)
    requires StoreOk(cfg, st)
    ensures Read(st, id, now) == st
    ensures StoreOk(cfg, Evict(st, id))
  {
    if id in st.entries {
      assert st.entries[id := st.entries[id]] == st.entries;
    }
  }

  /** The two halves of a record may arrive in either order: the store ends the same, with the record
      Queued. */
  lemma ArrivalOrderIrrelevant(cfg: Limits, st: Store, proof: Proof, source: ProofSource, t: nat, u: nat)
    requires StoreOk(cfg, st) && EncodedLen(proof) <= cfg.maxProofBytes
    requires IdOf(cfg.sha, proof) !in st.entries
    ensures var id := IdOf(cfg.sha, proof);
            var observedFirst := InsertLocal(cfg, Observe(cfg, st, id, t).store, proof, source, u).value.store;
            var storedFirst := Observe(cfg, InsertLocal(cfg, st, proof, source, u).value.store, id, t).store;
            && observedFirst == storedFirst
            && StateOf(observedFirst, id) == Some(Queued)
  {
    var id := IdOf(cfg.sha, proof);
    var observedFirst := InsertLocal(cfg, Observe(cfg, st, id, t).store, proof, source, u).value.store;
    var storedFirst := Observe(cfg, InsertLocal(cfg, st, proof, source, u).value.store, id, t).store;
    assert observedFirst.entries == storedFirst.entries;
  }

  // ---------------------------------------------------------------- where a record's parts come from

  /** Each part of a new record was in the old one or was brought by the operation itself. */
  ghost predicate Inherits(was: Option<ProofRecord>, r: ProofRecord, observes: bool, brings: Option<Proof>) {
    && (r.chainObservedAt.Some? ==> observes || (was.Some? && was.value.chainObservedAt.Some?))
    && (r.proof.Some? ==> r.proof == brings || (was.Some? && was.value.proof == r.proof))
  }

  /** The client operations never touch a completed record and never complete one. */
  lemma ClientOpsInherit(was: Option<ProofRecord>, id: VerificationId, p: Proof, source: ProofSource, now: nat)
    requires was.Some? ==> (was.value.verification.Some? <==> was.value.chainObservedAt.Some? && was.value.proof.Some?)
    ensures var op := ObserveOp(was, now);
            op.Put? ==> Inherits(was, op.record, true, None) && !IsCompleted(op.record.verification)
    ensures var op := InsertOp(was, p, source, now);
            op.Put? ==> Inherits(was, op.record, false, Some(p)) && !IsCompleted(op.record.verification)
    ensures var op := AttachOp(id, was, p, source, now);
            op.Ok? && op.value.Put? ==>
              Inherits(was, op.value.record, false, Some(p)) && !IsCompleted(op.value.record.verification)
    ensures var op := RetryOp(id, was);
            op.Ok? && op.value.Put? ==>
              Inherits(was, op.value.record, false, None) && !IsCompleted(op.value.record.verification)
    ensures was.Some? && IsCompleted(was.value.verification) ==>
              && ObserveOp(was, now).Nop? && InsertOp(was, p, source, now).Nop? && BeginOp(was).Nop?
              && AttachOp(id, was, p, source, now) == Ok(Nop) && RetryOp(id, was).Err?
  {
  }

  lemma WorkerOpsInherit(was: Option<ProofRecord>)
    ensures var op := BeginOp(was);
            op.Put? ==> Inherits(was, op.record, false, None) && !IsCompleted(op.record.verification)
  {
  }

  lemma FinishInherits(id: VerificationId, was: Option<Entry>, claim: nat, outcome: Outcome, now: nat)
    ensures var op := FinishOp(id, was, claim, outcome, now);
            op.Ok? && op.value.Put? ==>
              && was.Some? && was.value.tag == claim && was.value.record.verification == Some(Verifying)
              && Inherits(Some(was.value.record), op.value.record, false, None)
              && op.value.record.verification == Some(StateFor(outcome))
  {
  }

  lemma ApplyAt(cfg: Limits, st: Store, at: VerificationId, op: Op, now: nat, id: VerificationId)
    ensures var st' := Apply(cfg, st, at, op, now);
            && (id in st.entries && (id != at || op.Nop?) ==> id in st'.entries && st'.entries[id] == st.entries[id])
            && (id in st'.entries ==>
                || (id in st.entries && st'.entries[id] == st.entries[id])
                || (id == at && op.Put? && st'.entries[id].record == op.record && st'.entries[id].tag == st.nextTag))
  {
  }
}
