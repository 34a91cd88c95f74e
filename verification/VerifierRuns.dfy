/** Results over whole runs of VerifierSystem: any finite interleaving of client, eviction, delivery,
    clock and worker steps, from an empty store. */
module VerifierRuns {
  import opened Common
  import opened Proofs
  import opened Records
  import opened StoreOps
  import opened JobExecution
  import opened Scheduler
  import opened VerifierSystem
  import opened VerifierInvariant

  datatype Run = Run(states: seq<Sys>, steps: seq<Step>)

  ghost predicate StepOk(cfg: Config, r: Run, i: nat)
    requires i < |r.steps| && |r.states| == |r.steps| + 1
  {
    Enabled(cfg, r.states[i], r.steps[i]) && r.states[i + 1] == Next(cfg, r.states[i], r.steps[i])
  }

  ghost predicate IsRun(cfg: Config, r: Run) {
    && ConfigOk(cfg)
    && |r.states| == |r.steps| + 1
    && r.states[0] == INITIAL
    && forall i :: 0 <= i < |r.steps| ==> StepOk(cfg, r, i)
  }

  lemma {:induction false} RunInv(cfg: Config, r: Run, n: nat)
    requires IsRun(cfg, r) && n < |r.states|
    ensures Inv(cfg, r.states[n])
  {
    if n == 0 {
      InitialInv(cfg);
    } else {
      RunInv(cfg, r, n - 1);
      assert StepOk(cfg, r, n - 1);
      NextKeepsInv(cfg, r.states[n - 1], r.steps[n - 1]);
    }
  }

  // ---------------------------------------------------------------- the scheduler

  /** No ready record is ever stranded. At every control point, each queued record is waiting its turn,
      has a running job for its id, has a notice the worker has yet to read or a client has yet to send,
      or the worker has been told it lagged and will look again, or it is about to look at this very id.
      The last never holds while the worker waits for something to do. */
  lemma NoReadyRecordStranded(cfg: Config, r: Run, n: nat, id: VerificationId)
    requires IsRun(cfg, r) && n < |r.states| && !r.states[n].pc.Errored?
    requires StateOf(r.states[n].store, id) == Some(Queued)
    ensures var s := r.states[n];
            || id in s.w.pending
            || (exists j :: j in s.w.jobs && j.id == id)
            || Notice(id) in s.queue
            || Notice(id) in s.unpublished
            || s.lagged
            || (PcCovers(s.pc, id) && !s.pc.Selecting?)
  {
    RunInv(cfg, r, n);
    var s := r.states[n];
    assert Covered(s, id);
    if id in s.w.activeIds {
      var j :| j in s.w.jobs && j.id == id;
    }
  }

  /** So once nothing is in flight and no job runs, nothing is left ready. */
  lemma QuiescentMeansNothingReady(cfg: Config, r: Run, n: nat, id: VerificationId)
    requires IsRun(cfg, r) && n < |r.states|
    requires var s := r.states[n];
             s.pc.Selecting? && !s.stop && !s.lagged && s.queue == [] && s.unpublished == multiset{} && s.w.jobs == {}
    ensures StateOf(r.states[n].store, id) != Some(Queued)
  {
    RunInv(cfg, r, n);
    if StateOf(r.states[n].store, id) == Some(Queued) {
      NoReadyRecordStranded(cfg, r, n, id);
    }
  }

  /** Running jobs never exceed the bound, no two share an id whatever was evicted and stored again in
      between, the pending queue is duplicate-free and disjoint from the running ids, and a waiting
      worker has either filled every slot or emptied its queue. The store never refuses a transition. */
  lemma SchedulerBounds(cfg: Config, r: Run, n: nat)
    requires IsRun(cfg, r) && n < |r.states|
    ensures var s := r.states[n];
            && s.pc != Errored(BadTransition)
            && (!s.pc.Errored? ==>
                && |s.w.jobs| <= cfg.maxJobs
                && (forall a, b :: a in s.w.jobs && b in s.w.jobs && a.id == b.id ==> a == b)
                && NoDuplicates(s.w.pending)
                && (forall id :: id in s.w.pending <==> id in s.w.pendingIds)
                && (forall j :: j in s.w.jobs ==> j.id !in s.w.pending))
            && (s.pc.Selecting? && !s.stop ==> |s.w.jobs| == cfg.maxJobs || s.w.pending == [])
  {
    RunInv(cfg, r, n);
    var s := r.states[n];
    if !s.pc.Errored? {
      forall j | j in s.w.jobs ensures j.id !in s.w.pending { assert j.id in Ids(s.w.jobs); }
    }
  }

  // ---------------------------------------------------------------- stopping

  lemma StopStays(cfg: Config, r: Run, i: nat)
    requires IsRun(cfg, r) && i < |r.steps| && (AfterStop(r.states[i].pc) || r.states[i].pc.Errored?)
    ensures !r.steps[i].Claim? && (AfterStop(r.states[i + 1].pc) || r.states[i + 1].pc.Errored?)
  {
    assert StepOk(cfg, r, i);
  }

  lemma {:induction false} StopPersists(cfg: Config, r: Run, m: nat, n: nat)
    requires IsRun(cfg, r) && m <= n < |r.states| && AfterStop(r.states[m].pc)
    ensures AfterStop(r.states[n].pc) || r.states[n].pc.Errored?
    ensures forall i :: m <= i < n ==> !r.steps[i].Claim?
  {
    if m < n {
      StopPersists(cfg, r, m, n - 1);
      StopStays(cfg, r, n - 1);
    }
  }

  /** Once stop has been seen nothing more is claimed, and a worker that returned normally has left no
      record Verifying and no job behind. */
  lemma CleanStop(cfg: Config, r: Run, m: nat, n: nat, id: VerificationId)
    requires IsRun(cfg, r) && m <= n < |r.states| && AfterStop(r.states[m].pc)
    ensures forall i :: m <= i < n ==> !r.steps[i].Claim?
    ensures r.states[n].pc.Exited? ==>
              r.states[n].w.jobs == {} && StateOf(r.states[n].store, id) != Some(Verifying)
  {
    StopPersists(cfg, r, m, n);
    RunInv(cfg, r, n);
    if r.states[n].pc.Exited? {
      assert Live(r.states[n]) == {};
    }
  }

  // ---------------------------------------------------------------- object identity

  /** What one step may do to one entry: nothing, remove it, or install a never-used object. */
  ghost predicate EntryStep(st: Store, st': Store, id: VerificationId) {
    && st.nextTag <= st'.nextTag
    && (id in st'.entries ==>
        || (id in st.entries && st'.entries[id] == st.entries[id])
        || st'.entries[id].tag == st.nextTag)
  }

  predicate IsClientWrite(step: Step) { step.Observing? || step.Inserting? || step.Attaching? || step.Retrying? }

  /** Apart from client writes, claims, commits and evictions no step changes the store. */
  lemma QuietStep(cfg: Config, s: Sys, step: Step)
    requires Inv(cfg, s) && Enabled(cfg, s, step)
    requires !IsClientWrite(step) && !step.Claim? && !step.CommitOutcome? && !step.Evicting?
    ensures Next(cfg, s, step).store == s.store
  {
    if step.Reading? { ReadAndEvictKeepStoreOk(cfg.limits, s.store, step.id, s.now); }
  }

  lemma ClientEntryStep(cfg: Config, s: Sys, step: Step, id: VerificationId)
    requires Inv(cfg, s) && Enabled(cfg, s, step)
    requires IsClientWrite(step)
    ensures EntryStep(s.store, Next(cfg, s, step).store, id)
  {
    match step
    case Observing(at) => ApplyAt(cfg.limits, s.store, at, ObserveOp(Lookup(s.store, at), s.now), s.now, id);
    case Inserting(proof, source) =>
      var at := IdOf(cfg.limits.sha, proof);
      ApplyAt(cfg.limits, s.store, at, InsertOp(Lookup(s.store, at), proof, source, s.now), s.now, id);
    case Attaching(at, proof, peer) =>
      var r := AttachOp(at, Lookup(s.store, at), proof, Peer(peer), s.now);
      if r.Ok? { ApplyAt(cfg.limits, s.store, at, r.value, s.now, id); }
    case Retrying(at) =>
      var r := RetryOp(at, Lookup(s.store, at));
      if r.Ok? { ApplyAt(cfg.limits, s.store, at, r.value, s.now, id); }
  }

  lemma ClaimEntryStep(cfg: Config, s: Sys, id: VerificationId)
    requires Inv(cfg, s) && s.pc.Claiming?
    ensures EntryStep(s.store, ClaimNext(cfg, s).store, id)
  {
    ApplyAt(cfg.limits, s.store, s.pc.id, BeginOp(Lookup(s.store, s.pc.id)), s.now, id);
  }

  lemma CommitEntryStep(cfg: Config, s: Sys, id: VerificationId)
    requires Inv(cfg, s) && s.pc.Finishing?
    ensures EntryStep(s.store, CommitNext(cfg, s).store, id)
  {
    var at := s.pc.job.id;
    var entry := if at in s.store.entries then Some(s.store.entries[at]) else None;
    var r := FinishOp(at, entry, s.pc.job.claim, s.pc.outcome, s.now);
    if r.Ok? { ApplyAt(cfg.limits, s.store, at, r.value, s.now, id); }
  }

  lemma StepTouchesEntry(cfg: Config, r: Run, i: nat, id: VerificationId)
    requires IsRun(cfg, r) && i < |r.steps|
    ensures EntryStep(r.states[i].store, r.states[i + 1].store, id)
    ensures r.steps[i].Evicting? && r.steps[i].id == id ==> id !in r.states[i + 1].store.entries
  {
    var s, step := r.states[i], r.steps[i];
    RunInv(cfg, r, i);
    assert StepOk(cfg, r, i);
    if IsClientWrite(step) {
      ClientEntryStep(cfg, s, step, id);
    } else if step.Claim? {
      ClaimEntryStep(cfg, s, id);
    } else if step.CommitOutcome? {
      CommitEntryStep(cfg, s, id);
    } else if !step.Evicting? {
      QuietStep(cfg, s, step);
    }
  }

  lemma {:induction false} TagsGrow(cfg: Config, r: Run, m: nat, n: nat)
    requires IsRun(cfg, r) && m <= n < |r.states|
    ensures r.states[m].store.nextTag <= r.states[n].store.nextTag
  {
    if m < n {
      TagsGrow(cfg, r, m, n - 1);
      StepTouchesEntry(cfg, r, n - 1, VerificationId(seq(32, _ => 0)));
    }
  }

  /** An object seen at n that is older than state m has sat in the store, untouched, ever since m. */
  lemma {:induction false} OldObjectUntouched(cfg: Config, r: Run, m: nat, n: nat, id: VerificationId)
    requires IsRun(cfg, r) && m <= n < |r.states|
    requires id in r.states[n].store.entries && r.states[n].store.entries[id].tag < r.states[m].store.nextTag
    ensures forall i :: m <= i <= n ==>
              id in r.states[i].store.entries && r.states[i].store.entries[id] == r.states[n].store.entries[id]
    ensures NotEvictedDuring(r, m, n, id)
  {
    if m < n {
      StepTouchesEntry(cfg, r, n - 1, id);
      TagsGrow(cfg, r, m, n - 1);
      OldObjectUntouched(cfg, r, m, n - 1, id);
    }
  }

  /** No step from m up to n evicts the id. */
  ghost predicate NotEvictedDuring(r: Run, m: nat, n: nat, id: VerificationId)
    requires m <= n <= |r.steps|
  {
    forall i :: m <= i < n ==> !(r.steps[i].Evicting? && r.steps[i].id == id)
  }

  // ---------------------------------------------------------------- claims

  /** Step c claimed exactly this job. */
  ghost predicate ClaimedAt(cfg: Config, r: Run, c: nat, job: Job)
    requires IsRun(cfg, r)
  {
    && c < |r.steps| && r.steps[c].Claim? && r.states[c].pc == Claiming(job.id)
    && job in r.states[c + 1].w.jobs
    && StateOf(r.states[c].store, job.id) == Some(Queued)
    && Holds(r.states[c + 1].store, job)
    && job.claim == r.states[c].store.nextTag
    && r.states[c].store.entries[job.id].record.proof == Some(job.proof)
  }

  lemma QueueingKeepsJobs(w: Sched, e: Event, id: VerificationId)
    ensures HandleEvent(w, e).jobs == w.jobs == Enqueue(w, id).jobs
  {
  }

  predicate IsWorkerStep(step: Step) {
    !(step.Observing? || step.Inserting? || step.Attaching? || step.Retrying? || step.Reading? || step.Evicting?
      || step.Sending? || step.Ticking? || step.Cancelling?)
  }

  lemma OthersLeaveWorkerAlone(cfg: Config, s: Sys, step: Step)
    requires Enabled(cfg, s, step) && !IsWorkerStep(step)
    ensures Next(cfg, s, step).w == s.w && Next(cfg, s, step).pc == s.pc
  {
  }

  lemma WorkerStepJobs(cfg: Config, s: Sys, step: Step)
    requires Enabled(cfg, s, step) && IsWorkerStep(step) && !step.Claim?
    ensures var s' := Next(cfg, s, step);
            && !s.pc.Errored?
            && (s'.w.jobs == s.w.jobs || ((step.Join? || step.JoinError?) && s'.w.jobs == s.w.jobs - {step.job}))
            && (s'.pc.Finishing? ==> step.Join? && s'.pc.job == step.job && s'.pc.outcome == step.outcome)
  {
    if step.Receive? && !s.lagged { QueueingKeepsJobs(s.w, s.queue[0], s.queue[0].id); }
    if step.Visit? { QueueingKeepsJobs(s.w, VerificationObserved(step.id), step.id); }
    if step.Recheck? { QueueingKeepsJobs(s.w, VerificationObserved(s.pc.id), s.pc.id); }
  }

  /** Apart from a claim no step adds a job. */
  lemma OnlyClaimsAddJobs(cfg: Config, r: Run, i: nat)
    requires IsRun(cfg, r) && i < |r.steps| && !r.steps[i].Claim? && !r.states[i + 1].pc.Errored?
    ensures Live(r.states[i + 1]) <= Live(r.states[i]) && !r.states[i].pc.Errored?
  {
    assert StepOk(cfg, r, i);
    if IsWorkerStep(r.steps[i]) {
      WorkerStepJobs(cfg, r.states[i], r.steps[i]);
    } else {
      OthersLeaveWorkerAlone(cfg, r.states[i], r.steps[i]);
    }
  }

  lemma ClaimAddsOneJob(cfg: Config, r: Run, i: nat, job: Job)
    requires IsRun(cfg, r) && i < |r.steps| && r.steps[i].Claim?
    requires job in Live(r.states[i + 1]) && job !in Live(r.states[i])
    ensures ClaimedAt(cfg, r, i, job)
  {
    RunInv(cfg, r, i);
    assert StepOk(cfg, r, i);
    BeginEffect(cfg.limits, r.states[i].store, r.states[i].pc.id, r.states[i].now);
  }

  lemma {:induction false} LiveJobWasClaimed(cfg: Config, r: Run, n: nat, job: Job) returns (c: nat)
    requires IsRun(cfg, r) && n < |r.states| && !r.states[n].pc.Errored? && job in Live(r.states[n])
    ensures c < n && ClaimedAt(cfg, r, c, job)
  {
    assert n > 0;
    if r.steps[n - 1].Claim? {
      assert StepOk(cfg, r, n - 1);
      if job !in Live(r.states[n - 1]) {
        ClaimAddsOneJob(cfg, r, n - 1, job);
        return n - 1;
      }
    } else {
      OnlyClaimsAddJobs(cfg, r, n - 1);
    }
    c := LiveJobWasClaimed(cfg, r, n - 1, job);
  }

  /** Claims are never confused: two claims with one identity are one claim. */
  lemma ClaimsAreUnique(cfg: Config, r: Run, c: nat, job: Job, c': nat, job': Job)
    requires IsRun(cfg, r) && ClaimedAt(cfg, r, c, job) && ClaimedAt(cfg, r, c', job')
    requires job.claim == job'.claim
    ensures c == c' && job == job'
  {
    RunInv(cfg, r, c + 1);
    RunInv(cfg, r, c' + 1);
    if c < c' {
      TagsGrow(cfg, r, c + 1, c');
    } else if c' < c {
      TagsGrow(cfg, r, c' + 1, c);
    }
  }

  /** Every Verifying record is the very object held by one live job, and by no other. */
  lemma VerifyingRecordHasOneHolder(cfg: Config, r: Run, n: nat, id: VerificationId) returns (job: Job, c: nat)
    requires IsRun(cfg, r) && n < |r.states| && !r.states[n].pc.Errored?
    requires StateOf(r.states[n].store, id) == Some(Verifying)
    ensures job in Live(r.states[n]) && job.id == id && Holds(r.states[n].store, job)
    ensures forall j :: j in Live(r.states[n]) && j.id == id ==> j == job
    ensures c < n && ClaimedAt(cfg, r, c, job)
  {
    RunInv(cfg, r, n);
    job :| job in Live(r.states[n]) && job.id == id && Holds(r.states[n].store, job);
    c := LiveJobWasClaimed(cfg, r, n, job);
  }

  lemma ClaimIsOld(cfg: Config, r: Run, c: nat, job: Job)
    requires IsRun(cfg, r) && ClaimedAt(cfg, r, c, job)
    ensures job.claim < r.states[c + 1].store.nextTag
  {
    RunInv(cfg, r, c + 1);
  }

  lemma CommitChangesHeldRecord(cfg: Config, s: Sys)
    requires StoreOk(cfg.limits, s.store) && s.pc.Finishing? && CommitNext(cfg, s).store != s.store
    ensures Holds(s.store, s.pc.job)
  {
    FinishEffect(cfg.limits, s.store, s.pc.job, s.pc.outcome, s.now);
  }

  lemma CommittedHeldRecord(cfg: Config, r: Run, k: nat)
    requires IsRun(cfg, r) && k < |r.steps| && r.steps[k].CommitOutcome?
    requires r.states[k + 1].store != r.states[k].store
    ensures r.states[k].pc.Finishing? && Holds(r.states[k].store, r.states[k].pc.job)
  {
    RunInv(cfg, r, k);
    assert StepOk(cfg, r, k);
    CommitChangesHeldRecord(cfg, r.states[k]);
  }

  /** A finish changes the store only if the record object its job claimed is still installed: it was
      neither evicted nor replaced at any moment since the claim. */
  lemma FinishTouchesOnlyItsOwnClaim(cfg: Config, r: Run, k: nat) returns (c: nat)
    requires IsRun(cfg, r) && k < |r.steps| && r.steps[k].CommitOutcome?
    requires r.states[k].pc.Finishing? && r.states[k + 1].store != r.states[k].store
    ensures var job := r.states[k].pc.job;
            && c < k && ClaimedAt(cfg, r, c, job)
            && NotEvictedDuring(r, c + 1, k, job.id)
            && Holds(r.states[k].store, job)
            && forall i :: c < i <= k ==>
                 && job.id in r.states[i].store.entries
                 && r.states[i].store.entries[job.id] == r.states[k].store.entries[job.id]
  {
    var job := r.states[k].pc.job;
    CommittedHeldRecord(cfg, r, k);
    c := LiveJobWasClaimed(cfg, r, k, job);
    ClaimIsOld(cfg, r, c, job);
    OldObjectUntouched(cfg, r, c + 1, k, job.id);
  }

  // ---------------------------------------------------------------- completed records

  /** What a step that writes through the store does to one entry: keep it, or install a record whose
      parts come from the old one and from the step itself. A completed record is never replaced, and
      one becomes completed only by the commit of a verdict onto the object its job claimed. */
  ghost predicate WritesFrom(s: Sys, s': Sys, step: Step, id: VerificationId) {
    && (IsCompleted(StateOf(s.store, id)) ==>
        id in s'.store.entries && s'.store.entries[id] == s.store.entries[id])
    && (id in s'.store.entries ==>
        || (id in s.store.entries && s'.store.entries[id] == s.store.entries[id])
        || (var r := s'.store.entries[id].record;
            && Inherits(Lookup(s.store, id), r, step == Observing(id),
                        if step.Inserting? || (step.Attaching? && step.id == id) then Some(step.proof) else None)
            && (IsCompleted(r.verification) ==>
                && step.CommitOutcome? && s.pc.Finishing? && s.pc.job.id == id && Holds(s.store, s.pc.job)
                && s.pc.outcome == Verdict(r.verification.value.verdict))))
  }

  lemma ObservingWrites(cfg: Config, s: Sys, at: VerificationId, id: VerificationId)
    requires StoreOk(cfg.limits, s.store)
    ensures WritesFrom(s, Next(cfg, s, Observing(at)), Observing(at), id)
  {
    ClientOpsInherit(Lookup(s.store, id), id, Proof(MinaPickles, [], [], []), Rpc, s.now);
    ApplyAt(cfg.limits, s.store, at, ObserveOp(Lookup(s.store, at), s.now), s.now, id);
  }

  lemma InsertingWrites(cfg: Config, s: Sys, proof: Proof, source: ProofSource, id: VerificationId)
    requires StoreOk(cfg.limits, s.store)
    ensures WritesFrom(s, Next(cfg, s, Inserting(proof, source)), Inserting(proof, source), id)
  {
    var at := IdOf(cfg.limits.sha, proof);
    ClientOpsInherit(Lookup(s.store, id), id, proof, source, s.now);
    ApplyAt(cfg.limits, s.store, at, InsertOp(Lookup(s.store, at), proof, source, s.now), s.now, id);
  }

  lemma AttachingWrites(cfg: Config, s: Sys, at: VerificationId, proof: Proof, peer: PeerId, id: VerificationId)
    requires StoreOk(cfg.limits, s.store)
    ensures WritesFrom(s, Next(cfg, s, Attaching(at, proof, peer)), Attaching(at, proof, peer), id)
  {
    ClientOpsInherit(Lookup(s.store, id), id, proof, Peer(peer), s.now);
    var r := AttachOp(at, Lookup(s.store, at), proof, Peer(peer), s.now);
    if r.Ok? { ApplyAt(cfg.limits, s.store, at, r.value, s.now, id); }
  }

  lemma RetryingWrites(cfg: Config, s: Sys, at: VerificationId, id: VerificationId)
    requires StoreOk(cfg.limits, s.store)
    ensures WritesFrom(s, Next(cfg, s, Retrying(at)), Retrying(at), id)
  {
    ClientOpsInherit(Lookup(s.store, id), id, Proof(MinaPickles, [], [], []), Rpc, s.now);
    var r := RetryOp(at, Lookup(s.store, at));
    if r.Ok? { ApplyAt(cfg.limits, s.store, at, r.value, s.now, id); }
  }

  lemma ClientWrites(cfg: Config, s: Sys, step: Step, id: VerificationId)
    requires StoreOk(cfg.limits, s.store)
    requires IsClientWrite(step)
    ensures WritesFrom(s, Next(cfg, s, step), step, id)
  {
    match step
    case Observing(at) => ObservingWrites(cfg, s, at, id);
    case Inserting(proof, source) => InsertingWrites(cfg, s, proof, source, id);
    case Attaching(at, proof, peer) => AttachingWrites(cfg, s, at, proof, peer, id);
    case Retrying(at) => RetryingWrites(cfg, s, at, id);
  }

  lemma ClaimWrites(cfg: Config, s: Sys, id: VerificationId)
    requires StoreOk(cfg.limits, s.store) && s.pc.Claiming?
    ensures WritesFrom(s, ClaimNext(cfg, s), Claim, id)
  {
    WorkerOpsInherit(Lookup(s.store, id));
    ApplyAt(cfg.limits, s.store, s.pc.id, BeginOp(Lookup(s.store, s.pc.id)), s.now, id);
  }

  lemma CommitWrites(cfg: Config, s: Sys, id: VerificationId)
    requires StoreOk(cfg.limits, s.store) && s.pc.Finishing?
    ensures WritesFrom(s, CommitNext(cfg, s), CommitOutcome, id)
  {
    var at := s.pc.job.id;
    var entry := if at in s.store.entries then Some(s.store.entries[at]) else None;
    var r := FinishOp(at, entry, s.pc.job.claim, s.pc.outcome, s.now);
    FinishInherits(at, entry, s.pc.job.claim, s.pc.outcome, s.now);
    if r.Ok? { ApplyAt(cfg.limits, s.store, at, r.value, s.now, id); }
  }

  lemma StepWrites(cfg: Config, r: Run, i: nat, id: VerificationId)
    requires IsRun(cfg, r) && i < |r.steps| && !(r.steps[i].Evicting? && r.steps[i].id == id)
    ensures WritesFrom(r.states[i], r.states[i + 1], r.steps[i], id)
  {
    var s, step := r.states[i], r.steps[i];
    RunInv(cfg, r, i);
    assert StepOk(cfg, r, i);
    if IsClientWrite(step) {
      ClientWrites(cfg, s, step, id);
    } else if step.Claim? {
      ClaimWrites(cfg, s, id);
    } else if step.CommitOutcome? {
      CommitWrites(cfg, s, id);
    } else if !step.Evicting? {
      QuietStep(cfg, s, step);
    }
  }

  /** A completed record is final: until it is evicted, no read and no operation changes the object, its
      verdict, or its retention deadline, which is its completion time plus the retention period. */
  lemma {:induction false} CompletedIsAbsorbing(cfg: Config, r: Run, m: nat, n: nat, id: VerificationId)
    requires IsRun(cfg, r) && m <= n < |r.states| && IsCompleted(StateOf(r.states[m].store, id))
    requires NotEvictedDuring(r, m, n, id)
    ensures id in r.states[n].store.entries && r.states[n].store.entries[id] == r.states[m].store.entries[id]
    ensures var e := r.states[n].store.entries[id];
            e.record.completedAt.Some? && e.deadline == Some(e.record.completedAt.value + cfg.limits.retention)
  {
    RunInv(cfg, r, m);
    if m < n {
      CompletedIsAbsorbing(cfg, r, m, n - 1, id);
      StepWrites(cfg, r, n - 1, id);
    }
  }

  // ---------------------------------------------------------------- provenance

  /** Step i put this content under this id. */
  ghost predicate ContentStoredAt(cfg: Config, r: Run, i: nat, id: VerificationId, p: Proof)
    requires i < |r.steps|
  {
    && IdOf(cfg.limits.sha, p) == id
    && ((r.steps[i].Inserting? && r.steps[i].proof == p)
        || (r.steps[i].Attaching? && r.steps[i].id == id && r.steps[i].proof == p))
  }

  /** Step i committed this outcome for this job onto the job's own record. */
  ghost predicate OutcomeCommittedAt(r: Run, i: nat, job: Job, outcome: Outcome)
    requires i < |r.steps| && |r.states| == |r.steps| + 1
  {
    && r.steps[i].CommitOutcome? && r.states[i].pc.Finishing?
    && r.states[i].pc.job == job && r.states[i].pc.outcome == outcome
    && r.states[i + 1].store != r.states[i].store
  }

  lemma {:induction false} ObservedSince(cfg: Config, r: Run, n: nat, id: VerificationId) returns (i: nat)
    requires IsRun(cfg, r) && n < |r.states|
    requires id in r.states[n].store.entries && r.states[n].store.entries[id].record.chainObservedAt.Some?
    ensures i < n && r.steps[i] == Observing(id) && NotEvictedDuring(r, i, n, id)
  {
    assert n > 0;
    StepTouchesEntry(cfg, r, n - 1, id);
    StepWrites(cfg, r, n - 1, id);
    if r.steps[n - 1] == Observing(id) { return n - 1; }
    i := ObservedSince(cfg, r, n - 1, id);
  }

  lemma {:induction false} ContentSince(cfg: Config, r: Run, n: nat, id: VerificationId) returns (i: nat)
    requires IsRun(cfg, r) && n < |r.states|
    requires id in r.states[n].store.entries && r.states[n].store.entries[id].record.proof.Some?
    ensures i < n && ContentStoredAt(cfg, r, i, id, r.states[n].store.entries[id].record.proof.value)
    ensures NotEvictedDuring(r, i, n, id)
  {
    assert n > 0;
    ContentIsBound(cfg, r, n, id);
    StepTouchesEntry(cfg, r, n - 1, id);
    StepWrites(cfg, r, n - 1, id);
    if ContentStoredAt(cfg, r, n - 1, id, r.states[n].store.entries[id].record.proof.value) { return n - 1; }
    i := ContentSince(cfg, r, n - 1, id);
  }

  lemma ContentIsBound(cfg: Config, r: Run, n: nat, id: VerificationId)
    requires IsRun(cfg, r) && n < |r.states|
    requires id in r.states[n].store.entries && r.states[n].store.entries[id].record.proof.Some?
    ensures ContentOk(cfg.limits, id, r.states[n].store.entries[id].record.proof.value)
  {
    RunInv(cfg, r, n);
  }

  /** The commit that completed the record, with nothing evicted since. */
  lemma {:induction false} CompletedSince(cfg: Config, r: Run, n: nat, id: VerificationId, v: Verdict) returns (k: nat)
    requires IsRun(cfg, r) && n < |r.states| && StateOf(r.states[n].store, id) == Some(Completed(v))
    ensures k < n && r.steps[k].CommitOutcome? && r.states[k].pc.Finishing?
    ensures r.states[k].pc.job.id == id && r.states[k].pc.outcome == Verdict(v)
    ensures r.states[k + 1].store != r.states[k].store
    ensures NotEvictedDuring(r, k, n, id)
  {
    assert n > 0;
    StepTouchesEntry(cfg, r, n - 1, id);
    StepWrites(cfg, r, n - 1, id);
    if id in r.states[n - 1].store.entries && r.states[n].store.entries[id] == r.states[n - 1].store.entries[id] {
      k := CompletedSince(cfg, r, n - 1, id, v);
    } else {
      k := n - 1;
    }
  }

  /** A job being committed was joined with exactly that outcome, produced by its own attempts. */
  lemma {:induction false} JoinedBefore(cfg: Config, r: Run, k: nat) returns (j: nat)
    requires IsRun(cfg, r) && k < |r.states| && r.states[k].pc.Finishing?
    ensures j < k && r.steps[j].Join? && r.steps[j].job == r.states[k].pc.job && r.steps[j].outcome == r.states[k].pc.outcome
    ensures Produced(cfg.maxRetries, r.steps[j].job.proof.proofType in cfg.registered, r.steps[j].results, r.steps[j].outcome)
  {
    assert k > 0;
    assert StepOk(cfg, r, k - 1);
    if IsWorkerStep(r.steps[k - 1]) {
      FinishingStartsWithJoin(cfg, r.states[k - 1], r.steps[k - 1]);
      j := k - 1;
    } else {
      OthersLeaveWorkerAlone(cfg, r.states[k - 1], r.steps[k - 1]);
      j := JoinedBefore(cfg, r, k - 1);
    }
  }

  lemma FinishingStartsWithJoin(cfg: Config, s: Sys, step: Step)
    requires Enabled(cfg, s, step) && IsWorkerStep(step) && Next(cfg, s, step).pc.Finishing?
    ensures step.Join? && step.job == Next(cfg, s, step).pc.job && step.outcome == Next(cfg, s, step).pc.outcome
  {
    if !step.Claim? { WorkerStepJobs(cfg, s, step); }
  }

  /** The steps behind one reported verdict. */
  datatype Trail = Trail(observed: nat, stored: nat, claimed: nat, joined: nat, committed: nat, job: Job)

  ghost predicate Explains(cfg: Config, r: Run, n: nat, id: VerificationId, v: Verdict, t: Trail)
    requires IsRun(cfg, r) && n < |r.states|
  {
    && t.observed < t.claimed && t.stored < t.claimed < t.joined < t.committed < n
    && t.job.id == id
    // the id was observed on chain and this content stored under it
    && r.steps[t.observed] == Observing(id)
    && ContentStoredAt(cfg, r, t.stored, id, t.job.proof)
    // one claim of that record, for that content
    && ClaimedAt(cfg, r, t.claimed, t.job)
    // the backend registered for the proof type returned exactly v on it
    && r.steps[t.joined].Join? && r.steps[t.joined].job == t.job
    && t.job.proof.proofType in cfg.registered
    && r.steps[t.joined].results != []
    && r.steps[t.joined].results[|r.steps[t.joined].results| - 1] == Returned(v)
    // committed onto the record of that very claim
    && OutcomeCommittedAt(r, t.committed, t.job, Verdict(v))
    // all in the current incarnation of the record
    && NotEvictedDuring(r, t.observed, n, id)
    && NotEvictedDuring(r, t.stored, n, id)
    && NotEvictedDuring(r, t.claimed, n, id)
  }

  /** Whatever the interleaving, a verdict found under an id is the answer of the registered backend on
      content that hashes to the id, for a request seen on chain, through a claim of the current record.
      Timeouts, panics, missing backends and jobs whose record was evicted never yield one. */
  lemma VerdictProvenance(cfg: Config, r: Run, n: nat, id: VerificationId, v: Verdict) returns (t: Trail)
    requires IsRun(cfg, r) && n < |r.states| && StateOf(r.states[n].store, id) == Some(Completed(v))
    ensures Explains(cfg, r, n, id, v, t)
  {
    var k := CompletedSince(cfg, r, n, id, v);
    var job := r.states[k].pc.job;
    var c := FinishTouchesOnlyItsOwnClaim(cfg, r, k);
    var j := JoinedBefore(cfg, r, k);
    JoinFollowsClaim(cfg, r, j, c, job);
    ClaimedParts(cfg, r, c, job);
    var o := ObservedSince(cfg, r, c, id);
    var b := ContentSince(cfg, r, c, id);
    t := Trail(o, b, c, j, k, job);
  }

  lemma JoinFollowsClaim(cfg: Config, r: Run, j: nat, c: nat, job: Job)
    requires IsRun(cfg, r) && j < |r.steps| && r.steps[j].Join? && r.steps[j].job == job && ClaimedAt(cfg, r, c, job)
    ensures c < j
  {
    assert StepOk(cfg, r, j);
    var c' := LiveJobWasClaimed(cfg, r, j, job);
    ClaimsAreUnique(cfg, r, c, job, c', job);
  }

  lemma ClaimedParts(cfg: Config, r: Run, c: nat, job: Job)
    requires IsRun(cfg, r) && ClaimedAt(cfg, r, c, job)
    ensures r.states[c].store.entries[job.id].record.chainObservedAt.Some?
  {
    RunInv(cfg, r, c);
  }
}
