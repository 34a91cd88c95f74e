/** The verification worker as the object that runs it: queue, id sets and jobs changed in place, the
    store shared. Each method runs alone here; the interleaved setting is module VerifierSystem. */
module VerificationWorkers {
  import opened Common
  import opened Proofs
  import opened Records
  import opened StoreOps
  import opened ProofStores
  import opened Scheduler
  import VerifierSystem
  import VerifierInvariant

  /** Everything visited so far is queued unless it has a job. */
  ghost predicate Rebuilt(w: Sched, ready: set<VerificationId>, unvisited: set<VerificationId>) {
    unvisited <= ready && w.pendingIds == ready - unvisited - w.activeIds
  }

  lemma RebuiltStep(maxJobs: nat, w: Sched, ready: set<VerificationId>, unvisited: set<VerificationId>, id: VerificationId)
    requires SchedOk(maxJobs, w) && Rebuilt(w, ready, unvisited) && id in unvisited
    ensures SchedOk(maxJobs, Enqueue(w, id)) && Rebuilt(Enqueue(w, id), ready, unvisited - {id})
  {
    EnqueueKeeps(maxJobs, w, id);
  }

  /** One turn of start_ready_jobs: pop an id and claim its record if it is ready. */
  function StartTurn(limits: Limits, w: Sched, st: Store, now: nat): (Sched, Store)
    requires w.pending != []
  {
    var id, popped := w.pending[0], PopFront(w);
    if id in w.activeIds then (popped, st)
    else
      var (c, r) := Begin(limits, st, id, now);
      if r.Ok? && r.value.Some? then (Spawn(popped, r.value.value), c.store) else (popped, c.store)
  }

  /** What left the queue is running or not ready, and every new job holds its record. */
  ghost predicate Progressed(w: Sched, w': Sched, st: Store) {
    && w.jobs <= w'.jobs && w'.pendingIds <= w.pendingIds
    && (forall id :: id in w.pendingIds ==> id in w'.pendingIds || id in w'.activeIds || StateOf(st, id) != Some(Queued))
    && (forall j :: j in w'.jobs - w.jobs ==> j.id in w.pendingIds && VerifierSystem.Holds(st, j))
  }

  lemma StartTurnKeeps(maxJobs: nat, limits: Limits, w: Sched, st: Store, now: nat)
    requires StoreOk(limits, st) && SchedOk(maxJobs, w) && VerifierSystem.ClaimsOk(st, w.jobs)
    requires |w.jobs| < maxJobs && w.pending != []
    ensures var (w', st') := StartTurn(limits, w, st, now);
            StoreOk(limits, st') && SchedOk(maxJobs, w') && VerifierSystem.ClaimsOk(st', w'.jobs) && |w'.pending| < |w.pending|
  {
    var id, popped := w.pending[0], PopFront(w);
    PopFrontKeeps(maxJobs, w);
    BeginEffect(limits, st, id, now);
    var (c, r) := Begin(limits, st, id, now);
    if r.value.Some? {
      SpawnKeeps(maxJobs, popped, r.value.value);
      VerifierInvariant.ClaimKeepsClaims(st, c.store, r.value.value, w.jobs);
    }
  }

  lemma ProgressStep(maxJobs: nat, limits: Limits, w0: Sched, w: Sched, st: Store, now: nat)
    requires StoreOk(limits, st) && SchedOk(maxJobs, w) && VerifierSystem.ClaimsOk(st, w.jobs)
    requires |w.jobs| < maxJobs && w.pending != [] && Progressed(w0, w, st)
    ensures var (w', st') := StartTurn(limits, w, st, now);
            && StoreOk(limits, st') && SchedOk(maxJobs, w') && VerifierSystem.ClaimsOk(st', w'.jobs)
            && |w'.pending| < |w.pending| && Progressed(w0, w', st')
  {
    StartTurnKeeps(maxJobs, limits, w, st, now);
    PopFrontKeeps(maxJobs, w);
    var id := w.pending[0];
    assert id in w.pendingIds;
    BeginEffect(limits, st, id, now);
    var (w', st') := StartTurn(limits, w, st, now);
    forall j | j in w'.jobs - w0.jobs ensures j.id in w0.pendingIds && VerifierSystem.Holds(st', j) {
      if j in w.jobs { assert j in w.jobs - w0.jobs && j.id in w.activeIds; }
    }
  }

  class VerificationWorker {
    const store: ProofStore
    const maxJobs: nat
    var pending: seq<VerificationId>
    var pendingIds: set<VerificationId>
    var activeIds: set<VerificationId>
    var jobs: set<Job>

    constructor (store: ProofStore, maxJobs: nat)
      ensures Value() == IDLE && this.store == store && this.maxJobs == maxJobs
    {
      this.store, this.maxJobs := store, maxJobs;
      pending, pendingIds, activeIds, jobs := [], {}, {}, {};
    }

    function Value(): Sched
      reads this
    {
      Sched(pending, pendingIds, activeIds, jobs)
    }

    /** The bookkeeping agrees with itself, and every claim in the store is held by one of these jobs. */
    ghost predicate Valid()
      reads this, store
    {
      store.Valid() && SchedOk(maxJobs, Value()) && VerifierSystem.ClaimsOk(store.Value(), jobs)
    }

    method EnqueueId(id: VerificationId)
      modifies `pending, `pendingIds
      ensures Value() == Enqueue(old(Value()), id)
    {
      if id !in activeIds && id !in pendingIds {
        pendingIds := pendingIds + {id};
        pending := pending + [id];
      }
    }

    /** Drops the id from the queue and keeps the others in order. */
    method RemovePendingId(id: VerificationId)
      modifies `pending, `pendingIds
      ensures Value() == RemovePending(old(Value()), id)
    {
      if id in pendingIds {
        pendingIds := pendingIds - {id};
        var kept: seq<VerificationId>, i := [], 0;
        while i < |pending|
          invariant 0 <= i <= |pending| && pending == old(pending) && pendingIds == old(pendingIds) - {id}
          invariant Without(old(pending), id) == kept + Without(pending[i..], id)
        {
          if pending[i] != id {
            kept := kept + [pending[i]];
          }
          i := i + 1;
        }
        pending := kept;
      }
    }

    /** A received event, or None for a receiver that lagged. */
    method HandleStoreResult(event: Option<Event>)
      requires Valid()
      modifies `pending, `pendingIds
      ensures Valid()
      ensures event.Some? ==> Value() == HandleEvent(old(Value()), event.value)
      ensures event.None? ==> pendingIds == store.ReadyForVerification() - activeIds
    {
      if event.None? {
        ReconcileReadyRecords();
      } else {
        HandleEventKeeps(maxJobs, Value(), event.value);
        match event.value {
          case VerificationChanged(id, state) => if state.Queued? { EnqueueId(id); }
          case ProofEvicted(id, _) => RemovePendingId(id);
          case _ =>
        }
      }
    }

    /** Rebuilds the queue from a snapshot: exactly the ready ids that have no running job. */
    method ReconcileReadyRecords()
      requires Valid()
      modifies `pending, `pendingIds
      ensures Valid() && pendingIds == store.ReadyForVerification() - activeIds
    {
      Rebuild(store.ReadyForVerification());
    }

    method Rebuild(ready: set<VerificationId>)
      requires SchedOk(maxJobs, Value())
      modifies `pending, `pendingIds
      ensures SchedOk(maxJobs, Value()) && pendingIds == ready - activeIds
    {
      VerifierInvariant.ClearPendingKeeps(maxJobs, Value());
      pending, pendingIds := [], {};
      var unvisited := ready;
      while unvisited != {}
        invariant SchedOk(maxJobs, Value()) && Rebuilt(Value(), ready, unvisited)
        decreases |unvisited|
      {
        var id :| id in unvisited;
        RebuiltStep(maxJobs, Value(), ready, unvisited, id);
        EnqueueId(id);
        unvisited := unvisited - {id};
      }
    }

    /** Claims ready records until the bound is reached, the queue is empty or stop is seen. Whatever
        leaves the queue is running or was not ready any more. */
    method StartReadyJobs(stopped: nat -> bool, now: nat)
      requires Valid()
      modifies this, store
      ensures Valid() && Progressed(old(Value()), Value(), store.Value())
      ensures |jobs| >= maxJobs || pending == [] || exists k :: stopped(k)
    {
      var turn := 0;
      while |jobs| < maxJobs
        invariant Valid() && Progressed(old(Value()), Value(), store.Value())
        decreases |pending|
      {
        if stopped(turn) || pending == [] {
          return;
        }
        ProgressStep(maxJobs, store.limits, old(Value()), Value(), store.Value(), now);
        StartNext(now);
        turn := turn + 1;
      }
    }

    /** One turn of that loop. */
    method StartNext(now: nat)
      requires store.Valid() && pending != []
      modifies this, store
      ensures store.Valid() && (Value(), store.Value()) == StartTurn(store.limits, old(Value()), old(store.Value()), now)
    {
      var id := pending[0];
      pending, pendingIds := pending[1..], pendingIds - {id};
      if id in activeIds {
        return;
      }
      BeginEffect(store.limits, store.Value(), id, now);
      var job := store.BeginVerification(id, now);
      if job.Some? {
        activeIds := activeIds + {id};
        jobs := jobs + {job.value};
      }
    }

    /** Takes a finished job's outcome to the store. It is never refused, and a record that is ready again
        goes back to the queue. */
    method CommitCompletion(job: Job, outcome: Outcome, now: nat) returns (r: Result<StoreChange, StoreError>)
      requires Valid() && job in jobs
      modifies this, store
      ensures Valid() && r.Ok?
      ensures Finish(store.limits, old(store.Value()), job, outcome, now).Ok?
      ensures store.Value() == Finish(store.limits, old(store.Value()), job, outcome, now).value.store
      ensures var joined := Joined(old(Value()), job);
              Value() == if StateOf(store.Value(), job.id) == Some(Queued) then Enqueue(joined, job.id) else joined
    {
      JoinedKeeps(maxJobs, Value(), job);
      activeIds, jobs := activeIds - {job.id}, jobs - {job};
      ghost var before := store.Value();
      FinishEffect(store.limits, before, job, outcome, now);
      assert jobs + {job} == old(jobs);
      r := store.FinishVerification(job, outcome, now);
      VerifierInvariant.ReleaseKeepsClaims(before, store.Value(), job, jobs);
      if job.id in store.entries && store.entries[job.id].record.verification == Some(Queued) {
        EnqueueKeeps(maxJobs, Value(), job.id);
        EnqueueId(job.id);
      }
    }
  }
}
