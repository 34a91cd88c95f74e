/** The verification worker's own bookkeeping (src/verification/worker.rs): a duplicate-free FIFO of
    ready ids, the ids with a running job, and the running jobs. */
module Scheduler {
  import opened Common
  import opened Proofs
  import opened Records

  datatype Sched = Sched(
    pending: seq<VerificationId>, pendingIds: set<VerificationId>, activeIds: set<VerificationId>, jobs: set<Job>)

  const IDLE: Sched := Sched([], {}, {}, {})

  function Without(s: seq<VerificationId>, id: VerificationId): seq<VerificationId> {
    if s == [] then []
    else if s[0] == id then Without(s[1..], id)
    else [s[0]] + Without(s[1..], id)
  }

  function Enqueue(w: Sched, id: VerificationId): Sched {
    if id in w.activeIds || id in w.pendingIds then w
    else w.(pending := w.pending + [id], pendingIds := w.pendingIds + {id})
  }

  function RemovePending(w: Sched, id: VerificationId): Sched {
    if id in w.pendingIds then w.(pending := Without(w.pending, id), pendingIds := w.pendingIds - {id}) else w
  }

  function ClearPending(w: Sched): Sched { w.(pending := [], pendingIds := {}) }

  function PopFront(w: Sched): Sched
    requires w.pending != []
  {
    w.(pending := w.pending[1..], pendingIds := w.pendingIds - {w.pending[0]})
  }

  function Spawn(w: Sched, job: Job): Sched {
    w.(activeIds := w.activeIds + {job.id}, jobs := w.jobs + {job})
  }

  function Joined(w: Sched, job: Job): Sched {
    w.(activeIds := w.activeIds - {job.id}, jobs := w.jobs - {job})
  }

  function HandleEvent(w: Sched, e: Event): Sched {
    match e
    case VerificationChanged(id, Queued) => Enqueue(w, id)
    case ProofEvicted(id, _) => RemovePending(w, id)
    case _ => w
  }

  ghost function Ids(jobs: set<Job>): set<VerificationId> { set j | j in jobs :: j.id }

  ghost predicate SchedOk(maxJobs: nat, w: Sched) {
    && NoDuplicates(w.pending)
    && (forall id :: id in w.pending <==> id in w.pendingIds)
    && w.pendingIds !! w.activeIds
    && w.activeIds == Ids(w.jobs)
    && (forall a, b :: a in w.jobs && b in w.jobs && a.id == b.id ==> a == b)
    && |w.jobs| <= maxJobs
  }

  /** Retaining everything but one id keeps the order and drops exactly that id. */
  lemma {:induction false} WithoutIsExact(s: seq<VerificationId>, id: VerificationId)
    ensures forall x :: x in Without(s, id) <==> x in s && x != id
    ensures NoDuplicates(s) ==> NoDuplicates(Without(s, id))
    ensures id !in s ==> Without(s, id) == s
  {
    if s != [] {
      WithoutIsExact(s[1..], id);
      assert s == [s[0]] + s[1..];
      if NoDuplicates(s) {
        assert s[0] !in s[1..] && NoDuplicates(s[1..]);
        assert s[0] !in Without(s[1..], id);
      }
    }
  }

  lemma EnqueueKeeps(maxJobs: nat, w: Sched, id: VerificationId)
    requires SchedOk(maxJobs, w)
    ensures SchedOk(maxJobs, Enqueue(w, id))
    ensures id in Enqueue(w, id).pendingIds || id in w.activeIds
  {
  }

  lemma RemovePendingKeeps(maxJobs: nat, w: Sched, id: VerificationId)
    requires SchedOk(maxJobs, w)
    ensures SchedOk(maxJobs, RemovePending(w, id))
    ensures RemovePending(w, id).pendingIds == w.pendingIds - {id}
  {
    WithoutIsExact(w.pending, id);
  }

  lemma HandleEventKeeps(maxJobs: nat, w: Sched, e: Event)
    requires SchedOk(maxJobs, w)
    ensures var w' := HandleEvent(w, e);
            && SchedOk(maxJobs, w') && w'.activeIds == w.activeIds && w'.jobs == w.jobs
            && (forall id :: id in w.pendingIds && id !in w'.pendingIds ==> e.ProofEvicted? && e.id == id)
            && (e.VerificationChanged? && e.state.Queued? ==> e.id in w'.pendingIds || e.id in w'.activeIds)
  {
    EnqueueKeeps(maxJobs, w, e.id);
    RemovePendingKeeps(maxJobs, w, e.id);
  }

  lemma PopFrontKeeps(maxJobs: nat, w: Sched)
    requires SchedOk(maxJobs, w) && w.pending != []
    ensures SchedOk(maxJobs, PopFront(w))
    ensures w.pending[0] !in w.activeIds && w.pending[0] !in PopFront(w).pendingIds
  {
    assert w.pending == [w.pending[0]] + w.pending[1..];
    assert w.pending[0] in w.pending;
    forall id ensures id in w.pending[1..] <==> id in w.pendingIds - {w.pending[0]} {
      if id in w.pendingIds && id != w.pending[0] {
        assert id in w.pending;
      }
    }
  }

  lemma SpawnKeeps(maxJobs: nat, w: Sched, job: Job)
    requires SchedOk(maxJobs, w) && |w.jobs| < maxJobs
    requires job.id !in w.activeIds && job.id !in w.pendingIds
    ensures SchedOk(maxJobs, Spawn(w, job)) && job !in w.jobs
  {
    assert Ids(w.jobs + {job}) == Ids(w.jobs) + {job.id};
  }

  lemma JoinedKeeps(maxJobs: nat, w: Sched, job: Job)
    requires SchedOk(maxJobs, w) && job in w.jobs
    ensures SchedOk(maxJobs, Joined(w, job)) && job.id !in Joined(w, job).pendingIds
  {
    assert Ids(w.jobs - {job}) == Ids(w.jobs) - {job.id};
  }
}
