/** The proof store as the object the other components share: fields replaced in place, events sent on
    the broadcast channel. Each method is one operation running alone; the interleaved setting is
    module VerifierSystem. */
module ProofStores {
  import opened Common
  import opened Proofs
  import opened Records
  import opened StoreOps

  datatype Status = Unavailable | QueuedStatus | VerifyingStatus | CompletedStatus(verdict: Verdict)
    | FailedStatus(failure: VerificationFailure)

  function StatusOf(st: Store, id: VerificationId): Status {
    match StateOf(st, id)
    case None => Unavailable
    case Some(Queued) => QueuedStatus
    case Some(Verifying) => VerifyingStatus
    case Some(Completed(v)) => CompletedStatus(v)
    case Some(Failed(f)) => FailedStatus(f)
  }

  class ProofStore {
    const limits: Limits
    var entries: map<VerificationId, Entry>
    var nextTag: nat
    var sent: seq<Event>

    function Value(): Store
      reads this
    {
      Store(entries, nextTag)
    }

    ghost predicate Valid()
      reads this
    {
      StoreOk(limits, Value())
    }

    constructor (limits: Limits)
      ensures Valid() && this.limits == limits && Value() == Store(map[], 0) && sent == []
    {
      this.limits := limits;
      entries := map[];
      nextTag := 0;
      sent := [];
    }

    method Install(id: VerificationId, record: ProofRecord, now: nat)
      modifies this
      ensures Value() == Apply(limits, old(Value()), id, Put(record), now) && sent == old(sent)
    {
      entries := entries[id := Entry(nextTag, record, DeadlineOnWrite(limits, record, now))];
      nextTag := nextTag + 1;
    }

    method Publish(event: Event)
      modifies this`sent
      ensures sent == old(sent) + [event]
    {
      sent := sent + [event];
    }

    /** Sends the subject's own event and, when the record became ready, the Queued event. */
    method PublishReady(id: VerificationId, first: Event, record: ProofRecord)
      modifies this`sent
      ensures sent == old(sent) + ([first] + QueuedNotice(id, record))
    {
      Publish(first);
      if record.verification == Some(Queued) {
        Publish(VerificationChanged(id, Queued));
      }
    }

    method ObserveChainVerification(id: VerificationId, now: nat) returns (change: StoreChange)
      requires Valid()
      modifies this
      ensures Valid()
      ensures var c := Observe(limits, old(Value()), id, now);
              Value() == c.store && change == c.change && sent == old(sent) + c.events
    {
      ObserveEffect(limits, Value(), id, now);
      var updated: ProofRecord;
      if id !in entries {
        change := Inserted;
        updated := ProofRecord(Some(now), None, None, None, None, None);
      } else {
        if entries[id].record.chainObservedAt.Some? {
          return Unchanged;
        }
        change := Updated;
        updated := QueueIfReady(entries[id].record.(chainObservedAt := Some(now)));
      }
      Install(id, updated, now);
      PublishReady(id, VerificationObserved(id), updated);
    }

    method InsertLocalProof(proof: Proof, source: ProofSource, now: nat)
      returns (r: Result<(VerificationId, StoreChange), StoreError>)
      requires Valid()
      modifies this
      ensures Valid()
      ensures match InsertLocal(limits, old(Value()), proof, source, now)
              case Err(e) => r == Err(e) && Value() == old(Value()) && sent == old(sent)
              case Ok(c) =>
                && r == Ok((IdOf(limits.sha, proof), c.change))
                && Value() == c.store && sent == old(sent) + c.events
    {
      InsertLocalEffect(limits, Value(), proof, source, now);
      var id := IdOf(limits.sha, proof);
      var refused := ValidateProof(limits, id, proof);
      if refused.Some? {
        return Err(refused.value);
      }
      if id in entries && entries[id].record.proof.Some? {
        return Ok((id, Unchanged));
      }
      r := Ok((id, if id in entries then Updated else Inserted));
      var updated;
      if id in entries {
        var kept := entries[id].record;
        updated := QueueIfReady(kept.(proof := Some(proof), contentSource := Some(source), contentStoredAt := Some(now)));
      } else {
        updated := ProofRecord(None, Some(source), Some(now), None, None, Some(proof));
      }
      Install(id, updated, now);
      PublishReady(id, ProofStored(id, source), updated);
    }

    method AttachDownloadedProof(id: VerificationId, proof: Proof, peer: PeerId, now: nat)
      returns (r: Result<StoreChange, StoreError>)
      requires Valid()
      modifies this
      ensures Valid()
      ensures match AttachDownloaded(limits, old(Value()), id, proof, peer, now)
              case Err(e) => r == Err(e) && Value() == old(Value()) && sent == old(sent)
              case Ok(c) => r == Ok(c.change) && Value() == c.store && sent == old(sent) + c.events
    {
      AttachEffect(limits, Value(), id, proof, peer, now);
      var refused := ValidateProof(limits, id, proof);
      if refused.Some? {
        return Err(refused.value);
      }
      if id !in entries || entries[id].record.chainObservedAt.None? {
        return Err(ProofNotObserved(id));
      }
      var kept := entries[id].record;
      if kept.proof.Some? {
        return Ok(Unchanged);
      }
      var updated := QueueIfReady(
        kept.(proof := Some(proof), contentSource := Some(Peer(peer)), contentStoredAt := Some(now)));
      Install(id, updated, now);
      PublishReady(id, ProofStored(id, Peer(peer)), updated);
      r := Ok(Updated);
    }

    method BeginVerification(id: VerificationId, now: nat) returns (r: Option<Job>)
      requires Valid()
      modifies this
      ensures Valid()
      ensures var (c, claimed) := Begin(limits, old(Value()), id, now);
              claimed == Ok(r) && Value() == c.store && sent == old(sent) + c.events
    {
      BeginEffect(limits, Value(), id, now);
      if id !in entries {
        return None;
      }
      var record := entries[id].record;
      if record.chainObservedAt.None? || record.proof.None? || record.verification != Some(Queued) {
        return None;
      }
      var claim := nextTag;
      Install(id, record.(verification := Some(Verifying)), now);
      Publish(VerificationChanged(id, Verifying));
      r := Some(Job(id, record.proof.value, claim));
    }

    method FinishVerification(job: Job, outcome: Outcome, now: nat) returns (r: Result<StoreChange, StoreError>)
      requires Valid()
      modifies this
      ensures Valid()
      ensures match Finish(limits, old(Value()), job, outcome, now)
              case Err(e) => r == Err(e) && Value() == old(Value()) && sent == old(sent)
              case Ok(c) => r == Ok(c.change) && Value() == c.store && sent == old(sent) + c.events
    {
      FinishEffect(limits, Value(), job, outcome, now);
      if job.id !in entries || entries[job.id].tag != job.claim {
        return Ok(Unchanged);
      }
      var record := entries[job.id].record;
      if record.verification != Some(Verifying) {
        return Err(InvalidTransition(job.id));
      }
      var next := StateFor(outcome);
      Install(job.id, record.(verification := Some(next), completedAt := if next.Completed? then Some(now) else None), now);
      Publish(VerificationChanged(job.id, next));
      r := Ok(Updated);
    }

    method RetryVerification(id: VerificationId, now: nat) returns (r: Result<StoreChange, StoreError>)
      requires Valid()
      modifies this
      ensures Valid()
      ensures match Retry(limits, old(Value()), id, now)
              case Err(e) => r == Err(e) && Value() == old(Value()) && sent == old(sent)
              case Ok(c) => r == Ok(c.change) && Value() == c.store && sent == old(sent) + c.events
    {
      RetryEffect(limits, Value(), id, now);
      if id !in entries {
        return Err(InvalidTransition(id));
      }
      var record := entries[id].record;
      if record.verification == Some(Queued) {
        return Ok(Unchanged);
      }
      if record.verification.None? || !record.verification.value.Failed? || !record.verification.value.failure.retryable {
        return Err(InvalidTransition(id));
      }
      Install(id, record.(verification := Some(Queued), completedAt := None), now);
      Publish(VerificationChanged(id, Queued));
      r := Ok(Updated);
    }

    method Invalidate(id: VerificationId)
      requires Valid()
      modifies this
      ensures Valid() && Value() == Evict(old(Value()), id)
      ensures sent == old(sent) + if id in old(entries) then [ProofEvicted(id, Explicit)] else []
    {
      ReadAndEvictKeepStoreOk(limits, Value(), id, 0);
      if id in entries {
        entries := entries - {id};
        Publish(ProofEvicted(id, Explicit));
      } else {
        assert entries - {id} == entries;
      }
    }

    /** One status per requested id, in the requested order, unknown ids included. */
    method Statuses(ids: seq<VerificationId>) returns (r: seq<(VerificationId, Status)>)
      ensures |r| == |ids|
      ensures forall i :: 0 <= i < |ids| ==> r[i] == (ids[i], StatusOf(Value(), ids[i]))
    {
      r := [];
      for i := 0 to |ids|
        invariant |r| == i
        invariant forall k :: 0 <= k < i ==> r[k] == (ids[k], StatusOf(Value(), ids[k]))
      {
        r := r + [(ids[i], StatusOf(Value(), ids[i]))];
      }
    }

    /** Exactly the completed ids, each with its verdict, in the requested order. */
    method CompletedResults(ids: seq<VerificationId>) returns (r: seq<(VerificationId, Verdict)>)
      ensures r == CompletedAmong(Value(), ids)
    {
      r := [];
      for i := 0 to |ids|
        invariant r == CompletedAmong(Value(), ids[..i])
      {
        assert ids[..i + 1][..i] == ids[..i];
        if ids[i] in entries {
          var state := entries[ids[i]].record.verification;
          if state.Some? && state.value.Completed? {
            r := r + [(ids[i], state.value.verdict)];
          }
        }
      }
      assert ids[..|ids|] == ids;
    }

    /** A snapshot of the ids whose record is ready to verify. */
    function ReadyForVerification(): (r: set<VerificationId>)
      requires Valid()
      reads this
      ensures r == set id | id in entries && StateOf(Value(), id) == Some(Queued)
    {
      set id | id in entries
        && entries[id].record.chainObservedAt.Some? && entries[id].record.proof.Some?
        && entries[id].record.verification == Some(Queued)
    }
  }

  function CompletedAmong(st: Store, ids: seq<VerificationId>): seq<(VerificationId, Verdict)> {
    if ids == [] then []
    else
      var last := ids[|ids| - 1];
      CompletedAmong(st, ids[..|ids| - 1])
      + if IsCompleted(StateOf(st, last)) then [(last, StateOf(st, last).value.verdict)] else []
  }

  /** What the consensus-facing query returns: an (id, verdict) pair appears exactly when the id was
      asked for and its record is completed with that verdict. */
  lemma {:induction false} CompletedAmongIsExact(st: Store, ids: seq<VerificationId>, id: VerificationId, v: Verdict)
    ensures (id, v) in CompletedAmong(st, ids) <==> id in ids && StateOf(st, id) == Some(Completed(v))
  {
    if ids != [] {
      var front, last := ids[..|ids| - 1], ids[|ids| - 1];
      CompletedAmongIsExact(st, front, id, v);
      assert ids == front + [last];
    }
  }
}
