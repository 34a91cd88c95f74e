/** The P2P worker's retrieval bookkeeping as the object that owns it. Every method keeps the retrievals
    sound and the slot counter equal to the number of retrievals that hold a slot; the loops that await
    the driver are the steps of module P2pSystem. */
module RetrievalWorkers {
  import opened Common
  import opened Proofs
  import opened Records
  import opened Retrieval
  import opened P2pSystem
  import opened P2pInvariant

  /** Everything but `todo` has been visited. */
  ghost predicate Swept(w: Worker, w': Worker, waiting: set<VerificationId>, todo: set<VerificationId>) {
    && w' == w.(retrievals := w'.retrievals) && todo <= w.retrievals.Keys && w'.retrievals.Keys <= w.retrievals.Keys
    && (forall id :: id in todo ==> id in w'.retrievals && w'.retrievals[id] == w.retrievals[id])
    && (forall id :: id in w.retrievals && id !in todo ==>
          && (id in w'.retrievals <==> id in StopAllBut(w, waiting).retrievals)
          && (id in w'.retrievals ==> w'.retrievals[id] == StopAllBut(w, waiting).retrievals[id]))
  }

  lemma SweptStep(w: Worker, w': Worker, waiting: set<VerificationId>, todo: set<VerificationId>, id: VerificationId)
    requires id in w.retrievals && id !in todo && Swept(w, w', waiting, todo + {id})
    ensures Swept(w, if id in waiting then w' else StopRetrieval(w', id), waiting, todo)
  {
    assert id in todo + {id};
    assert forall x :: x in todo ==> x in todo + {id};
  }

  lemma SweptDone(w: Worker, w': Worker, waiting: set<VerificationId>)
    requires Swept(w, w', waiting, {})
    ensures w' == StopAllBut(w, waiting)
  {
    assert w'.retrievals.Keys == StopAllBut(w, waiting).retrievals.Keys;
    assert w'.retrievals == StopAllBut(w, waiting).retrievals;
  }

  class RetrievalWorker {
    const config: RetrievalConfig
    var retrievals: map<VerificationId, Retrieval>
    var pending: seq<VerificationId>
    var activeRetrievals: nat
    var wakes: multiset<Wake>

    constructor (config: RetrievalConfig)
      ensures Valid() && this.config == config && Value() == Worker(map[], [], 0, multiset{})
    {
      this.config := config;
      retrievals, pending, activeRetrievals, wakes := map[], [], 0, multiset{};
      new;
      assert ActiveIds(retrievals) == {};
    }

    function Value(): Worker
      reads this
    {
      Worker(retrievals, pending, activeRetrievals, wakes)
    }

    ghost predicate Valid()
      reads this
    {
      AllOk(retrievals) && SlotsOk(config, Value())
    }

    method EnqueueId(id: VerificationId)
      requires Valid()
      modifies `retrievals, `pending
      ensures Valid() && Value() == Enqueue(old(Value()), id)
    {
      EnqueueQuiet(Value(), id);
      SameSlotsKeepCount(config, Value(), Enqueue(Value(), id));
      if id in retrievals {
        var state := retrievals[id];
        if !state.queued && state.active.None? && !state.finished {
          retrievals := retrievals[id := state.(queued := true)];
          pending := pending + [id];
        }
      }
    }

    /** ensure_retrieval up to its await: a waiting id is tracked and queued, any other is dropped. */
    method EnsureRetrieval(id: VerificationId, waiting: bool)
      requires Valid()
      modifies `retrievals, `pending
      ensures Valid()
      ensures Value() == if waiting then Enqueue(EnsureEntry(old(Value()), id), id) else StopRetrieval(old(Value()), id)
    {
      if !waiting {
        Stop(id);
      } else {
        EnsureQuiet(Value(), id);
        SameSlotsKeepCount(config, Value(), EnsureEntry(Value(), id));
        if id !in retrievals {
          retrievals := retrievals[id := NEW];
        }
        EnqueueId(id);
      }
    }

    method Stop(id: VerificationId)
      requires Valid()
      modifies `retrievals
      ensures Valid() && Value() == StopRetrieval(old(Value()), id)
    {
      StopQuiet(Value(), id);
      SameSlotsKeepCount(config, Value(), StopRetrieval(Value(), id));
      if id in retrievals {
        var state := retrievals[id];
        state := state.(finished := true, queued := false, query := None, generation := NextGeneration(state.generation));
        retrievals := if state.active.None? then retrievals - {id} else retrievals[id := state];
      }
    }

    /** The loop of reconcile_store over the tracked ids. */
    method StopAllExcept(waiting: set<VerificationId>)
      requires Valid()
      modifies `retrievals
      ensures Valid() && Value() == StopAllBut(old(Value()), waiting)
    {
      var todo := retrievals.Keys;
      while todo != {}
        invariant Valid() && Swept(old(Value()), Value(), waiting, todo)
        decreases todo
      {
        var id :| id in todo;
        assert todo == (todo - {id}) + {id};
        todo := todo - {id};
        SweptStep(old(Value()), Value(), waiting, todo, id);
        if id !in waiting {
          Stop(id);
        }
      }
      SweptDone(old(Value()), Value(), waiting);
    }

    /** A completion of a request the retrieval owns frees exactly one slot; any other is ignored. The
        subtraction never underflows. */
    method FinishRequestOf(id: VerificationId, request: nat, peer: PeerId, succeeded: bool, now: nat)
      requires Valid()
      modifies `retrievals, `pending, `activeRetrievals
      ensures Valid() && Value() == FinishRequest(old(Value()), id, request, peer, succeeded, now)
      ensures activeRetrievals ==
              if ActiveOf(old(Value()), id) == Some((request, peer)) then old(activeRetrievals) - 1 else old(activeRetrievals)
    {
      if id !in retrievals || retrievals[id].active != Some((request, peer)) {
        return;
      }
      FinishReleases(config, Value(), id, request, peer, succeeded, now);
      var state := retrievals[id].(active := None);
      activeRetrievals := activeRetrievals - 1;
      if succeeded || state.finished || Passed(ActiveDeadline(state), now) {
        retrievals := retrievals - {id};
      } else {
        state := state.(attempted := state.attempted + {peer});
        retrievals := retrievals[id := state];
        retrievals := retrievals[id := state.(queued := true)];
        pending := pending + [id];
      }
    }

    method ClearQueryOf(id: VerificationId)
      requires Valid()
      modifies `retrievals
      ensures Valid() && Value() == ClearQuery(old(Value()), id)
    {
      ClearQueryQuiet(Value(), id);
      SameSlotsKeepCount(config, Value(), ClearQuery(Value(), id));
      if id in retrievals {
        var state := retrievals[id];
        retrievals := retrievals[id := state.(query := None, generation := NextGeneration(state.generation))];
      }
    }

    /** handle_wake up to its await. A timer of another generation, or of a finished retrieval, does
        nothing; a live one reopens the retrieval or, past its deadline, ends it. */
    method HandleWake(wake: Wake, now: nat) returns (drive: bool)
      requires Valid()
      modifies `retrievals, `pending, `wakes
      ensures Valid() && (Value(), drive) == WakeUp(old(Value()), wake, now)
    {
      wakes := wakes - multiset{wake};
      if wake.id !in retrievals {
        return false;
      }
      var state := retrievals[wake.id];
      if state.generation != wake.generation || state.finished {
        return false;
      }
      ghost var before := Value();
      retrievals := retrievals[wake.id := state.(query := None)];
      SameSlotsKeepCount(config, before, Value());
      if Passed(ActiveDeadline(state), now) {
        Stop(wake.id);
        return false;
      }
      EnqueueId(wake.id);
      return true;
    }
  }
}
