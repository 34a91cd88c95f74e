/** A run of store and P2P worker after which a record waits for content and nobody takes care of it. */
module LostRecords {
  import opened Common
  import opened Proofs
  import opened Records
  import opened StoreOps
  import opened DriverModel
  import opened WaitingRecords
  import R = P2pRuns
  import T = P2pWitnesses

  // ---------------------------------------------------------------- pieces of runs

  ghost predicate Path(cfg: Config, r: Run) {
    |r.states| == |r.steps| + 1 && forall i :: 0 <= i < |r.steps| ==> StepOk(cfg, r, i)
  }

  function Last(r: Run): Sys
    requires r.states != []
  {
    r.states[|r.states| - 1]
  }

  function Join(a: Run, b: Run): Run
    requires b.states != []
  {
    Run(a.states + b.states[1..], a.steps + b.steps)
  }

  lemma JoinIsPath(cfg: Config, a: Run, b: Run)
    requires Path(cfg, a) && Path(cfg, b) && Last(a) == b.states[0]
    ensures Path(cfg, Join(a, b)) && Join(a, b).states[0] == a.states[0] && Last(Join(a, b)) == Last(b)
  {
    var r, n := Join(a, b), |a.steps|;
    forall i | 0 <= i < |r.steps| ensures StepOk(cfg, r, i) {
      if i < n { SameStep(cfg, a, i, r, i); } else { SameStep(cfg, b, i - n, r, i); }
    }
  }

  lemma SameStep(cfg: Config, a: Run, j: nat, r: Run, i: nat)
    requires Path(cfg, a) && j < |a.steps| && i < |r.steps| && |r.states| == |r.steps| + 1
    requires r.steps[i] == a.steps[j] && r.states[i] == a.states[j] && r.states[i + 1] == a.states[j + 1]
    ensures StepOk(cfg, r, i)
  {
    assert StepOk(cfg, a, j);
  }

  function One(s: Sys, step: Step, s': Sys): Run { Run([s, s'], [step]) }

  lemma OneIsPath(cfg: Config, s: Sys, step: Step, s': Sys)
    requires Enabled(cfg, s, step) && s' == Next(cfg, s, step)
    ensures Path(cfg, One(s, step, s'))
  {
    assert StepOk(cfg, One(s, step, s'), 0);
  }

  /** A piece of a worker's run, beside a store that does not move. */
  function Lift(s: Sys, r: R.Run): Run {
    Run(seq(|r.states|, i requires 0 <= i < |r.states| => s.(p := r.states[i])),
        seq(|r.steps|, i requires 0 <= i < |r.steps| => Work(r.steps[i])))
  }

  lemma LiftIsPath(cfg: Config, s: Sys, r: R.Run)
    requires T.Path(cfg.p2p, r) && forall i :: 0 <= i < |r.steps| ==> WorkOk(cfg, s.(p := r.states[i]), r.steps[i])
    ensures Path(cfg, Lift(s, r))
  {
    forall i | 0 <= i < |r.steps| ensures StepOk(cfg, Lift(s, r), i) {
      assert R.StepOk(cfg.p2p, r, i);
    }
  }

  // ---------------------------------------------------------------- the run

  const EMPTY: Store := Store(map[], 0)

  /** The worker starts with an empty store. */
  lemma Started(cfg: Config, validators: set<PeerId>) returns (r: Run)
    ensures Path(cfg, r) && r.states[0] == Initial(cfg, EMPTY, validators)
    ensures Last(r) == Initial(cfg, EMPTY, validators).(stage := Working)
  {
    var s := Initial(cfg, EMPTY, validators);
    var s1, s2 := s.(stage := Walking({}, [])), s.(stage := Working);
    assert EMPTY.entries.Keys == {};
    OneIsPath(cfg, s, BeginWalk, s1);
    NothingToReconcile(cfg.p2p, s.p);
    OneIsPath(cfg, s1, EndWalk(false), s2);
    JoinIsPath(cfg, One(s, BeginWalk, s1), One(s1, EndWalk(false), s2));
    r := Join(One(s, BeginWalk, s1), One(s1, EndWalk(false), s2));
  }

  lemma NothingToReconcile(cfg: P.Config, p: P.P2p)
    requires p.pc.Idle? && p.w.retrievals == map[]
    ensures P.ReconcileTo(p, []) == p
  {
    assert P.ReconcileTo(p, []).w.retrievals == map[];
  }

  /** The record, once observed. */
  function Observed(id: VerificationId): Store { Store(map[id := Entry(0, ProofRecord(Some(0), None, None, None, None, None), None)], 1) }

  /** A request is observed, and its event is sent. */
  lemma ObservedAndSent(cfg: Config, s: Sys, id: VerificationId) returns (r: Run)
    requires cfg.eventBuffer >= 1 && s.store == EMPTY && s.unpublished == multiset{} && s.queue == [] && !s.lagged && s.p.now == 0
    ensures Path(cfg, r) && r.states[0] == s && Last(r) == s.(store := Observed(id), queue := [VerificationObserved(id)])
  {
    var e := VerificationObserved(id);
    var observe := StoreCall(L.Observing(id));
    var s1 := s.(store := Observed(id), unpublished := multiset{e});
    var s2 := s.(store := Observed(id), queue := [e]);
    ObserveEmpty(cfg.limits, id);
    OneIsPath(cfg, s, observe, s1);
    assert [] + [e] == [e];
    OneIsPath(cfg, s1, Sending(e), s2);
    JoinIsPath(cfg, One(s, observe, s1), One(s1, Sending(e), s2));
    r := Join(One(s, observe, s1), One(s1, Sending(e), s2));
  }

  lemma ObserveEmpty(cfg: Limits, id: VerificationId)
    ensures Observe(cfg, EMPTY, id, 0).store == Observed(id) && Observe(cfg, EMPTY, id, 0).events == [VerificationObserved(id)]
  {
    assert map[][id := Observed(id).entries[id]] == map[id := Observed(id).entries[id]];
  }

  /** The worker reads the event. */
  lemma EventRead(cfg: Config, s: Sys, id: VerificationId) returns (r: Run)
    requires AtRest(s) && !s.lagged && s.queue == [VerificationObserved(id)] && !s.p.draining
    ensures Path(cfg, r) && r.states[0] == s && Last(r) == s.(queue := [], p := s.p.(pc := P.Ensuring([id])))
  {
    var s1 := s.(queue := [], p := s.p.(pc := P.Ensuring([id])));
    assert s.queue[1..] == [];
    OneIsPath(cfg, s, Receive, s1);
    r := One(s, Receive, s1);
  }

  function Tail(r: R.Run): R.Run
    requires r.states != [] && r.steps != []
  {
    R.Run(r.states[1..], r.steps[1..])
  }

  lemma TailIsPath(cfg: P.Config, r: R.Run)
    requires T.Path(cfg, r) && r.steps != []
    ensures T.Path(cfg, Tail(r))
  {
    forall i | 0 <= i < |Tail(r).steps| ensures R.StepOk(cfg, Tail(r), i) { T.SameStep(cfg, r, i + 1, Tail(r), i); }
  }

  lemma ReadFirst(cfg: P.Config, validators: set<PeerId>, own: R.Run, id: VerificationId)
    requires R.IsRun(cfg, validators, own) && own.steps != [] && own.steps[0] == P.TakeStoreEvent(VerificationObserved(id))
    ensures own.states[1] == P.Initial(cfg, validators).(pc := P.Ensuring([id]))
  {
    assert R.StepOk(cfg, own, 0);
  }

  /** The last step of the worker's run. */
  lemma FiredLast(cfg: Config, s: Sys, own: R.Run, id: VerificationId)
    requires T.Path(cfg.p2p, own) && |own.steps| == 9 && own.steps[8].Fire? && RetrievalLives.DropsAt(own, 8, id)
    requires s.stage.Working? && s.queue == [] && s.unpublished == multiset{} && !s.lagged && Waits(s.store, id)
    ensures Loses(cfg, s.(p := own.states[8]), Work(own.steps[8]), id) && !own.states[9].draining
  {
    assert R.StepOk(cfg.p2p, own, 8);
  }

  /** What the worker does after it has read the event, with the record in the store. */
  lemma GivenUp(cfg: Config, s: Sys, own: R.Run, id: VerificationId, q: QueryId) returns (r: Run)
    requires T.Path(cfg.p2p, own) && |own.steps| == 9 && s.p == own.states[1]
    requires RetrievalLives.FindsWaiting(own, 1, id) && RetrievalLives.DropsAt(own, 8, id)
    requires own.steps[1..] == [P.EnsureNext(true), P.DriveNext, P.Pick(None), P.SendQuery(q), P.TakeQueryReply(0), P.DriveNext,
                                P.Tick(cfg.p2p.retrieval.timeout), P.Fire(Retrieval.Wake(id, 1, 0))]
    requires s.stage.Working? && s.queue == [] && s.unpublished == multiset{} && !s.lagged && Waits(s.store, id)
    ensures Path(cfg, r) && r.states[0] == s && |r.steps| == 8 && LosesAt(cfg, r, 7, id)
    ensures Last(r) == s.(p := own.states[9]) && !own.states[9].draining
  {
    var tail := Tail(own);
    TailIsPath(cfg.p2p, own);
    forall i | 0 <= i < |tail.steps| ensures WorkOk(cfg, s.(p := tail.states[i]), tail.steps[i]) {
      if i == 0 { assert tail.states[0] == own.states[1]; }
    }
    r := Lift(s, tail);
    LiftIsPath(cfg, s, tail);
    assert own.steps[8] == tail.steps[7] && r.states[7] == s.(p := own.states[8]);
    FiredLast(cfg, s, own, id);
  }

  /** From an empty store: a request is observed, nobody offers its content before the deadline, and the
      worker gives it up. Nothing is in flight afterwards and the record still waits. */
  lemma WaitingRecordIsLost(cfg: Config, validators: set<PeerId>, id: VerificationId, q: QueryId) returns (r: Run)
    requires cfg.eventBuffer >= 1 && cfg.p2p.retrieval.maxActive >= 1
    ensures IsRun(cfg, EMPTY, validators, r) && r.steps != [] && LosesAt(cfg, r, |r.steps| - 1, id)
    ensures var s := Last(r);
            && Waits(s.store, id) && !Covered(s, id)
            && AtRest(s) && s.queue == [] && s.unpublished == multiset{} && !s.lagged && !Over(s)
  {
    var own := T.WaitingRecordTimesOut(cfg.p2p, validators, id, q);
    var a := Started(cfg, validators);
    var b := ObservedAndSent(cfg, Last(a), id);
    var c := EventRead(cfg, Last(b), id);
    ReadFirst(cfg.p2p, validators, own, id);
    var d := GivenUp(cfg, Last(c), own, id, q);
    JoinIsPath(cfg, a, b);
    JoinIsPath(cfg, Join(a, b), c);
    JoinIsPath(cfg, Join(Join(a, b), c), d);
    r := Join(Join(Join(a, b), c), d);
    assert r.states[|r.steps| - 1] == d.states[|d.steps| - 1];
  }
}
