/** Runs of the P2P worker that show where two properties one might expect end: a timer of an earlier life
    of a retrieval can act on the next one, and a record found waiting can lose its retrieval. */
module P2pWitnesses {
  import opened Common
  import opened Proofs
  import opened Records
  import opened DriverModel
  import opened Retrieval
  import opened P2pSystem
  import opened P2pRuns
  import opened RetrievalLives

  // ---------------------------------------------------------------- pieces of runs

  ghost predicate Path(cfg: Config, r: Run) {
    |r.states| == |r.steps| + 1 && forall i :: 0 <= i < |r.steps| ==> StepOk(cfg, r, i)
  }

  function First(r: Run): P2p
    requires r.states != []
  {
    r.states[0]
  }

  function Last(r: Run): P2p
    requires r.states != []
  {
    r.states[|r.states| - 1]
  }

  function Join(a: Run, b: Run): Run
    requires b.states != []
  {
    Run(a.states + b.states[1..], a.steps + b.steps)
  }

  lemma JoinIsPath(cfg: Config, a: Run, b: Run)
    requires Path(cfg, a) && Path(cfg, b) && Last(a) == First(b)
    ensures Path(cfg, Join(a, b)) && First(Join(a, b)) == First(a) && Last(Join(a, b)) == Last(b)
  {
    var r, n := Join(a, b), |a.steps|;
    forall i | 0 <= i < |r.steps| ensures StepOk(cfg, r, i) {
      if i < n { SameStep(cfg, a, i, r, i); } else { SameStep(cfg, b, i - n, r, i); }
    }
  }

  lemma SameStep(cfg: Config, a: Run, j: nat, r: Run, i: nat)
    requires Path(cfg, a) && j < |a.steps| && i < |r.steps| && |r.states| == |r.steps| + 1
    requires r.steps[i] == a.steps[j] && r.states[i] == a.states[j] && r.states[i + 1] == a.states[j + 1]
    ensures StepOk(cfg, r, i)
  {
    assert StepOk(cfg, a, j);
  }

  function One(cfg: Config, s: P2p, step: Step, s': P2p): Run { Run([s, s'], [step]) }

  lemma OneIsPath(cfg: Config, s: P2p, step: Step, s': P2p)
    requires Enabled(cfg, s, step) && s' == Next(cfg, s, step)
    ensures Path(cfg, One(cfg, s, step, s'))
  {
    assert StepOk(cfg, One(cfg, s, step, s'), 0);
  }

  // ---------------------------------------------------------------- a query

  /** The worker waits, with a free slot, nothing queued, and this id not tracked. */
  predicate Ready(cfg: Config, s: P2p, id: VerificationId) {
    && s.pc.Idle? && !s.draining && s.driver.phase.Running? && id !in s.w.retrievals
    && s.w.pending == [] && s.w.active < cfg.retrieval.maxActive
  }

  function Searching(cfg: Config, now: nat, q: QueryId): Retrieval {
    NEW.(discoveryDeadline := Some(now + cfg.retrieval.timeout), query := Some(q), retryRound := 1, generation := 1)
  }

  /** After the id was found waiting, nobody offered it, and a query went out. */
  function AfterQuery(cfg: Config, s: P2p, id: VerificationId, q: QueryId): P2p {
    s.(driver := s.driver.(queries := s.driver.queries[q := id]),
       w := Worker(s.w.retrievals[id := Searching(cfg, s.now, q)], [], s.w.active, s.w.wakes + multiset{Wake(id, 1, s.now)}))
  }

  lemma Ensured(cfg: Config, s: P2p, id: VerificationId) returns (r: Run)
    requires Ready(cfg, s, id)
    ensures Path(cfg, r) && First(r) == s
    ensures Last(r) == s.(w := s.w.(retrievals := s.w.retrievals[id := NEW]), pc := Picking(id, []))
    ensures r.steps == [TakeStoreEvent(VerificationObserved(id)), EnsureNext(true), DriveNext] && r.states[1].pc == Ensuring([id])
  {
    var s1 := s.(pc := Ensuring([id]));
    var queued := s.w.(retrievals := s.w.retrievals[id := NEW.(queued := true)], pending := [id]);
    var s2 := s.(w := queued, pc := Driving([]));
    var s3 := s.(w := s.w.(retrievals := s.w.retrievals[id := NEW]), pc := Picking(id, []));
    assert s.w.retrievals[id := NEW][id := NEW.(queued := true)] == queued.retrievals && s.w.pending + [id] == [id];
    assert s1.pc.todo[1..] == [];
    assert Enqueue(EnsureEntry(s.w, id), id) == queued;
    assert EnsureHead(s1, true) == s2;
    assert [id][1..] == [];
    assert queued.retrievals[id := NEW] == s.w.retrievals[id := NEW];
    assert DriveHead(cfg, s2) == s3;
    OneIsPath(cfg, s, TakeStoreEvent(VerificationObserved(id)), s1);
    OneIsPath(cfg, s1, EnsureNext(true), s2);
    OneIsPath(cfg, s2, DriveNext, s3);
    r := Run([s, s1, s2, s3], [TakeStoreEvent(VerificationObserved(id)), EnsureNext(true), DriveNext]);
    assert StepOk(cfg, r, 0) && StepOk(cfg, r, 1) && StepOk(cfg, r, 2);
  }

  lemma Queried(cfg: Config, s: P2p, id: VerificationId, q: QueryId) returns (r: Run)
    requires s.pc == Picking(id, []) && id in s.w.retrievals && s.w.retrievals[id] == NEW
    requires s.driver.phase.Running? && s.w.pending == []
    ensures Path(cfg, r) && First(r) == s && Last(r) == AfterQuery(cfg, s.(pc := Idle), id, q)
    ensures r.steps == [Pick(None), SendQuery(q), TakeQueryReply(0), DriveNext]
  {
    var s1 := s.(pc := Querying(id, []));
    var s2 := s.(driver := s.driver.(queries := s.driver.queries[q := id]), pc := QueryReplied(id, q, true, []));
    assert PickProvider(cfg, s, None) == s1 && QueryDriver(s1, q) == s2;
    var a := Run([s, s1, s2], [Pick(None), SendQuery(q)]);
    assert StepOk(cfg, a, 0) && StepOk(cfg, a, 1);
    var b := QueryTaken(cfg, s2, id, q);
    JoinIsPath(cfg, a, b);
    r := Join(a, b);
  }

  lemma QueryTaken(cfg: Config, s: P2p, id: VerificationId, q: QueryId) returns (r: Run)
    requires s.pc == QueryReplied(id, q, true, []) && id in s.w.retrievals && s.w.retrievals[id] == NEW && s.w.pending == []
    ensures Path(cfg, r) && First(r) == s && r.steps == [TakeQueryReply(0), DriveNext]
    ensures Last(r) == s.(w := Worker(s.w.retrievals[id := Searching(cfg, s.now, q)], [], s.w.active,
                                      s.w.wakes + multiset{Wake(id, 1, s.now)}), pc := Idle)
  {
    var s2 := s.(w := Worker(s.w.retrievals[id := Searching(cfg, s.now, q)], [], s.w.active,
                             s.w.wakes + multiset{Wake(id, 1, s.now)}), pc := Idle);
    var s1 := s2.(pc := Driving([]));
    assert HandleQueryReply(cfg, s, 0) == s1 && DriveHead(cfg, s1) == s2;
    r := Run([s, s1, s2], [TakeQueryReply(0), DriveNext]);
    assert StepOk(cfg, r, 0) && StepOk(cfg, r, 1);
  }

  /** One life up to its query. */
  lemma LifeWithQuery(cfg: Config, s: P2p, id: VerificationId, q: QueryId) returns (r: Run)
    requires Ready(cfg, s, id)
    ensures Path(cfg, r) && First(r) == s && Last(r) == AfterQuery(cfg, s, id, q) && r.states[1].pc == Ensuring([id])
    ensures r.steps == [TakeStoreEvent(VerificationObserved(id)), EnsureNext(true), DriveNext,
                        Pick(None), SendQuery(q), TakeQueryReply(0), DriveNext]
  {
    var a := Ensured(cfg, s, id);
    var mid := Last(a);
    var b := Queried(cfg, mid, id, q);
    JoinIsPath(cfg, a, b);
    r := Join(a, b);
    assert mid.w.retrievals[id := Searching(cfg, s.now, q)] == s.w.retrievals[id := Searching(cfg, s.now, q)];
    assert Last(r) == AfterQuery(cfg, s, id, q);
  }

  /** The end of that life: the record leaves the store; its timer stays. */
  lemma LifeEnds(cfg: Config, s: P2p, id: VerificationId) returns (r: Run)
    requires s.pc.Idle? && !s.draining && s.w.pending == [] && id in s.w.retrievals && s.w.retrievals[id].active.None?
    ensures Path(cfg, r) && First(r) == s && Last(r) == s.(w := s.w.(retrievals := s.w.retrievals - {id})) && r.steps != []
  {
    var e := ProofEvicted(id, Explicit);
    var s2 := s.(w := s.w.(retrievals := s.w.retrievals - {id}));
    var s1 := s2.(pc := Driving([]));
    assert HandleStoreEvent(s, e) == s1 && DriveHead(cfg, s1) == s2;
    r := Run([s, s1, s2], [TakeStoreEvent(e), DriveNext]);
    assert StepOk(cfg, r, 0) && StepOk(cfg, r, 1);
  }

  // ---------------------------------------------------------------- a timer outlives its retrieval

  /** A timer set in one life of a retrieval acts in the next: generations start again at zero, and the
      timer of the first query carries the number the second one has. It closes the second life's query
      before that query's own timer. */
  lemma EarlierLifeTimerActs(cfg: Config, validators: set<PeerId>, id: VerificationId, q: QueryId, q': QueryId)
    returns (r: Run, m: nat, k: nat, n: nat)
    requires cfg.retrieval.maxActive >= 1 && cfg.retrieval.timeout >= 1
    ensures IsRun(cfg, validators, r) && m < k < n < |r.steps|
    ensures var wake := Wake(id, 1, 0);
            && id in r.states[m].w.retrievals && wake in r.states[m].w.wakes && id !in r.states[k].w.retrievals
            && id in r.states[n].w.retrievals && r.states[n].w.retrievals[id].query == Some(q')
            && r.steps[n] == Fire(wake) && WakeActs(r.states[n].w, wake)
            && id in r.states[n + 1].w.retrievals && r.states[n + 1].w.retrievals[id].query.None?
            && Wake(id, 1, 1) in r.states[n + 1].w.wakes
  {
    var s0 := Initial(cfg, validators);
    var a := LifeWithQuery(cfg, s0, id, q);
    var b, l := NextLifeTimer(cfg, Last(a), id, q');
    JoinIsPath(cfg, a, b);
    r := Join(a, b);
    m, k, n := |a.steps|, |a.steps| + l, |r.steps| - 1;
    assert r.states[m] == b.states[0] && r.states[k] == b.states[l];
    assert r.states[n] == b.states[|b.steps| - 1] && r.states[n + 1] == Last(b);
  }

  lemma NextLifeTimer(cfg: Config, s: P2p, id: VerificationId, q: QueryId) returns (r: Run, l: nat)
    requires s.pc.Idle? && !s.draining && s.driver.phase.Running? && s.w.pending == [] && s.w.active < cfg.retrieval.maxActive
    requires s.now == 0 && id in s.w.retrievals && s.w.retrievals[id].active.None?
    requires s.w.wakes == multiset{Wake(id, 1, 0)} && cfg.retrieval.timeout >= 1
    ensures Path(cfg, r) && First(r) == s && 0 < l < |r.steps| - 1 && id !in r.states[l].w.retrievals
    ensures var n, wake := |r.steps| - 1, Wake(id, 1, 0);
            && id in r.states[n].w.retrievals && r.states[n].w.retrievals[id].query == Some(q)
            && r.steps[n] == Fire(wake) && WakeActs(r.states[n].w, wake)
            && id in Last(r).w.retrievals && Last(r).w.retrievals[id].query.None? && Wake(id, 1, 1) in Last(r).w.wakes
  {
    var a;
    a, l := NextLife(cfg, s, id, q);
    var s1 := Last(a);
    OldTimerFires(cfg, s1, id, q);
    var b := One(cfg, s1, Fire(Wake(id, 1, 0)), FireWake(s1, Wake(id, 1, 0)));
    JoinIsPath(cfg, a, b);
    r := Join(a, b);
    assert r.states[l] == a.states[l] && r.states[|r.steps| - 1] == s1;
  }

  /** The life ends, time passes, and another one begins with its own query. */
  lemma NextLife(cfg: Config, s: P2p, id: VerificationId, q: QueryId) returns (r: Run, l: nat)
    requires s.pc.Idle? && !s.draining && s.driver.phase.Running? && s.w.pending == [] && s.w.active < cfg.retrieval.maxActive
    requires s.now == 0 && id in s.w.retrievals && s.w.retrievals[id].active.None?
    ensures var ended := s.(w := s.w.(retrievals := s.w.retrievals - {id}));
            && Path(cfg, r) && First(r) == s && 0 < l < |r.steps| && r.states[l] == ended
            && Last(r) == AfterQuery(cfg, ended.(now := 1), id, q)
  {
    var a := LifeEnds(cfg, s, id);
    var s1 := Last(a);
    var s2 := s1.(now := 1);
    OneIsPath(cfg, s1, Tick(1), s2);
    var b := One(cfg, s1, Tick(1), s2);
    var c := LifeWithQuery(cfg, s2, id, q);
    JoinIsPath(cfg, a, b);
    JoinIsPath(cfg, Join(a, b), c);
    r, l := Join(Join(a, b), c), |a.steps|;
    assert r.states[l] == s1;
  }

  lemma OldTimerFires(cfg: Config, s: P2p, id: VerificationId, q: QueryId)
    requires s.pc.Idle? && !s.draining && s.now == 1 && id in s.w.retrievals && s.w.retrievals[id] == Searching(cfg, 1, q)
    requires s.w.wakes == multiset{Wake(id, 1, 0)} + multiset{Wake(id, 1, 1)} && cfg.retrieval.timeout >= 1
    ensures var wake := Wake(id, 1, 0);
            && WakeActs(s.w, wake) && Path(cfg, One(cfg, s, Fire(wake), FireWake(s, wake)))
            && id in FireWake(s, wake).w.retrievals && FireWake(s, wake).w.retrievals[id].query.None?
            && Wake(id, 1, 1) in FireWake(s, wake).w.wakes
  {
    OneIsPath(cfg, s, Fire(Wake(id, 1, 0)), FireWake(s, Wake(id, 1, 0)));
  }

  // ---------------------------------------------------------------- a waiting record loses its retrieval

  /** A run in which a record found waiting is given up for lack of time: nobody offers it, its one query
      goes unanswered, and the timer fires when the deadline has passed. No request was ever made. */
  lemma WaitingRecordTimesOut(cfg: Config, validators: set<PeerId>, id: VerificationId, q: QueryId) returns (r: Run)
    requires cfg.retrieval.maxActive >= 1
    ensures IsRun(cfg, validators, r) && |r.steps| == 9 && FindsWaiting(r, 1, id) && DropsAt(r, 8, id)
    ensures r.steps == [TakeStoreEvent(VerificationObserved(id)), EnsureNext(true), DriveNext,
                        Pick(None), SendQuery(q), TakeQueryReply(0), DriveNext,
                        Tick(cfg.retrieval.timeout), Fire(Wake(id, 1, 0))]
    ensures Last(r).pc.Idle? && id !in Last(r).w.retrievals
  {
    var a := LifeWithQuery(cfg, Initial(cfg, validators), id, q);
    var b := TimesOut(cfg, Last(a), id, q);
    JoinIsPath(cfg, a, b);
    r := Join(a, b);
    assert r.states[8] == b.states[1] && r.states[1] == a.states[1];
  }

  lemma TimesOut(cfg: Config, s: P2p, id: VerificationId, q: QueryId) returns (r: Run)
    requires s.pc.Idle? && !s.draining && s.now == 0 && s.w.wakes == multiset{Wake(id, 1, 0)}
    requires id in s.w.retrievals && s.w.retrievals[id] == Searching(cfg, 0, q)
    ensures Path(cfg, r) && First(r) == s && r.steps == [Tick(cfg.retrieval.timeout), Fire(Wake(id, 1, 0))]
    ensures id in r.states[1].w.retrievals && Drops(r.states[1], r.steps[1], id)
    ensures Last(r).pc.Idle? && id !in Last(r).w.retrievals
  {
    var wake, late := Wake(id, 1, 0), Tick(cfg.retrieval.timeout);
    var s1 := s.(now := cfg.retrieval.timeout);
    var s2 := FireWake(s1, wake);
    OneIsPath(cfg, s, late, s1);
    OneIsPath(cfg, s1, Fire(wake), s2);
    JoinIsPath(cfg, One(cfg, s, late, s1), One(cfg, s1, Fire(wake), s2));
    r := Join(One(cfg, s, late, s1), One(cfg, s1, Fire(wake), s2));
    assert r.states == [s, s1, s2];
  }

  function Asking(cfg: Config, peer: PeerId): Retrieval {
    NEW.(transferDeadline := Some(cfg.retrieval.timeout), generation := 1, active := Some((1, peer)), accepted := [peer])
  }

  /** The driver after that request. */
  function Asked(cfg: Config, peer: PeerId, id: VerificationId): Driver {
    RequestProof(Fresh(cfg.driver, {peer}), peer, id).0
  }

  function Busy(cfg: Config, peer: PeerId, id: VerificationId, r: Retrieval, pc: Pc): P2p {
    P2p(Asked(cfg, peer, id), [], Worker(map[id := r], [], 1, multiset{}), pc, 0, false)
  }

  lemma Requested(cfg: Config, peer: PeerId, id: VerificationId) returns (r: Run)
    requires peer != cfg.driver.local && cfg.retrieval.maxActive >= 1
    ensures Path(cfg, r) && First(r) == Initial(cfg, {peer}) && Last(r) == Busy(cfg, peer, id, Asking(cfg, peer), Idle)
  {
    var s0 := Initial(cfg, {peer});
    var a := Ensured(cfg, s0, id);
    var s1 := Last(a);
    assert s1.w.retrievals == map[id := NEW];
    var s2 := s1.(pc := Requesting(id, peer, []));
    var s3 := s1.(driver := Asked(cfg, peer, id), pc := Replied(id, peer, Ok(1), []));
    assert PickProvider(cfg, s1, Some(peer)) == s2;
    assert RequestProof(s0.driver, peer, id).1 == Ok(1) && Asked(cfg, peer, id).phase.Running?;
    assert RequestFromDriver(s2) == s3;
    var b := Run([s1, s2, s3], [Pick(Some(peer)), SendRequest]);
    assert StepOk(cfg, b, 0) && StepOk(cfg, b, 1);
    var c := RequestTaken(cfg, peer, id, s3);
    JoinIsPath(cfg, a, b);
    JoinIsPath(cfg, Join(a, b), c);
    r := Join(Join(a, b), c);
  }

  lemma RequestTaken(cfg: Config, peer: PeerId, id: VerificationId, s: P2p) returns (r: Run)
    requires s == P2p(Asked(cfg, peer, id), [], Worker(map[id := NEW], [], 0, multiset{}), Replied(id, peer, Ok(1), []), 0, false)
    ensures Path(cfg, r) && First(r) == s && Last(r) == Busy(cfg, peer, id, Asking(cfg, peer), Idle)
  {
    var s1, s2 := Busy(cfg, peer, id, Asking(cfg, peer), Driving([])), Busy(cfg, peer, id, Asking(cfg, peer), Idle);
    assert map[id := NEW][id := Asking(cfg, peer)] == map[id := Asking(cfg, peer)] && [] + [peer] == [peer];
    assert Accept(cfg.retrieval, s.w, id, 1, peer, 0) == s1.w;
    assert HandleReply(cfg, s) == s1;
    assert DriveHead(cfg, s1) == s2;
    r := Run([s, s1, s2], [TakeReply, DriveNext]);
    assert StepOk(cfg, r, 0) && StepOk(cfg, r, 1);
  }

  lemma Stopped(cfg: Config, peer: PeerId, id: VerificationId) returns (r: Run)
    ensures Path(cfg, r) && |r.steps| == 2 && First(r) == Busy(cfg, peer, id, Asking(cfg, peer), Idle)
    ensures Last(r) == Busy(cfg, peer, id, Asking(cfg, peer).(finished := true, generation := 2), Idle)
  {
    var x, y := Asking(cfg, peer), Asking(cfg, peer).(finished := true, generation := 2);
    var s0, s1, s2 := Busy(cfg, peer, id, x, Idle), Busy(cfg, peer, id, y, Driving([])), Busy(cfg, peer, id, y, Idle);
    var e := ProofEvicted(id, Explicit);
    assert map[id := x][id := y] == map[id := y];
    assert HandleStoreEvent(s0, e) == s1 && DriveHead(cfg, s1) == s2;
    r := Run([s0, s1, s2], [TakeStoreEvent(e), DriveNext]);
    assert StepOk(cfg, r, 0) && StepOk(cfg, r, 1);
  }

  /** The record leaves the store and comes back waiting while the request is out. */
  lemma StoppedAndEnsured(cfg: Config, peer: PeerId, id: VerificationId) returns (r: Run)
    ensures Path(cfg, r) && First(r) == Busy(cfg, peer, id, Asking(cfg, peer), Idle)
    ensures Last(r) == Busy(cfg, peer, id, Asking(cfg, peer).(finished := true, generation := 2), Idle)
    ensures |r.steps| == 5 && r.steps[3] == EnsureNext(true) && r.steps[4] == DriveNext && r.states[3].pc == Ensuring([id])
  {
    var a := Stopped(cfg, peer, id);
    var y := Asking(cfg, peer).(finished := true, generation := 2);
    var s0, s1, s2 := Last(a), Busy(cfg, peer, id, y, Ensuring([id])), Busy(cfg, peer, id, y, Driving([]));
    assert [id][1..] == [] && EnsureEntry(s1.w, id) == s1.w && Enqueue(s1.w, id) == s1.w;
    assert EnsureHead(s1, true) == s2 && DriveHead(cfg, s2) == s0;
    var b := Run([s0, s1, s2, s0], [TakeStoreEvent(VerificationObserved(id)), EnsureNext(true), DriveNext]);
    assert StepOk(cfg, b, 0) && StepOk(cfg, b, 1) && StepOk(cfg, b, 2);
    JoinIsPath(cfg, a, b);
    r := Join(a, b);
  }

  lemma FailureReported(cfg: Config, peer: PeerId, id: VerificationId, s: P2p)
    requires s.driver == Asked(cfg, peer, id) && s.channel == [] && peer != cfg.driver.local
    ensures Foreign(s.driver, FailureInput(0, peer))
    ensures var s' := DriverStep(cfg, s, FailureInput(0, peer));
            s' == s.(driver := s'.driver, channel := [ProofRequestFailed(1, peer, id)])
  {
    assert s.driver.outbound == map[0 := OutboundRequest(1, peer, id)];
  }

  lemma FailureTaken(cfg: Config, s: P2p, id: VerificationId, peer: PeerId, x: Retrieval)
    requires s.channel == [ProofRequestFailed(1, peer, id)] && s.w == Worker(map[id := x], [], 1, multiset{})
    requires s.pc.Idle? && !s.draining && x.active == Some((1, peer)) && x.finished
    ensures HandleEvent(s.(channel := s.channel[1..]), s.channel[0], Stored, []) ==
            s.(channel := [], w := Worker(map[], [], 0, multiset{}), pc := Driving([]))
  {
    assert map[id := x] - {id} == map[] && s.channel[1..] == [];
  }

  lemma FailureHandled(cfg: Config, s: P2p, id: VerificationId, peer: PeerId, x: Retrieval) returns (r: Run)
    requires s.channel == [ProofRequestFailed(1, peer, id)] && s.w == Worker(map[id := x], [], 1, multiset{})
    requires s.pc.Idle? && !s.draining && x.active == Some((1, peer)) && x.finished
    ensures Path(cfg, r) && First(r) == s && r.steps == [TakeEvent(Stored, []), DriveNext]
    ensures Last(r).pc.Idle? && id !in Last(r).w.retrievals
  {
    FailureTaken(cfg, s, id, peer, x);
    var s1 := s.(channel := [], w := Worker(map[], [], 0, multiset{}), pc := Driving([]));
    var s2 := s1.(pc := Idle);
    assert DriveHead(cfg, s1) == s2;
    OneIsPath(cfg, s, TakeEvent(Stored, []), s1);
    OneIsPath(cfg, s1, DriveNext, s2);
    JoinIsPath(cfg, One(cfg, s, TakeEvent(Stored, []), s1), One(cfg, s1, DriveNext, s2));
    r := Join(One(cfg, s, TakeEvent(Stored, []), s1), One(cfg, s1, DriveNext, s2));
  }

  lemma RequestFails(cfg: Config, peer: PeerId, id: VerificationId) returns (r: Run)
    requires peer != cfg.driver.local
    ensures Path(cfg, r) && First(r) == Busy(cfg, peer, id, Asking(cfg, peer).(finished := true, generation := 2), Idle)
    ensures r.steps == [DriverRuns(FailureInput(0, peer)), TakeEvent(Stored, []), DriveNext]
    ensures Last(r).pc.Idle? && id !in Last(r).w.retrievals
  {
    var x, fails := Asking(cfg, peer).(finished := true, generation := 2), DriverRuns(FailureInput(0, peer));
    var s0 := Busy(cfg, peer, id, x, Idle);
    FailureReported(cfg, peer, id, s0);
    var s1 := DriverStep(cfg, s0, FailureInput(0, peer));
    OneIsPath(cfg, s0, fails, s1);
    var b := FailureHandled(cfg, s1, id, peer, x);
    JoinIsPath(cfg, One(cfg, s0, fails, s1), b);
    r := Join(One(cfg, s0, fails, s1), b);
  }

  /** A run in which the id is found waiting and nothing but the failure of a request happens to it since,
      and yet the worker ends up waiting without a retrieval for it. */
  lemma WaitingRecordLosesRetrieval(cfg: Config, peer: PeerId, id: VerificationId) returns (r: Run, k: nat)
    requires peer != cfg.driver.local && cfg.retrieval.maxActive >= 1
    ensures IsRun(cfg, {peer}, r) && k < |r.steps| && r.steps[k] == EnsureNext(true) && r.states[k].pc == Ensuring([id])
    ensures forall i :: k < i < |r.steps| ==> !r.steps[i].TakeStoreEvent? && !r.steps[i].EnsureNext? && !r.steps[i].Tick?
    ensures Last(r).pc.Idle? && id !in Last(r).w.retrievals
  {
    var a := Requested(cfg, peer, id);
    var b := StoppedAndEnsured(cfg, peer, id);
    var c := RequestFails(cfg, peer, id);
    JoinIsPath(cfg, a, b);
    JoinIsPath(cfg, Join(a, b), c);
    r, k := Join(Join(a, b), c), |a.steps| + 3;
    assert r.steps == a.steps + b.steps + c.steps;
    forall i | k < i < |r.steps| ensures r.steps[i] in [b.steps[4]] + c.steps {
      if i >= k + 2 { assert r.steps[i] == c.steps[i - k - 2]; } else { assert r.steps[i] == b.steps[4]; }
    }
  }
}
