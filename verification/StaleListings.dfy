/** The other direction of LocalIndex: when the local peer may be listed for a proof that is no longer
    stored. Publication may lag eviction, so it can happen; this module says exactly when. */
module StaleListings {
  import opened Proofs
  import opened Protobuf
  import opened Records
  import opened StoreOps
  import opened Availability
  import opened DriverModel
  import opened DriverRuns
  import opened LocalIndex

  /** An eviction of the id is still to be read. */
  ghost predicate EvictionUnread(queue: seq<Event>, id: VerificationId) {
    exists k :: 0 <= k < |queue| && EvictedOf(queue[k], id)
  }

  /** The worker will still take the listing back, replace all listings, or has stopped for good. */
  ghost predicate Ahead(s: Sys, id: VerificationId) {
    || EvictionUnread(s.queue, id) || s.lagged || s.pc == Forgetting(id)
    || s.pc.NotStarted? || s.pc.Walking? || s.pc.Replacing? || s.pc.Stopped?
  }

  /** What a reconcile is about to list. */
  predicate AboutToList(pc: Pc, id: VerificationId) {
    (pc.Walking? && id in pc.found) || (pc.Replacing? && id in pc.found) || (pc.Announcing? && id in pc.todo)
  }

  /** Every listed proof is stored or its eviction lies ahead. */
  ghost predicate ListingsOk(cfg: Config, s: Sys) {
    && (forall id :: Lists(s.driver.index, id, cfg.driver.local) ==> HasContent(s.store, id) || Ahead(s, id))
    && (forall id :: AboutToList(s.pc, id) ==> HasContent(s.store, id) || EvictionUnread(s.queue, id) || s.lagged)
  }

  /** The step announces content that has gone, with the eviction already read: its ProofStored event was
      sent after the eviction. */
  ghost predicate AnnouncesGone(s: Sys, step: Step) {
    && step.AnnounceStored? && s.pc.Storing? && !HasContent(s.store, s.pc.id)
    && !EvictionUnread(s.queue, s.pc.id) && !s.lagged
  }

  // ---------------------------------------------------------------- steps

  /** Delivery loses no unread eviction without raising the lag flag, and an eviction delivered is unread. */
  lemma SendKeepsUnread(cfg: Config, s: Sys, e: Event, id: VerificationId)
    requires cfg.eventBuffer >= 1
    ensures var s' := Send(cfg, s, e);
            && (EvictionUnread(s.queue, id) ==> s'.lagged || EvictionUnread(s'.queue, id))
            && (EvictedOf(e, id) ==> EvictionUnread(s'.queue, id))
            && (s.lagged ==> s'.lagged)
  {
    var s' := Send(cfg, s, e);
    var shift := if |s.queue| < cfg.eventBuffer then 0 else 1;
    assert s'.queue[|s.queue| - shift] == e;
    if EvictionUnread(s.queue, id) {
      var k :| 0 <= k < |s.queue| && EvictedOf(s.queue[k], id);
      if k >= shift { assert s'.queue[k - shift] == s.queue[k]; }
    }
  }

  /** Content may go only together with an unread eviction. */
  lemma DeliveryKeeps(cfg: Config, s: Sys, e: Event, s': Sys)
    requires cfg.eventBuffer >= 1 && ListingsOk(cfg, s)
    requires s' == Send(cfg, s, e).(store := s'.store, unpublished := s'.unpublished)
    requires forall id :: HasContent(s.store, id) ==> HasContent(s'.store, id) || EvictedOf(e, id)
    ensures ListingsOk(cfg, s')
  {
    forall id ensures Lists(s'.driver.index, id, cfg.driver.local) ==> HasContent(s'.store, id) || Ahead(s', id) {
      SendKeepsUnread(cfg, s, e, id);
    }
    forall id ensures AboutToList(s'.pc, id) ==> HasContent(s'.store, id) || EvictionUnread(s'.queue, id) || s'.lagged {
      SendKeepsUnread(cfg, s, e, id);
    }
  }

  lemma StoreCallKeeps(cfg: Config, s: Sys, call: Call)
    requires Inv(cfg, s) && ListingsOk(cfg, s)
    ensures ListingsOk(cfg, Committed(s, Commits(cfg.limits, s.store, call, s.now)))
  {
    CallContent(cfg.limits, s.store, call, s.now);
  }

  /** A step that leaves store, queue and lag flag alone. */
  lemma IndexOnlyKeeps(cfg: Config, s: Sys, s': Sys)
    requires ListingsOk(cfg, s) && s'.store == s.store && s'.queue == s.queue && s'.lagged == s.lagged
    requires forall id :: Lists(s'.driver.index, id, cfg.driver.local) ==>
               || (Lists(s.driver.index, id, cfg.driver.local) && (Ahead(s, id) ==> Ahead(s', id)))
               || HasContent(s.store, id) || EvictionUnread(s.queue, id) || s.lagged
    requires forall id :: AboutToList(s'.pc, id) ==> AboutToList(s.pc, id) || HasContent(s.store, id)
    ensures ListingsOk(cfg, s')
  {
  }

  lemma ForeignListings(cfg: Config, s: Sys, input: Input)
    requires Inv(cfg, s) && ListingsOk(cfg, s) && Foreign(cfg, input)
    ensures ListingsOk(cfg, s.(driver := Handle(cfg.driver, s.driver, input).0))
  {
    forall id ensures Lists(Handle(cfg.driver, s.driver, input).0.index, id, cfg.driver.local) <==>
                        Lists(s.driver.index, id, cfg.driver.local) {
      LocalPairsOnlyLocal(cfg.driver, s.driver, input, id);
    }
    IndexOnlyKeeps(cfg, s, s.(driver := Handle(cfg.driver, s.driver, input).0));
  }

  lemma AnnounceListings(cfg: Config, s: Sys, id: VerificationId, pc: Pc)
    requires ListingsOk(cfg, s) && (forall x :: AboutToList(pc, x) ==> AboutToList(s.pc, x))
    requires (s.pc.Announcing? && pc.Announcing?) || (s.pc.Storing? && pc.Idle?)
    ensures var s' := Command(cfg, s, AnnounceCommand(id), pc);
            ListingsOk(cfg, s') <==> HasContent(s.store, id) || EvictionUnread(s.queue, id) || s.lagged
  {
    var s' := Command(cfg, s, AnnounceCommand(id), pc);
    forall x ensures Lists(s'.driver.index, x, cfg.driver.local) <==> x == id || Lists(s.driver.index, x, cfg.driver.local) {
      LocalCommandsSetLocalPairs(cfg.driver, s.driver, id, {}, x);
    }
    if HasContent(s.store, id) || EvictionUnread(s.queue, id) || s.lagged {
      IndexOnlyKeeps(cfg, s, s');
    } else {
      assert Lists(s'.driver.index, id, cfg.driver.local);
    }
  }

  lemma ReplaceListings(cfg: Config, s: Sys)
    requires ListingsOk(cfg, s) && s.pc.Replacing?
    ensures ListingsOk(cfg, Command(cfg, s, ReplaceLocalCommand(s.pc.found), Announcing(s.pc.found)))
  {
    var found, s' := s.pc.found, Command(cfg, s, ReplaceLocalCommand(s.pc.found), Announcing(s.pc.found));
    forall x ensures Lists(s'.driver.index, x, cfg.driver.local) <==> x in found {
      LocalCommandsSetLocalPairs(cfg.driver, s.driver, x, found, x);
    }
    forall x | x in found ensures HasContent(s.store, x) || EvictionUnread(s.queue, x) || s.lagged { assert AboutToList(s.pc, x); }
    IndexOnlyKeeps(cfg, s, s');
  }

  lemma ForgetListings(cfg: Config, s: Sys)
    requires ListingsOk(cfg, s) && s.pc.Forgetting?
    ensures ListingsOk(cfg, Command(cfg, s, ForgetCommand(s.pc.id), Idle))
  {
    var id, s' := s.pc.id, Command(cfg, s, ForgetCommand(s.pc.id), Idle);
    forall x ensures Lists(s'.driver.index, x, cfg.driver.local) <==> x != id && Lists(s.driver.index, x, cfg.driver.local) {
      LocalCommandsSetLocalPairs(cfg.driver, s.driver, id, {}, x);
    }
    IndexOnlyKeeps(cfg, s, s');
  }

  lemma ReadingListings(cfg: Config, s: Sys)
    requires ListingsOk(cfg, s) && s.pc.Idle? && (s.lagged || s.queue != [])
    ensures ListingsOk(cfg, ReceiveNext(s))
  {
    var s' := ReceiveNext(s);
    if !s.lagged {
      forall id | EvictionUnread(s.queue, id) ensures EvictionUnread(s'.queue, id) || s'.pc == Forgetting(id) {
        var k :| 0 <= k < |s.queue| && EvictedOf(s.queue[k], id);
        if k > 0 { assert s'.queue[k - 1] == s.queue[k]; }
      }
    }
  }

  lemma QuietListings(cfg: Config, s: Sys, step: Step)
    requires ListingsOk(cfg, s) && Enabled(cfg, s, step)
    requires step.Ticking? || step.Reconcile? || step.Visit? || step.WalkDone? || step.AnnounceDone? || step.StopWorker?
    ensures ListingsOk(cfg, Next(cfg, s, step))
  {
    IndexOnlyKeeps(cfg, s, Next(cfg, s, step));
  }

  /** Each step keeps the listings right exactly unless it announces content that has gone. */
  lemma ListingsStayIff(cfg: Config, s: Sys, step: Step)
    requires cfg.eventBuffer >= 1 && Inv(cfg, s) && ListingsOk(cfg, s) && Enabled(cfg, s, step)
    ensures ListingsOk(cfg, Next(cfg, s, step)) <==> !AnnouncesGone(s, step)
  {
    match step
    case StoreCall(call) => StoreCallKeeps(cfg, s, call);
    case Evicting(id, cause) => DeliveryKeeps(cfg, s, ProofEvicted(id, cause), Next(cfg, s, step));
    case Sending(e) => DeliveryKeeps(cfg, s, e, Next(cfg, s, step));
    case DriverRuns(input) => ForeignListings(cfg, s, input);
    case Replace => ReplaceListings(cfg, s);
    case AnnounceNext(id) =>
      assert AboutToList(s.pc, id);
      AnnounceListings(cfg, s, id, Announcing(s.pc.todo - {id}));
    case Receive => ReadingListings(cfg, s);
    case AnnounceStored => AnnounceListings(cfg, s, s.pc.id, Idle);
    case ForgetEvicted => ForgetListings(cfg, s);
    case _ => QuietListings(cfg, s, step);
  }

  // ---------------------------------------------------------------- whole runs

  ghost predicate GoneAt(r: Run, i: nat)
    requires i < |r.steps| && |r.states| == |r.steps| + 1
  {
    AnnouncesGone(r.states[i], r.steps[i])
  }

  lemma ListingsStep(cfg: Config, st: Store, validators: set<PeerId>, r: Run, i: nat)
    requires IsRun(cfg, st, validators, r) && i < |r.steps| && ListingsOk(cfg, r.states[i])
    ensures ListingsOk(cfg, r.states[i + 1]) <==> !GoneAt(r, i)
  {
    RunInv(cfg, st, validators, r, i);
    assert StepOk(cfg, r, i);
    ListingsStayIff(cfg, r.states[i], r.steps[i]);
  }

  /** A run that announces nothing gone lists, at every moment, only stored proofs and proofs whose eviction
      lies ahead. */
  lemma {:induction false} OnlyStoredListed(cfg: Config, st: Store, validators: set<PeerId>, r: Run, n: nat)
    requires IsRun(cfg, st, validators, r) && n < |r.states| && forall i :: 0 <= i < n ==> !GoneAt(r, i)
    ensures ListingsOk(cfg, r.states[n])
  {
    if n > 0 {
      OnlyStoredListed(cfg, st, validators, r, n - 1);
      ListingsStep(cfg, st, validators, r, n - 1);
    }
  }

  /** So when nothing is in flight the local peer is listed for exactly the stored proofs. */
  lemma QuiescentIndexIsExact(cfg: Config, st: Store, validators: set<PeerId>, r: Run, n: nat, id: VerificationId)
    requires IsRun(cfg, st, validators, r) && n < |r.states| && forall i :: 0 <= i < n ==> !GoneAt(r, i)
    requires var s := r.states[n]; s.pc.Idle? && !s.lagged && s.queue == [] && s.unpublished == multiset{}
    ensures Lists(r.states[n].driver.index, id, cfg.driver.local) <==> HasContent(r.states[n].store, id)
  {
    OnlyStoredListed(cfg, st, validators, r, n);
    QuiescentIndexIsComplete(cfg, st, validators, r, n);
  }

  // ---------------------------------------------------------------- a stale listing

  /** What the witness needs of a state: everything but the driver and the history of the store. */
  predicate Shows(s: Sys, pc: Pc, queue: seq<Event>, unpublished: multiset<Event>) {
    s.pc == pc && s.queue == queue && s.unpublished == unpublished && !s.lagged
  }

  ghost predicate Path(cfg: Config, r: Run) {
    |r.states| == |r.steps| + 1 && forall i :: 0 <= i < |r.steps| ==> StepOk(cfg, r, i)
  }

  function Last(r: Run): Sys
    requires r.states != []
  {
    r.states[|r.states| - 1]
  }

  /** b continues a where it ends. */
  function Then(a: Run, b: Run): Run
    requires b.states != []
  {
    Run(a.states + b.states[1..], a.steps + b.steps)
  }

  lemma ThenIsPath(cfg: Config, a: Run, b: Run)
    requires Path(cfg, a) && Path(cfg, b) && Last(a) == b.states[0]
    ensures Path(cfg, Then(a, b)) && Then(a, b).states[0] == a.states[0] && Last(Then(a, b)) == Last(b)
    ensures b.steps != [] && GoneAt(b, |b.steps| - 1) ==> GoneAt(Then(a, b), |Then(a, b).steps| - 1)
  {
    var r, n := Then(a, b), |a.steps|;
    forall i | 0 <= i < |r.steps| ensures StepOk(cfg, r, i) {
      if i < n { SameStep(cfg, a, i, r, i); } else { SameStep(cfg, b, i - n, r, i); }
    }
  }

  lemma SameStep(cfg: Config, a: Run, j: nat, r: Run, i: nat)
    requires Path(cfg, a) && j < |a.steps| && i < |r.steps| && |r.states| == |r.steps| + 1
    requires r.steps[i] == a.steps[j] && r.states[i] == a.states[j] && r.states[i + 1] == a.states[j + 1]
    ensures StepOk(cfg, r, i)
  {
    assert StepOk(cfg, a, j);
  }

  lemma TwoIsPath(cfg: Config, s: Sys, step: Step, s1: Sys, step1: Step, s2: Sys)
    requires Enabled(cfg, s, step) && Next(cfg, s, step) == s1 && Enabled(cfg, s1, step1) && Next(cfg, s1, step1) == s2
    ensures Path(cfg, Two(s, step, s1, step1, s2))
  {
    OneIsPath(cfg, s, step, s1);
    OneIsPath(cfg, s1, step1, s2);
    ThenIsPath(cfg, Run([s, s1], [step]), Run([s1, s2], [step1]));
    assert Two(s, step, s1, step1, s2) == Then(Run([s, s1], [step]), Run([s1, s2], [step1]));
  }

  lemma OneIsPath(cfg: Config, s: Sys, step: Step, s1: Sys)
    requires Enabled(cfg, s, step) && Next(cfg, s, step) == s1
    ensures Path(cfg, Run([s, s1], [step]))
  {
    assert StepOk(cfg, Run([s, s1], [step]), 0);
  }

  function Two(s: Sys, step: Step, s1: Sys, step1: Step, s2: Sys): Run { Run([s, s1, s2], [step, step1]) }

  lemma Started(cfg: Config, validators: set<PeerId>) returns (r: Run)
    ensures Path(cfg, r) && r.states[0] == Initial(cfg, Store(map[], 0), validators)
    ensures Shows(Last(r), Replacing({}), [], multiset{}) && Last(r).store == Store(map[], 0)
  {
    var s0 := Initial(cfg, Store(map[], 0), validators);
    var s1, s2 := s0.(pc := Walking({}, {})), s0.(pc := Replacing({}));
    assert s0.store.entries.Keys == {};
    TwoIsPath(cfg, s0, Reconcile, s1, WalkDone, s2);
    r := Two(s0, Reconcile, s1, WalkDone, s2);
  }

  lemma Settled(cfg: Config, s: Sys) returns (r: Run)
    requires Shows(s, Replacing({}), [], multiset{})
    ensures Path(cfg, r) && r.states[0] == s && Shows(Last(r), Idle, [], multiset{}) && Last(r).store == s.store
  {
    var s1 := Command(cfg, s, ReplaceLocalCommand({}), Announcing({}));
    TwoIsPath(cfg, s, Replace, s1, AnnounceDone, s1.(pc := Idle));
    r := Two(s, Replace, s1, AnnounceDone, s1.(pc := Idle));
  }

  lemma StoredThenEvicted(cfg: Config, s: Sys, proof: Proof) returns (r: Run)
    requires cfg.eventBuffer >= 2 && EncodedLen(proof) <= cfg.limits.maxProofBytes
    requires Shows(s, Idle, [], multiset{}) && s.store == Store(map[], 0)
    ensures var id := IdOf(cfg.limits.sha, proof);
            && Path(cfg, r) && r.states[0] == s && !HasContent(Last(r).store, id)
            && Shows(Last(r), Idle, [ProofEvicted(id, Explicit)], multiset{ProofStored(id, Rpc)})
  {
    var id := IdOf(cfg.limits.sha, proof);
    var insert, evict := StoreCall(Inserting(proof, Rpc)), Evicting(id, Explicit);
    var s1 := Next(cfg, s, insert);
    assert id in s1.store.entries && Shows(s1, Idle, [], multiset{ProofStored(id, Rpc)});
    var s2 := Next(cfg, s1, evict);
    TwoIsPath(cfg, s, insert, s1, evict, s2);
    r := Two(s, insert, s1, evict, s2);
  }

  /** Content is stored, evicted before its event is sent, and the event is sent after all. */
  lemma StoredEvictedSent(cfg: Config, s: Sys, proof: Proof) returns (r: Run)
    requires cfg.eventBuffer >= 2 && EncodedLen(proof) <= cfg.limits.maxProofBytes
    requires Shows(s, Idle, [], multiset{}) && s.store == Store(map[], 0)
    ensures var id := IdOf(cfg.limits.sha, proof);
            && Path(cfg, r) && r.states[0] == s && !HasContent(Last(r).store, id)
            && Shows(Last(r), Idle, [ProofEvicted(id, Explicit), ProofStored(id, Rpc)], multiset{})
  {
    var id := IdOf(cfg.limits.sha, proof);
    var r1 := StoredThenEvicted(cfg, s, proof);
    var s2, send := Last(r1), Sending(ProofStored(id, Rpc));
    var s3 := Next(cfg, s2, send);
    OneIsPath(cfg, s2, send, s3);
    r := Then(r1, Run([s2, s3], [send]));
    ThenIsPath(cfg, r1, Run([s2, s3], [send]));
  }

  lemma EvictionRead(cfg: Config, s: Sys, id: VerificationId) returns (r: Run)
    requires Shows(s, Idle, [ProofEvicted(id, Explicit), ProofStored(id, Rpc)], multiset{})
    ensures Path(cfg, r) && r.states[0] == s
    ensures Shows(Last(r), Idle, [ProofStored(id, Rpc)], multiset{}) && Last(r).store == s.store
  {
    var s1 := s.(queue := [ProofStored(id, Rpc)], pc := Forgetting(id));
    assert s.queue[1..] == s1.queue;
    r := Two(s, Receive, s1, ForgetEvicted, Command(cfg, s1, ForgetCommand(id), Idle));
    TwoIsPath(cfg, s, Receive, s1, ForgetEvicted, Command(cfg, s1, ForgetCommand(id), Idle));
  }

  lemma LateEventRead(cfg: Config, s: Sys, id: VerificationId) returns (r: Run)
    requires Shows(s, Idle, [ProofStored(id, Rpc)], multiset{}) && !HasContent(s.store, id)
    ensures Path(cfg, r) && |r.steps| == 2 && r.states[0] == s && GoneAt(r, 1)
    ensures Shows(Last(r), Idle, [], multiset{}) && Last(r).store == s.store
    ensures Lists(Last(r).driver.index, id, cfg.driver.local)
  {
    var s1 := s.(queue := [], pc := Storing(id));
    assert s.queue[1..] == s1.queue;
    LocalCommandsSetLocalPairs(cfg.driver, s1.driver, id, {}, id);
    r := Two(s, Receive, s1, AnnounceStored, Command(cfg, s1, AnnounceCommand(id), Idle));
    TwoIsPath(cfg, s, Receive, s1, AnnounceStored, Command(cfg, s1, AnnounceCommand(id), Idle));
  }

  /** A run after which nothing is in flight and the local peer is listed for a proof it does not have. */
  lemma EvictedProofStaysListed(cfg: Config, validators: set<PeerId>, proof: Proof) returns (r: Run)
    requires cfg.eventBuffer >= 2 && EncodedLen(proof) <= cfg.limits.maxProofBytes
    ensures IsRun(cfg, Store(map[], 0), validators, r) && r.steps != [] && GoneAt(r, |r.steps| - 1)
    ensures Shows(Last(r), Idle, [], multiset{})
    ensures var id := IdOf(cfg.limits.sha, proof);
            Lists(Last(r).driver.index, id, cfg.driver.local) && !HasContent(Last(r).store, id)
  {
    var id := IdOf(cfg.limits.sha, proof);
    var a := Started(cfg, validators);
    var b := Settled(cfg, Last(a));
    var c := StoredEvictedSent(cfg, Last(b), proof);
    var d := EvictionRead(cfg, Last(c), id);
    var e := LateEventRead(cfg, Last(d), id);
    ThenIsPath(cfg, a, b);
    ThenIsPath(cfg, Then(a, b), c);
    ThenIsPath(cfg, Then(Then(a, b), c), d);
    ThenIsPath(cfg, Then(Then(Then(a, b), c), d), e);
    r := Then(Then(Then(Then(a, b), c), d), e);
  }
}
