/** Committed-block observation and recovery (src/listener.rs) with the allow-list refresh it drives
    (src/p2p/service.rs, replace_at).

    The listener is one sequential task; what interferes is the chain moving on, calls failing and the
    driver handling other inputs between any two of its awaits. A `World` fixes all of that in advance,
    indexed by a clock that ticks at every await; the results hold for every world. */
module ListenerModel {
  import opened Common
  import opened Proofs
  import opened Records
  import opened DriverModel
  import Descriptors
  import PagedQuery

  const ACTIVE_PROOF_HEIGHTS: nat := 3

  datatype Block = Block(validatorsHash: Digest, validators: set<PeerId>, submitted: set<VerificationId>)

  /** Committed blocks from height 1 on, and the requests that already have a final result. */
  datatype Chain = Chain(blocks: seq<Block>, settled: set<(nat, VerificationId)>)

  predicate Committed(c: Chain, h: nat) { 1 <= h <= |c.blocks| }

  function Pending(c: Chain, h: nat): set<VerificationId> {
    if Committed(c, h) then set id | id in c.blocks[h - 1].submitted && (h, id) !in c.settled else {}
  }

  predicate Later(a: Chain, b: Chain) { a.blocks <= b.blocks && a.settled <= b.settled }

  // ---------------------------------------------------------------- querying a height

  /** The record reports this id as pending. */
  predicate Reports(q: Descriptors.QueryProof, id: VerificationId) {
    q.state.Some? && q.state.value.Pending? && q.state.value.descriptor.verificationId == id.bytes
  }

  /** The records report exactly what is pending at the height. */
  ghost predicate TrueListing(c: Chain, h: nat, records: seq<Descriptors.QueryProof>) {
    forall id :: id in Pending(c, h) <==> exists i :: 0 <= i < |records| && Reports(records[i], id)
  }

  function ProofIds(ps: seq<Descriptors.ChainProof>): seq<VerificationId> {
    seq(|ps|, i requires 0 <= i < |ps| => ps[i].id)
  }

  lemma ReportedIsContributed(sha: Sha256, h: nat, q: Descriptors.QueryProof, id: VerificationId)
    requires PagedQuery.GoodRecord(sha, h, q)
    ensures Reports(q, id) <==> exists p :: PagedQuery.Contributes(sha, h, q, p) && p.id == id
  {
    if Reports(q, id) {
      var p := Descriptors.ValidateQueryProof(sha, q, h).value.value;
      assert PagedQuery.Contributes(sha, h, q, p) && p.id == id;
    }
  }

  /** A server that pages the true listing of a height makes the query succeed with exactly its pending
      requests, however it cuts the pages. */
  lemma QueryReturnsPending(
    sha: Sha256, c: Chain, h: nat, server: PagedQuery.Server, k: nat, n: nat,
    r: Result<seq<Descriptors.ChainProof>, PagedQuery.QueryError>)
    requires PagedQuery.Complete(sha, h, server, k) && TrueListing(c, h, PagedQuery.Records(server, k))
    requires PagedQuery.Settles(sha, h, server, n, r)
    ensures r.Ok? && Elements(ProofIds(r.value)) == Pending(c, h)
  {
    PagedQuery.CompleteIsUnique(sha, h, server, k, if r.Ok? then n else k);
    PendingIsReported(sha, c, h, server, k);
  }

  lemma PendingIsReported(sha: Sha256, c: Chain, h: nat, server: PagedQuery.Server, k: nat)
    requires PagedQuery.Complete(sha, h, server, k) && TrueListing(c, h, PagedQuery.Records(server, k))
    ensures Elements(ProofIds(PagedQuery.PendingOf(sha, h, PagedQuery.Records(server, k)))) == Pending(c, h)
  {
    var records := PagedQuery.Records(server, k);
    var ps := PagedQuery.PendingOf(sha, h, records);
    PagedQuery.PendingIsExact(sha, h, server, k);
    forall id ensures id in Elements(ProofIds(ps)) <==> id in Pending(c, h) {
      ReportedIsReturned(sha, h, records, ps, id);
    }
  }

  /** An id is among the returned ones exactly when a record reports it. */
  lemma ReportedIsReturned(
    sha: Sha256, h: nat, records: seq<Descriptors.QueryProof>, ps: seq<Descriptors.ChainProof>, id: VerificationId)
    requires PagedQuery.GoodRecords(sha, h, records)
    requires forall p :: p in ps <==> exists i :: 0 <= i < |records| && PagedQuery.Contributes(sha, h, records[i], p)
    ensures id in ProofIds(ps) <==> exists i :: 0 <= i < |records| && Reports(records[i], id)
  {
    if id in ProofIds(ps) {
      var i :| 0 <= i < |ps| && ProofIds(ps)[i] == id;
      assert ps[i] in ps;
      var j :| 0 <= j < |records| && PagedQuery.Contributes(sha, h, records[j], ps[i]);
      ReportedIsContributed(sha, h, records[j], id);
    }
    if j :| 0 <= j < |records| && Reports(records[j], id) {
      ReportedIsContributed(sha, h, records[j], id);
      var p :| PagedQuery.Contributes(sha, h, records[j], p) && p.id == id;
      assert p in ps;
      var i :| 0 <= i < |ps| && ps[i] == p;
      assert ProofIds(ps)[i] == id;
    }
  }

  /** These ids are what the query returns from some server that pages the true listing. */
  ghost predicate Paged(sha: Sha256, c: Chain, h: nat, ids: seq<VerificationId>) {
    exists server: PagedQuery.Server, k: nat ::
      && PagedQuery.Complete(sha, h, server, k) && TrueListing(c, h, PagedQuery.Records(server, k))
      && ids == ProofIds(PagedQuery.PendingOf(sha, h, PagedQuery.Records(server, k)))
  }

  lemma PagedIsPending(sha: Sha256, c: Chain, h: nat, ids: seq<VerificationId>)
    requires Paged(sha, c, h, ids)
    ensures Elements(ids) == Pending(c, h)
  {
    var server: PagedQuery.Server, k: nat :|
      && PagedQuery.Complete(sha, h, server, k) && TrueListing(c, h, PagedQuery.Records(server, k))
      && ids == ProofIds(PagedQuery.PendingOf(sha, h, PagedQuery.Records(server, k)));
    PendingIsReported(sha, c, h, server, k);
  }

  // ---------------------------------------------------------------- the world

  /** A call at an instant goes through, fails and is retried with a new session, or ends the listener. */
  datatype Weather = Fine | Lost | Poisoned

  datatype World = World(
    driverConfig: DriverConfig,
    p2p: bool,
    chain: nat -> Chain,
    weather: nat -> Weather,
    latest: nat -> nat,                              // the height status() reports
    answers: (nat, nat) -> seq<VerificationId>,      // the pending requests of a height, as queried
    inputs: nat -> seq<Input>)                       // what the driver handles meanwhile

  /** A committed block as the subscription delivers it, its events already parsed. */
  datatype NewBlock = NewBlock(height: nat, validatorsHash: Digest, ids: seq<VerificationId>)

  ghost predicate HonestAt(w: World, t: nat) {
    && w.latest(t) <= |w.chain(t).blocks|
    && (forall h: nat :: h > 0 ==> Paged(w.driverConfig.sha, w.chain(t), h, w.answers(t, h)))
    && (forall input :: input in w.inputs(t) ==> !input.AuthorizeCommand?)
  }

  /** Equal hashes mean equal validator sets. */
  ghost predicate HashesBind(w: World) {
    forall t: nat, a: nat, b: nat ::
      Committed(w.chain(t), a) && Committed(w.chain(t), b)
      && w.chain(t).blocks[a - 1].validatorsHash == w.chain(t).blocks[b - 1].validatorsHash
      ==> w.chain(t).blocks[a - 1].validators == w.chain(t).blocks[b - 1].validators
  }

  /** The node reports the chain as it is, the chain only grows, and only the listener changes the
      driver's allow-list. */
  ghost predicate Honest(w: World) {
    && (forall t: nat, u: nat {:trigger Later(w.chain(t), w.chain(u))} :: t <= u ==> Later(w.chain(t), w.chain(u)))
    && (forall t: nat :: HonestAt(w, t))
    && HashesBind(w)
  }

  ghost predicate HonestBlock(w: World, t: nat, b: NewBlock) {
    && Committed(w.chain(t), b.height)
    && b.validatorsHash == w.chain(t).blocks[b.height - 1].validatorsHash
    && Elements(b.ids) == w.chain(t).blocks[b.height - 1].submitted
  }

  // ---------------------------------------------------------------- the listener's steps

  datatype Listener = Listener(
    last: Option<nat>, hash: Option<Digest>, observed: set<VerificationId>, driver: Driver, t: nat)

  datatype CallResult = Done | Reconnect | Fatal

  function HandleAll(cfg: DriverConfig, d: Driver, inputs: seq<Input>): Driver
    decreases |inputs|
  {
    if inputs == [] then d else HandleAll(cfg, Handle(cfg, d, inputs[0]).0, inputs[1..])
  }

  /** An await: the clock ticks and the driver handles what has arrived. */
  function Await(w: World, s: Listener): Listener {
    s.(driver := HandleAll(w.driverConfig, s.driver, w.inputs(s.t)), t := s.t + 1)
  }

  function FailureOf(w: Weather): CallResult
    requires !w.Fine?
  {
    if w.Lost? then Reconnect else Fatal
  }

  function Bottom(latest: nat): nat { if latest < ACTIVE_PROOF_HEIGHTS then 1 else latest - (ACTIVE_PROOF_HEIGHTS - 1) }

  /** reconcile_active_window from height h up. */
  function Scan(w: World, s: Listener, h: nat, top: nat): (Listener, CallResult)
    decreases top + 1 - h
  {
    if h > top then (s, Done)
    else
      var s' := Await(w, s);
      if !w.weather(s.t).Fine? then (s', FailureOf(w.weather(s.t)))
      else Scan(w, s'.(observed := s'.observed + Elements(w.answers(s.t, h))), h + 1, top)
  }

  function ValidatorsAt(c: Chain, h: nat): set<PeerId> { if Committed(c, h) then c.blocks[h - 1].validators else {} }

  /** The snapshot is fetched first; a driver that no longer runs refuses the command. */
  function ReplaceAt(w: World, s: Listener, h: nat): (Listener, CallResult) {
    var s' := Await(w, s);
    if !w.weather(s.t).Fine? then (s', FailureOf(w.weather(s.t)))
    else
      var peers := ValidatorsAt(w.chain(s.t), h);
      if !s'.driver.phase.Running? then (s', Reconnect)
      else if w.driverConfig.local !in peers then (Authorize(w, s', {}), Fatal)
      else (Authorize(w, s', peers), Done)
  }

  function Authorize(w: World, s: Listener, peers: set<PeerId>): Listener {
    s.(driver := Handle(w.driverConfig, s.driver, AuthorizeCommand(peers)).0)
  }

  /** The allow-list is refreshed only when the hash differs from the remembered one. */
  function Refresh(w: World, s: Listener, h: nat, hash: Digest): (Listener, CallResult) {
    if s.hash != Some(hash) && w.p2p then ReplaceAt(w, s, h) else (s, Done)
  }

  function Initialize(w: World, s: Listener): (Listener, CallResult) {
    var s0, top := Await(w, s), w.latest(s.t);
    if !w.weather(s.t).Fine? then (s0, FailureOf(w.weather(s.t)))
    else
      var (s1, scanned) := Scan(w, s0, Bottom(top), top);
      if !scanned.Done? then (s1, scanned) else InitializeSet(w, s1, top)
  }

  /** The second half of initialize: the allow-list, then the remembered height. */
  function InitializeSet(w: World, s: Listener, top: nat): (Listener, CallResult) {
    if !w.p2p then (s.(last := Some(top)), Done)
    else
      var s' := Await(w, s);
      if !w.weather(s.t).Fine? then (s', FailureOf(w.weather(s.t)))
      else if !Committed(w.chain(s.t), top) then (s', Reconnect)
      else
        var hash := w.chain(s.t).blocks[top - 1].validatorsHash;
        var (s'', refreshed) := Refresh(w, s', top, hash);
        if !refreshed.Done? then (s'', refreshed) else (s''.(hash := Some(hash), last := Some(top)), Done)
  }

  function ProcessBlock(w: World, s: Listener, b: NewBlock): (Listener, CallResult) {
    var (s0, scanned) :=
      if s.last.Some? && b.height > s.last.value + 1 then Scan(w, s, Bottom(b.height), b.height) else (s, Done);
    if !scanned.Done? then (s0, scanned)
    else
      var s1 := s0.(observed := s0.observed + Elements(b.ids));
      if s.last.Some? && b.height <= s.last.value then (s1, Done)
      else
        var (s2, refreshed) := Refresh(w, s1, b.height, b.validatorsHash);
        if !refreshed.Done? then (s2, refreshed)
        else (s2.(hash := Some(b.validatorsHash), last := Some(b.height)), Done)
  }

  // ---------------------------------------------------------------- the window

  predicate InWindow(top: nat, h: nat) { Bottom(top) <= h <= top }

  /** The window is the top three heights that exist. */
  lemma WindowIsTopThree(top: nat, h: nat)
    ensures InWindow(top, h) <==> 1 <= h <= top < h + ACTIVE_PROOF_HEIGHTS
  {
  }

  /** Advancing from one height to a later one leaves no height between them out of the new window
      exactly when it advances by at most three. */
  lemma NothingSkippedIff(last: nat, top: nat)
    requires last < top
    ensures (forall h :: last < h <= top ==> InWindow(top, h)) <==> top <= last + ACTIVE_PROOF_HEIGHTS
  {
    if top > last + ACTIVE_PROOF_HEIGHTS { assert !InWindow(top, last + 1); }
  }

  // ---------------------------------------------------------------- what holds between calls

  /** Everything still pending in the window of the remembered height was observed. */
  ghost predicate Covered(w: World, s: Listener) {
    s.last.Some? ==>
      && s.last.value <= |w.chain(s.t).blocks|
      && forall h :: InWindow(s.last.value, h) ==> Pending(w.chain(s.t), h) <= s.observed
  }

  /** The allow-list is the validator set of the remembered height, without the local peer. */
  ghost predicate Refreshed(w: World, s: Listener) {
    && DriverOk(w.driverConfig, s.driver)
    && (s.hash.Some? ==> s.last.Some?)
    && (w.p2p && s.last.Some? ==>
        && Committed(w.chain(s.t), s.last.value)
        && s.hash == Some(w.chain(s.t).blocks[s.last.value - 1].validatorsHash)
        && s.driver.authorized == ValidatorsAt(w.chain(s.t), s.last.value) - {w.driverConfig.local})
  }

  lemma PendingShrinks(a: Chain, b: Chain, h: nat)
    requires Later(a, b) && h <= |a.blocks|
    ensures Pending(b, h) <= Pending(a, h)
  {
  }

  lemma LaterTime(w: World, t: nat, u: nat)
    requires Honest(w) && t <= u
    ensures Later(w.chain(t), w.chain(u))
  {
  }

  lemma {:induction false} HandleAllKeeps(cfg: DriverConfig, d: Driver, inputs: seq<Input>)
    requires DriverOk(cfg, d) && forall input :: input in inputs ==> !input.AuthorizeCommand?
    ensures DriverOk(cfg, HandleAll(cfg, d, inputs)) && HandleAll(cfg, d, inputs).authorized == d.authorized
    decreases |inputs|
  {
    if inputs != [] {
      var input := inputs[0];
      assert input in inputs;
      HandleKeeps(cfg, d, input);
      OnlyAuthorizeChangesAllowList(cfg, d, input);
      HandleAllKeeps(cfg, Handle(cfg, d, input).0, inputs[1..]);
    }
  }

  lemma OnlyAuthorizeChangesAllowList(cfg: DriverConfig, d: Driver, input: Input)
    requires !input.AuthorizeCommand?
    ensures Handle(cfg, d, input).0.authorized == d.authorized
  {
    FinishKeepsAllowList(React(cfg, d, input).0);
    match input
    case ResponseInput(oid, peer, sameChain, result) => EndingsKeepAllowList(cfg, d, oid, peer, sameChain, result);
    case FailureInput(oid, peer) => EndingsKeepAllowList(cfg, d, oid, peer, true, NoResult);
    case _ => OtherInputsKeepAllowList(cfg, d, input);
  }

  lemma FinishKeepsAllowList(d: Driver)
    ensures FinishDrain(d).authorized == d.authorized
  {
  }

  lemma EndingsKeepAllowList(cfg: DriverConfig, d: Driver, oid: nat, peer: PeerId, sameChain: bool, result: WireResult)
    ensures HandleResponse(cfg, d, oid, peer, sameChain, result).0.authorized == d.authorized
    ensures HandleFailure(d, oid, peer).0.authorized == d.authorized
  {
  }

  lemma OtherInputsKeepAllowList(cfg: DriverConfig, d: Driver, input: Input)
    requires !input.AuthorizeCommand? && !input.ResponseInput? && !input.FailureInput?
    ensures React(cfg, d, input).0.authorized == d.authorized
  {
  }

  /** Nothing the listener remembers changes while it waits, and what it knew stays true. */
  ghost predicate Waited(w: World, s: Listener, s': Listener) {
    && s'.last == s.last && s'.hash == s.hash && s.observed <= s'.observed && s.t <= s'.t
    && DriverOk(w.driverConfig, s'.driver) && s'.driver.authorized == s.driver.authorized
  }

  lemma AwaitKeeps(w: World, s: Listener)
    requires Honest(w) && DriverOk(w.driverConfig, s.driver)
    ensures Waited(w, s, Await(w, s)) && Await(w, s).observed == s.observed
  {
    assert HonestAt(w, s.t);
    HandleAllKeeps(w.driverConfig, s.driver, w.inputs(s.t));
  }

  lemma WaitedKeeps(w: World, s: Listener, s': Listener)
    requires Honest(w) && Waited(w, s, s')
    ensures Covered(w, s) ==> Covered(w, s')
    ensures Refreshed(w, s) ==> Refreshed(w, s')
  {
    LaterTime(w, s.t, s'.t);
    if Covered(w, s) && s.last.Some? {
      forall h | InWindow(s.last.value, h) ensures Pending(w.chain(s'.t), h) <= s'.observed {
        PendingShrinks(w.chain(s.t), w.chain(s'.t), h);
      }
    }
  }

  lemma AnswerIsPending(w: World, t: nat, h: nat)
    requires Honest(w) && h > 0
    ensures Elements(w.answers(t, h)) == Pending(w.chain(t), h)
  {
    assert HonestAt(w, t);
    PagedIsPending(w.driverConfig.sha, w.chain(t), h, w.answers(t, h));
  }

  ghost predicate CoveredFrom(w: World, s: Listener, h: nat, top: nat) {
    forall x :: h <= x <= top ==> Pending(w.chain(s.t), x) <= s.observed
  }

  lemma CoveredFromBelow(w: World, s: Listener, h: nat, top: nat)
    requires CoveredFrom(w, s, h + 1, top) && Pending(w.chain(s.t), h) <= s.observed
    ensures CoveredFrom(w, s, h, top)
  {
  }

  lemma {:induction false} ScanCovers(w: World, s: Listener, h: nat, top: nat)
    requires Honest(w) && DriverOk(w.driverConfig, s.driver) && top <= |w.chain(s.t).blocks| && h > 0
    ensures var (s', o) := Scan(w, s, h, top);
            && Waited(w, s, s')
            && (o.Done? ==> CoveredFrom(w, s', h, top))
    decreases top + 1 - h
  {
    if h <= top {
      AwaitKeeps(w, s);
      if w.weather(s.t).Fine? {
        AnswerIsPending(w, s.t, h);
        var s1 := Await(w, s);
        var s2 := s1.(observed := s1.observed + Elements(w.answers(s.t, h)));
        LaterTime(w, s.t, s2.t);
        ScanCovers(w, s2, h + 1, top);
        var s' := Scan(w, s2, h + 1, top).0;
        LaterTime(w, s.t, s'.t);
        PendingShrinks(w.chain(s.t), w.chain(s'.t), h);
        if Scan(w, s2, h + 1, top).1.Done? { CoveredFromBelow(w, s', h, top); }
      }
    }
  }

  /** What a call does to the allow-list and the hash: a call that fails short of losing the local
      validator changes neither. */
  lemma RefreshKeeps(w: World, s: Listener, h: nat, hash: Digest)
    requires Honest(w) && DriverOk(w.driverConfig, s.driver) && Committed(w.chain(s.t), h)
    requires hash == w.chain(s.t).blocks[h - 1].validatorsHash
    ensures var (s', o) := Refresh(w, s, h, hash);
            && s'.last == s.last && s'.hash == s.hash && s'.observed == s.observed && s.t <= s'.t
            && DriverOk(w.driverConfig, s'.driver)
            && (o.Reconnect? ==> s'.driver.authorized == s.driver.authorized)
            && (o.Fatal? ==> s'.driver.authorized == s.driver.authorized || s'.driver.authorized == {})
            && (o.Done? && w.p2p ==>
                s'.driver.authorized ==
                (if s.hash == Some(hash) then s.driver.authorized
                 else ValidatorsAt(w.chain(s.t), h) - {w.driverConfig.local}))
  {
    if s.hash != Some(hash) && w.p2p {
      AwaitKeeps(w, s);
      var s1 := Await(w, s);
      if w.weather(s.t).Fine? && s1.driver.phase.Running? {
        var peers := if w.driverConfig.local in ValidatorsAt(w.chain(s.t), h) then ValidatorsAt(w.chain(s.t), h) else {};
        HandleKeeps(w.driverConfig, s1.driver, AuthorizeCommand(peers));
        AuthorizeSets(w.driverConfig, s1.driver, peers);
      }
    }
  }

  lemma AuthorizeSets(cfg: DriverConfig, d: Driver, peers: set<PeerId>)
    requires d.phase.Running?
    ensures Handle(cfg, d, AuthorizeCommand(peers)).0.authorized == peers - {cfg.local}
  {
  }

  /** Remembering the hash of a height whose set is installed, directly or because the hash is the same. */
  lemma RefreshedAt(w: World, s: Listener, h: nat, hash: Digest, t: nat)
    requires Honest(w) && Refreshed(w, s) && t <= s.t && Committed(w.chain(t), h)
    requires hash == w.chain(t).blocks[h - 1].validatorsHash && s.hash == Some(hash) && s.last.Some? && w.p2p
    ensures s.driver.authorized == ValidatorsAt(w.chain(s.t), h) - {w.driverConfig.local}
  {
    LaterTime(w, t, s.t);
    var c := w.chain(s.t);
    assert c.blocks[h - 1] == w.chain(t).blocks[h - 1];
    assert HashesBind(w);
    assert Committed(c, h) && Committed(c, s.last.value);
  }

  // ---------------------------------------------------------------- the two calls

  lemma WindowStaysObserved(w: World, s: Listener, s': Listener, top: nat)
    requires Honest(w) && s.t <= s'.t && s.observed <= s'.observed && top <= |w.chain(s.t).blocks|
    requires forall h :: InWindow(top, h) ==> Pending(w.chain(s.t), h) <= s.observed
    ensures top <= |w.chain(s'.t).blocks| && forall h :: InWindow(top, h) ==> Pending(w.chain(s'.t), h) <= s'.observed
  {
    LaterTime(w, s.t, s'.t);
    forall h | InWindow(top, h) ensures Pending(w.chain(s'.t), h) <= s'.observed {
      PendingShrinks(w.chain(s.t), w.chain(s'.t), h);
    }
  }

  /** Remembering a committed height once its set is in force. */
  lemma RememberRefreshed(w: World, s: Listener, s2: Listener, top: nat, hash: Digest, t: nat)
    requires Honest(w) && DriverOk(w.driverConfig, s2.driver) && t <= s.t <= s2.t && Committed(w.chain(t), top)
    requires hash == w.chain(t).blocks[top - 1].validatorsHash
    requires w.p2p ==> s2.driver.authorized == ValidatorsAt(w.chain(s.t), top) - {w.driverConfig.local}
    ensures Refreshed(w, s2.(hash := Some(hash), last := Some(top)))
  {
    LaterTime(w, t, s.t);
    LaterTime(w, s.t, s2.t);
    LaterTime(w, t, s2.t);
  }

  /** Both calls end the same way: refresh the allow-list for a covered height, then remember it. */
  lemma AdvanceKeeps(w: World, s: Listener, top: nat, hash: Digest, t: nat)
    requires Honest(w) && Covered(w, s) && Refreshed(w, s) && t <= s.t && Committed(w.chain(t), top)
    requires hash == w.chain(t).blocks[top - 1].validatorsHash
    requires forall h :: InWindow(top, h) ==> Pending(w.chain(s.t), h) <= s.observed
    ensures var (s2, o) := Refresh(w, s, top, hash);
            && s.t <= s2.t && s.observed <= s2.observed
            && (o.Done? ==> var s' := s2.(hash := Some(hash), last := Some(top)); Covered(w, s') && Refreshed(w, s'))
            && (o.Reconnect? ==> Waited(w, s, s2) && Covered(w, s2) && Refreshed(w, s2))
            && (o.Fatal? ==> s2.driver.authorized == s.driver.authorized || s2.driver.authorized == {})
  {
    LaterTime(w, t, s.t);
    RefreshKeeps(w, s, top, hash);
    var (s2, o) := Refresh(w, s, top, hash);
    if o.Reconnect? { WaitedKeeps(w, s, s2); }
    if s.hash == Some(hash) && w.p2p { RefreshedAt(w, s, top, hash, t); }
    if o.Done? { RememberRefreshed(w, s, s2, top, hash, t); }
    WindowStaysObserved(w, s, s2, top);
  }

  lemma InitializeSetKeeps(w: World, s: Listener, top: nat)
    requires Honest(w) && Covered(w, s) && Refreshed(w, s) && top <= |w.chain(s.t).blocks|
    requires forall h :: InWindow(top, h) ==> Pending(w.chain(s.t), h) <= s.observed
    ensures var (s', o) := InitializeSet(w, s, top);
            && s.t <= s'.t && s.observed <= s'.observed
            && (o.Done? ==> s'.last == Some(top) && Covered(w, s') && Refreshed(w, s'))
            && (o.Reconnect? ==> Waited(w, s, s'))
            && (o.Fatal? ==> s'.driver.authorized == s.driver.authorized || s'.driver.authorized == {})
  {
    if w.p2p {
      AwaitKeeps(w, s);
      var s1 := Await(w, s);
      WaitedKeeps(w, s, s1);
      WindowStaysObserved(w, s, s1, top);
      if w.weather(s.t).Fine? && Committed(w.chain(s.t), top) {
        AdvanceKeeps(w, s1, top, w.chain(s.t).blocks[top - 1].validatorsHash, s.t);
      }
    }
  }

  /** A session start that succeeds covers the window of the height it found, refreshes the allow-list
      to that height and remembers it; one that fails remembers nothing and keeps what was known. */
  lemma InitializeKeeps(w: World, s: Listener)
    requires Honest(w) && Covered(w, s) && Refreshed(w, s)
    ensures var (s', o) := Initialize(w, s);
            && s.t <= s'.t && s.observed <= s'.observed
            && (o.Done? ==> s'.last == Some(w.latest(s.t)) && Covered(w, s') && Refreshed(w, s'))
            && (o.Reconnect? ==> Waited(w, s, s') && Covered(w, s') && Refreshed(w, s'))
            && (o.Fatal? ==> s'.driver.authorized == s.driver.authorized || s'.driver.authorized == {})
  {
    AwaitKeeps(w, s);
    var s0, top := Await(w, s), w.latest(s.t);
    assert HonestAt(w, s.t);
    if w.weather(s.t).Fine? {
      LaterTime(w, s.t, s0.t);
      ScanCovers(w, s0, Bottom(top), top);
      var (s1, o) := Scan(w, s0, Bottom(top), top);
      WaitedKeeps(w, s, s1);
      LaterTime(w, s0.t, s1.t);
      if o.Done? {
        InitializeSetKeeps(w, s1, top);
        if InitializeSet(w, s1, top).1.Reconnect? { WaitedKeeps(w, s1, InitializeSet(w, s1, top).0); }
      }
    } else {
      WaitedKeeps(w, s, s0);
    }
  }

  /** What process_block has observed when it comes to the allow-list. */
  lemma BlockObserved(w: World, s: Listener, b: NewBlock, s1: Listener)
    requires Honest(w) && Covered(w, s) && DriverOk(w.driverConfig, s.driver) && s.last.Some? && HonestBlock(w, s.t, b)
    requires var (s0, o) := if b.height > s.last.value + 1 then Scan(w, s, Bottom(b.height), b.height) else (s, Done);
             o.Done? && s1 == s0.(observed := s0.observed + Elements(b.ids))
    ensures Waited(w, s, s1) && Elements(b.ids) <= s1.observed
    ensures b.height > s.last.value ==> forall h :: InWindow(b.height, h) ==> Pending(w.chain(s1.t), h) <= s1.observed
  {
    if b.height > s.last.value + 1 { ScanCovers(w, s, Bottom(b.height), b.height); }
    LaterTime(w, s.t, s1.t);
    if b.height > s.last.value {
      forall h: nat | InWindow(b.height, h) ensures Pending(w.chain(s1.t), h) <= s1.observed {
        PendingShrinks(w.chain(s.t), w.chain(s1.t), h);
        if b.height == s.last.value + 1 { assert h < b.height ==> InWindow(s.last.value, h); }
      }
    }
  }

  /** The remembered height only moves up here, and only after everything else succeeded. */
  lemma ProcessBlockKeeps(w: World, s: Listener, b: NewBlock)
    requires Honest(w) && Covered(w, s) && Refreshed(w, s) && s.last.Some? && HonestBlock(w, s.t, b)
    ensures var (s', o) := ProcessBlock(w, s, b);
            && s.t <= s'.t && s.observed <= s'.observed
            && (o.Done? ==>
                && Covered(w, s') && Refreshed(w, s') && Elements(b.ids) <= s'.observed
                && s'.last == Some(if b.height > s.last.value then b.height else s.last.value))
            && (o.Reconnect? ==> Waited(w, s, s') && Covered(w, s') && Refreshed(w, s'))
            && (o.Fatal? ==> s'.driver.authorized == s.driver.authorized || s'.driver.authorized == {})
  {
    var (s0, o) := if b.height > s.last.value + 1 then Scan(w, s, Bottom(b.height), b.height) else (s, Done);
    if b.height > s.last.value + 1 { ScanCovers(w, s, Bottom(b.height), b.height); }
    WaitedKeeps(w, s, s0);
    if o.Done? {
      var s1 := s0.(observed := s0.observed + Elements(b.ids));
      BlockObserved(w, s, b, s1);
      WaitedKeeps(w, s, s1);
      if b.height > s.last.value { AdvanceKeeps(w, s1, b.height, b.validatorsHash, s.t); }
    }
  }

  // ---------------------------------------------------------------- what a jump misses

  /** A scan of the heights from h up, one per tick from instant t on, finds the request pending at one of
      them when it comes to it. */
  ghost predicate Finds(w: World, t: nat, h: nat, top: nat, id: VerificationId)
    decreases top + 1 - h
  {
    h <= top && (id in Pending(w.chain(t), h) || Finds(w, t + 1, h + 1, top, id))
  }

  ghost predicate FoundAt(w: World, t: nat, h: nat, x: nat, id: VerificationId)
    requires h <= x
  {
    id in Pending(w.chain(t + (x - h)), x)
  }

  lemma {:induction false} FindsIff(w: World, t: nat, h: nat, top: nat, id: VerificationId)
    ensures Finds(w, t, h, top, id) <==> exists x :: h <= x <= top && FoundAt(w, t, h, x, id)
    decreases top + 1 - h
  {
    if h <= top {
      var t', h' := t + 1, h + 1;
      FindsIff(w, t', h', top, id);
      assert FoundAt(w, t, h, h, id) <==> id in Pending(w.chain(t), h);
      if x :| h < x <= top && FoundAt(w, t, h, x, id) { assert FoundAt(w, t', h', x, id); }
      if x :| h' <= x <= top && FoundAt(w, t', h', x, id) { assert FoundAt(w, t, h, x, id); }
    }
  }

  ghost predicate AnswersTrue(w: World) {
    forall t: nat, h: nat {:trigger w.answers(t, h)} :: h > 0 ==> Elements(w.answers(t, h)) == Pending(w.chain(t), h)
  }

  lemma HonestAnswersTrue(w: World)
    requires Honest(w)
    ensures AnswersTrue(w)
  {
    forall t: nat, h: nat | h > 0 ensures Elements(w.answers(t, h)) == Pending(w.chain(t), h) {
      AnswerIsPending(w, t, h);
    }
  }

  /** One height of a scan. */
  function Scanned(w: World, s: Listener, h: nat): Listener {
    var s' := Await(w, s);
    s'.(observed := s'.observed + Elements(w.answers(s.t, h)))
  }

  lemma ScanStep(w: World, s: Listener, h: nat, top: nat, s': Listener)
    requires AnswersTrue(w) && 0 < h <= top && Scan(w, s, h, top) == (s', Done)
    ensures Scan(w, Scanned(w, s, h), h + 1, top) == (s', Done)
    ensures Scanned(w, s, h).t == s.t + 1 && Scanned(w, s, h).observed == s.observed + Pending(w.chain(s.t), h)
  {
  }

  /** A completed scan observes what it finds and nothing else. */
  lemma {:induction false} ScanFinds(w: World, s: Listener, h: nat, top: nat, s': Listener, id: VerificationId)
    requires AnswersTrue(w) && h > 0 && Scan(w, s, h, top) == (s', Done)
    ensures id in s'.observed <==> id in s.observed || Finds(w, s.t, h, top, id)
    decreases top + 1 - h
  {
    if h <= top {
      var s1 := Scanned(w, s, h);
      ScanStep(w, s, h, top, s');
      ScanFinds(w, s1, h + 1, top, s', id);
    }
  }

  /** What a received block leads to observing. */
  lemma BlockFinds(w: World, s: Listener, b: NewBlock, id: VerificationId)
    requires Honest(w) && s.last.Some? && b.height > s.last.value + 1 && ProcessBlock(w, s, b).1.Done?
    ensures id in ProcessBlock(w, s, b).0.observed <==>
              id in s.observed || id in b.ids || Finds(w, s.t, Bottom(b.height), b.height, id)
  {
    HonestAnswersTrue(w);
    ScanFinds(w, s, Bottom(b.height), b.height, Scan(w, s, Bottom(b.height), b.height).0, id);
  }

  /** Everything still pending above one height and up to another was observed. */
  ghost predicate ObservedBetween(w: World, s: Listener, last: nat, top: nat) {
    forall h :: last < h <= top ==> Pending(w.chain(s.t), h) <= s.observed
  }

  /** Every request pending in this chain at a height skipped by the advance is among those known or is
      found by the scan of the new window that starts at this instant. */
  ghost predicate SkippedKnown(w: World, c: Chain, last: nat, top: nat, known: set<VerificationId>, t: nat) {
    forall h, id :: last < h < Bottom(top) && id in Pending(c, h) ==> id in known || Finds(w, t, Bottom(top), top, id)
  }

  lemma ObservedIffSkippedKnown(
    w: World, s: Listener, last: nat, top: nat, known: set<VerificationId>, t: nat)
    requires last < top && forall h :: InWindow(top, h) ==> Pending(w.chain(s.t), h) <= s.observed
    requires top > last + ACTIVE_PROOF_HEIGHTS ==>
               forall id :: id in s.observed <==> id in known || Finds(w, t, Bottom(top), top, id)
    ensures ObservedBetween(w, s, last, top) <==>
              top <= last + ACTIVE_PROOF_HEIGHTS || SkippedKnown(w, w.chain(s.t), last, top, known, t)
  {
    var c := w.chain(s.t);
    if SkippedKnown(w, c, last, top, known, t) && top > last + ACTIVE_PROOF_HEIGHTS {
      forall h | last < h <= top ensures Pending(c, h) <= s.observed {
        if !InWindow(top, h) {
          forall id | id in Pending(c, h) ensures id in s.observed {}
        }
      }
    }
    if top <= last + ACTIVE_PROOF_HEIGHTS { NothingSkippedIff(last, top); }
  }

  /** A block that advances the listener leaves nothing unobserved exactly when it advances by at most
      three, or when every request still pending at a skipped height was known before, is submitted again
      in this block or is found at a height of the window. */
  lemma BlockMissesNothingIff(w: World, s: Listener, b: NewBlock)
    requires Honest(w) && Covered(w, s) && Refreshed(w, s) && s.last.Some? && HonestBlock(w, s.t, b)
    requires b.height > s.last.value && ProcessBlock(w, s, b).1.Done?
    ensures var s', last, top := ProcessBlock(w, s, b).0, s.last.value, b.height;
            ObservedBetween(w, s', last, top) <==>
            || top <= last + ACTIVE_PROOF_HEIGHTS
            || SkippedKnown(w, w.chain(s'.t), last, top, s.observed + Elements(b.ids), s.t)
  {
    ProcessBlockKeeps(w, s, b);
    if b.height > s.last.value + 1 {
      forall id { BlockFinds(w, s, b, id); }
    }
    ObservedIffSkippedKnown(w, ProcessBlock(w, s, b).0, s.last.value, b.height, s.observed + Elements(b.ids), s.t);
  }

  /** What a session start leads to observing. */
  lemma SessionFinds(w: World, s: Listener, id: VerificationId)
    requires Honest(w) && Initialize(w, s).1.Done?
    ensures var top := w.latest(s.t);
            id in Initialize(w, s).0.observed <==> id in s.observed || Finds(w, s.t + 1, Bottom(top), top, id)
  {
    var s0, top := Await(w, s), w.latest(s.t);
    HonestAnswersTrue(w);
    ScanFinds(w, s0, Bottom(top), top, Scan(w, s0, Bottom(top), top).0, id);
  }

  /** The same for a session that starts at a greater height than the one remembered. */
  lemma SessionMissesNothingIff(w: World, s: Listener)
    requires Honest(w) && Covered(w, s) && Refreshed(w, s) && s.last.Some?
    requires w.latest(s.t) > s.last.value && Initialize(w, s).1.Done?
    ensures var s', last, top := Initialize(w, s).0, s.last.value, w.latest(s.t);
            ObservedBetween(w, s', last, top) <==>
            || top <= last + ACTIVE_PROOF_HEIGHTS
            || SkippedKnown(w, w.chain(s'.t), last, top, s.observed, s.t + 1)
  {
    var s', top := Initialize(w, s).0, w.latest(s.t);
    InitializeKeeps(w, s);
    forall id ensures id in s'.observed <==> id in s.observed || Finds(w, s.t + 1, Bottom(top), top, id) {
      SessionFinds(w, s, id);
    }
    ObservedIffSkippedKnown(w, s', s.last.value, top, s.observed, s.t + 1);
  }
}

/** Whole lives of the listener: sessions that start, lose their connection and start again, blocks that
    arrive late, twice or with gaps. */
module ListenerRuns {
  import opened Common
  import opened DriverModel
  import opened ListenerModel

  datatype Call = Connect | Receive(block: NewBlock) | Disconnect | Wait

  datatype Link = Offline | Online | Dead

  datatype ListenerRun = ListenerRun(states: seq<Listener>, links: seq<Link>, calls: seq<Call>)

  function LinkAfter(o: CallResult): Link {
    match o
    case Done => Online
    case Reconnect => Offline
    case Fatal => Dead
  }

  ghost predicate CallOk(w: World, r: ListenerRun, i: nat)
    requires i < |r.calls| && |r.states| == |r.links| == |r.calls| + 1
  {
    var s, s', link, link' := r.states[i], r.states[i + 1], r.links[i], r.links[i + 1];
    match r.calls[i]
    case Connect => link.Offline? && s' == Initialize(w, s).0 && link' == LinkAfter(Initialize(w, s).1)
    case Receive(b) =>
      && link.Online? && HonestBlock(w, s.t, b)
      && s' == ProcessBlock(w, s, b).0 && link' == LinkAfter(ProcessBlock(w, s, b).1)
    case Disconnect => link.Online? && s' == s && link'.Offline?
    case Wait => !link.Dead? && s' == Await(w, s) && link' == link
  }

  ghost predicate IsListenerRun(w: World, d: Driver, r: ListenerRun) {
    && Honest(w) && DriverOk(w.driverConfig, d)
    && |r.states| == |r.links| == |r.calls| + 1
    && r.states[0] == Listener(None, None, {}, d, 0) && r.links[0].Offline?
    && forall i :: 0 <= i < |r.calls| ==> CallOk(w, r, i)
  }

  ghost predicate Sound(w: World, s: Listener, link: Link) {
    (link.Online? ==> s.last.Some?) && (!link.Dead? ==> Covered(w, s) && Refreshed(w, s))
  }

  lemma CallKeeps(w: World, r: ListenerRun, i: nat)
    requires Honest(w) && i < |r.calls| && |r.states| == |r.links| == |r.calls| + 1 && CallOk(w, r, i)
    requires Sound(w, r.states[i], r.links[i])
    ensures Sound(w, r.states[i + 1], r.links[i + 1])
    ensures r.states[i].t <= r.states[i + 1].t && r.states[i].observed <= r.states[i + 1].observed
  {
    var s := r.states[i];
    match r.calls[i]
    case Connect => InitializeKeeps(w, s);
    case Receive(b) => ProcessBlockKeeps(w, s, b);
    case Disconnect =>
    case Wait =>
      AwaitKeeps(w, s);
      WaitedKeeps(w, s, Await(w, s));
  }

  lemma {:induction false} RunSound(w: World, d: Driver, r: ListenerRun, n: nat)
    requires IsListenerRun(w, d, r) && n < |r.states|
    ensures Sound(w, r.states[n], r.links[n])
  {
    if n == 0 {
      StartSound(w, d);
    } else {
      RunSound(w, d, r, n - 1);
      OneCall(w, d, r, n - 1);
    }
  }

  lemma OneCall(w: World, d: Driver, r: ListenerRun, i: nat)
    requires IsListenerRun(w, d, r) && i < |r.calls| && Sound(w, r.states[i], r.links[i])
    ensures Sound(w, r.states[i + 1], r.links[i + 1])
  {
    assert CallOk(w, r, i);
    CallKeeps(w, r, i);
  }

  lemma StartSound(w: World, d: Driver)
    requires DriverOk(w.driverConfig, d)
    ensures Sound(w, Listener(None, None, {}, d, 0), Offline)
  {
  }

  /** Recovery coverage. Until the listener fails for good, at every moment every request still pending
      in the three heights ending at the remembered one was observed, whatever was missed, repeated or
      reordered before. */
  lemma WindowAlwaysCovered(w: World, d: Driver, r: ListenerRun, n: nat, h: nat)
    requires IsListenerRun(w, d, r) && n < |r.states| && !r.links[n].Dead?
    requires r.states[n].last.Some? && InWindow(r.states[n].last.value, h)
    ensures Pending(w.chain(r.states[n].t), h) <= r.states[n].observed
  {
    RunSound(w, d, r, n);
  }

  /** Allow-list refresh. Refetching only when the hash changes is as good as refetching at every block:
      the driver's allow-list is the validator set at the remembered height without the local peer. */
  lemma AllowListIsCurrent(w: World, d: Driver, r: ListenerRun, n: nat)
    requires IsListenerRun(w, d, r) && n < |r.states| && !r.links[n].Dead? && w.p2p && r.states[n].last.Some?
    ensures var s := r.states[n]; var peers := ValidatorsAt(w.chain(s.t), s.last.value) - {w.driverConfig.local};
            s.driver.authorized == peers && s.driver.allowed == peers && s.driver.explicitPeers == peers
  {
    RunSound(w, d, r, n);
  }

  /** The remembered height never moves up by more than three at once. */
  ghost predicate SmallJumps(r: ListenerRun, n: nat)
    requires n < |r.states|
  {
    forall i :: 0 <= i < n && r.states[i].last.Some? && r.states[i + 1].last.Some? ==>
      r.states[i + 1].last.value <= r.states[i].last.value + ACTIVE_PROOF_HEIGHTS
  }

  lemma {:induction false} RememberedStays(w: World, d: Driver, r: ListenerRun, m: nat, n: nat)
    requires IsListenerRun(w, d, r) && m <= n < |r.states| && r.states[m].last.Some? && !r.links[n].Dead?
    ensures r.states[n].last.Some? && !r.links[m].Dead?
    ensures r.states[m].t <= r.states[n].t && r.states[m].observed <= r.states[n].observed
  {
    if m < n {
      RunSound(w, d, r, n - 1);
      assert CallOk(w, r, n - 1);
      RememberedStays(w, d, r, m, n - 1);
      CallKeeps(w, r, n - 1);
      StaysRemembered(w, r, n - 1);
    }
  }

  lemma StaysRemembered(w: World, r: ListenerRun, i: nat)
    requires Honest(w) && i < |r.calls| && |r.states| == |r.links| == |r.calls| + 1 && CallOk(w, r, i)
    requires Sound(w, r.states[i], r.links[i]) && r.states[i].last.Some? && !r.links[i + 1].Dead?
    ensures r.states[i + 1].last.Some?
  {
    var s := r.states[i];
    match r.calls[i]
    case Connect => InitializeKeeps(w, s);
    case Receive(b) => ProcessBlockKeeps(w, s, b);
    case Disconnect =>
    case Wait =>
  }

  /** What was observed of a remembered height stays observed. */
  lemma StaysObserved(w: World, d: Driver, r: ListenerRun, k: nat, n: nat, h: nat)
    requires IsListenerRun(w, d, r) && k <= n < |r.states| && !r.links[n].Dead?
    requires r.states[k].last.Some? && h <= r.states[k].last.value
    requires Pending(w.chain(r.states[k].t), h) <= r.states[k].observed
    ensures Pending(w.chain(r.states[n].t), h) <= r.states[n].observed
  {
    RememberedStays(w, d, r, k, n);
    RunSound(w, d, r, k);
    LaterTime(w, r.states[k].t, r.states[n].t);
    PendingShrinks(w.chain(r.states[k].t), w.chain(r.states[n].t), h);
  }

  /** No request since the start is ever missed, provided the remembered height never jumps by more than
      three: everything still pending between the bottom of the first window and any height remembered
      since was observed. */
  lemma {:induction false} NothingMissed(w: World, d: Driver, r: ListenerRun, first: nat, k: nat, n: nat, h: nat)
    requires IsListenerRun(w, d, r) && first <= k <= n < |r.states| && !r.links[n].Dead? && SmallJumps(r, k)
    requires r.states[first].last.Some? && r.states[k].last.Some?
    requires Bottom(r.states[first].last.value) <= h <= r.states[k].last.value
    ensures Pending(w.chain(r.states[n].t), h) <= r.states[n].observed
    decreases k
  {
    RememberedStays(w, d, r, k, n);
    if InWindow(r.states[k].last.value, h) {
      WindowAlwaysCovered(w, d, r, k, h);
      StaysObserved(w, d, r, k, n, h);
    } else {
      assert CallOk(w, r, k - 1);
      RememberedStays(w, d, r, first, k - 1);
      NothingMissed(w, d, r, first, k - 1, n, h);
    }
  }
}

/** The listener's methods as the source runs them: in place, loop by loop, each proved to do exactly what
    ListenerModel says. */
module Listeners {
  import opened Common
  import opened Proofs
  import opened Descriptors
  import opened DriverModel
  import opened ListenerModel

  // ---------------------------------------------------------------- block events

  /** An event of a committed block: of another kind, a submission with missing, repeated or undecodable
      attributes, or a submission. */
  datatype ChainEvent = Other | Malformed | Submitted(height: nat, index: nat, descriptor: Descriptor)

  predicate EventOk(sha: Sha256, height: nat, e: ChainEvent) {
    && !e.Malformed?
    && (e.Submitted? ==> ValidatePosition(e.height, e.index, height).None? && ValidateDescriptor(sha, e.descriptor).Ok?)
  }

  /** The first k events are in order: each submission valid for the block, no index used twice. */
  ghost predicate EventsOk(sha: Sha256, height: nat, events: seq<ChainEvent>, k: nat)
    requires k <= |events|
  {
    && (forall i :: 0 <= i < k ==> EventOk(sha, height, events[i]))
    && (forall i, j :: 0 <= i < j < k && events[i].Submitted? && events[j].Submitted? ==> events[i].index != events[j].index)
  }

  /** Ids of the submissions among the first k events, in block order. */
  function SubmittedIds(sha: Sha256, events: seq<ChainEvent>, k: nat): seq<VerificationId>
    requires k <= |events|
  {
    if k == 0 then []
    else
      var last := events[k - 1];
      SubmittedIds(sha, events, k - 1) +
      if last.Submitted? && ValidateDescriptor(sha, last.descriptor).Ok?
      then [ValidateDescriptor(sha, last.descriptor).value] else []
  }

  ghost function IndicesOf(events: seq<ChainEvent>, k: nat): set<nat>
    requires k <= |events|
  {
    set i | 0 <= i < k && events[i].Submitted? :: events[i].index
  }

  /** One more event keeps the block good exactly when it passes the checks of the loop. */
  lemma NextEvent(sha: Sha256, height: nat, events: seq<ChainEvent>, k: nat)
    requires k < |events| && EventsOk(sha, height, events, k)
    ensures var e := events[k];
            && (EventsOk(sha, height, events, k + 1) <==>
                EventOk(sha, height, e) && (e.Submitted? ==> e.index !in IndicesOf(events, k)))
            && IndicesOf(events, k + 1) == IndicesOf(events, k) + (if e.Submitted? then {e.index} else {})
    ensures EventsOk(sha, height, events, |events|) ==> EventsOk(sha, height, events, k + 1)
  {
  }

  /** parse_proof_events: all submissions of the block, or an error if any one of them is bad. */
  method ParseProofEvents(sha: Sha256, height: nat, events: seq<ChainEvent>) returns (r: Option<seq<VerificationId>>)
    ensures r.Some? <==> EventsOk(sha, height, events, |events|)
    ensures r.Some? ==> r.value == SubmittedIds(sha, events, |events|)
  {
    var positions: set<nat>, ids: seq<VerificationId> := {}, [];
    for k := 0 to |events|
      invariant EventsOk(sha, height, events, k)
      invariant ids == SubmittedIds(sha, events, k) && positions == IndicesOf(events, k)
    {
      var e := events[k];
      NextEvent(sha, height, events, k);
      if e.Malformed? {
        return None;
      }
      if e.Submitted? {
        if ValidatePosition(e.height, e.index, height).Some? || e.index in positions {
          return None;
        }
        positions := positions + {e.index};
        var validated := ValidateDescriptor(sha, e.descriptor);
        if validated.Err? {
          return None;
        }
        ids := ids + [validated.value];
      }
    }
    return Some(ids);
  }

  // ---------------------------------------------------------------- the listener object

  class ListenerTask {
    const world: World
    var lastHeight: Option<nat>
    var validatorsHash: Option<Digest>
    var observed: set<VerificationId>   // ids handed to observe_chain_verification
    var driver: Driver                  // the driver behind the updater
    var clock: nat

    constructor (world: World, driver: Driver)
      ensures State() == Listener(None, None, {}, driver, 0) && this.world == world
    {
      this.world := world;
      lastHeight, validatorsHash, observed, this.driver, clock := None, None, {}, driver, 0;
    }

    function State(): Listener
      reads this
    {
      Listener(lastHeight, validatorsHash, observed, driver, clock)
    }

    /** Waits while one call is out. */
    method Suspend() returns (weather: Weather)
      modifies `driver, `clock
      ensures State() == Await(world, old(State())) && weather == world.weather(old(clock))
    {
      weather := world.weather(clock);
      driver, clock := HandleAll(world.driverConfig, driver, world.inputs(clock)), clock + 1;
    }

    method ReconcileActiveWindow(latest: nat) returns (o: CallResult)
      modifies `observed, `driver, `clock
      ensures (State(), o) == Scan(world, old(State()), Bottom(latest), latest)
    {
      var height := Bottom(latest);
      while height <= latest
        invariant lastHeight == old(lastHeight) && validatorsHash == old(validatorsHash)
        invariant Scan(world, State(), height, latest) == Scan(world, old(State()), Bottom(latest), latest)
        decreases latest + 1 - height
      {
        var ids := world.answers(clock, height);
        var weather := Suspend();
        if !weather.Fine? {
          return FailureOf(weather);
        }
        ObserveAll(ids);
        height := height + 1;
      }
      return Done;
    }

    method ObserveAll(ids: seq<VerificationId>)
      modifies `observed
      ensures observed == old(observed) + Elements(ids)
    {
      for i := 0 to |ids|
        invariant observed == old(observed) + Elements(ids[..i])
      {
        assert Elements(ids[..i + 1]) == Elements(ids[..i]) + {ids[i]};
        observed := observed + {ids[i]};
      }
      assert ids[..|ids|] == ids;
    }

    method ReplacePeersAt(height: nat) returns (o: CallResult)
      modifies `driver, `clock
      ensures (State(), o) == ReplaceAt(world, old(State()), height)
    {
      var peers := ValidatorsAt(world.chain(clock), height);
      var weather := Suspend();
      if !weather.Fine? {
        return FailureOf(weather);
      }
      if !driver.phase.Running? {
        return Reconnect;
      }
      if world.driverConfig.local !in peers {
        driver := Handle(world.driverConfig, driver, AuthorizeCommand({})).0;
        return Fatal;
      }
      driver := Handle(world.driverConfig, driver, AuthorizeCommand(peers)).0;
      return Done;
    }

    method InitializeSession() returns (o: CallResult)
      modifies this
      ensures (State(), o) == Initialize(world, old(State()))
    {
      var latest := world.latest(clock);
      var weather := Suspend();
      if !weather.Fine? {
        return FailureOf(weather);
      }
      o := ReconcileActiveWindow(latest);
      if !o.Done? {
        return;
      }
      if world.p2p {
        var chain := world.chain(clock);
        weather := Suspend();
        if !weather.Fine? {
          return FailureOf(weather);
        }
        if !Committed(chain, latest) {
          return Reconnect;
        }
        var hash := chain.blocks[latest - 1].validatorsHash;
        if validatorsHash != Some(hash) {
          o := ReplacePeersAt(latest);
          if !o.Done? {
            return;
          }
        }
        validatorsHash := Some(hash);
      }
      lastHeight := Some(latest);
    }

    method ProcessNewBlock(block: NewBlock) returns (o: CallResult)
      modifies this
      ensures (State(), o) == ProcessBlock(world, old(State()), block)
    {
      o := Done;
      if lastHeight.Some? && block.height > lastHeight.value + 1 {
        o := ReconcileActiveWindow(block.height);
        if !o.Done? {
          return;
        }
      }
      ObserveAll(block.ids);
      if lastHeight.None? || block.height > lastHeight.value {
        if validatorsHash != Some(block.validatorsHash) && world.p2p {
          o := ReplacePeersAt(block.height);
          if !o.Done? {
            return;
          }
        }
        validatorsHash, lastHeight := Some(block.validatorsHash), Some(block.height);
      }
    }
  }
}
