/** A node that always tells the truth and a listener that misses a request all the same, for every
    advance of the remembered height by more than three. */
module LongJumps {
  import opened Common
  import opened Proofs
  import opened Descriptors
  import opened DriverModel
  import P = PagedQuery
  import L = ListenerModel
  import opened ListenerRuns

  function Zeros(): Digest { seq(32, _ => 0) }

  /** The request submitted at the height that will be skipped. */
  function TheId(sha: Sha256): VerificationId { FromComponentHashes(sha, MinaPickles, Zeros(), Zeros(), Zeros()) }

  function TheRecord(sha: Sha256, h: nat): QueryProof {
    QueryProof(Some(ProofKey(h, 0)), Some(RecordState.Pending(Descriptor(1, Zeros(), Zeros(), Zeros(), TheId(sha).bytes))))
  }

  function Blocks(sha: Sha256, last: nat, top: nat): seq<L.Block> {
    seq(top, i => L.Block(Zeros(), {}, if i == last then {TheId(sha)} else {}))
  }

  /** At first the chain has height `last`; at the next instant it has height `top`. */
  function ChainAt(sha: Sha256, last: nat, top: nat, t: nat): L.Chain {
    L.Chain(if t == 0 then Blocks(sha, last, last) else Blocks(sha, last, top), {})
  }

  function Listed(sha: Sha256, last: nat, t: nat, h: nat): seq<VerificationId> {
    if t > 0 && h == last + 1 then [TheId(sha)] else []
  }

  function TheWorld(cfg: DriverConfig, last: nat, top: nat): L.World {
    L.World(cfg, false, (t: nat) => ChainAt(cfg.sha, last, top, t), _ => L.Fine, t => if t == 0 then last else top,
            (t: nat, h: nat) => Listed(cfg.sha, last, t, h), _ => [])
  }

  // ---------------------------------------------------------------- the node tells the truth

  /** A server that answers with one page. */
  function OnePage(records: seq<QueryProof>): P.Server { _ => P.Answer.Answer(1, true, Some(P.Page(records, []))) }

  lemma OnePageIsComplete(sha: Sha256, h: nat, records: seq<QueryProof>)
    requires h > 0 && P.GoodRecords(sha, h, records)
    ensures P.Complete(sha, h, OnePage(records), 1) && P.Records(OnePage(records), 1) == records
  {
    var server := OnePage(records);
    assert P.PageOf(server(0)) == P.Page(records, []);
    assert P.Records(server, 0) == [];
    assert P.GoodAnswer(server, 0);
  }

  lemma TheRecordIsGood(sha: Sha256, h: nat)
    requires h > 0
    ensures P.GoodRecords(sha, h, [TheRecord(sha, h)])
    ensures L.ProofIds(P.PendingOf(sha, h, [TheRecord(sha, h)])) == [TheId(sha)]
  {
    var q := TheRecord(sha, h);
    assert ValidateDescriptor(sha, q.state.value.descriptor) == Ok(TheId(sha));
    assert [q][..0] == [];
    assert P.PendingOf(sha, h, []) == [];
    assert P.PendingOf(sha, h, [q]) == [ChainProof(TheId(sha), h, 0)];
  }

  lemma PendingAt(sha: Sha256, last: nat, top: nat, t: nat, h: nat)
    requires last < top && h > 0
    ensures L.Pending(ChainAt(sha, last, top, t), h) == Elements(Listed(sha, last, t, h))
  {
  }

  function RecordsAt(sha: Sha256, last: nat, t: nat, h: nat): seq<QueryProof> {
    if t > 0 && h == last + 1 then [TheRecord(sha, h)] else []
  }

  lemma ListingIsTrue(sha: Sha256, last: nat, top: nat, t: nat, h: nat)
    requires last < top && h > 0
    ensures L.TrueListing(ChainAt(sha, last, top, t), h, RecordsAt(sha, last, t, h))
  {
    var c, records := ChainAt(sha, last, top, t), RecordsAt(sha, last, t, h);
    PendingAt(sha, last, top, t, h);
    forall id ensures id in L.Pending(c, h) <==> exists i :: 0 <= i < |records| && L.Reports(records[i], id) {
      if id in L.Pending(c, h) { assert L.Reports(records[0], id); }
    }
  }

  lemma ListedIsPaged(sha: Sha256, last: nat, top: nat, t: nat, h: nat)
    requires last < top && h > 0
    ensures L.Paged(sha, ChainAt(sha, last, top, t), h, Listed(sha, last, t, h))
  {
    var records := RecordsAt(sha, last, t, h);
    TheRecordIsGood(sha, h);
    OnePageIsComplete(sha, h, records);
    ListingIsTrue(sha, last, top, t, h);
    assert L.ProofIds(P.PendingOf(sha, h, records)) == Listed(sha, last, t, h);
  }

  lemma TheWorldIsHonest(cfg: DriverConfig, last: nat, top: nat)
    requires last < top
    ensures L.Honest(TheWorld(cfg, last, top))
  {
    var w := TheWorld(cfg, last, top);
    assert Blocks(cfg.sha, last, last) <= Blocks(cfg.sha, last, top);
    forall t: nat ensures L.HonestAt(w, t) {
      forall h: nat | h > 0 ensures L.Paged(cfg.sha, w.chain(t), h, w.answers(t, h)) {
        ListedIsPaged(cfg.sha, last, top, t, h);
      }
    }
  }

  // ---------------------------------------------------------------- the listener

  lemma {:induction false} CalmScan(w: L.World, s: L.Listener, h: nat, top: nat)
    requires forall t: nat :: w.weather(t).Fine?
    ensures L.Scan(w, s, h, top).1.Done? && L.Scan(w, s, h, top).0.t >= s.t
    ensures L.Scan(w, s, h, top).0.last == s.last && L.Scan(w, s, h, top).0.hash == s.hash
    decreases top + 1 - h
  {
    if h <= top { CalmScan(w, L.Scanned(w, s, h), h + 1, top); }
  }

  function Started(cfg: DriverConfig): L.Listener { L.Listener(None, None, {}, Fresh(cfg, {}), 0) }

  /** The session starts at height `last`. */
  lemma SessionStarts(cfg: DriverConfig, last: nat, top: nat)
    requires last < top
    ensures var (s, o) := L.Initialize(TheWorld(cfg, last, top), Started(cfg));
            o.Done? && s.last == Some(last) && s.t >= 1 && TheId(cfg.sha) !in s.observed
  {
    var w, s := TheWorld(cfg, last, top), Started(cfg);
    TheWorldIsHonest(cfg, last, top);
    CalmScan(w, L.Await(w, s), L.Bottom(last), last);
    L.SessionFinds(w, s, TheId(cfg.sha));
    NotListedBelow(cfg, last, top, 1, L.Bottom(last), last);
  }

  lemma NotListedBelow(cfg: DriverConfig, last: nat, top: nat, t: nat, h: nat, end: nat)
    requires last < top && h > 0 && (end <= last || h > last + 1)
    ensures !L.Finds(TheWorld(cfg, last, top), t, h, end, TheId(cfg.sha))
  {
    var w := TheWorld(cfg, last, top);
    L.FindsIff(w, t, h, end, TheId(cfg.sha));
    forall x | h <= x <= end ensures !L.FoundAt(w, t, h, x, TheId(cfg.sha)) {
      PendingAt(cfg.sha, last, top, t + (x - h), x);
    }
  }

  function TheBlock(top: nat): L.NewBlock { L.NewBlock(top, Zeros(), []) }

  /** Then the block at height `top` arrives. */
  lemma BlockArrives(cfg: DriverConfig, last: nat, top: nat, s: L.Listener)
    requires top > last + L.ACTIVE_PROOF_HEIGHTS && s.last == Some(last) && s.t >= 1 && TheId(cfg.sha) !in s.observed
    ensures L.HonestBlock(TheWorld(cfg, last, top), s.t, TheBlock(top))
    ensures var (s', o) := L.ProcessBlock(TheWorld(cfg, last, top), s, TheBlock(top));
            && o.Done? && s'.last == Some(top) && TheId(cfg.sha) !in s'.observed
            && TheId(cfg.sha) in L.Pending(TheWorld(cfg, last, top).chain(s'.t), last + 1)
  {
    var w := TheWorld(cfg, last, top);
    TheWorldIsHonest(cfg, last, top);
    CalmScan(w, s, L.Bottom(top), top);
    L.BlockFinds(w, s, TheBlock(top), TheId(cfg.sha));
    NotListedBelow(cfg, last, top, s.t, L.Bottom(top), top);
    var s' := L.ProcessBlock(w, s, TheBlock(top)).0;
    PendingAt(cfg.sha, last, top, s'.t, last + 1);
  }

  /** Step i of the run moves the remembered height from one value to another. */
  ghost predicate JumpsAt(w: L.World, d: Driver, r: ListenerRun, i: nat, last: nat, top: nat) {
    && IsListenerRun(w, d, r) && i < |r.calls| && !r.links[i + 1].Dead?
    && r.states[i].last == Some(last) && r.states[i + 1].last == Some(top)
  }

  /** The failing run: the listener starts at height `last`, the next block it receives is the one at
      height `top`, and a request that the chain still waits for at height last + 1 is never observed,
      although every call succeeds and the node answers every query truthfully. */
  lemma LongJumpMisses(cfg: DriverConfig, last: nat, top: nat) returns (w: L.World, d: Driver, r: ListenerRun)
    requires top > last + L.ACTIVE_PROOF_HEIGHTS
    ensures w.driverConfig == cfg && |r.calls| == 2 && JumpsAt(w, d, r, 1, last, top) && r.links[2].Online?
    ensures exists id :: id in L.Pending(w.chain(r.states[2].t), last + 1) && id !in r.states[2].observed
  {
    w, d := TheWorld(cfg, last, top), Fresh(cfg, {});
    var s0 := Started(cfg);
    var s1 := L.Initialize(w, s0).0;
    var s2 := L.ProcessBlock(w, s1, TheBlock(top)).0;
    r := ListenerRun([s0, s1, s2], [Offline, Online, Online], [Connect, Receive(TheBlock(top))]);
    FreshOk(cfg, {});
    TheWorldIsHonest(cfg, last, top);
    SessionStarts(cfg, last, top);
    BlockArrives(cfg, last, top, s1);
    assert CallOk(w, r, 0) && CallOk(w, r, 1);
    assert TheId(cfg.sha) in L.Pending(w.chain(s2.t), last + 1);
  }

  ghost predicate SafeJump(cfg: DriverConfig, last: nat, top: nat) {
    forall w: L.World, d: Driver, r: ListenerRun, i: nat :: w.driverConfig == cfg && JumpsAt(w, d, r, i, last, top) ==>
      L.ObservedBetween(w, r.states[i + 1], last, top)
  }

  /** Over every run against an honest node: an advance of the remembered height from one value to another
      is certain to leave nothing unobserved exactly when it is by at most three. */
  lemma JumpIsSafeIff(cfg: DriverConfig, last: nat, top: nat)
    requires last < top
    ensures SafeJump(cfg, last, top) <==> top <= last + L.ACTIVE_PROOF_HEIGHTS
  {
    if top <= last + L.ACTIVE_PROOF_HEIGHTS {
      forall w: L.World, d: Driver, r: ListenerRun, i: nat | w.driverConfig == cfg && JumpsAt(w, d, r, i, last, top)
        ensures L.ObservedBetween(w, r.states[i + 1], last, top)
      {
        SmallJumpObserves(w, d, r, i, last, top);
      }
    } else {
      var w, d, r := LongJumpMisses(cfg, last, top);
      assert !L.ObservedBetween(w, r.states[1 + 1], last, top);
    }
  }

  lemma SmallJumpObserves(w: L.World, d: Driver, r: ListenerRun, i: nat, last: nat, top: nat)
    requires JumpsAt(w, d, r, i, last, top) && last < top <= last + L.ACTIVE_PROOF_HEIGHTS
    ensures L.ObservedBetween(w, r.states[i + 1], last, top)
  {
    L.NothingSkippedIff(last, top);
    var s := r.states[i + 1];
    forall h | last < h <= top ensures L.Pending(w.chain(s.t), h) <= s.observed {
      WindowAlwaysCovered(w, d, r, i + 1, h);
    }
  }
}
