/** The consensus-facing queries (src/rpc/contract.rs). */
module Contract {
  import opened Common
  import opened Proofs
  import opened Protobuf
  import opened Records
  import opened Descriptors
  import opened StoreOps
  import opened ProofStores
  import VerifierSystem
  import VerifierRuns

  const MAX_VERIFICATION_IDS: nat := 512

  ghost predicate AcceptableIds(raw: seq<Bytes>) {
    |raw| <= MAX_VERIFICATION_IDS && NoDuplicates(raw) && forall i :: 0 <= i < |raw| ==> |raw[i]| == 32
  }

  function IdsOf(raw: seq<Bytes>): (ids: seq<VerificationId>)
    requires forall i :: 0 <= i < |raw| ==> |raw[i]| == 32
    ensures |ids| == |raw| && forall i :: 0 <= i < |raw| ==> ids[i].bytes == raw[i]
  {
    seq(|raw|, i requires 0 <= i < |raw| => var b: Digest := raw[i]; VerificationId(b))
  }

  method ParseIds(raw: seq<Bytes>) returns (r: Option<seq<VerificationId>>)
    ensures r.Some? <==> AcceptableIds(raw)
    ensures r.Some? ==> r.value == IdsOf(raw)
  {
    if |raw| > MAX_VERIFICATION_IDS {
      return None;
    }
    var seen: set<VerificationId>, ids: seq<VerificationId> := {}, [];
    for k := 0 to |raw|
      invariant |ids| == k && seen == set id | id in ids
      invariant forall i :: 0 <= i < k ==> |raw[i]| == 32 && ids[i].bytes == raw[i]
      invariant forall i, j :: 0 <= i < j < k ==> raw[i] != raw[j]
    {
      if |raw[k]| != 32 {
        return None;
      }
      var bytes: Digest := raw[k];
      var id := VerificationId(bytes);
      if id in seen {
        return None;
      }
      seen, ids := seen + {id}, ids + [id];
    }
    return Some(ids);
  }

  // ---------------------------------------------------------------- wire form

  function WireVerdict(v: Verdict): nat { match v case Valid => 1 case Invalid => 2 }

  datatype WireStatus = WireStatus(id: Bytes, phase: nat, verdict: nat, failure: Option<VerificationFailure>)

  /** Verdict zero is UNSPECIFIED. */
  function ToWireStatus(id: VerificationId, s: Status): WireStatus {
    match s
    case Unavailable => WireStatus(id.bytes, 1, 0, None)
    case QueuedStatus => WireStatus(id.bytes, 2, 0, None)
    case VerifyingStatus => WireStatus(id.bytes, 3, 0, None)
    case CompletedStatus(v) => WireStatus(id.bytes, 4, WireVerdict(v), None)
    case FailedStatus(f) => WireStatus(id.bytes, 5, 0, Some(f))
  }

  /** What a consumer reads: at most one status per message. */
  function FromWireStatus(w: WireStatus): Option<Status> {
    match (w.phase, w.verdict, w.failure)
    case (1, 0, None) => Some(Unavailable)
    case (2, 0, None) => Some(QueuedStatus)
    case (3, 0, None) => Some(VerifyingStatus)
    case (4, 1, None) => Some(CompletedStatus(Valid))
    case (4, 2, None) => Some(CompletedStatus(Invalid))
    case (5, 0, Some(f)) => Some(FailedStatus(f))
    case _ => None
  }

  /** The wire form loses nothing, and carries a verdict exactly for completed records. */
  lemma StatusRoundTrip(id: VerificationId, s: Status)
    ensures FromWireStatus(ToWireStatus(id, s)) == Some(s) && ToWireStatus(id, s).id == id.bytes
    ensures ToWireStatus(id, s).verdict != 0 <==> s.CompletedStatus?
  {
    if s.CompletedStatus? {
      assert s.verdict == Valid || s.verdict == Invalid;
    }
  }

  function WireResults(results: seq<(VerificationId, Verdict)>): (r: seq<(Bytes, nat)>)
    ensures |r| == |results|
    ensures forall i :: 0 <= i < |results| ==> r[i] == (results[i].0.bytes, WireVerdict(results[i].1))
  {
    seq(|results|, i requires 0 <= i < |results| => (results[i].0.bytes, WireVerdict(results[i].1)))
  }

  method GetVerificationResults(store: ProofStore, raw: seq<Bytes>) returns (r: Option<seq<(Bytes, nat)>>)
    ensures r.Some? <==> AcceptableIds(raw)
    ensures r.Some? ==> r.value == WireResults(CompletedAmong(store.Value(), IdsOf(raw)))
  {
    var ids := ParseIds(raw);
    if ids.None? {
      return None;
    }
    var results := store.CompletedResults(ids.value);
    return Some(WireResults(results));
  }

  method GetProofStatuses(store: ProofStore, raw: seq<Bytes>) returns (r: Option<seq<WireStatus>>)
    ensures r.Some? <==> AcceptableIds(raw)
    ensures r.Some? ==>
              && |r.value| == |raw|
              && forall i :: 0 <= i < |raw| ==>
                   r.value[i] == ToWireStatus(IdsOf(raw)[i], StatusOf(store.Value(), IdsOf(raw)[i]))
  {
    var ids := ParseIds(raw);
    if ids.None? {
      return None;
    }
    var statuses := store.Statuses(ids.value);
    return Some(seq(|statuses|, i requires 0 <= i < |statuses| => ToWireStatus(statuses[i].0, statuses[i].1)));
  }

  /** The answer names a verdict exactly for the ids asked about whose record is completed with it. */
  lemma ResultsAreExact(st: Store, raw: seq<Bytes>, b: Bytes, v: Verdict)
    requires AcceptableIds(raw)
    ensures (b, WireVerdict(v)) in WireResults(CompletedAmong(st, IdsOf(raw))) <==>
              b in raw && |b| == 32 && (var d: Digest := b; StateOf(st, VerificationId(d)) == Some(Completed(v)))
  {
    var ids := IdsOf(raw);
    var results := CompletedAmong(st, ids);
    var wire := WireResults(results);
    if (b, WireVerdict(v)) in wire {
      var i :| 0 <= i < |wire| && wire[i] == (b, WireVerdict(v));
      assert results[i] in results;
      CompletedAmongIsExact(st, ids, results[i].0, results[i].1);
      var k :| 0 <= k < |ids| && ids[k] == results[i].0;
      assert raw[k] == b;
      assert WireVerdict(results[i].1) == WireVerdict(v);
    }
    if b in raw && |b| == 32 {
      var d: Digest := b;
      var k :| 0 <= k < |raw| && raw[k] == b;
      assert ids[k] == VerificationId(d);
      CompletedAmongIsExact(st, ids, VerificationId(d), v);
      if (VerificationId(d), v) in results {
        var i :| 0 <= i < |results| && results[i] == (VerificationId(d), v);
        assert wire[i] == (b, WireVerdict(v));
      }
    }
  }

  // ---------------------------------------------------------------- response size

  const MAX_RPC_MESSAGE_BYTES: nat := 0x4_0000
  const MAX_STATUS_BYTES: nat := 368

  function OptionalNumber(tag: nat, n: nat): seq<Field> { if n == 0 then [] else [Number(tag, n)] }

  function EncodeFailure(f: VerificationFailure): Bytes {
    Encode(OptionalData(1, f.code) + OptionalData(2, f.message) + OptionalNumber(3, if f.retryable then 1 else 0))
  }

  function EncodeStatus(w: WireStatus): Bytes {
    Encode(OptionalData(1, w.id) + OptionalNumber(2, w.phase) + OptionalNumber(3, w.verdict)
           + if w.failure.Some? then [Data(4, EncodeFailure(w.failure.value))] else [])
  }

  /** The statuses as the repeated field of the response. */
  function StatusFields(st: Store, ids: seq<VerificationId>): seq<Field> {
    seq(|ids|, i requires 0 <= i < |ids| => Data(1, EncodeStatus(ToWireStatus(ids[i], StatusOf(st, ids[i])))))
  }

  lemma OptionalNumberLength(tag: nat, n: nat)
    requires tag < 16 && n < 128
    ensures |Encode(OptionalNumber(tag, n))| <= 2
  {
    if n != 0 { assert [Number(tag, n)][1..] == []; }
  }

  lemma SmallDataLength(tag: nat, bytes: Bytes, max: nat)
    requires tag < 16 && |bytes| <= max < 0x4000
    ensures |Encode(OptionalData(tag, bytes))| <= 3 + max
  {
    OptionalDataLength(tag, bytes);
    VarintLenMonotone(|bytes|, 0x3FFF);
  }

  lemma FailureLength(f: VerificationFailure)
    ensures |EncodeFailure(f)| <= 327
  {
    assert WireBounded(f);
    var one, two, three := OptionalData(1, f.code), OptionalData(2, f.message), OptionalNumber(3, if f.retryable then 1 else 0);
    EncodeConcat(one + two, three);
    EncodeConcat(one, two);
    OptionalDataLength(1, f.code);
    SmallDataLength(2, f.message, FAILURE_MESSAGE_MAX_BYTES);
    OptionalNumberLength(3, if f.retryable then 1 else 0);
  }

  lemma StatusLength(id: VerificationId, s: Status)
    ensures |EncodeStatus(ToWireStatus(id, s))| <= MAX_STATUS_BYTES
  {
    var w := ToWireStatus(id, s);
    var one, two, three := OptionalData(1, w.id), OptionalNumber(2, w.phase), OptionalNumber(3, w.verdict);
    var four := if w.failure.Some? then [Data(4, EncodeFailure(w.failure.value))] else [];
    EncodeConcat(one + two + three, four);
    EncodeConcat(one + two, three);
    EncodeConcat(one, two);
    OptionalDataLength(1, w.id);
    OptionalNumberLength(2, w.phase);
    OptionalNumberLength(3, w.verdict);
    if w.failure.Some? {
      FailureLength(w.failure.value);
      DataFieldLength(4, EncodeFailure(w.failure.value));
      VarintLenMonotone(|EncodeFailure(w.failure.value)|, 327);
      assert four[1..] == [];
    }
  }

  lemma {:induction false} EntriesLength(fields: seq<Field>)
    requires forall i :: 0 <= i < |fields| ==> fields[i].Data? && fields[i].tag == 1 && |fields[i].bytes| <= MAX_STATUS_BYTES
    ensures |Encode(fields)| <= |fields| * (MAX_STATUS_BYTES + 3)
  {
    if fields != [] {
      DataFieldLength(1, fields[0].bytes);
      VarintLenMonotone(|fields[0].bytes|, MAX_STATUS_BYTES);
      assert fields[0] == Data(1, fields[0].bytes);
      EntriesLength(fields[1..]);
    }
  }

  /** Whatever the store holds, the answer to any acceptable status request fits the RPC message limit. */
  lemma StatusResponseFits(st: Store, raw: seq<Bytes>)
    requires AcceptableIds(raw)
    ensures |Encode(StatusFields(st, IdsOf(raw)))| <= MAX_RPC_MESSAGE_BYTES
  {
    var ids := IdsOf(raw);
    var fields := StatusFields(st, ids);
    forall i | 0 <= i < |fields| ensures |fields[i].bytes| <= MAX_STATUS_BYTES {
      StatusLength(ids[i], StatusOf(st, ids[i]));
    }
    EntriesLength(fields);
  }

  // ---------------------------------------------------------------- while everything else runs

  /** The results gathered when the k-th id is read in state at[k] of a run: the query awaits the store
      once per id, so the store may move between two reads. */
  ghost function ReadAlong(r: VerifierRuns.Run, ids: seq<VerificationId>, at: seq<nat>): seq<(VerificationId, Verdict)>
    requires |at| == |ids| && forall k :: 0 <= k < |at| ==> at[k] < |r.states|
  {
    if ids == [] then []
    else
      var n := |ids| - 1;
      var state := StateOf(r.states[at[n]].store, ids[n]);
      ReadAlong(r, ids[..n], at[..n]) + if IsCompleted(state) then [(ids[n], state.value.verdict)] else []
  }

  /** Every verdict ever reported to consensus has its whole history, told at the state in which the query
      read that id: the id observed on chain, content hashing to it stored, one claim, and the registered
      backend's own answer. */
  lemma {:induction false} ReportedVerdictIsExplained(
    cfg: VerifierSystem.Config, r: VerifierRuns.Run, ids: seq<VerificationId>, at: seq<nat>, id: VerificationId, v: Verdict)
    returns (k: nat, t: VerifierRuns.Trail)
    requires VerifierRuns.IsRun(cfg, r) && |at| == |ids| && forall k :: 0 <= k < |at| ==> at[k] < |r.states|
    requires (id, v) in ReadAlong(r, ids, at)
    ensures k < |ids| && ids[k] == id && VerifierRuns.Explains(cfg, r, at[k], id, v, t)
  {
    var last := |ids| - 1;
    if (id, v) in ReadAlong(r, ids[..last], at[..last]) {
      k, t := ReportedVerdictIsExplained(cfg, r, ids[..last], at[..last], id, v);
    } else {
      k := last;
      t := VerifierRuns.VerdictProvenance(cfg, r, at[last], id, v);
    }
  }

  /** End to end: the content a reported verdict is about is the content that the committed descriptor of
      the request describes, in type, proof, statement and key, unless the two preimages of the id collide. */
  lemma VerdictIsAboutTheCommittedRequest(
    cfg: VerifierSystem.Config, r: VerifierRuns.Run, ids: seq<VerificationId>, at: seq<nat>, id: VerificationId, v: Verdict,
    d: Descriptor)
    returns (k: nat, t: VerifierRuns.Trail)
    requires VerifierRuns.IsRun(cfg, r) && |at| == |ids| && forall k :: 0 <= k < |at| ==> at[k] < |r.states|
    requires (id, v) in ReadAlong(r, ids, at) && ValidateDescriptor(cfg.limits.sha, d) == Ok(id)
    ensures k < |ids| && ids[k] == id && VerifierRuns.Explains(cfg, r, at[k], id, v, t)
    ensures var sha, p := cfg.limits.sha, t.job.proof;
            Describes(sha, d, p) || Collision(sha, DescriptorPreimage(d), IdPreimage(sha, p))
  {
    k, t := ReportedVerdictIsExplained(cfg, r, ids, at, id, v);
    assert IdOf(cfg.limits.sha, t.job.proof) == id;
    ObservedIdBindsContent(cfg.limits.sha, d, t.job.proof);
  }
}
