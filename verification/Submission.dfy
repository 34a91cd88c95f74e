/** Binding a submitted proof to the signed transaction that announces it (src/submission.rs). The
    protobuf decoders of the Cosmos messages are parameters: any functions of the bytes. */
module Submissions {
  import opened Common
  import opened Proofs
  import opened Protobuf
  import opened Descriptors

  datatype TxRaw = TxRaw(bodyBytes: Bytes, authInfoBytes: Bytes, signatures: seq<Bytes>)

  datatype Message = Message(typeUrl: Bytes, value: Bytes)

  datatype MsgSubmitProof = MsgSubmitProof(
    signerBlank: bool, proofType: int, proofHash: Bytes, publicInputsHash: Bytes, verificationKeyHash: Bytes)

  /** TxRaw; TxBody, reduced to its messages; AuthInfo, reduced to its number of signers; the message. */
  datatype Decoders = Decoders(
    tx: Bytes -> Option<TxRaw>,
    body: Bytes -> Option<seq<Message>>,
    signers: Bytes -> Option<nat>,
    message: Bytes -> Option<MsgSubmitProof>,
    typeUrl: Bytes)

  datatype Rules = Rules(sha: Sha256, decoders: Decoders, maxProofBytes: nat, maxTransactionBytes: nat)

  datatype Submission = Submission(proof: Proof, tx: Bytes)

  datatype Validated = Validated(id: VerificationId, hash: Digest, proof: Proof, tx: Bytes)

  datatype SubmissionError = ProofTooLarge | TransactionTooLarge | Invalid | UnsupportedType | WrongId(id: VerificationId)

  function ValidateSubmission(rules: Rules, s: Submission): Result<Validated, SubmissionError> {
    var d := rules.decoders;
    if EncodedLen(s.proof) > rules.maxProofBytes then Err(ProofTooLarge)
    else if |s.tx| > rules.maxTransactionBytes then Err(TransactionTooLarge)
    else
      match d.tx(s.tx)
      case None => Err(Invalid)
      case Some(tx) =>
        if tx.bodyBytes == [] || tx.authInfoBytes == [] then Err(Invalid)
        else
          match (d.body(tx.bodyBytes), d.signers(tx.authInfoBytes))
          case (Some(messages), Some(signers)) =>
            if signers == 0 || |tx.signatures| != signers || [] in tx.signatures || |messages| != 1 then Err(Invalid)
            else if messages[0].typeUrl != d.typeUrl then Err(Invalid)
            else
              (match d.message(messages[0].value)
               case None => Err(Invalid)
               case Some(m) => if m.signerBlank then Err(Invalid) else BindProof(rules, s, m))
          case _ => Err(Invalid)
  }

  /** The last part: every artifact against the hashes in the message. */
  function BindProof(rules: Rules, s: Submission, m: MsgSubmitProof): Result<Validated, SubmissionError> {
    var t, p, i, k := TypeFromNumber(m.proofType), ToDigest(m.proofHash), ToDigest(m.publicInputsHash), ToDigest(m.verificationKeyHash);
    if t.None? then Err(UnsupportedType)
    else if t.value != s.proof.proofType || p.None? || i.None? || k.None? then Err(Invalid)
    else if p.value != rules.sha(s.proof.proof) || i.value != rules.sha(s.proof.publicInputs)
         || k.value != rules.sha(s.proof.verificationKey) then Err(Invalid)
    else
      var computed := FromComponentHashes(rules.sha, t.value, p.value, i.value, k.value);
      if computed != IdOf(rules.sha, s.proof) then Err(WrongId(computed))
      else Ok(Validated(IdOf(rules.sha, s.proof), rules.sha(s.tx), s.proof, s.tx))
  }

  // ---------------------------------------------------------------- what acceptance means

  /** The one message a transaction carries, if it is a well-formed proof submission. */
  function MessageOf(rules: Rules, bytes: Bytes): Option<MsgSubmitProof> {
    var d := rules.decoders;
    match d.tx(bytes)
    case None => None
    case Some(tx) =>
      var messages, signers := d.body(tx.bodyBytes), d.signers(tx.authInfoBytes);
      if && tx.bodyBytes != [] && tx.authInfoBytes != [] && messages.Some? && signers.Some?
         && signers.value > 0 && |tx.signatures| == signers.value && [] !in tx.signatures
         && |messages.value| == 1 && messages.value[0].typeUrl == d.typeUrl
      then d.message(messages.value[0].value) else None
  }

  /** The message names this content. */
  predicate Names(sha: Sha256, m: MsgSubmitProof, p: Proof) {
    && !m.signerBlank && m.proofType == TypeNumber(p.proofType)
    && m.proofHash == sha(p.proof) && m.publicInputsHash == sha(p.publicInputs)
    && m.verificationKeyHash == sha(p.verificationKey)
  }

  /** A submission is accepted exactly when it is within the limits and its transaction names its
      content. The id-mismatch error never happens. */
  lemma AcceptedIff(rules: Rules, s: Submission)
    ensures var r, m := ValidateSubmission(rules, s), MessageOf(rules, s.tx);
            && (r.Ok? <==>
                && EncodedLen(s.proof) <= rules.maxProofBytes && |s.tx| <= rules.maxTransactionBytes
                && m.Some? && Names(rules.sha, m.value, s.proof))
            && (r.Ok? ==> r.value == Validated(IdOf(rules.sha, s.proof), rules.sha(s.tx), s.proof, s.tx))
            && (r.Err? ==> !r.error.WrongId?)
  {
    var m := MessageOf(rules, s.tx);
    if m.Some? { BindIff(rules, s, m.value); }
  }

  lemma BindIff(rules: Rules, s: Submission, m: MsgSubmitProof)
    ensures var r := BindProof(rules, s, m);
            && (r.Ok? && !m.signerBlank <==> Names(rules.sha, m, s.proof))
            && (r.Err? ==> !r.error.WrongId?)
  {
    assert TypeFromNumber(m.proofType) == Some(s.proof.proofType) <==> m.proofType == TypeNumber(s.proof.proofType);
  }

  /** Two accepted submissions of one transaction have one id whatever proof each carried, and even one
      proof unless two artifacts in the same place collide. One hash means one id unless the two
      transactions collide. */
  lemma TransactionDeterminesId(rules: Rules, a: Submission, b: Submission)
    requires ValidateSubmission(rules, a).Ok? && ValidateSubmission(rules, b).Ok?
    ensures a.tx == b.tx ==> ValidateSubmission(rules, a).value.id == ValidateSubmission(rules, b).value.id
    ensures a.tx == b.tx ==> a.proof == b.proof || ArtifactsCollide(rules.sha, a.proof, b.proof)
    ensures ValidateSubmission(rules, a).value.hash == ValidateSubmission(rules, b).value.hash ==>
              ValidateSubmission(rules, a).value.id == ValidateSubmission(rules, b).value.id || Collision(rules.sha, a.tx, b.tx)
  {
    AcceptedIff(rules, a);
    AcceptedIff(rules, b);
    if a.tx == b.tx {
      assert TypeNumber(a.proof.proofType) == TypeNumber(b.proof.proofType);
    }
  }
}

/** Relaying with the receipt cache: concurrent submissions of one transaction share one initializer,
    receipts are dropped at any time, an initializer may be abandoned to another waiter. */
module SubmissionRuns {
  import opened Common
  import opened Proofs
  import opened Records
  import opened StoreOps
  import opened Submissions

  datatype Receipt = Receipt(id: VerificationId, hash: Digest)

  /** A cached receipt, with the submission that made it as history. */
  datatype Kept = Kept(receipt: Receipt, maker: Validated)

  /** A store insertion that succeeded, or a transaction handed to the node. */
  datatype Effect = Stored(id: VerificationId) | Relayed(id: VerificationId, hash: Digest)

  /** The shared initializer of one cache key: whose submission it runs, how far it is, who waits. */
  datatype Initializer = Initializer(owner: Validated, stored: bool, waiters: set<Validated>)

  datatype Answer = Answer(to: Validated, receipt: Option<Receipt>)

  /** `log`, `accepted` and `answers` are history: effects, validated submissions and replies so far. */
  datatype Service = Service(
    receipts: map<Digest, Kept>, running: map<Digest, Initializer>, log: seq<Effect>, accepted: seq<Validated>,
    answers: seq<Answer>)

  const FRESH: Service := Service(map[], map[], [], [], [])

  /** What the node says to broadcast_tx_sync. */
  datatype Broadcast = Unreachable | CheckTx(hash: Digest, code: nat)

  datatype Step =
    | Submit(submission: Submission)
    | StoreContent(key: Digest, st: Store, now: nat)   // the store as it is at that moment
    | Relay(key: Digest, reply: Broadcast)
    | TakeOver(key: Digest, next: Validated)
    | Forget(key: Digest)

  // ---------------------------------------------------------------- transitions

  function Tell(waiters: seq<Validated>, receipt: Option<Receipt>): seq<Answer> {
    seq(|waiters|, i requires 0 <= i < |waiters| => Answer(waiters[i], receipt))
  }

  function Enter(s: Service, v: Validated): Service {
    var s := s.(accepted := s.accepted + [v]);
    if v.hash in s.receipts then s.(answers := s.answers + [Answer(v, Some(s.receipts[v.hash].receipt))])
    else if v.hash in s.running then
      var init := s.running[v.hash];
      s.(running := s.running[v.hash := init.(waiters := init.waiters + {v})])
    else s.(running := s.running[v.hash := Initializer(v, false, {v})])
  }

  /** Everyone who waits hears the same; only a receipt is kept. */
  function Resolve(s: Service, key: Digest, kept: Option<Kept>, told: seq<Validated>): Service {
    s.(running := s.running - {key},
       receipts := if kept.Some? then s.receipts[key := kept.value] else s.receipts,
       answers := s.answers + Tell(told, if kept.Some? then Some(kept.value.receipt) else None))
  }

  /** The initializer's own outcome once the node has answered. */
  function ReceiptFrom(owner: Validated, reply: Broadcast): Option<Kept> {
    if reply.CheckTx? && reply.hash == owner.hash && reply.code == 0
    then Some(Kept(Receipt(owner.id, owner.hash), owner)) else None
  }

  function Insertion(rules: Rules, v: Validated, st: Store, now: nat, retention: nat): Result<Commit, StoreError> {
    InsertLocal(Limits(rules.sha, rules.maxProofBytes, retention), st, v.proof, Rpc, now)
  }

  ghost predicate Enabled(rules: Rules, retention: nat, s: Service, step: Step) {
    match step
    case Submit(_) => true
    case StoreContent(key, st, _) =>
      key in s.running && !s.running[key].stored && StoreOk(Limits(rules.sha, rules.maxProofBytes, retention), st)
    case Relay(key, _) => key in s.running && s.running[key].stored
    case TakeOver(key, next) => key in s.running && next in s.running[key].waiters
    case Forget(key) => key in s.receipts
  }

  /** The order in which waiters are told does not matter; any listing of them will do. */
  ghost predicate Next(rules: Rules, retention: nat, s: Service, step: Step, s': Service)
    requires Enabled(rules, retention, s, step)
  {
    match step
    case Submit(submission) =>
      (match ValidateSubmission(rules, submission)
       case Err(_) => s' == s
       case Ok(v) => s' == Enter(s, v))
    case StoreContent(key, st, now) =>
      var init := s.running[key];
      if Insertion(rules, init.owner, st, now, retention).Ok?
      then s' == s.(running := s.running[key := init.(stored := true)], log := s.log + [Stored(init.owner.id)])
      else exists told :: Elements(told) == init.waiters && s' == Resolve(s, key, None, told)
    case Relay(key, reply) =>
      var init := s.running[key];
      var relayed := s.(log := s.log + [Relayed(init.owner.id, init.owner.hash)]);
      exists told :: Elements(told) == init.waiters && s' == Resolve(relayed, key, ReceiptFrom(init.owner, reply), told)
    case TakeOver(key, next) =>
      s' == s.(running := s.running[key := s.running[key].(owner := next, stored := false)])
    case Forget(key) => s' == s.(receipts := s.receipts - {key})
  }

  // ---------------------------------------------------------------- the invariant

  ghost predicate Genuine(rules: Rules, v: Validated) {
    exists s :: ValidateSubmission(rules, s) == Ok(v)
  }

  ghost predicate InitOk(log: seq<Effect>, accepted: seq<Validated>, key: Digest, init: Initializer) {
    && init.owner in init.waiters
    && (forall v :: v in init.waiters ==> v.hash == key && v in accepted)
    && (init.stored ==> Stored(init.owner.id) in log)
  }

  /** The receipt is that of the accepted submission that made it, which was relayed. */
  ghost predicate KeptOk(log: seq<Effect>, accepted: seq<Validated>, key: Digest, k: Kept) {
    && k.maker in accepted && k.maker.hash == key && k.receipt == Receipt(k.maker.id, key)
    && Relayed(k.receipt.id, key) in log
  }

  /** Content is stored before its transaction is relayed. */
  ghost predicate LogOk(log: seq<Effect>) {
    forall k :: 0 <= k < |log| && log[k].Relayed? ==> Stored(log[k].id) in log[..k]
  }

  /** Some accepted submission carried a different transaction with the same hash. */
  ghost predicate HashReused(rules: Rules, accepted: seq<Validated>, v: Validated) {
    exists x :: x in accepted && Collision(rules.sha, x.tx, v.tx)
  }

  ghost predicate AnswerOk(rules: Rules, log: seq<Effect>, accepted: seq<Validated>, a: Answer) {
    && a.to in accepted
    && (a.receipt.Some? ==>
        && (a.receipt.value == Receipt(a.to.id, a.to.hash) || HashReused(rules, accepted, a.to))
        && Relayed(a.receipt.value.id, a.receipt.value.hash) in log)
  }

  ghost predicate Inv(rules: Rules, s: Service) {
    && (forall v :: v in s.accepted ==> Genuine(rules, v))
    && (forall key :: key in s.running ==> InitOk(s.log, s.accepted, key, s.running[key]))
    && (forall key :: key in s.receipts ==> KeptOk(s.log, s.accepted, key, s.receipts[key]))
    && LogOk(s.log)
    && (forall i :: 0 <= i < |s.answers| ==> AnswerOk(rules, s.log, s.accepted, s.answers[i]))
  }

  lemma SameHashSameId(rules: Rules, a: Validated, b: Validated)
    requires Genuine(rules, a) && Genuine(rules, b) && a.hash == b.hash
    ensures a.id == b.id || Collision(rules.sha, a.tx, b.tx)
  {
    var x :| ValidateSubmission(rules, x) == Ok(a);
    var y :| ValidateSubmission(rules, y) == Ok(b);
    AcceptedIff(rules, x);
    AcceptedIff(rules, y);
    TransactionDeterminesId(rules, x, y);
  }

  /** A kept receipt is right for every accepted submission with its key, unless that submission's
      transaction collides with the one that made the receipt. */
  lemma ReceiptServes(rules: Rules, log: seq<Effect>, accepted: seq<Validated>, key: Digest, k: Kept, v: Validated)
    requires KeptOk(log, accepted, key, k) && Genuine(rules, k.maker) && Genuine(rules, v) && v.hash == key
    ensures k.receipt == Receipt(v.id, v.hash) || Collision(rules.sha, k.maker.tx, v.tx)
    ensures v in accepted ==> AnswerOk(rules, log, accepted, Answer(v, Some(k.receipt)))
  {
    SameHashSameId(rules, k.maker, v);
  }

  lemma LogGrows(rules: Rules, s: Service, e: Effect)
    requires Inv(rules, s) && (e.Relayed? ==> Stored(e.id) in s.log)
    ensures Inv(rules, s.(log := s.log + [e]))
  {
    var log' := s.log + [e];
    assert forall x :: x in s.log ==> x in log';
    forall k | 0 <= k < |log'| && log'[k].Relayed? ensures Stored(log'[k].id) in log'[..k] {
      if k < |s.log| { assert log'[..k] == s.log[..k] && log'[k] == s.log[k]; } else { assert log'[..k] == s.log; }
    }
    forall key | key in s.receipts ensures KeptOk(log', s.accepted, key, s.receipts[key]) {
      assert KeptOk(s.log, s.accepted, key, s.receipts[key]);
    }
    forall i | 0 <= i < |s.answers| ensures AnswerOk(rules, log', s.accepted, s.answers[i]) {
      assert AnswerOk(rules, s.log, s.accepted, s.answers[i]);
    }
  }

  lemma AcceptedGrows(rules: Rules, s: Service, v: Validated)
    requires Inv(rules, s) && Genuine(rules, v)
    ensures Inv(rules, s.(accepted := s.accepted + [v])) && v in s.accepted + [v]
  {
    var more := s.accepted + [v];
    assert more[|s.accepted|] == v;
    assert forall x :: x in s.accepted ==> x in more;
    forall key | key in s.running ensures InitOk(s.log, more, key, s.running[key]) {
      assert InitOk(s.log, s.accepted, key, s.running[key]);
    }
    forall key | key in s.receipts ensures KeptOk(s.log, more, key, s.receipts[key]) {
      assert KeptOk(s.log, s.accepted, key, s.receipts[key]);
    }
    forall i | 0 <= i < |s.answers| ensures AnswerOk(rules, s.log, more, s.answers[i]) {
      assert AnswerOk(rules, s.log, s.accepted, s.answers[i]);
      if HashReused(rules, s.accepted, s.answers[i].to) {
        var x :| x in s.accepted && Collision(rules.sha, x.tx, s.answers[i].to.tx);
        assert x in more;
      }
    }
  }

  lemma EnterKeeps(rules: Rules, s: Service, v: Validated)
    requires Inv(rules, s) && Genuine(rules, v)
    ensures Inv(rules, Enter(s, v))
  {
    AcceptedGrows(rules, s, v);
    EnteredKeeps(rules, s.(accepted := s.accepted + [v]), Enter(s, v), v);
  }

  lemma EnteredKeeps(rules: Rules, s: Service, s': Service, v: Validated)
    requires Inv(rules, s) && v in s.accepted
    requires if v.hash in s.receipts then s' == s.(answers := s.answers + [Answer(v, Some(s.receipts[v.hash].receipt))])
             else && v.hash in s'.running && s' == s.(running := s.running[v.hash := s'.running[v.hash]])
                  && s'.running[v.hash] == (if v.hash in s.running
                                            then s.running[v.hash].(waiters := s.running[v.hash].waiters + {v})
                                            else Initializer(v, false, {v}))
    ensures Inv(rules, s')
  {
    if v.hash in s.receipts {
      ReceiptServes(rules, s.log, s.accepted, v.hash, s.receipts[v.hash], v);
      forall i | 0 <= i < |s'.answers| ensures AnswerOk(rules, s.log, s.accepted, s'.answers[i]) {
        if i < |s.answers| { assert s'.answers[i] == s.answers[i]; }
      }
    } else {
      if v.hash in s.running { assert InitOk(s.log, s.accepted, v.hash, s.running[v.hash]); }
      assert InitOk(s.log, s.accepted, v.hash, s'.running[v.hash]);
    }
  }

  lemma ResolveKeeps(rules: Rules, s: Service, key: Digest, kept: Option<Kept>, told: seq<Validated>)
    requires Inv(rules, s) && key in s.running && Elements(told) == s.running[key].waiters
    requires kept.Some? ==> KeptOk(s.log, s.accepted, key, kept.value)
    ensures Inv(rules, Resolve(s, key, kept, told))
  {
    var s' := Resolve(s, key, kept, told);
    assert InitOk(s.log, s.accepted, key, s.running[key]);
    forall i | 0 <= i < |s'.answers| ensures AnswerOk(rules, s.log, s.accepted, s'.answers[i]) {
      if i >= |s.answers| {
        var v := told[i - |s.answers|];
        assert v in Elements(told);
        assert s'.answers[i].to == v;
        if kept.Some? { ReceiptServes(rules, s.log, s.accepted, key, kept.value, v); }
      }
    }
  }

  lemma RelayKeeps(rules: Rules, s: Service, key: Digest, reply: Broadcast, told: seq<Validated>)
    requires Inv(rules, s) && key in s.running && s.running[key].stored && Elements(told) == s.running[key].waiters
    ensures var owner := s.running[key].owner;
            Inv(rules, Resolve(s.(log := s.log + [Relayed(owner.id, owner.hash)]), key, ReceiptFrom(owner, reply), told))
  {
    var owner := s.running[key].owner;
    assert InitOk(s.log, s.accepted, key, s.running[key]);
    var relayed := s.(log := s.log + [Relayed(owner.id, owner.hash)]);
    LogGrows(rules, s, Relayed(owner.id, owner.hash));
    assert relayed.log[|s.log|] == Relayed(owner.id, owner.hash);
    ResolveKeeps(rules, relayed, key, ReceiptFrom(owner, reply), told);
  }

  lemma StoreKeeps(rules: Rules, s: Service, key: Digest)
    requires Inv(rules, s) && key in s.running
    ensures var init := s.running[key];
            Inv(rules, s.(running := s.running[key := init.(stored := true)], log := s.log + [Stored(init.owner.id)]))
  {
    var e := Stored(s.running[key].owner.id);
    LogGrows(rules, s, e);
    assert (s.log + [e])[|s.log|] == e;
    assert InitOk(s.log, s.accepted, key, s.running[key]);
  }

  lemma NextKeeps(rules: Rules, retention: nat, s: Service, step: Step, s': Service)
    requires Inv(rules, s) && Enabled(rules, retention, s, step) && Next(rules, retention, s, step, s')
    ensures Inv(rules, s')
  {
    match step
    case Submit(submission) =>
      var r := ValidateSubmission(rules, submission);
      if r.Ok? { EnterKeeps(rules, s, r.value); }
    case StoreContent(key, st, now) =>
      if Insertion(rules, s.running[key].owner, st, now, retention).Ok? {
        StoreKeeps(rules, s, key);
      } else {
        var told :| Elements(told) == s.running[key].waiters && s' == Resolve(s, key, None, told);
        ResolveKeeps(rules, s, key, None, told);
      }
    case Relay(key, reply) =>
      var owner := s.running[key].owner;
      var relayed := s.(log := s.log + [Relayed(owner.id, owner.hash)]);
      var told :| Elements(told) == s.running[key].waiters && s' == Resolve(relayed, key, ReceiptFrom(owner, reply), told);
      RelayKeeps(rules, s, key, reply, told);
    case TakeOver(key, next) => assert InitOk(s.log, s.accepted, key, s.running[key]);
    case Forget(key) =>
  }

  /** Storing never fails for a validated submission: the store applies the same limit. */
  lemma InsertionSucceeds(rules: Rules, v: Validated, st: Store, now: nat, retention: nat)
    requires Genuine(rules, v) && StoreOk(Limits(rules.sha, rules.maxProofBytes, retention), st)
    ensures var r := Insertion(rules, v, st, now, retention);
            r.Ok? && v.id in r.value.store.entries && r.value.store.entries[v.id].record.proof.Some?
  {
    var s :| ValidateSubmission(rules, s) == Ok(v);
    AcceptedIff(rules, s);
    InsertLocalEffect(Limits(rules.sha, rules.maxProofBytes, retention), st, v.proof, Rpc, now);
  }

  // ---------------------------------------------------------------- whole runs

  datatype Run = Run(states: seq<Service>, steps: seq<Step>)

  ghost predicate StepOk(rules: Rules, retention: nat, r: Run, i: nat)
    requires i < |r.steps| && |r.states| == |r.steps| + 1
  {
    Enabled(rules, retention, r.states[i], r.steps[i]) && Next(rules, retention, r.states[i], r.steps[i], r.states[i + 1])
  }

  ghost predicate IsRun(rules: Rules, retention: nat, r: Run) {
    && |r.states| == |r.steps| + 1 && r.states[0] == FRESH
    && forall i :: 0 <= i < |r.steps| ==> StepOk(rules, retention, r, i)
  }

  lemma {:induction false} RunInv(rules: Rules, retention: nat, r: Run, n: nat)
    requires IsRun(rules, retention, r) && n < |r.states|
    ensures Inv(rules, r.states[n])
  {
    if n > 0 {
      RunInv(rules, retention, r, n - 1);
      assert StepOk(rules, retention, r, n - 1);
      NextKeeps(rules, retention, r.states[n - 1], r.steps[n - 1], r.states[n]);
    }
  }

  /** Step i accepted a submission as v. */
  predicate AcceptsAt(rules: Rules, r: Run, i: nat, v: Validated)
    requires i < |r.steps|
  {
    r.steps[i].Submit? && ValidateSubmission(rules, r.steps[i].submission) == Ok(v)
  }

  lemma StepAccepts(rules: Rules, retention: nat, r: Run, i: nat, v: Validated)
    requires IsRun(rules, retention, r) && i < |r.steps| && v in r.states[i + 1].accepted && v !in r.states[i].accepted
    ensures AcceptsAt(rules, r, i, v)
  {
    assert StepOk(rules, retention, r, i);
  }

  lemma {:induction false} AcceptedByAStep(rules: Rules, retention: nat, r: Run, n: nat, v: Validated) returns (i: nat)
    requires IsRun(rules, retention, r) && n < |r.states| && v in r.states[n].accepted
    ensures i < n && AcceptsAt(rules, r, i, v)
  {
    if v in r.states[n - 1].accepted {
      i := AcceptedByAStep(rules, retention, r, n - 1, v);
    } else {
      StepAccepts(rules, retention, r, n - 1, v);
      i := n - 1;
    }
  }

  /** The cache is invisible: whoever gets a receipt, from the cache, from a shared initializer or from
      its own, gets the receipt of its own submission, unless an earlier step of this very run accepted a
      different transaction with the same hash. Either way the transaction named by the receipt was
      relayed after content with its id had been stored. */
  lemma ReceiptsAreRight(rules: Rules, retention: nat, r: Run, n: nat, i: nat)
    requires IsRun(rules, retention, r) && n < |r.states| && i < |r.states[n].answers|
    requires r.states[n].answers[i].receipt.Some?
    ensures var a, log := r.states[n].answers[i], r.states[n].log;
            && (|| a.receipt.value == Receipt(a.to.id, a.to.hash)
                || exists k, x :: 0 <= k < n && AcceptsAt(rules, r, k, x) && Collision(rules.sha, x.tx, a.to.tx))
            && exists j, k :: 0 <= j < k < |log| && log[j] == Stored(a.receipt.value.id)
                              && log[k] == Relayed(a.receipt.value.id, a.receipt.value.hash)
  {
    RunInv(rules, retention, r, n);
    var a, log := r.states[n].answers[i], r.states[n].log;
    assert AnswerOk(rules, log, r.states[n].accepted, a);
    if HashReused(rules, r.states[n].accepted, a.to) {
      var x :| x in r.states[n].accepted && Collision(rules.sha, x.tx, a.to.tx);
      var k := AcceptedByAStep(rules, retention, r, n, x);
      assert AcceptsAt(rules, r, k, x);
    }
    var k :| 0 <= k < |log| && log[k] == Relayed(a.receipt.value.id, a.receipt.value.hash);
    var j :| 0 <= j < k && log[..k][j] == Stored(a.receipt.value.id);
    assert log[j] == Stored(a.receipt.value.id);
  }

  /** No two different transactions accepted before step n have one hash. */
  ghost predicate HashesDistinct(rules: Rules, r: Run, n: nat)
    requires n <= |r.steps|
  {
    forall i, j, x, y :: 0 <= i < n && 0 <= j < n && AcceptsAt(rules, r, i, x) && AcceptsAt(rules, r, j, y) && x.hash == y.hash ==>
      x.tx == y.tx
  }

  /** So in a run whose accepted transactions have distinct hashes every receipt is exactly the caller's. */
  lemma ReceiptsAreExact(rules: Rules, retention: nat, r: Run, n: nat, i: nat)
    requires IsRun(rules, retention, r) && n < |r.states| && i < |r.states[n].answers|
    requires r.states[n].answers[i].receipt.Some? && HashesDistinct(rules, r, n)
    ensures var a := r.states[n].answers[i]; a.receipt.value == Receipt(a.to.id, a.to.hash)
  {
    var a := r.states[n].answers[i];
    ReceiptsAreRight(rules, retention, r, n, i);
    RunInv(rules, retention, r, n);
    assert AnswerOk(rules, r.states[n].log, r.states[n].accepted, a);
    var own := AcceptedByAStep(rules, retention, r, n, a.to);
    AcceptedIff(rules, r.steps[own].submission);
    forall k, x | 0 <= k < n && AcceptsAt(rules, r, k, x) ensures !Collision(rules.sha, x.tx, a.to.tx) {
      AcceptedIff(rules, r.steps[k].submission);
    }
  }
}

/** The service as the object behind the RPC, one submission at a time. */
module SubmissionServices {
  import opened Common
  import opened Records
  import opened ProofStores
  import opened Submissions
  import opened SubmissionRuns

  /** What storing, relaying and remembering one submission add. */
  lemma StoredThenRelayed(rules: Rules, receipts: map<Digest, Kept>, log: seq<Effect>, accepted: seq<Validated>, v: Validated)
    requires Inv(rules, Service(receipts, map[], log, accepted, [])) && v in accepted
    ensures var log' := log + [Stored(v.id), Relayed(v.id, v.hash)];
            && Inv(rules, Service(receipts, map[], log', accepted, []))
            && Inv(rules, Service(receipts[v.hash := Kept(Receipt(v.id, v.hash), v)], map[], log', accepted, []))
  {
    var s, stored, relayed := Service(receipts, map[], log, accepted, []), log + [Stored(v.id)],
                              log + [Stored(v.id), Relayed(v.id, v.hash)];
    LogGrows(rules, s, Stored(v.id));
    assert stored[|log|] == Stored(v.id);
    LogGrows(rules, s.(log := stored), Relayed(v.id, v.hash));
    assert stored + [Relayed(v.id, v.hash)] == relayed && relayed[|log| + 1] == Relayed(v.id, v.hash);
  }

  datatype Refusal = Rejected(error: SubmissionError) | NotRelayed | HashMismatch | CheckTxRejected(code: nat)

  class SubmissionService {
    const rules: Rules
    const store: ProofStore
    var receipts: map<Digest, Kept>
    ghost var log: seq<Effect>
    ghost var accepted: seq<Validated>

    constructor (rules: Rules, store: ProofStore)
      requires store.Valid() && store.limits.sha == rules.sha && store.limits.maxProofBytes == rules.maxProofBytes
      ensures Valid() && this.rules == rules && this.store == store && receipts == map[] && log == []
    {
      this.rules, this.store, receipts, log, accepted := rules, store, map[], [], [];
    }

    /** The store enforces the same limit, and every kept receipt belongs to a relayed submission. */
    ghost predicate Valid()
      reads this, store
    {
      && store.Valid() && store.limits.sha == rules.sha && store.limits.maxProofBytes == rules.maxProofBytes
      && Inv(rules, Service(receipts, map[], log, accepted, []))
    }

    /** `reply` is what the node would answer to the broadcast. A cached receipt costs no new effect and is
        the submission's own unless its transaction collides with the one that filled the slot. Otherwise
        content is stored before the transaction is relayed, a success gives the submission's own receipt,
        and only a success is remembered. */
    method Submit(s: Submission, reply: Broadcast, now: nat) returns (r: Result<Receipt, Refusal>)
      requires Valid()
      modifies this, store
      ensures Valid()
      ensures match ValidateSubmission(rules, s)
              case Err(e) => r == Err(Rejected(e)) && log == old(log) && receipts == old(receipts)
              case Ok(v) =>
                if v.hash in old(receipts) then
                  && log == old(log) && receipts == old(receipts) && r == Ok(old(receipts)[v.hash].receipt)
                  && (r.value == Receipt(v.id, v.hash) || Collision(rules.sha, old(receipts)[v.hash].maker.tx, v.tx))
                else
                  && log == old(log) + [Stored(v.id), Relayed(v.id, v.hash)]
                  && v.id in store.entries && store.entries[v.id].record.proof.Some?
                  && (r.Ok? <==> ReceiptFrom(v, reply).Some?) && (r.Ok? ==> r.value == Receipt(v.id, v.hash))
                  && receipts == (if r.Ok? then old(receipts)[v.hash := Kept(r.value, v)] else old(receipts))
    {
      var validated := ValidateSubmission(rules, s);
      if validated.Err? {
        return Err(Rejected(validated.error));
      }
      var v := validated.value;
      assert Genuine(rules, v);
      if v.hash in receipts {
        ReceiptServes(rules, log, accepted, v.hash, receipts[v.hash], v);
        return Ok(receipts[v.hash].receipt);
      }
      AcceptedGrows(rules, Service(receipts, map[], log, accepted, []), v);
      accepted := accepted + [v];
      InsertionSucceeds(rules, v, store.Value(), now, store.limits.retention);
      var change := store.InsertLocalProof(v.proof, Rpc, now);
      StoredThenRelayed(rules, receipts, log, accepted, v);
      log := log + [Stored(v.id), Relayed(v.id, v.hash)];
      if reply.Unreachable? {
        return Err(NotRelayed);
      }
      if reply.hash != v.hash {
        return Err(HashMismatch);
      }
      if reply.code != 0 {
        return Err(CheckTxRejected(reply.code));
      }
      r := Ok(Receipt(v.id, v.hash));
      receipts := receipts[v.hash := Kept(r.value, v)];
    }
  }
}
