/** One retrieval from its creation to its end, over whole runs: how it begins and ends, what it asks, when
    it asks, and which timers can still touch it. */
module RetrievalLives {
  import opened Common
  import opened Proofs
  import opened Records
  import opened DriverModel
  import opened Retrieval
  import opened P2pSystem
  import opened P2pRuns

  // ---------------------------------------------------------------- how a life begins

  /** Step i finds the record of this id waiting for content. */
  predicate FindsWaiting(r: Run, i: nat, id: VerificationId)
    requires i < |r.steps| && |r.states| == |r.steps| + 1
  {
    var pc := r.states[i].pc;
    r.steps[i] == EnsureNext(true) && pc.Ensuring? && pc.todo != [] && pc.todo[0] == id
  }

  lemma OnlyEnsuringTracks(cfg: Config, s: P2p, step: Step, id: VerificationId)
    requires Enabled(cfg, s, step) && id !in s.w.retrievals && id in Next(cfg, s, step).w.retrievals
    ensures step == EnsureNext(true) && s.pc.todo[0] == id
    ensures Next(cfg, s, step).w.retrievals[id] == NEW.(queued := true)
  {
    match step
    case EnsureNext(_) =>
    case TakeEvent(reply, waiting) => EventTracksNothing(s.(channel := s.channel[1..]), s.channel[0], reply, waiting, id);
    case Pick(_) | TakeReply | TakeQueryReply(_) | Fire(_) => AskingTracksNothing(cfg, s, step, id);
    case _ => OthersTrackNothing(cfg, s, step, id);
  }

  lemma EventTracksNothing(s: P2p, e: DriverEvent, reply: StoreReply, waiting: seq<VerificationId>, id: VerificationId)
    requires id !in s.w.retrievals
    ensures id !in HandleEvent(s, e, reply, waiting).w.retrievals
  {
  }

  lemma AskingTracksNothing(cfg: Config, s: P2p, step: Step, id: VerificationId)
    requires Enabled(cfg, s, step) && id !in s.w.retrievals
    requires step.Pick? || step.TakeReply? || step.TakeQueryReply? || step.Fire?
    ensures id !in Next(cfg, s, step).w.retrievals
  {
  }

  lemma OthersTrackNothing(cfg: Config, s: P2p, step: Step, id: VerificationId)
    requires Enabled(cfg, s, step) && id !in s.w.retrievals && !step.EnsureNext? && !step.TakeEvent?
    requires !step.Pick? && !step.TakeReply? && !step.TakeQueryReply? && !step.Fire?
    ensures id !in Next(cfg, s, step).w.retrievals
  {
  }

  /** A life begins exactly where an untracked record is found waiting, with nothing asked, no deadline set
      and timer generation zero. */
  lemma LifeBegins(cfg: Config, validators: set<PeerId>, r: Run, i: nat, id: VerificationId)
    requires IsRun(cfg, validators, r) && i < |r.steps| && id !in r.states[i].w.retrievals
    ensures id in r.states[i + 1].w.retrievals <==> FindsWaiting(r, i, id)
    ensures FindsWaiting(r, i, id) ==> r.states[i + 1].w.retrievals[id] == NEW.(queued := true)
  {
    assert StepOk(cfg, r, i);
    if id in r.states[i + 1].w.retrievals { OnlyEnsuringTracks(cfg, r.states[i], r.steps[i], id); }
  }

  // ---------------------------------------------------------------- how a life ends

  /** The guards under which a step gives a retrieval up: its request ended well, or ended badly after the
      retrieval was stopped or past its deadline; with no request out, the store reports anything but an
      observation of the id, a reconcile or a check does not find it waiting, or a deadline has passed when
      a provider is chosen, a query is due or its timer fires; the driver drains. */
  predicate Drops(s: P2p, step: Step, id: VerificationId)
    requires id in s.w.retrievals
  {
    var x := s.w.retrievals[id];
    match step
    case TakeEvent(reply, waiting) =>
      && s.channel != []
      && if IsCompletion(s.channel[0]) then CompletionDrops(s.channel[0], reply, id, x, s.now)
         else s.channel[0].PeerConnected? && !s.draining && id !in waiting && x.active.None?
    case TakeStoreEvent(e) => !s.draining && !e.VerificationObserved? && e.id == id && x.active.None?
    case Reconcile(waiting) => id !in waiting && x.active.None?
    case EnsureNext(waits) => !waits && s.pc.Ensuring? && s.pc.todo != [] && s.pc.todo[0] == id && x.active.None?
    case Pick(choice) =>
      && s.pc.Picking? && s.pc.id == id
      && if choice.Some? then Passed(x.transferDeadline, s.now) else x.query.None? && Passed(ActiveDeadline(x), s.now)
    case TakeReply => s.pc.Replied? && s.pc.id == id && s.pc.reply == Err(DrainingRefused)
    case TakeQueryReply(_) => s.pc.QueryReplied? && s.pc.id == id && !s.pc.sent
    case Fire(wake) => wake.id == id && WakeActs(s.w, wake) && x.active.None? && Passed(ActiveDeadline(x), s.now)
    case Break(cause) => cause == AnnouncementUnpublished(Some(id)) && x.active.None?
    case _ => false
  }

  predicate CompletionDrops(e: DriverEvent, reply: StoreReply, id: VerificationId, x: Retrieval, now: nat)
    requires IsCompletion(e)
  {
    e.id == id && ((e.ProofReceived? && !reply.Refused?) || x.finished || Passed(ActiveDeadline(x), now))
  }

  /** The timer changes the retrieval, rather than only being spent. */
  predicate WakeActs(w: Worker, wake: Wake) {
    && wake.id in w.retrievals && w.retrievals[wake.id].generation == wake.generation
    && !w.retrievals[wake.id].finished
  }

  lemma FinishedDropsIff(w: Worker, e: DriverEvent, reply: StoreReply, now: nat, id: VerificationId)
    requires IsCompletion(e) && ActiveOf(w, e.id) == Some((e.request, e.peer)) && id in w.retrievals
    ensures id !in Finished(w, e, reply, now).retrievals <==> CompletionDrops(e, reply, id, w.retrievals[id], now)
  {
  }

  lemma CompletionDropsIff(cfg: Config, s: P2p, reply: StoreReply, id: VerificationId)
    requires Inv(cfg, s) && s.pc.Idle? && s.channel != [] && IsCompletion(s.channel[0]) && id in s.w.retrievals
    ensures id !in Finished(s.w, s.channel[0], reply, s.now).retrievals <==>
              CompletionDrops(s.channel[0], reply, id, s.w.retrievals[id], s.now)
  {
    assert Held(s.w, s.pc, s.channel[0].id) == Some((s.channel[0].request, s.channel[0].peer));
    FinishedDropsIff(s.w, s.channel[0], reply, s.now, id);
  }

  lemma EventDropsIff(cfg: Config, s: P2p, reply: StoreReply, waiting: seq<VerificationId>, id: VerificationId)
    requires Inv(cfg, s) && s.pc.Idle? && s.channel != [] && id in s.w.retrievals
    ensures id !in HandleEvent(s.(channel := s.channel[1..]), s.channel[0], reply, waiting).w.retrievals <==>
              Drops(s, TakeEvent(reply, waiting), id)
  {
    if IsCompletion(s.channel[0]) { CompletionDropsIff(cfg, s, reply, id); }
  }

  lemma AskingDropsIff(cfg: Config, s: P2p, step: Step, id: VerificationId)
    requires HandOk(cfg, s.w, s.pc) && Enabled(cfg, s, step) && id in s.w.retrievals
    requires step.Pick? || step.TakeReply? || step.TakeQueryReply?
    ensures id !in Next(cfg, s, step).w.retrievals <==> Drops(s, step, id)
  {
  }

  lemma FiringDropsIff(s: P2p, wake: Wake, id: VerificationId)
    requires AllOk(s.w.retrievals) && id in s.w.retrievals
    ensures id !in FireWake(s, wake).w.retrievals <==> Drops(s, Fire(wake), id)
  {
    assert RetrievalOk(s.w.retrievals[id]);
  }

  lemma StoppingDropsIff(cfg: Config, s: P2p, step: Step, id: VerificationId)
    requires Enabled(cfg, s, step) && id in s.w.retrievals
    requires step.TakeStoreEvent? || step.Reconcile? || step.EnsureNext? || step.Break?
    ensures id !in Next(cfg, s, step).w.retrievals <==> Drops(s, step, id)
  {
  }

  lemma OthersDropNothing(cfg: Config, s: P2p, step: Step, id: VerificationId)
    requires Enabled(cfg, s, step) && id in s.w.retrievals
    requires step.DriverRuns? || step.Tick? || step.DriveNext? || step.SendRequest? || step.SendQuery? || step.Answer?
             || step.StopWorker?
    ensures id in Next(cfg, s, step).w.retrievals
  {
  }

  /** A step ends the life of a retrieval exactly when one of those guards holds. */
  lemma DropsIff(cfg: Config, s: P2p, step: Step, id: VerificationId)
    requires Inv(cfg, s) && Enabled(cfg, s, step) && id in s.w.retrievals
    ensures id !in Next(cfg, s, step).w.retrievals <==> Drops(s, step, id)
  {
    match step
    case TakeEvent(reply, waiting) => EventDropsIff(cfg, s, reply, waiting, id);
    case Pick(_) | TakeReply | TakeQueryReply(_) => AskingDropsIff(cfg, s, step, id);
    case Fire(wake) => FiringDropsIff(s, wake, id);
    case TakeStoreEvent(_) | Reconcile(_) | EnsureNext(_) | Break(_) => StoppingDropsIff(cfg, s, step, id);
    case _ => OthersDropNothing(cfg, s, step, id);
  }

  predicate DropsAt(r: Run, i: nat, id: VerificationId)
    requires i < |r.steps| && |r.states| == |r.steps| + 1
  {
    id in r.states[i].w.retrievals && Drops(r.states[i], r.steps[i], id)
  }

  /** Over whole runs: once found waiting, an id stays tracked exactly as long as no step drops it. */
  lemma {:induction false} FoundStaysTrackedIff(cfg: Config, validators: set<PeerId>, r: Run, k: nat, n: nat, id: VerificationId)
    requires IsRun(cfg, validators, r) && k < n < |r.states| && FindsWaiting(r, k, id)
    ensures TrackedThroughout(r, k + 1, n, id) <==> forall i :: k < i < n ==> !DropsAt(r, i, id)
    decreases n
  {
    if n == k + 1 {
      FoundIsTracked(cfg, r, k, id);
    } else {
      FoundStaysTrackedIff(cfg, validators, r, k, n - 1, id);
      if TrackedThroughout(r, k + 1, n - 1, id) { DropsStep(cfg, validators, r, n - 1, id); }
    }
  }

  lemma FoundIsTracked(cfg: Config, r: Run, k: nat, id: VerificationId)
    requires k < |r.steps| && |r.states| == |r.steps| + 1 && StepOk(cfg, r, k) && FindsWaiting(r, k, id)
    ensures id in r.states[k + 1].w.retrievals
  {
  }

  lemma DropsStep(cfg: Config, validators: set<PeerId>, r: Run, i: nat, id: VerificationId)
    requires IsRun(cfg, validators, r) && i < |r.steps| && id in r.states[i].w.retrievals
    ensures id !in r.states[i + 1].w.retrievals <==> DropsAt(r, i, id)
  {
    RunInv(cfg, validators, r, i);
    assert StepOk(cfg, r, i);
    DropsIff(cfg, r.states[i], r.steps[i], id);
  }

  // ---------------------------------------------------------------- one request per peer

  /** Step i asks this peer for this id. */
  predicate AsksAt(r: Run, i: nat, id: VerificationId, peer: PeerId)
    requires i < |r.steps| && |r.states| == |r.steps| + 1
  {
    r.steps[i].SendRequest? && r.states[i].pc.Requesting? && r.states[i].pc.id == id && r.states[i].pc.peer == peer
  }

  lemma RepliedStays(cfg: Config, s: P2p, step: Step)
    requires s.pc.Replied? && Enabled(cfg, s, step) && !step.TakeReply?
    ensures Next(cfg, s, step).pc == s.pc && Next(cfg, s, step).w == s.w
  {
  }

  lemma ReplyRemembersPeer(cfg: Config, s: P2p)
    requires Inv(cfg, s) && s.pc.Replied? && s.pc.id in HandleReply(cfg, s).w.retrievals
    ensures var x := HandleReply(cfg, s).w.retrievals[s.pc.id]; s.pc.peer in x.attempted || s.pc.peer in x.accepted
  {
  }

  /** The peer is not chosen again: its answer is on the way, or it was attempted or accepted. */
  predicate Remembered(s: P2p, id: VerificationId, peer: PeerId) {
    id in s.w.retrievals ==>
      || (s.pc.Replied? && s.pc.id == id && s.pc.peer == peer)
      || peer in s.w.retrievals[id].attempted || peer in s.w.retrievals[id].accepted
  }

  /** Once asked, the peer is remembered for as long as the retrieval lives. */
  lemma {:induction false} AskedIsRemembered(
    cfg: Config, validators: set<PeerId>, r: Run, i: nat, n: nat, id: VerificationId, peer: PeerId)
    requires IsRun(cfg, validators, r) && i < n < |r.states| && AsksAt(r, i, id, peer) && TrackedThroughout(r, i, n, id)
    ensures Remembered(r.states[n], id, peer)
    decreases n
  {
    if i + 1 == n {
      AskLeadsToReply(cfg, r, i, id, peer);
    } else {
      AskedIsRemembered(cfg, validators, r, i, n - 1, id, peer);
      RememberedStep(cfg, validators, r, n - 1, id, peer);
    }
  }

  lemma AskLeadsToReply(cfg: Config, r: Run, i: nat, id: VerificationId, peer: PeerId)
    requires i < |r.steps| && |r.states| == |r.steps| + 1 && StepOk(cfg, r, i) && AsksAt(r, i, id, peer)
    ensures Remembered(r.states[i + 1], id, peer)
  {
  }

  lemma RememberedStep(cfg: Config, validators: set<PeerId>, r: Run, i: nat, id: VerificationId, peer: PeerId)
    requires IsRun(cfg, validators, r) && i < |r.steps|
    requires id in r.states[i].w.retrievals && Remembered(r.states[i], id, peer)
    ensures Remembered(r.states[i + 1], id, peer)
  {
    var s, step := r.states[i], r.steps[i];
    RunInv(cfg, validators, r, i);
    assert StepOk(cfg, r, i);
    if id in r.states[i + 1].w.retrievals {
      if s.pc.Replied? && s.pc.id == id && s.pc.peer == peer {
        if step.TakeReply? { ReplyRemembersPeer(cfg, s); } else { RepliedStays(cfg, s, step); }
      } else {
        StepAges(cfg, s, step, id);
      }
    }
  }

  lemma ChosenPeerIsNew(cfg: Config, s: P2p)
    requires Inv(cfg, s) && s.pc.Requesting?
    ensures s.pc.id in s.w.retrievals && !Remembered(s, s.pc.id, s.pc.peer)
  {
    assert RetrievalOk(s.w.retrievals[s.pc.id]);
  }

  /** No peer is asked twice for one id while the id stays tracked, whatever it answered. */
  lemma NoPeerAskedTwice(
    cfg: Config, validators: set<PeerId>, r: Run, i: nat, j: nat, id: VerificationId, peer: PeerId)
    requires IsRun(cfg, validators, r) && i < j < |r.steps| && AsksAt(r, i, id, peer) && AsksAt(r, j, id, peer)
    ensures !TrackedThroughout(r, i, j, id)
  {
    RunInv(cfg, validators, r, j);
    ChosenPeerIsNew(cfg, r.states[j]);
    if TrackedThroughout(r, i, j, id) { AskedIsRemembered(cfg, validators, r, i, j, id, peer); }
  }

  // ---------------------------------------------------------------- checks before deadlines

  lemma EntersRequesting(cfg: Config, s: P2p, step: Step)
    requires Enabled(cfg, s, step) && Next(cfg, s, step).pc.Requesting? && s.pc != Next(cfg, s, step).pc
    ensures step.Pick? && s.pc.Picking? && s.pc.id in s.w.retrievals
    ensures step.choice == Some(Next(cfg, s, step).pc.peer) && s.pc.id == Next(cfg, s, step).pc.id
    ensures !Passed(s.w.retrievals[s.pc.id].transferDeadline, s.now)
  {
  }

  lemma EntersQuerying(cfg: Config, s: P2p, step: Step)
    requires Enabled(cfg, s, step) && Next(cfg, s, step).pc.Querying? && s.pc != Next(cfg, s, step).pc
    ensures step == Pick(None) && s.pc.Picking? && s.pc.id in s.w.retrievals && s.pc.id == Next(cfg, s, step).pc.id
    ensures !Passed(ActiveDeadline(s.w.retrievals[s.pc.id]), s.now) && s.w.retrievals[s.pc.id].query.None?
  {
  }

  /** Step k chose this peer for this id before the transfer deadline. */
  predicate ChosenAt(r: Run, k: nat, id: VerificationId, peer: PeerId)
    requires k < |r.steps| && |r.states| == |r.steps| + 1
  {
    var s := r.states[k];
    && r.steps[k] == Pick(Some(peer)) && s.pc.Picking? && s.pc.id == id && id in s.w.retrievals
    && !Passed(s.w.retrievals[id].transferDeadline, s.now)
  }

  /** Step k found nobody to ask, no query open, and the active deadline still ahead. */
  predicate QueryDueAt(r: Run, k: nat, id: VerificationId)
    requires k < |r.steps| && |r.states| == |r.steps| + 1
  {
    var s := r.states[k];
    && r.steps[k] == Pick(None) && s.pc.Picking? && s.pc.id == id && id in s.w.retrievals
    && !Passed(ActiveDeadline(s.w.retrievals[id]), s.now) && s.w.retrievals[id].query.None?
  }

  lemma BecomesRequesting(cfg: Config, validators: set<PeerId>, r: Run, i: nat)
    requires IsRun(cfg, validators, r) && i < |r.steps| && r.states[i + 1].pc.Requesting?
    ensures r.states[i].pc == r.states[i + 1].pc || ChosenAt(r, i, r.states[i + 1].pc.id, r.states[i + 1].pc.peer)
  {
    assert StepOk(cfg, r, i);
    if r.states[i].pc != r.states[i + 1].pc { EntersRequesting(cfg, r.states[i], r.steps[i]); }
  }

  lemma BecomesQuerying(cfg: Config, validators: set<PeerId>, r: Run, i: nat)
    requires IsRun(cfg, validators, r) && i < |r.steps| && r.states[i + 1].pc.Querying?
    ensures r.states[i].pc == r.states[i + 1].pc || QueryDueAt(r, i, r.states[i + 1].pc.id)
  {
    assert StepOk(cfg, r, i);
    if r.states[i].pc != r.states[i + 1].pc { EntersQuerying(cfg, r.states[i], r.steps[i]); }
  }

  ghost predicate SamePcSince(r: Run, k: nat, i: nat)
    requires k < i < |r.states|
  {
    forall j :: k < j <= i ==> r.states[j].pc == r.states[i].pc
  }

  /** Every request passed the check against the transfer deadline when its peer was chosen, and the worker
      did nothing else in between. */
  lemma {:induction false} RequestWasChecked(cfg: Config, validators: set<PeerId>, r: Run, i: nat) returns (k: nat)
    requires IsRun(cfg, validators, r) && i < |r.states| && r.states[i].pc.Requesting?
    ensures k < i && ChosenAt(r, k, r.states[i].pc.id, r.states[i].pc.peer) && SamePcSince(r, k, i)
  {
    assert i > 0;
    BecomesRequesting(cfg, validators, r, i - 1);
    if r.states[i - 1].pc == r.states[i].pc { k := RequestWasChecked(cfg, validators, r, i - 1); } else { k := i - 1; }
  }

  /** Every availability query passed the check against the active deadline in the same way. */
  lemma {:induction false} QueryWasChecked(cfg: Config, validators: set<PeerId>, r: Run, i: nat) returns (k: nat)
    requires IsRun(cfg, validators, r) && i < |r.states| && r.states[i].pc.Querying?
    ensures k < i && QueryDueAt(r, k, r.states[i].pc.id) && SamePcSince(r, k, i)
  {
    assert i > 0;
    BecomesQuerying(cfg, validators, r, i - 1);
    if r.states[i - 1].pc == r.states[i].pc { k := QueryWasChecked(cfg, validators, r, i - 1); } else { k := i - 1; }
  }

  // ---------------------------------------------------------------- timers of an earlier generation

  const GENERATIONS: nat := U64_MAX + 1

  function GenerationAt(r: Run, i: nat, id: VerificationId): nat
    requires i < |r.states| && id in r.states[i].w.retrievals
  {
    r.states[i].w.retrievals[id].generation
  }

  /** How often the generation moved on from state m to state n. */
  ghost function Bumps(r: Run, m: nat, n: nat, id: VerificationId): nat
    requires m <= n < |r.states| && TrackedThroughout(r, m, n, id)
    decreases n
  {
    if m == n then 0
    else Bumps(r, m, n - 1, id) + if GenerationAt(r, n, id) == GenerationAt(r, n - 1, id) then 0 else 1
  }

  lemma GenerationStep(cfg: Config, validators: set<PeerId>, r: Run, i: nat, id: VerificationId)
    requires IsRun(cfg, validators, r) && i < |r.steps|
    requires id in r.states[i].w.retrievals && id in r.states[i + 1].w.retrievals
    ensures var g, g' := GenerationAt(r, i, id), GenerationAt(r, i + 1, id);
            g' == g || g' == NextGeneration(g)
  {
    assert StepOk(cfg, r, i);
    StepAges(cfg, r.states[i], r.steps[i], id);
  }

  lemma CountOn(start: nat, b: nat, g: nat)
    requires g == (start + b) % GENERATIONS
    ensures NextGeneration(g) == (start + b + 1) % GENERATIONS
  {
    var q := (start + b) / GENERATIONS;
    assert start + b == q * GENERATIONS + g;
    if g == U64_MAX { Remainder(start + b + 1, q + 1, 0); } else { Remainder(start + b + 1, q, g + 1); }
  }

  lemma {:induction false} GenerationCounts(cfg: Config, validators: set<PeerId>, r: Run, m: nat, n: nat, id: VerificationId)
    requires IsRun(cfg, validators, r) && m <= n < |r.states| && TrackedThroughout(r, m, n, id)
    ensures GenerationAt(r, n, id) == (GenerationAt(r, m, id) + Bumps(r, m, n, id)) % GENERATIONS
    decreases n
  {
    if m == n {
      GenerationIsSmall(cfg, validators, r, m, id);
    } else {
      GenerationCounts(cfg, validators, r, m, n - 1, id);
      GenerationStep(cfg, validators, r, n - 1, id);
      CountOn(GenerationAt(r, m, id), Bumps(r, m, n - 1, id), GenerationAt(r, n - 1, id));
    }
  }

  lemma GenerationIsSmall(cfg: Config, validators: set<PeerId>, r: Run, n: nat, id: VerificationId)
    requires IsRun(cfg, validators, r) && n < |r.states| && id in r.states[n].w.retrievals
    ensures GenerationAt(r, n, id) < GENERATIONS
  {
    RunInv(cfg, validators, r, n);
    assert RetrievalOk(r.states[n].w.retrievals[id]);
  }

  lemma InertWakeIsSpent(s: P2p, wake: Wake)
    requires !WakeActs(s.w, wake)
    ensures FireWake(s, wake) == s.(w := s.w.(wakes := s.w.wakes - multiset{wake}))
  {
  }

  /** Within one life, a timer of the generation that state m had acts in state n exactly when the retrieval
      is not finished and the generation has moved on by a multiple of 2^64 since, zero included; otherwise
      it is only spent. So a superseded timer never acts unless the counter went all the way round. */
  lemma TimerActsIff(cfg: Config, validators: set<PeerId>, r: Run, m: nat, n: nat, wake: Wake)
    requires IsRun(cfg, validators, r) && m <= n < |r.states| && TrackedThroughout(r, m, n, wake.id)
    requires wake.generation == GenerationAt(r, m, wake.id)
    ensures WakeActs(r.states[n].w, wake) <==>
              !r.states[n].w.retrievals[wake.id].finished && Bumps(r, m, n, wake.id) % GENERATIONS == 0
    ensures 0 < Bumps(r, m, n, wake.id) < GENERATIONS ==>
              FireWake(r.states[n], wake) == r.states[n].(w := r.states[n].w.(wakes := r.states[n].w.wakes - multiset{wake}))
  {
    var id, b := wake.id, Bumps(r, m, n, wake.id);
    GenerationCounts(cfg, validators, r, m, n, id);
    GenerationIsSmall(cfg, validators, r, m, id);
    RoundTrip(GenerationAt(r, m, id), b);
    if !WakeActs(r.states[n].w, wake) { InertWakeIsSpent(r.states[n], wake); }
  }

  /** Across lives: whenever it was set, a timer acts in a state of a life exactly when the retrieval is not
      finished and its generation is the number of times, modulo 2^64, that this life has moved on since it
      began. So a timer of an earlier life acts exactly when the new life has counted up to its number. */
  lemma AnyTimerActsIff(cfg: Config, validators: set<PeerId>, r: Run, c: nat, n: nat, wake: Wake)
    requires IsRun(cfg, validators, r) && 0 < c <= n < |r.states|
    requires wake.id !in r.states[c - 1].w.retrievals && TrackedThroughout(r, c, n, wake.id)
    ensures WakeActs(r.states[n].w, wake) <==>
              !r.states[n].w.retrievals[wake.id].finished && wake.generation == Bumps(r, c, n, wake.id) % GENERATIONS
  {
    assert wake.id in r.states[c].w.retrievals;
    LifeBegins(cfg, validators, r, c - 1, wake.id);
    GenerationCounts(cfg, validators, r, c, n, wake.id);
  }

  lemma RoundTrip(g: nat, b: nat)
    requires g < GENERATIONS
    ensures (g + b) % GENERATIONS == g <==> b % GENERATIONS == 0
    ensures 0 < b < GENERATIONS ==> b % GENERATIONS != 0
  {
    var q, rem := b / GENERATIONS, b % GENERATIONS;
    assert b == q * GENERATIONS + rem;
    if g + rem < GENERATIONS {
      Remainder(g + b, q, g + rem);
    } else {
      Remainder(g + b, q + 1, g + rem - GENERATIONS);
    }
  }

  lemma Remainder(n: nat, q: nat, rem: nat)
    requires n == q * GENERATIONS + rem && rem < GENERATIONS
    ensures n % GENERATIONS == rem
  {
  }
}
