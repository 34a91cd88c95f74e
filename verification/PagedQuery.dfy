/** The paged recovery query (src/chain/client.rs, proofs_by_height): the client's loop against a server
    that may answer anything. */
module PagedQuery {
  import opened Common
  import opened Descriptors

  /** An answer to one request: a transport failure, or a response at some height. An undecodable value
      is None; a page without pagination data has an empty continuation key. */
  datatype Answer = Failed | Answer(height: nat, ok: bool, page: Option<Page>)

  datatype Page = Page(proofs: seq<QueryProof>, nextKey: Bytes)

  /** The requested submission height, the page asked for and the height the query is pinned to. */
  datatype Request = Request(height: nat, key: Bytes, queryHeight: Option<nat>)

  /** Errors of kind Chain lead to a reconnect; the others are contract violations and fatal. */
  datatype QueryError =
    | Chain
    | RepeatedKey
    | HeightNotPinned
    | Undecodable
    | DuplicateIndex
    | Unordered
    | TooManyRecords
    | EmptyPageContinues
    | Contract(error: ContractError)

  /** What the server answers to the first, second, ... request. */
  type Server = nat -> Answer

  // ---------------------------------------------------------------- what a good transcript is

  predicate GoodRecord(sha: Sha256, height: nat, q: QueryProof) {
    q.key.Some? && ValidateQueryProof(sha, q, height).Ok?
  }

  predicate Ordered(records: seq<QueryProof>) {
    && (forall i :: 0 <= i < |records| ==> records[i].key.Some?)
    && (forall i, j :: 0 <= i < j < |records| ==> records[i].key.value.index < records[j].key.value.index)
  }

  predicate GoodRecords(sha: Sha256, height: nat, records: seq<QueryProof>) {
    Ordered(records) && forall i :: 0 <= i < |records| ==> GoodRecord(sha, height, records[i])
  }

  predicate GoodAnswer(server: Server, i: nat) {
    server(i).Answer? && server(i).ok && server(i).page.Some? && server(i).height == AnswerHeight(server(0))
  }

  function AnswerHeight(a: Answer): nat { if a.Answer? then a.height else 0 }

  function PageOf(a: Answer): Page { if a.Answer? && a.page.Some? then a.page.value else Page([], []) }

  /** The key sent with request i. */
  function KeyAt(server: Server, i: nat): Bytes { if i == 0 then [] else PageOf(server(i - 1)).nextKey }

  /** The records of the first n pages, in order. */
  function Records(server: Server, n: nat): seq<QueryProof> {
    if n == 0 then [] else Records(server, n - 1) + PageOf(server(n - 1)).proofs
  }

  ghost predicate KeysDistinct(server: Server, n: nat) {
    forall i, j :: 0 <= i < j < n ==> KeyAt(server, i) != KeyAt(server, j)
  }

  /** Page i is followed by another one. */
  predicate Continues(server: Server, i: nat) {
    PageOf(server(i)).nextKey != [] && PageOf(server(i)).proofs != []
  }

  /** The first n answers form one complete, well-formed, consistent listing. */
  ghost predicate Complete(sha: Sha256, height: nat, server: Server, n: nat) {
    && n >= 1 && height > 0
    && (forall i :: 0 <= i < n ==> GoodAnswer(server, i))
    && (forall i :: 0 <= i < n - 1 ==> Continues(server, i))
    && PageOf(server(n - 1)).nextKey == []
    && KeysDistinct(server, n)
    && GoodRecords(sha, height, Records(server, n))
  }

  /** The pending requests among valid records, in order. */
  function PendingOf(sha: Sha256, height: nat, records: seq<QueryProof>): seq<ChainProof> {
    if records == [] then []
    else
      var init, last := records[..|records| - 1], records[|records| - 1];
      PendingOf(sha, height, init) + Contribution(sha, height, last)
  }

  // ---------------------------------------------------------------- counting

  lemma {:induction false} IndexAtLeastPosition(records: seq<QueryProof>, i: nat)
    requires Ordered(records) && i < |records|
    ensures records[i].key.value.index >= i
  {
    if i > 0 { IndexAtLeastPosition(records, i - 1); }
  }

  /** Distinct indices below 256. */
  lemma AtMost256(sha: Sha256, height: nat, records: seq<QueryProof>)
    requires GoodRecords(sha, height, records)
    ensures |records| <= MAX_PROOFS_PER_BLOCK
  {
    if records != [] {
      var last := |records| - 1;
      IndexAtLeastPosition(records, last);
      assert GoodRecord(sha, height, records[last]);
    }
  }

  lemma {:induction false} OneRecordPerPage(server: Server, n: nat)
    requires forall i :: 0 <= i < n ==> Continues(server, i)
    ensures |Records(server, n)| >= n
  {
    if n > 0 {
      OneRecordPerPage(server, n - 1);
      assert Continues(server, n - 1);
    }
  }

  lemma {:induction false} RecordsPrefix(server: Server, m: nat, n: nat)
    requires m <= n
    ensures Records(server, m) <= Records(server, n)
  {
    if m < n { RecordsPrefix(server, m, n - 1); }
  }

  lemma GoodPrefix(sha: Sha256, height: nat, a: seq<QueryProof>, b: seq<QueryProof>)
    requires GoodRecords(sha, height, b) && a <= b
    ensures GoodRecords(sha, height, a)
  {
  }

  /** A complete listing has at most 257 pages and 256 records. */
  lemma CompleteIsBounded(sha: Sha256, height: nat, server: Server, n: nat)
    requires Complete(sha, height, server, n)
    ensures n <= MAX_PROOFS_PER_BLOCK + 1 && |Records(server, n)| <= MAX_PROOFS_PER_BLOCK
  {
    AtMost256(sha, height, Records(server, n));
    OneRecordPerPage(server, n - 1);
    RecordsPrefix(server, n - 1, n);
  }

  /** No server answer can be read as two different complete listings. */
  lemma CompleteIsUnique(sha: Sha256, height: nat, server: Server, m: nat, n: nat)
    requires Complete(sha, height, server, m) && Complete(sha, height, server, n)
    ensures m == n
  {
    assert m < n ==> Continues(server, m - 1);
    assert n < m ==> Continues(server, n - 1);
  }

  // ---------------------------------------------------------------- the result

  predicate Increasing(ps: seq<ChainProof>) { forall i, j :: 0 <= i < j < |ps| ==> ps[i].index < ps[j].index }

  /** The record q stands for the pending request p. */
  predicate Contributes(sha: Sha256, height: nat, q: QueryProof, p: ChainProof) {
    ValidateQueryProof(sha, q, height) == Ok(Some(p))
  }

  lemma ContributionPosition(sha: Sha256, height: nat, q: QueryProof, p: ChainProof)
    requires Contributes(sha, height, q, p)
    ensures q.key == Some(ProofKey(height, p.index)) && p.height == height
  {
  }

  function Contribution(sha: Sha256, height: nat, q: QueryProof): seq<ChainProof> {
    match ValidateQueryProof(sha, q, height)
    case Ok(Some(p)) => [p]
    case _ => []
  }

  lemma {:induction false} PendingMember(sha: Sha256, height: nat, records: seq<QueryProof>, p: ChainProof)
    ensures p in PendingOf(sha, height, records) <==> exists i :: 0 <= i < |records| && Contributes(sha, height, records[i], p)
  {
    if records != [] {
      var n := |records| - 1;
      var init := records[..n];
      PendingMember(sha, height, init, p);
      assert forall i :: 0 <= i < n ==> init[i] == records[i];
      assert p in Contribution(sha, height, records[n]) <==> Contributes(sha, height, records[n], p);
    }
  }

  lemma {:induction false} PendingIncreasing(sha: Sha256, height: nat, records: seq<QueryProof>)
    requires Ordered(records)
    ensures Increasing(PendingOf(sha, height, records))
  {
    if records != [] {
      var n := |records| - 1;
      var init, last := records[..n], records[n];
      PendingIncreasing(sha, height, init);
      forall p, q | p in PendingOf(sha, height, init) && Contributes(sha, height, last, q) ensures p.index < q.index {
        PendingMember(sha, height, init, p);
        var i :| 0 <= i < n && Contributes(sha, height, init[i], p);
        ContributionPosition(sha, height, records[i], p);
        ContributionPosition(sha, height, last, q);
      }
    }
  }

  /** The answer of a successful query: exactly the pending requests listed, all at the requested height,
      in increasing order of their place in the block. */
  lemma PendingIsExact(sha: Sha256, height: nat, server: Server, n: nat)
    requires Complete(sha, height, server, n)
    ensures var records := Records(server, n);
            var ps := PendingOf(sha, height, records);
            && (forall p :: p in ps <==> exists i :: 0 <= i < |records| && Contributes(sha, height, records[i], p))
            && (forall p :: p in ps ==> p.height == height)
            && Increasing(ps)
  {
    var records := Records(server, n);
    forall p ensures p in PendingOf(sha, height, records) <==>
                       exists i :: 0 <= i < |records| && Contributes(sha, height, records[i], p) {
      PendingMember(sha, height, records, p);
    }
    forall p | p in PendingOf(sha, height, records) ensures p.height == height {
      var i :| 0 <= i < |records| && Contributes(sha, height, records[i], p);
      ContributionPosition(sha, height, records[i], p);
    }
    PendingIncreasing(sha, height, records);
  }

  lemma PendingSnoc(sha: Sha256, height: nat, records: seq<QueryProof>, q: QueryProof)
    ensures PendingOf(sha, height, records + [q]) == PendingOf(sha, height, records) + Contribution(sha, height, q)
  {
    assert (records + [q])[..|records|] == records;
  }

  lemma OrderedSnoc(records: seq<QueryProof>, q: QueryProof)
    requires Ordered(records)
    ensures Ordered(records + [q]) <==>
              q.key.Some? && (records != [] ==> records[|records| - 1].key.value.index < q.key.value.index)
  {
    var more, n := records + [q], |records| - 1;
    assert more[|records|] == q;
    assert forall i :: 0 <= i <= n ==> more[i] == records[i];
    if records != [] && q.key.Some? && records[n].key.value.index < q.key.value.index {
      forall i | 0 <= i <= n ensures records[i].key.value.index <= records[n].key.value.index {}
    }
  }

  // ---------------------------------------------------------------- the loop

  ghost function PositionsOf(records: seq<QueryProof>): set<ProofKey> {
    set i | 0 <= i < |records| && records[i].key.Some? :: records[i].key.value
  }

  ghost function LastIndex(records: seq<QueryProof>): Option<nat>
    requires Ordered(records)
  {
    if records == [] then None else Some(records[|records| - 1].key.value.index)
  }

  /** What the client remembers of the records read so far. */
  ghost predicate Remembers(
    sha: Sha256, height: nat, records: seq<QueryProof>, positions: set<ProofKey>, lastIndex: Option<nat>,
    proofs: seq<ChainProof>)
  {
    && GoodRecords(sha, height, records)
    && positions == PositionsOf(records) && lastIndex == LastIndex(records) && proofs == PendingOf(sha, height, records)
  }

  /** The four checks on one more record decide exactly whether the listing is still good. */
  lemma OneMore(
    sha: Sha256, height: nat, records: seq<QueryProof>, q: QueryProof, positions: set<ProofKey>,
    lastIndex: Option<nat>, proofs: seq<ChainProof>)
    requires Remembers(sha, height, records, positions, lastIndex, proofs)
    ensures GoodRecords(sha, height, records + [q]) <==>
              && q.key.Some? && q.key.value !in positions && ValidateQueryProof(sha, q, height).Ok?
              && (lastIndex.Some? ==> lastIndex.value < q.key.value.index)
    ensures GoodRecords(sha, height, records + [q]) ==>
              Remembers(sha, height, records + [q], positions + {q.key.value}, Some(q.key.value.index),
                        proofs + Contribution(sha, height, q))
  {
    OrderedSnoc(records, q);
    if q.key.Some? {
      PositionsSnoc(records, q);
      if q.key.value in positions { SeenKeyIsNotNext(sha, height, records, q); }
    }
    PendingSnoc(sha, height, records, q);
    var more := records + [q];
    assert more[|records|] == q;
    assert forall i :: 0 <= i < |records| ==> more[i] == records[i];
  }

  /** The inner loop over the page that answers request n. */
  method ReadPageOf(
    sha: Sha256, height: nat, page: seq<QueryProof>, ghost server: Server, ghost n: nat,
    positions: set<ProofKey>, lastIndex: Option<nat>, proofs: seq<ChainProof>)
    returns (positions': set<ProofKey>, lastIndex': Option<nat>, proofs': seq<ChainProof>, error: Option<QueryError>)
    requires Remembers(sha, height, Records(server, n), positions, lastIndex, proofs) && page == PageOf(server(n)).proofs
    ensures error.None? <==> GoodRecords(sha, height, Records(server, n + 1))
    ensures error.None? ==>
              && Remembers(sha, height, Records(server, n + 1), positions', lastIndex', proofs')
              && |positions'| <= MAX_PROOFS_PER_BLOCK
    ensures error.Some? ==> !error.value.Chain? && !error.value.TooManyRecords?
  {
    assert Records(server, n + 1) == Records(server, n) + page;
    positions', lastIndex', proofs', error := ReadPage(sha, height, page, Records(server, n), positions, lastIndex, proofs);
    if error.None? {
      AtMost256(sha, height, Records(server, n + 1));
      PositionsCount(Records(server, n + 1));
    }
  }

  /** Reads one page after `seen`, the records already read. */
  method ReadPage(
    sha: Sha256, height: nat, page: seq<QueryProof>, ghost seen: seq<QueryProof>,
    positions: set<ProofKey>, lastIndex: Option<nat>, proofs: seq<ChainProof>)
    returns (positions': set<ProofKey>, lastIndex': Option<nat>, proofs': seq<ChainProof>, error: Option<QueryError>)
    requires Remembers(sha, height, seen, positions, lastIndex, proofs)
    ensures error.None? <==> GoodRecords(sha, height, seen + page)
    ensures error.None? ==> Remembers(sha, height, seen + page, positions', lastIndex', proofs')
    ensures error.Some? ==> !error.value.Chain? && !error.value.TooManyRecords?
  {
    positions', lastIndex', proofs', error := positions, lastIndex, proofs, None;
    PartEnds(seen, page);
    for j := 0 to |page|
      invariant Remembers(sha, height, Part(seen, page, j), positions', lastIndex', proofs')
    {
      var proof := page[j];
      ghost var read := Part(seen, page, j);
      OneMore(sha, height, read, proof, positions', lastIndex', proofs');
      PartStep(sha, height, seen, page, j);
      if proof.key.None? {
        error := Some(Contract(MissingKey));
        return;
      }
      var key := proof.key.value;
      if key in positions' {
        error := Some(DuplicateIndex);
        return;
      }
      positions' := positions' + {key};
      if lastIndex'.Some? && key.index <= lastIndex'.value {
        error := Some(Unordered);
        return;
      }
      lastIndex' := Some(key.index);
      var validated := ValidateQueryProof(sha, proof, height);
      if validated.Err? {
        error := Some(Contract(validated.error));
        return;
      }
      proofs' := proofs' + (if validated.value.Some? then [validated.value.value] else []);
    }
  }

  /** The records read once j of the page have been read. */
  ghost function Part(seen: seq<QueryProof>, page: seq<QueryProof>, j: nat): seq<QueryProof>
    requires j <= |page|
  {
    seen + page[..j]
  }

  lemma PartEnds(seen: seq<QueryProof>, page: seq<QueryProof>)
    ensures Part(seen, page, 0) == seen && Part(seen, page, |page|) == seen + page
  {
    assert page[..0] == [] && page[..|page|] == page;
  }

  lemma PartStep(sha: Sha256, height: nat, seen: seq<QueryProof>, page: seq<QueryProof>, j: nat)
    requires j < |page|
    ensures Part(seen, page, j + 1) == Part(seen, page, j) + [page[j]]
    ensures !GoodRecords(sha, height, Part(seen, page, j) + [page[j]]) ==> !GoodRecords(sha, height, seen + page)
  {
    var next := Part(seen, page, j) + [page[j]];
    assert page[..j + 1] == page[..j] + [page[j]];
    assert next <= seen + page;
    if !GoodRecords(sha, height, next) { BadPrefix(sha, height, next, seen + page); }
  }

  lemma BadPrefix(sha: Sha256, height: nat, a: seq<QueryProof>, b: seq<QueryProof>)
    requires !GoodRecords(sha, height, a) && a <= b
    ensures !GoodRecords(sha, height, b)
  {
    if GoodRecords(sha, height, b) { GoodPrefix(sha, height, a, b); }
  }

  lemma PositionsSnoc(records: seq<QueryProof>, q: QueryProof)
    requires q.key.Some?
    ensures PositionsOf(records + [q]) == PositionsOf(records) + {q.key.value}
  {
    var more := records + [q];
    forall key ensures key in PositionsOf(more) <==> key in PositionsOf(records) + {q.key.value} {
      if key in PositionsOf(records) {
        var i :| 0 <= i < |records| && records[i].key.Some? && records[i].key.value == key;
        assert more[i] == records[i];
      }
      if key == q.key.value { assert more[|records|] == q; }
    }
  }

  lemma SeenKeyIsNotNext(sha: Sha256, height: nat, records: seq<QueryProof>, q: QueryProof)
    requires GoodRecords(sha, height, records) && q.key.Some? && q.key.value in PositionsOf(records)
    ensures !GoodRecords(sha, height, records + [q])
  {
    var i :| 0 <= i < |records| && records[i].key == q.key;
    var more := records + [q];
    assert more[i] == records[i] && more[|records|] == q;
  }

  /** The client is about to send request n: the first n pages were good and each was followed. */
  ghost predicate Underway(sha: Sha256, height: nat, server: Server, n: nat) {
    && height > 0
    && (forall i :: 0 <= i < n ==> GoodAnswer(server, i))
    && (forall i :: 0 <= i < n ==> Continues(server, i))
    && KeysDistinct(server, n)
    && GoodRecords(sha, height, Records(server, n))
  }

  ghost predicate NoListing(sha: Sha256, height: nat, server: Server) {
    forall n: nat :: !Complete(sha, height, server, n)
  }

  ghost function KeysUpTo(server: Server, n: nat): set<Bytes> { set i | 0 <= i < n :: KeyAt(server, i) }

  lemma NextKey(server: Server, n: nat)
    ensures KeysUpTo(server, n + 1) == KeysUpTo(server, n) + {KeyAt(server, n)}
    ensures KeyAt(server, n) !in KeysUpTo(server, n) ==> forall i :: 0 <= i < n ==> KeyAt(server, i) != KeyAt(server, n)
    ensures KeyAt(server, n) in KeysUpTo(server, n) ==> exists i :: 0 <= i < n && KeyAt(server, i) == KeyAt(server, n)
  {
  }

  /** What the client sent: every request is for the given height, the first has no key and no pinned
      height, and every later one carries the key of the page before it and the height of the first answer. */
  ghost predicate Chained(height: nat, server: Server, requests: seq<Request>) {
    forall i :: 0 <= i < |requests| ==> requests[i].height == height && Follows(server, i, requests[i])
  }

  predicate Follows(server: Server, i: nat, q: Request) {
    if i == 0 then q.key == [] && q.queryHeight == None
    else
      && server(i - 1).Answer? && server(i - 1).page.Some? && server(0).Answer?
      && q.key == server(i - 1).page.value.nextKey != [] && q.queryHeight == Some(server(0).height)
  }

  /** The request for page i. */
  function RequestAt(height: nat, server: Server, i: nat): Request {
    Request(height, KeyAt(server, i), if i == 0 then None else Some(AnswerHeight(server(0))))
  }

  lemma UnderwayIsBounded(sha: Sha256, height: nat, server: Server, n: nat)
    requires Underway(sha, height, server, n)
    ensures n <= |Records(server, n)| <= MAX_PROOFS_PER_BLOCK
  {
    OneRecordPerPage(server, n);
    AtMost256(sha, height, Records(server, n));
  }

  lemma NextRequest(sha: Sha256, height: nat, server: Server, n: nat, requests: seq<Request>)
    requires Underway(sha, height, server, n) && |requests| == n && Chained(height, server, requests)
    ensures Chained(height, server, requests + [RequestAt(height, server, n)])
  {
    if n > 0 { assert Continues(server, n - 1) && GoodAnswer(server, n - 1) && GoodAnswer(server, 0); }
  }

  /** One more good page ends the listing or carries on with it. */
  lemma GoodPage(sha: Sha256, height: nat, server: Server, n: nat)
    requires Underway(sha, height, server, n) && GoodAnswer(server, n)
    requires forall i :: 0 <= i < n ==> KeyAt(server, i) != KeyAt(server, n)
    requires GoodRecords(sha, height, Records(server, n + 1))
    ensures PageOf(server(n)).nextKey == [] ==> Complete(sha, height, server, n + 1)
    ensures Continues(server, n) ==> Underway(sha, height, server, n + 1)
  {
  }

  /** pin_query_height and the checks on the response envelope. */
  method ReadAnswer(answer: Answer, pinned: Option<nat>) returns (r: Result<Page, QueryError>)
    ensures r.Ok? <==>
              && answer.Answer? && answer.ok && answer.page.Some?
              && (pinned.Some? ==> answer.height == pinned.value)
    ensures r.Ok? ==> r.value == PageOf(answer)
    ensures r.Err? ==> r.error.Chain? || r.error.HeightNotPinned? || r.error.Undecodable?
    ensures r == Err(Chain) ==> answer.Failed? || !answer.ok
  {
    if answer.Failed? {
      return Err(Chain);
    }
    if pinned.Some? && answer.height != pinned.value {
      return Err(HeightNotPinned);
    }
    if !answer.ok {
      return Err(Chain);
    }
    if answer.page.None? {
      return Err(Undecodable);
    }
    return Ok(answer.page.value);
  }

  /** What a result after n requests means. A success is the pending records of the complete listing that
      the n answers form; a failure means that no number of answers forms one. Errors of kind Chain come
      only from a zero height or from a call that failed. */
  ghost predicate Settles(sha: Sha256, height: nat, server: Server, n: nat, r: Result<seq<ChainProof>, QueryError>) {
    match r
    case Ok(proofs) => Complete(sha, height, server, n) && proofs == PendingOf(sha, height, Records(server, n))
    case Err(e) =>
      && NoListing(sha, height, server)
      && (e.Chain? ==> height == 0 || (n > 0 && (server(n - 1).Failed? || !server(n - 1).ok)))
  }

  lemma FailureSettles(sha: Sha256, height: nat, server: Server, n: nat, e: QueryError)
    requires NoListing(sha, height, server)
    requires e.Chain? ==> height == 0 || (n > 0 && (server(n - 1).Failed? || !server(n - 1).ok))
    ensures Settles(sha, height, server, n, Err(e))
  {
  }

  lemma SuccessSettles(sha: Sha256, height: nat, server: Server, n: nat, proofs: seq<ChainProof>)
    requires Complete(sha, height, server, n) && proofs == PendingOf(sha, height, Records(server, n))
    ensures Settles(sha, height, server, n, Ok(proofs))
  {
  }

  /** Request n up to the end of its page: either the page extends the good listing, or there is none. */
  method Fetch(
    sha: Sha256, height: nat, server: Server, n: nat, pinned: Option<nat>,
    positions: set<ProofKey>, lastIndex: Option<nat>, proofs: seq<ChainProof>)
    returns (r: Result<Page, QueryError>, positions': set<ProofKey>, lastIndex': Option<nat>, proofs': seq<ChainProof>)
    requires Underway(sha, height, server, n) && pinned == RequestAt(height, server, n).queryHeight
    requires Remembers(sha, height, Records(server, n), positions, lastIndex, proofs)
    ensures r.Err? ==> Settles(sha, height, server, n + 1, Err(r.error)) && !r.error.TooManyRecords?
    ensures r.Ok? ==>
              && GoodAnswer(server, n) && r.value == PageOf(server(n))
              && Remembers(sha, height, Records(server, n + 1), positions', lastIndex', proofs')
              && |positions'| <= MAX_PROOFS_PER_BLOCK
  {
    positions', lastIndex', proofs' := positions, lastIndex, proofs;
    r := ReadAnswer(server(n), pinned);
    if r.Err? {
      BadAnswerFails(sha, height, server, n);
      FailureSettles(sha, height, server, n + 1, r.error);
      return;
    }
    var error: Option<QueryError>;
    positions', lastIndex', proofs', error :=
      ReadPageOf(sha, height, r.value.proofs, server, n, positions, lastIndex, proofs);
    if error.Some? {
      BadRecordsFail(sha, height, server, n);
      FailureSettles(sha, height, server, n + 1, error.value);
      r := Err(error.value);
    }
  }

  /** Whatever the server does, the query ends after at most 257 requests and settles which case it is:
      success exactly when the answers start with a complete listing. Its requests
      follow the pages at one height. The check for more than 256 records never fires. */
  method ProofsByHeight(sha: Sha256, height: nat, server: Server)
    returns (r: Result<seq<ChainProof>, QueryError>, requests: seq<Request>)
    ensures |requests| <= MAX_PROOFS_PER_BLOCK + 1
    ensures Settles(sha, height, server, |requests|, r)
    ensures r != Err(TooManyRecords)
    ensures Chained(height, server, requests)
  {
    requests := [];
    if height == 0 {
      return Err(Chain), requests;
    }
    var nextKey: Bytes, proofs: seq<ChainProof>, positions: set<ProofKey> := [], [], {};
    var paginationKeys: set<Bytes>, lastIndex: Option<nat>, queryHeight: Option<nat> := {}, None, None;
    var n := 0;
    while true
      invariant Underway(sha, height, server, n)
      invariant Remembers(sha, height, Records(server, n), positions, lastIndex, proofs)
      invariant paginationKeys == KeysUpTo(server, n)
      invariant Request(height, nextKey, queryHeight) == RequestAt(height, server, n)
      invariant |requests| == n && Chained(height, server, requests)
      decreases MAX_PROOFS_PER_BLOCK + 1 - n
    {
      UnderwayIsBounded(sha, height, server, n);
      NextKey(server, n);
      if nextKey in paginationKeys {
        RepeatedKeyFails(sha, height, server, n);
        FailureSettles(sha, height, server, n, RepeatedKey);
        return Err(RepeatedKey), requests;
      }
      paginationKeys := paginationKeys + {nextKey};
      NextRequest(sha, height, server, n, requests);
      requests := requests + [Request(height, nextKey, queryHeight)];
      assert |requests| == n + 1 && Chained(height, server, requests);
      var received: Result<Page, QueryError>;
      received, positions, lastIndex, proofs := Fetch(sha, height, server, n, queryHeight, positions, lastIndex, proofs);
      if received.Err? {
        return Err(received.error), requests;
      }
      queryHeight := Some(server(n).height);
      var page := received.value;
      if |positions| > MAX_PROOFS_PER_BLOCK {
        assert false;
        return Err(TooManyRecords), requests;
      }
      GoodPage(sha, height, server, n);
      nextKey := page.nextKey;
      if nextKey == [] {
        SuccessSettles(sha, height, server, n + 1, proofs);
        return Ok(proofs), requests;
      }
      if page.proofs == [] {
        EmptyPageFails(sha, height, server, n);
        FailureSettles(sha, height, server, n + 1, EmptyPageContinues);
        return Err(EmptyPageContinues), requests;
      }
      n := n + 1;
    }
  }

  lemma {:induction false} PositionsCount(records: seq<QueryProof>)
    requires Ordered(records)
    ensures |PositionsOf(records)| == |records|
  {
    if records == [] {
      assert PositionsOf(records) == {};
    } else {
      var n := |records| - 1;
      var init, last := records[..n], records[n];
      assert records == init + [last];
      PositionsCount(init);
      PositionsSnoc(init, last);
      forall i | 0 <= i < n ensures init[i].key.value != last.key.value { assert records[i] == init[i]; }
    }
  }

  // ---------------------------------------------------------------- why a failure is final

  /** Everything up to page n was fine and continued, so only listings longer than n are possible. */
  lemma OnlyLonger(sha: Sha256, height: nat, server: Server, n: nat, m: nat)
    requires (forall i :: 0 <= i < n ==> Continues(server, i)) && Complete(sha, height, server, m)
    ensures m > n
  {
    assert m <= n ==> Continues(server, m - 1);
  }

  lemma RepeatedKeyFails(sha: Sha256, height: nat, server: Server, n: nat)
    requires forall i :: 0 <= i < n ==> Continues(server, i)
    requires exists i :: 0 <= i < n && KeyAt(server, i) == KeyAt(server, n)
    ensures NoListing(sha, height, server)
  {
    forall m: nat ensures !Complete(sha, height, server, m) {
      if Complete(sha, height, server, m) { OnlyLonger(sha, height, server, n, m); }
    }
  }

  lemma BadAnswerFails(sha: Sha256, height: nat, server: Server, n: nat)
    requires (forall i :: 0 <= i < n ==> Continues(server, i)) && !GoodAnswer(server, n)
    ensures NoListing(sha, height, server)
  {
    forall m: nat ensures !Complete(sha, height, server, m) {
      if Complete(sha, height, server, m) { OnlyLonger(sha, height, server, n, m); }
    }
  }

  lemma BadRecordsFail(sha: Sha256, height: nat, server: Server, n: nat)
    requires (forall i :: 0 <= i < n ==> Continues(server, i)) && !GoodRecords(sha, height, Records(server, n + 1))
    ensures NoListing(sha, height, server)
  {
    forall m: nat ensures !Complete(sha, height, server, m) {
      if Complete(sha, height, server, m) {
        OnlyLonger(sha, height, server, n, m);
        RecordsPrefix(server, n + 1, m);
        GoodPrefix(sha, height, Records(server, n + 1), Records(server, m));
      }
    }
  }

  lemma EmptyPageFails(sha: Sha256, height: nat, server: Server, n: nat)
    requires forall i :: 0 <= i < n ==> Continues(server, i)
    requires PageOf(server(n)).nextKey != [] && PageOf(server(n)).proofs == []
    ensures NoListing(sha, height, server)
  {
    forall m: nat ensures !Complete(sha, height, server, m) {
      assert !Continues(server, n);
      if Complete(sha, height, server, m) { OnlyLonger(sha, height, server, n, m); }
    }
  }
}
