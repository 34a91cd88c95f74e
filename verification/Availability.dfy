/** The ephemeral provider index (src/p2p/availability.rs): a map of sets kept free of empty buckets,
    standing for a plain relation between verification ids and peers. */
module Availability {
  import opened Common
  import opened Proofs
  import opened Records

  type Index = map<VerificationId, set<PeerId>>

  predicate NoEmptyBuckets(ix: Index) { forall id :: id in ix ==> ix[id] != {} }

  predicate Lists(ix: Index, id: VerificationId, peer: PeerId) { id in ix && peer in ix[id] }

  function ProvidersOf(ix: Index, id: VerificationId): set<PeerId> { if id in ix then ix[id] else {} }

  function Add(ix: Index, id: VerificationId, peer: PeerId): (r: Index)
    ensures forall i, p :: Lists(r, i, p) <==> Lists(ix, i, p) || (i == id && p == peer)
    ensures NoEmptyBuckets(ix) ==> NoEmptyBuckets(r)
  {
    ix[id := ProvidersOf(ix, id) + {peer}]
  }

  function RemoveProvider(ix: Index, id: VerificationId, peer: PeerId): (r: Index)
    ensures forall i, p :: Lists(r, i, p) <==> Lists(ix, i, p) && !(i == id && p == peer)
    ensures NoEmptyBuckets(ix) ==> NoEmptyBuckets(r)
  {
    if id !in ix then ix
    else if ix[id] - {peer} == {} then
      assert forall p :: p in ix[id] ==> p == peer || p in ix[id] - {peer};
      ix - {id}
    else ix[id := ix[id] - {peer}]
  }

  function RemovePeer(ix: Index, peer: PeerId): (r: Index)
    ensures forall i, p :: Lists(r, i, p) <==> Lists(ix, i, p) && p != peer
    ensures NoEmptyBuckets(r)
  {
    assert forall i, p :: Lists(ix, i, p) && p != peer ==> p in ix[i] - {peer};
    map id | id in ix && ix[id] - {peer} != {} :: ix[id] - {peer}
  }

  function AddAll(ix: Index, id: VerificationId, peers: set<PeerId>): (r: Index)
    ensures forall i, p :: Lists(r, i, p) <==> Lists(ix, i, p) || (i == id && p in peers)
    ensures NoEmptyBuckets(ix) ==> NoEmptyBuckets(r)
  {
    if peers == {} then ix else ix[id := ProvidersOf(ix, id) + peers]
  }

  /** The relation after replacing everything one peer is listed for. */
  ghost predicate IsReplacement(ix: Index, r: Index, peer: PeerId, ids: set<VerificationId>) {
    && NoEmptyBuckets(r)
    && forall i, p :: Lists(r, i, p) <==> if p == peer then i in ids else Lists(ix, i, p)
  }

  /** An index without empty buckets is determined by its relation. */
  lemma RelationDeterminesIndex(a: Index, b: Index)
    requires NoEmptyBuckets(a) && NoEmptyBuckets(b)
    requires forall i, p :: Lists(a, i, p) <==> Lists(b, i, p)
    ensures a == b
  {
    forall id | id in a ensures id in b {
      var p :| p in a[id];
      assert Lists(a, id, p);
    }
    forall id | id in b ensures id in a {
      var p :| p in b[id];
      assert Lists(b, id, p);
    }
    forall id | id in a ensures a[id] == b[id] {
      forall p ensures p in a[id] <==> p in b[id] { assert Lists(a, id, p) <==> Lists(b, id, p); }
    }
  }

  /** The provider list of a gossip response, None where a peer id does not parse, is acceptable. */
  predicate ProvidersOk(raw: seq<Option<PeerId>>, authorized: set<PeerId>, maximum: nat) {
    |raw| <= maximum && forall i :: 0 <= i < |raw| ==> raw[i].Some? && raw[i].value in authorized
  }

  function Named(raw: seq<Option<PeerId>>): set<PeerId> {
    set i | 0 <= i < |raw| && raw[i].Some? :: raw[i].value
  }

  /** Refused when it is too long, when a peer id does not parse or when it names a peer outside the
      allow-list; otherwise the peers it names. */
  method ValidateProviders(raw: seq<Option<PeerId>>, authorized: set<PeerId>, maximum: nat)
    returns (r: Option<set<PeerId>>)
    ensures r.Some? <==> ProvidersOk(raw, authorized, maximum)
    ensures r.Some? ==> r.value == Named(raw) <= authorized && forall p :: p in r.value <==> Some(p) in raw
  {
    if |raw| > maximum {
      return None;
    }
    var unique: set<PeerId> := {};
    for k := 0 to |raw|
      invariant forall i :: 0 <= i < k ==> raw[i].Some? && raw[i].value in authorized
      invariant forall p :: p in unique <==> Some(p) in raw[..k]
    {
      if raw[k].None? || raw[k].value !in authorized {
        return None;
      }
      assert raw[..k + 1] == raw[..k] + [raw[k]];
      unique := unique + {raw[k].value};
    }
    assert raw[..|raw|] == raw;
    return Some(unique);
  }

  // ---------------------------------------------------------------- sorting by bytes

  /** Byte strings compare at the first place where they differ; a proper prefix comes first. */
  predicate Less(a: Bytes, b: Bytes) {
    if b == [] then false
    else if a == [] then true
    else a[0] < b[0] || (a[0] == b[0] && Less(a[1..], b[1..]))
  }

  lemma {:induction false} LessIsTotal(a: Bytes, b: Bytes)
    ensures a != b ==> Less(a, b) || Less(b, a)
    ensures !(Less(a, b) && Less(b, a)) && !Less(a, a)
  {
    if a != [] { LessIsTotal(a[1..], a[1..]); }
    if a != [] && b != [] {
      LessIsTotal(a[1..], b[1..]);
      assert a == [a[0]] + a[1..] && b == [b[0]] + b[1..];
    }
  }

  lemma {:induction false} LessIsTransitive(a: Bytes, b: Bytes, c: Bytes)
    requires Less(a, b) && Less(b, c)
    ensures Less(a, c)
  {
    if a != [] && a[0] == b[0] == c[0] { LessIsTransitive(a[1..], b[1..], c[1..]); }
  }

  predicate Sorted(ps: seq<PeerId>) { forall i, j :: 0 <= i < j < |ps| ==> Less(ps[i].key, ps[j].key) }

  lemma EmptyOrNot(ps: seq<PeerId>)
    ensures ps == [] || exists p :: p in ps
  {
    if ps != [] { assert ps[0] in ps; }
  }

  /** A set of peers has one sorted listing. */
  lemma {:induction false} SortedIsUnique(a: seq<PeerId>, b: seq<PeerId>)
    requires Sorted(a) && Sorted(b) && forall p :: p in a <==> p in b
    ensures a == b
  {
    if a == [] {
      EmptyOrNot(b);
    } else {
      assert a[0] in b && b != [] && b[0] in a;
      LessIsTotal(a[0].key, b[0].key);
      assert a[0] == b[0];
      forall p ensures p in a[1..] <==> p in b[1..] {
        LessIsTotal(p.key, p.key);
        assert p in a <==> p == a[0] || p in a[1..];
        assert p in b <==> p == b[0] || p in b[1..];
      }
      SortedIsUnique(a[1..], b[1..]);
    }
  }

  /** Puts a peer at its place. */
  method InsertSorted(ps: seq<PeerId>, p: PeerId) returns (r: seq<PeerId>)
    requires Sorted(ps) && p !in ps
    ensures Sorted(r) && forall q :: q in r <==> q in ps || q == p
  {
    var k := 0;
    while k < |ps| && Less(ps[k].key, p.key)
      invariant k <= |ps| && forall i :: 0 <= i < k ==> Less(ps[i].key, p.key)
    {
      k := k + 1;
    }
    r := ps[..k] + [p] + ps[k..];
    SplitSorted(ps, p, k);
    assert ps == ps[..k] + ps[k..];
  }

  lemma SplitSorted(ps: seq<PeerId>, p: PeerId, k: nat)
    requires Sorted(ps) && p !in ps && k <= |ps|
    requires forall i :: 0 <= i < k ==> Less(ps[i].key, p.key)
    requires k < |ps| ==> !Less(ps[k].key, p.key)
    ensures Sorted(ps[..k] + [p] + ps[k..])
  {
    forall j | k <= j < |ps| ensures Less(p.key, ps[j].key) {
      assert ps[k] in ps;
      LessIsTotal(p.key, ps[k].key);
      if j > k { LessIsTransitive(p.key, ps[k].key, ps[j].key); }
    }
  }

  class AvailabilityIndex {
    var providers: Index

    ghost predicate Valid()
      reads this
    {
      NoEmptyBuckets(providers)
    }

    constructor ()
      ensures Valid() && providers == map[]
    {
      providers := map[];
    }

    method AddOne(id: VerificationId, peer: PeerId)
      requires Valid()
      modifies this
      ensures Valid() && providers == Add(old(providers), id, peer)
    {
      if id !in providers {
        providers := providers[id := {}];
      }
      providers := providers[id := providers[id] + {peer}];
    }

    method RemoveOne(id: VerificationId, peer: PeerId)
      requires Valid()
      modifies this
      ensures Valid() && providers == RemoveProvider(old(providers), id, peer)
    {
      if id in providers {
        providers := providers[id := providers[id] - {peer}];
        if providers[id] == {} {
          providers := providers - {id};
        }
      }
    }

    /** The retain over every bucket. */
    method RemoveEverywhere(peer: PeerId)
      requires Valid()
      modifies this
      ensures Valid() && providers == RemovePeer(old(providers), peer)
    {
      var todo := providers.Keys;
      while todo != {}
        invariant Valid() && todo <= providers.Keys
        invariant forall i :: i in todo ==> i in old(providers) && providers[i] == old(providers)[i]
        invariant forall i :: i in old(providers) && i !in todo ==>
                    if old(providers)[i] - {peer} == {} then i !in providers
                    else i in providers && providers[i] == old(providers)[i] - {peer}
        invariant providers.Keys <= old(providers).Keys
        decreases todo
      {
        var id :| id in todo;
        todo := todo - {id};
        var left := providers[id] - {peer};
        providers := if left == {} then providers - {id} else providers[id := left];
      }
    }

    method ReplaceProviderProofs(peer: PeerId, ids: set<VerificationId>)
      requires Valid()
      modifies this
      ensures Valid() && IsReplacement(old(providers), providers, peer, ids)
    {
      RemoveEverywhere(peer);
      var todo := ids;
      while todo != {}
        invariant Valid() && todo <= ids
        invariant forall i, p :: Lists(providers, i, p) <==>
                    if p == peer then i in ids && i !in todo else Lists(old(providers), i, p)
        decreases todo
      {
        var id :| id in todo;
        todo := todo - {id};
        AddOne(id, peer);
      }
    }

    /** Every listed provider of the id, once each, in increasing order of their bytes. */
    method Providers(id: VerificationId) returns (r: seq<PeerId>)
      ensures Sorted(r) && forall p :: p in r <==> Lists(providers, id, p)
    {
      r := [];
      var todo := ProvidersOf(providers, id);
      while todo != {}
        invariant todo <= ProvidersOf(providers, id)
        invariant Sorted(r) && forall p :: p in r <==> p in ProvidersOf(providers, id) && p !in todo
        decreases todo
      {
        var p :| p in todo;
        todo := todo - {p};
        r := InsertSorted(r, p);
      }
    }
  }
}
