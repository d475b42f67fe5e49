/**
 * The ICE candidate cache of `VoipStateService`: batches appended per peer
 * while no call is under way, and the flush that broadcasts them all when
 * the call starts initializing. Also the candidate list of
 * `sendICECandidatesMessage`.
 */
module Candidates {
  import opened VoipTypes

  /** Cached batches per peer, in arrival order. */
  type Cache = map<Identity, seq<ICECandidatesData>>

  /** `cacheCandidate`: append the batch to the peer's list, creating it if absent. */
  function CacheAppend(cache: Cache, peer: Identity, data: ICECandidatesData): (r: Cache)
    ensures r.Keys == cache.Keys + {peer}
    ensures r[peer] == (if peer in cache then cache[peer] else []) + [data]
    ensures forall k :: k in cache && k != peer ==> r[k] == cache[k]
  {
    cache[peer := (if peer in cache then cache[peer] else []) + [data]]
  }

  /** The broadcast of one cached batch. */
  function BroadcastOf(peer: Identity, data: ICECandidatesData): Broadcast {
    IceBroadcast(CallIdOrDefault(data.callId), peer, data)
  }

  /** The broadcasts of a peer's batches, in order (inner loop of the flush). */
  function PeerBroadcasts(peer: Identity, batches: seq<ICECandidatesData>): seq<Broadcast> {
    if batches == [] then []
    else PeerBroadcasts(peer, batches[..|batches| - 1]) + [BroadcastOf(peer, batches[|batches| - 1])]
  }

  /** The broadcasts of the flush when the map yields its peers in `order` (outer loop). */
  function Flush(cache: Cache, order: seq<Identity>): seq<Broadcast>
    requires forall k :: k in order ==> k in cache
  {
    if order == [] then []
    else Flush(cache, order[..|order| - 1]) + PeerBroadcasts(order[|order| - 1], cache[order[|order| - 1]])
  }

  ghost predicate Distinct(order: seq<Identity>) {
    forall i, j :: 0 <= i < j < |order| ==> order[i] != order[j]
  }

  /** `order` enumerates the peers of the cache, each once: one possible iteration order of the map. */
  ghost predicate OrderOf(order: seq<Identity>, cache: Cache) {
    Distinct(order) && forall k :: k in order <==> k in cache
  }

  /** `after` extends `before` with the flush of `cache`, in some iteration order of the map. */
  ghost predicate FlushedFrom(cache: Cache, before: seq<Broadcast>, after: seq<Broadcast>) {
    exists order :: OrderOf(order, cache) && after == before + Flush(cache, order)
  }

  /** One more step of the inner loop of the flush. */
  lemma PeerBroadcastsStep(peer: Identity, batches: seq<ICECandidatesData>, j: nat)
    requires j < |batches|
    ensures PeerBroadcasts(peer, batches[..j + 1]) == PeerBroadcasts(peer, batches[..j]) + [BroadcastOf(peer, batches[j])]
  {
    assert batches[..j + 1][..j] == batches[..j];
  }

  /** One more step of the outer loop of the flush: the next peer is new and its broadcasts follow. */
  lemma FlushStep(cache: Cache, order: seq<Identity>, remaining: set<Identity>, peer: Identity)
    requires Distinct(order)
    requires forall k :: k in order <==> k in cache && k !in remaining
    requires peer in remaining && peer in cache
    ensures Distinct(order + [peer])
    ensures forall k :: k in order + [peer] <==> k in cache && k !in remaining - {peer}
    ensures Flush(cache, order + [peer]) == Flush(cache, order) + PeerBroadcasts(peer, cache[peer])
  {
  }

  /** The batches broadcast for `peer`, in broadcast order. */
  function BatchesFor(out: seq<Broadcast>, peer: Identity): seq<ICECandidatesData> {
    if out == [] then []
    else
      var last := out[|out| - 1];
      BatchesFor(out[..|out| - 1], peer) + (if last.IceBroadcast? && last.peer == peer then [last.data] else [])
  }

  lemma {:induction false} BatchesForAppend(a: seq<Broadcast>, b: seq<Broadcast>, peer: Identity)
    ensures BatchesFor(a + b, peer) == BatchesFor(a, peer) + BatchesFor(b, peer)
    decreases |b|
  {
    if b != [] {
      var b' := b[..|b| - 1];
      assert (a + b)[..|a + b| - 1] == a + b';
      BatchesForAppend(a, b', peer);
    } else {
      assert a + b == a;
    }
  }

  lemma {:induction false} BatchesForPeerBroadcasts(p: Identity, batches: seq<ICECandidatesData>, peer: Identity)
    ensures BatchesFor(PeerBroadcasts(p, batches), peer) == (if p == peer then batches else [])
    decreases |batches|
  {
    if batches != [] {
      var init := batches[..|batches| - 1];
      BatchesForAppend(PeerBroadcasts(p, init), [BroadcastOf(p, batches[|batches| - 1])], peer);
      BatchesForPeerBroadcasts(p, init, peer);
      assert [BroadcastOf(p, batches[|batches| - 1])][..0] == [];
      assert init + [batches[|batches| - 1]] == batches;
    }
  }

  /** Splitting the last peer off a duplicate-free order. */
  lemma DistinctSplit(order: seq<Identity>)
    requires Distinct(order) && order != []
    ensures Distinct(order[..|order| - 1])
    ensures order[|order| - 1] !in order[..|order| - 1]
    ensures forall k :: k in order <==> k in order[..|order| - 1] || k == order[|order| - 1]
  {
  }

  lemma {:induction false} BatchesForFlush(cache: Cache, order: seq<Identity>, peer: Identity)
    requires Distinct(order)
    requires forall k :: k in order ==> k in cache
    ensures BatchesFor(Flush(cache, order), peer) == (if peer in order then cache[peer] else [])
    decreases |order|
  {
    if order != [] {
      var init := order[..|order| - 1];
      var last := order[|order| - 1];
      DistinctSplit(order);
      BatchesForFlush(cache, init, peer);
      BatchesForAppend(Flush(cache, init), PeerBroadcasts(last, cache[last]), peer);
      BatchesForPeerBroadcasts(last, cache[last], peer);
      if peer == last {
        assert BatchesFor(Flush(cache, order), peer) == [] + cache[peer];
      } else {
        assert BatchesFor(Flush(cache, order), peer) == BatchesFor(Flush(cache, init), peer) + [];
      }
    }
  }

  /**
   * The flush on entering Initializing broadcasts every cached batch exactly
   * once and nothing else: the broadcasts for a peer are that peer's batches
   * in arrival order, and a peer without a cache entry gets none. Earlier
   * broadcasts are kept.
   */
  lemma FlushDeliversEachPeerInOrder(cache: Cache, before: seq<Broadcast>, after: seq<Broadcast>, peer: Identity)
    requires FlushedFrom(cache, before, after)
    ensures |before| <= |after| && after[..|before|] == before
    ensures BatchesFor(after[|before|..], peer) == (if peer in cache then cache[peer] else [])
  {
    var order :| OrderOf(order, cache) && after == before + Flush(cache, order);
    assert after[|before|..] == Flush(cache, order);
    BatchesForFlush(cache, order, peer);
  }

  /** A flush broadcasts only ICE candidates, each from a peer of the cache. */
  lemma {:induction false} FlushOnlyCachedPeers(cache: Cache, order: seq<Identity>)
    requires forall k :: k in order ==> k in cache
    ensures forall b :: b in Flush(cache, order) ==> b.IceBroadcast? && b.peer in cache
    decreases |order|
  {
    if order != [] {
      var init := order[..|order| - 1];
      var last := order[|order| - 1];
      assert forall k :: k in init ==> k in order;
      FlushOnlyCachedPeers(cache, init);
      PeerBroadcastsArePeers(last, cache[last]);
    }
  }

  lemma {:induction false} PeerBroadcastsArePeers(p: Identity, batches: seq<ICECandidatesData>)
    ensures forall b :: b in PeerBroadcasts(p, batches) ==> b.IceBroadcast? && b.peer == p
    decreases |batches|
  {
    if batches != [] {
      PeerBroadcastsArePeers(p, batches[..|batches| - 1]);
    }
  }

  /** The wire candidate built from a local WebRTC candidate (no ufrag). */
  function ToCandidate(c: IceCandidate): Candidate {
    Candidate(c.sdp, c.sdpMid, c.sdpMLineIndex, None)
  }

  /** The candidates of `sendICECandidatesMessage`: null entries dropped, order kept. */
  function Present(cs: seq<Option<IceCandidate>>): seq<Candidate> {
    if cs == [] then []
    else Present(cs[..|cs| - 1]) + (if cs[|cs| - 1].Some? then [ToCandidate(cs[|cs| - 1].value)] else [])
  }

  /** Dropping nulls commutes with concatenation, so the relative order of candidates is kept. */
  lemma {:induction false} PresentAppend(a: seq<Option<IceCandidate>>, b: seq<Option<IceCandidate>>)
    ensures Present(a + b) == Present(a) + Present(b)
    decreases |b|
  {
    if b != [] {
      var b' := b[..|b| - 1];
      assert (a + b)[..|a + b| - 1] == a + b';
      PresentAppend(a, b');
    } else {
      assert a + b == a;
    }
  }

  /** A candidate is sent iff it was passed in (not null); none is invented. */
  lemma {:induction false} PresentMembers(cs: seq<Option<IceCandidate>>, c: IceCandidate)
    ensures ToCandidate(c) in Present(cs) <==> Some(c) in cs
    decreases |cs|
  {
    if cs != [] {
      var init := cs[..|cs| - 1];
      PresentMembers(init, c);
      assert cs == init + [cs[|cs| - 1]];
    }
  }

  /** The loop of `sendICECandidatesMessage` that collects the non-null candidates. */
  method CollectCandidates(iceCandidates: seq<Option<IceCandidate>>) returns (candidates: seq<Candidate>)
    ensures candidates == Present(iceCandidates)
  {
    candidates := [];
    for i := 0 to |iceCandidates|
      invariant candidates == Present(iceCandidates[..i])
    {
      assert iceCandidates[..i + 1][..i] == iceCandidates[..i];
      var c := iceCandidates[i];
      if c.Some? {
        candidates := candidates + [ToCandidate(c.value)];
      }
    }
    assert iceCandidates[..|iceCandidates|] == iceCandidates;
  }
}
