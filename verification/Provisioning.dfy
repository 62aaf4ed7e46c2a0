/**
 The provisioner: one pass gives the peers that lack a dedicated channel on our own
 relay one each, oldest first and at most `limit` of them.
 */
module Provisioning {
  import opened Wrappers
  import opened Nostr
  import opened Counting
  import opened Hub
  import opened Tables
  import opened Database

  const MAX_PER_PASS := 10

  /** The members, other than `home`, that `home` holds no dedicated row for, open or closed. */
  function Missing(eps: Endpoints, home: CommunityId): (peers: set<CommunityId>)
    ensures forall c :: c in peers <==> c != home && IsMember(eps, c) && !HasDedicated(eps, home, c)
  {
    var peers := set id | id in eps && IsOrdinary(eps, id, eps[id].community) && eps[id].community != home
                          && !HasDedicated(eps, home, eps[id].community) :: eps[id].community;
    assert forall c | c != home && IsMember(eps, c) && !HasDedicated(eps, home, c) :: c in peers by {
      forall c | c != home && IsMember(eps, c) && !HasDedicated(eps, home, c) ensures c in peers {
        var id :| id in eps && IsOrdinary(eps, id, c);
        assert eps[id].community in peers;
      }
    }
    peers
  }

  lemma AttachMakesDedicated(r: Registry, community: CommunityId, peer: CommunityId, channel: string, id: EndpointId)
    requires id !in r.endpoints && Attachable(r, community, peer, channel)
    ensures var eps' := Attach(r, community, peer, channel, id).endpoints;
            && HasDedicated(eps', community, peer)
            && (forall c | c != peer :: HasDedicated(eps', community, c) <==> HasDedicated(r.endpoints, community, c))
            && (forall c :: IsMember(eps', c) <==> IsMember(r.endpoints, c))
  {
    var eps, eps' := r.endpoints, Attach(r, community, peer, channel, id).endpoints;
    assert IsDedicated(eps', id, community, peer);
    forall c | c != peer ensures HasDedicated(eps', community, c) <==> HasDedicated(eps, community, c) {
      if HasDedicated(eps, community, c) {
        var e :| e in eps && IsDedicated(eps, e, community, c);
        assert IsDedicated(eps', e, community, c);
      }
    }
    forall c ensures IsMember(eps', c) <==> IsMember(eps, c) {
      if IsMember(eps, c) {
        var e :| e in eps && IsOrdinary(eps, e, c);
        assert IsOrdinary(eps', e, c);
      }
    }
  }

  /** Rows are only added: none is changed, so no closed channel is turned back on. */
  ghost predicate OnlyAdds(eps: Endpoints, eps': Endpoints) {
    forall e | e in eps :: e in eps' && eps'[e] == eps[e]
  }

  /** Binding a channel adds one row and takes exactly its peer off the list. */
  lemma AttachShrinksMissing(r: Registry, home: CommunityId, peer: CommunityId, channel: string, id: EndpointId)
    requires id !in r.endpoints
    ensures var eps' := Attach(r, home, peer, channel, id).endpoints;
            && OnlyAdds(r.endpoints, eps') && (IsMember(r.endpoints, home) ==> IsMember(eps', home))
            && if Attachable(r, home, peer, channel) then
                 eps'.Keys == r.endpoints.Keys + {id} && Missing(eps', home) == Missing(r.endpoints, home) - {peer}
               else eps' == r.endpoints
  {
    if Attachable(r, home, peer, channel) {
      AttachMakesDedicated(r, home, peer, channel, id);
    }
  }

  predicate IsBatch(peers: seq<CommunityId>, missing: set<CommunityId>) {
    && (forall c | c in peers :: c in missing)
    && forall i, j | 0 <= i < j < |peers| :: peers[i] != peers[j]
  }

  /** The ordinary rows of those members; row ids ascend as rows are created. */
  function WaitingRows(eps: Endpoints, home: CommunityId): set<EndpointId> {
    set id | id in eps && IsOrdinary(eps, id, eps[id].community) && eps[id].community in Missing(eps, home)
  }

  /** A listed peer's row is older than that of every missing peer not listed before it. */
  ghost predicate OldestFirst(eps: Endpoints, missing: set<CommunityId>, peers: seq<CommunityId>) {
    forall n, c, i, j | 0 <= n < |peers| && c in missing && c !in peers[..n + 1]
                        && IsOrdinary(eps, i, peers[n]) && IsOrdinary(eps, j, c) :: i < j
  }

  function OwnersOf(eps: Endpoints, rows: seq<EndpointId>): (owners: seq<CommunityId>)
    requires forall n | 0 <= n < |rows| :: rows[n] in eps
    ensures |owners| == |rows| && forall n | 0 <= n < |rows| :: owners[n] == eps[rows[n]].community
  {
    seq(|rows|, n requires 0 <= n < |rows| => eps[rows[n]].community)
  }

  /** One row for each member that is missing. */
  lemma WaitingAreMissing(eps: Endpoints, home: CommunityId)
    requires OneOrdinary(eps)
    ensures |WaitingRows(eps, home)| == |Missing(eps, home)|
  {
    var rows, missing := WaitingRows(eps, home), Missing(eps, home);
    var ownerOf := map id | id in rows :: eps[id].community;
    forall i, j | i in rows && j in rows && ownerOf[i] == ownerOf[j] ensures i == j {
      assert IsOrdinary(eps, i, ownerOf[i]) && IsOrdinary(eps, j, ownerOf[i]);
    }
    InjectionBound(ownerOf, rows, missing);
    forall c | c in missing ensures exists id | id in rows :: ownerOf[id] == c {
      var id :| id in eps && IsOrdinary(eps, id, c);
      assert id in rows && ownerOf[id] == c;
    }
    ImageBound(ownerOf, rows, missing);
  }

  lemma OwnersAreDistinct(eps: Endpoints, home: CommunityId, rows: seq<EndpointId>)
    requires OneOrdinary(eps) && rows == Listed(WaitingRows(eps, home)) && forall n | 0 <= n < |rows| :: rows[n] in eps
    ensures IsBatch(OwnersOf(eps, rows), Missing(eps, home))
  {
    var owners := OwnersOf(eps, rows);
    forall n | 0 <= n < |rows| ensures IsOrdinary(eps, rows[n], owners[n]) && owners[n] in Missing(eps, home) {
      assert rows[n] in rows;
    }
  }

  lemma OwnersAscend(eps: Endpoints, home: CommunityId, rows: seq<EndpointId>)
    requires OneOrdinary(eps) && rows == Listed(WaitingRows(eps, home)) && forall n | 0 <= n < |rows| :: rows[n] in eps
    ensures OldestFirst(eps, Missing(eps, home), OwnersOf(eps, rows))
  {
    ListedAscends(WaitingRows(eps, home));
    var owners := OwnersOf(eps, rows);
    forall n, c, i, j | 0 <= n < |owners| && c in Missing(eps, home) && c !in owners[..n + 1]
                        && IsOrdinary(eps, i, owners[n]) && IsOrdinary(eps, j, c)
      ensures i < j
    {
      assert rows[n] in rows && IsOrdinary(eps, rows[n], owners[n]);
      assert j in rows;
      var m :| 0 <= m < |rows| && rows[m] == j;
      ComesLater(owners, n, m);
    }
  }

  lemma ComesLater(owners: seq<CommunityId>, n: nat, m: nat)
    requires n < |owners| && m < |owners| && owners[m] !in owners[..n + 1]
    ensures n < m
  {
    assert forall k | 0 <= k <= n :: owners[k] in owners[..n + 1];
  }

  lemma PrefixIsOldest(eps: Endpoints, missing: set<CommunityId>, peers: seq<CommunityId>, limit: nat)
    requires OldestFirst(eps, missing, peers) && IsBatch(peers, missing) && limit <= |peers|
    ensures OldestFirst(eps, missing, peers[..limit]) && IsBatch(peers[..limit], missing)
  {
    forall n | 0 <= n < limit ensures peers[..limit][..n + 1] == peers[..n + 1] && peers[..limit][n] == peers[n] {
    }
  }

  lemma OwnersAreOldest(eps: Endpoints, home: CommunityId, rows: seq<EndpointId>)
    requires OneOrdinary(eps) && rows == Listed(WaitingRows(eps, home))
    ensures forall n | 0 <= n < |rows| :: rows[n] in eps
    ensures var owners, missing := OwnersOf(eps, rows), Missing(eps, home);
            IsBatch(owners, missing) && OldestFirst(eps, missing, owners) && |owners| == |missing|
  {
    assert forall n | 0 <= n < |rows| :: rows[n] in rows;
    WaitingAreMissing(eps, home);
    OwnersAreDistinct(eps, home, rows);
    OwnersAscend(eps, home, rows);
  }

  method ListHubPeersMissingDedicatedChannel(store: Store, home: CommunityId, limit: nat)
    returns (peers: seq<CommunityId>)
    requires OneOrdinary(store.endpoints)
    ensures IsBatch(peers, Missing(store.endpoints, home))
    ensures OldestFirst(store.endpoints, Missing(store.endpoints, home), peers)
    ensures |peers| == if limit < |Missing(store.endpoints, home)| then limit else |Missing(store.endpoints, home)|
  {
    var rows := Listed(WaitingRows(store.endpoints, home));
    OwnersAreOldest(store.endpoints, home, rows);
    peers := OwnersOf(store.endpoints, rows);
    if limit < |peers| {
      PrefixIsOldest(store.endpoints, Missing(store.endpoints, home), peers, limit);
      peers := peers[..limit];
    }
  }

  /** The journal's channel for the peer is bound to it and open both ways. */
  ghost predicate IsServed(r: Registry, home: CommunityId, peer: CommunityId) {
    && (home, peer) in r.channels
    && exists id | id in r.endpoints ::
         && r.endpoints[id].community == home && r.endpoints[id].dedicatedTo == Some(peer)
         && r.endpoints[id].localChannel == r.channels[(home, peer)]
         && r.endpoints[id].sends && r.endpoints[id].receives
  }

  /** The journal has a channel for the peer, and it carries some row of the home community. */
  ghost predicate IsInUse(r: Registry, home: CommunityId, peer: CommunityId) {
    && (home, peer) in r.channels
    && exists id | id in r.endpoints ::
         r.endpoints[id].community == home && r.endpoints[id].localChannel == r.channels[(home, peer)]
  }

  /** What has become of a peer whose hand-off answered this: served, passed over for a used channel, or an error. */
  ghost predicate IsAccounted(r: Registry, home: CommunityId, peer: CommunityId, answer: Option<string>, served: bool) {
    if served then answer.Some? && IsServed(r, home, peer) else answer.None? || IsInUse(r, home, peer)
  }

  /** Rows and journal entries are only added. */
  ghost predicate OnlyGrows(r: Registry, r': Registry) {
    && OnlyAdds(r.endpoints, r'.endpoints)
    && forall key | key in r.channels :: key in r'.channels && r'.channels[key] == r.channels[key]
  }

  lemma StaysAccounted(r: Registry, r': Registry, home: CommunityId, peer: CommunityId, answer: Option<string>,
                       served: bool)
    requires OnlyGrows(r, r') && IsAccounted(r, home, peer, answer, served)
    ensures IsAccounted(r', home, peer, answer, served)
  {
  }

  lemma ProvisionAccounts(r: Registry, home: CommunityId, peer: CommunityId, minted: string, id: EndpointId)
    requires HubInv(r) && id !in r.endpoints && IsMember(r.endpoints, home) && peer in Missing(r.endpoints, home)
    ensures var r' := Provision(r, home, peer, minted, id);
            OnlyGrows(r, r') && IsAccounted(r', home, peer, Some(minted), peer !in Missing(r'.endpoints, home))
  {
    var r', reserved := Provision(r, home, peer, minted, id), ReserveChannel(r, home, peer, minted);
    var channel := reserved.channels[(home, peer)];
    var e :| e in r.endpoints && IsOrdinary(r.endpoints, e, home);
    AttachShrinksMissing(reserved, home, peer, channel, id);
    if Attachable(reserved, home, peer, channel) {
      assert r'.endpoints[id] == DedicatedEndpoint(r.hub.value, home, peer, channel);
    } else {
      var at :| at in r.endpoints && r.endpoints[at].community == home && r.endpoints[at].localChannel == channel;
      assert r'.endpoints[at] == r.endpoints[at];
    }
  }

  /** One peer: the journal's channel is bound, unless the hand-off threw. */
  method ProvisionPeer(store: Store, home: CommunityId, peer: CommunityId, answer: Option<string>, id: EndpointId,
                       now: int)
    returns (bound: bool)
    requires store.Valid() && IsMember(store.endpoints, home) && peer in Missing(store.endpoints, home)
    requires id !in store.endpoints
    modifies store`channels, store`endpoints, store`cursors
    ensures store.Valid()
    ensures store.HubRows() == if answer.None? then old(store.HubRows())
                               else Provision(old(store.HubRows()), home, peer, answer.value, id)
    ensures OnlyGrows(old(store.HubRows()), store.HubRows())
    ensures IsAccounted(store.HubRows(), home, peer, answer, bound)
    ensures store.endpoints.Keys == if bound then old(store.endpoints.Keys) + {id} else old(store.endpoints.Keys)
    ensures OnlyAdds(old(store.endpoints), store.endpoints) && IsMember(store.endpoints, home)
    ensures Missing(store.endpoints, home)
         == if bound then Missing(old(store.endpoints), home) - {peer} else Missing(old(store.endpoints), home)
  {
    bound := false;
    if answer.Some? {
      assert store.Holds(HubRules);
      ProvisionAccounts(store.HubRows(), home, peer, answer.value, id);
      var channel := store.CreateDedicatedChannel(home, peer, answer.value);
      AttachShrinksMissing(store.HubRows(), home, peer, channel, id);
      bound := store.AttachDedicatedPeerChannel(home, peer, channel, id, now);
    }
  }

  /**
   What a pass over `done` has come to: the `bound` peers left the list for one new row
   each, and no row that existed was changed.
   */
  ghost predicate PassOk(before: Endpoints, after: Endpoints, home: CommunityId, done: seq<CommunityId>,
                         bound: set<CommunityId>, provisioned: nat)
  {
    && OnlyAdds(before, after) && IsMember(after, home)
    && (forall c | c in bound :: c in done) && |bound| == provisioned
    && Missing(after, home) == Missing(before, home) - bound
    && |after.Keys| == |before.Keys| + provisioned
  }

  lemma PassStarts(eps: Endpoints, home: CommunityId)
    requires IsMember(eps, home)
    ensures PassOk(eps, eps, home, [], {}, 0)
  {
  }

  lemma PassGrows(before: Endpoints, mid: Endpoints, after: Endpoints, home: CommunityId, done: seq<CommunityId>,
                  peer: CommunityId, bound: set<CommunityId>, provisioned: nat, id: EndpointId, attached: bool)
    requires PassOk(before, mid, home, done, bound, provisioned) && peer !in bound && id !in mid
    requires OnlyAdds(mid, after) && IsMember(after, home)
    requires after.Keys == if attached then mid.Keys + {id} else mid.Keys
    requires Missing(after, home) == if attached then Missing(mid, home) - {peer} else Missing(mid, home)
    ensures PassOk(before, after, home, done + [peer], if attached then bound + {peer} else bound,
                   if attached then provisioned + 1 else provisioned)
  {
  }

  /** Every peer done so far is accounted for. */
  ghost predicate AllAccounted(r: Registry, home: CommunityId, done: seq<CommunityId>, answers: seq<Option<string>>,
                               bound: set<CommunityId>)
  {
    |done| <= |answers| && forall i | 0 <= i < |done| :: IsAccounted(r, home, done[i], answers[i], done[i] in bound)
  }

  lemma OneMoreAccounted(r: Registry, r': Registry, home: CommunityId, done: seq<CommunityId>,
                         answers: seq<Option<string>>, bound: set<CommunityId>, peer: CommunityId, attached: bool)
    requires AllAccounted(r, home, done, answers, bound) && OnlyGrows(r, r') && |done| < |answers|
    requires peer !in done && peer !in bound && IsAccounted(r', home, peer, answers[|done|], attached)
    ensures AllAccounted(r', home, done + [peer], answers, if attached then bound + {peer} else bound)
  {
    var bound' := if attached then bound + {peer} else bound;
    forall i | 0 <= i < |done + [peer]|
      ensures IsAccounted(r', home, (done + [peer])[i], answers[i], (done + [peer])[i] in bound')
    {
      if i < |done| {
        assert done[i] in done;
        StaysAccounted(r, r', home, done[i], answers[i], done[i] in bound);
      }
    }
  }

  /** How many of the first `n` hand-offs throw. */
  function Throws(answers: seq<Option<string>>, n: nat): nat
    requires n <= |answers|
  {
    if n == 0 then 0 else Throws(answers, n - 1) + if answers[n - 1].None? then 1 else 0
  }

  lemma OneMorePeer(peers: seq<CommunityId>, missing: set<CommunityId>, i: nat)
    requires i < |peers| && IsBatch(peers, missing)
    ensures peers[..i] + [peers[i]] == peers[..i + 1] && peers[i] !in peers[..i] && peers[i] in missing
  {
    assert peers[i] in peers;
    assert forall j | 0 <= j < i :: peers[..i][j] == peers[j];
  }

  ghost predicate AllBelow(eps: Endpoints, n: EndpointId) {
    forall e | e in eps :: e < n
  }

  /** One round of a pass, for a peer that no earlier round took up. */
  method ProvisionNext(store: Store, home: CommunityId, peer: CommunityId, answer: Option<string>, id: EndpointId,
                       now: int, ghost before: Endpoints, ghost done: seq<CommunityId>, ghost bound: set<CommunityId>,
                       ghost provisioned: nat)
    returns (attached: bool)
    requires store.Valid() && AllBelow(store.endpoints, id)
    requires PassOk(before, store.endpoints, home, done, bound, provisioned)
    requires peer in Missing(before, home) && peer !in done
    modifies store`channels, store`endpoints, store`cursors
    ensures store.Valid() && AllBelow(store.endpoints, id + 1)
    ensures OnlyGrows(old(store.HubRows()), store.HubRows())
    ensures IsAccounted(store.HubRows(), home, peer, answer, attached)
    ensures PassOk(before, store.endpoints, home, done + [peer], if attached then bound + {peer} else bound,
                   if attached then provisioned + 1 else provisioned)
  {
    ghost var mid := store.endpoints;
    attached := ProvisionPeer(store, home, peer, answer, id, now);
    PassGrows(before, mid, store.endpoints, home, done, peer, bound, provisioned, id, attached);
  }

  function Least(a: nat, b: nat): nat {
    if a < b then a else b
  }

  function Cap(limit: Option<nat>): (cap: nat)
    ensures limit == None ==> cap == 10
    ensures limit.Some? ==> cap == limit.value
  {
    if limit.Some? then limit.value else MAX_PER_PASS
  }

  /** A pass while the home community is no member: nothing happens. */
  ghost predicate IsIdle(before: Endpoints, after: Endpoints, batch: seq<CommunityId>, provisioned: nat) {
    after == before && batch == [] && provisioned == 0
  }

  /**
   One pass. `answers` are the channel ids the hand-off would mint, or nothing where it
   throws. Every peer of the batch is either bound, or an error, or its channel was
   already routed; each bound peer leaves the list for good and nothing else changes.
   */
  method ProvisionPeerChannels(store: Store, home: CommunityId, limit: Option<nat>, answers: seq<Option<string>>,
                               first: EndpointId, now: int)
    returns (provisioned: nat, errors: nat, ghost batch: seq<CommunityId>, ghost bound: set<CommunityId>)
    requires store.Valid() && |answers| >= Cap(limit) && AllBelow(store.endpoints, first)
    modifies store`channels, store`endpoints, store`cursors
    ensures store.Valid() && |batch| <= Cap(limit) && IsBatch(batch, Missing(old(store.endpoints), home))
    ensures OldestFirst(old(store.endpoints), Missing(old(store.endpoints), home), batch)
    ensures errors == Throws(answers, |batch|)
    ensures if IsMember(old(store.endpoints), home) then
              && |batch| == Least(Cap(limit), |Missing(old(store.endpoints), home)|)
              && PassOk(old(store.endpoints), store.endpoints, home, batch, bound, provisioned)
              && AllAccounted(store.HubRows(), home, batch, answers, bound)
            else IsIdle(old(store.endpoints), store.endpoints, batch, provisioned)
  {
    provisioned, errors, batch, bound := 0, 0, [], {};
    if !IsMember(store.endpoints, home) {
      return;
    }
    assert store.Holds(HubRules);
    var peers := ListHubPeersMissingDedicatedChannel(store, home, Cap(limit));
    batch := peers;
    provisioned, errors, bound := ProvisionBatch(store, home, peers, answers, first, now);
  }

  method ProvisionBatch(store: Store, home: CommunityId, peers: seq<CommunityId>, answers: seq<Option<string>>,
                        first: EndpointId, now: int)
    returns (provisioned: nat, errors: nat, ghost bound: set<CommunityId>)
    requires store.Valid() && IsMember(store.endpoints, home) && AllBelow(store.endpoints, first)
    requires |answers| >= |peers| && IsBatch(peers, Missing(store.endpoints, home))
    modifies store`channels, store`endpoints, store`cursors
    ensures store.Valid() && errors == Throws(answers, |peers|)
    ensures AllAccounted(store.HubRows(), home, peers, answers, bound)
    ensures PassOk(old(store.endpoints), store.endpoints, home, peers, bound, provisioned)
  {
    provisioned, errors, bound := 0, 0, {};
    PassStarts(store.endpoints, home);
    var i := 0;
    assert peers[..0] == [];
    while i < |peers|
      invariant i <= |peers| && store.Valid() && AllBelow(store.endpoints, first + i)
      invariant errors == Throws(answers, i)
      invariant PassOk(old(store.endpoints), store.endpoints, home, peers[..i], bound, provisioned)
      invariant AllAccounted(store.HubRows(), home, peers[..i], answers, bound)
    {
      ghost var rows := store.HubRows();
      OneMorePeer(peers, Missing(old(store.endpoints), home), i);
      var attached := ProvisionNext(store, home, peers[i], answers[i], first + i, now,
                                    old(store.endpoints), peers[..i], bound, provisioned);
      OneMoreAccounted(rows, store.HubRows(), home, peers[..i], answers, bound, peers[i], attached);
      if attached {
        provisioned, bound := provisioned + 1, bound + {peers[i]};
      } else if answers[i].None? {
        errors := errors + 1;
      }
      i := i + 1;
    }
    assert peers[..|peers|] == peers;
  }

  /**
   When no hand-off throws, a peer stays on the list only because its journalled channel
   already carries another route of ours.
   */
  lemma ProvisionBindsUnlessRouted(r: Registry, home: CommunityId, peer: CommunityId, minted: string, id: EndpointId)
    requires HubInv(r) && id !in r.endpoints && IsMember(r.endpoints, home) && peer in Missing(r.endpoints, home)
    ensures var channel := ReserveChannel(r, home, peer, minted).channels[(home, peer)];
            peer in Missing(Provision(r, home, peer, minted, id).endpoints, home)
            <==> IsRouted(r.endpoints, home, channel, None)
  {
    var reserved := ReserveChannel(r, home, peer, minted);
    var e :| e in r.endpoints && IsOrdinary(r.endpoints, e, home);
    AttachShrinksMissing(reserved, home, peer, reserved.channels[(home, peer)], id);
  }
}
