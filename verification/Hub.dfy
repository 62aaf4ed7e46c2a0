/**
 Membership of the one open hub: ordinary endpoints (one per community),
 dedicated endpoints (one per community and peer), their settings, and the
 operations that create and change them. Each operation is one transaction;
 `/open` and a provisioning round are several, and others may come in between.
 */
module Hub {
  import opened Wrappers
  import opened Nostr
  import opened Counting

  datatype FilterMode = EveryoneExcept | OnlyThese

  datatype Endpoint = Endpoint(
    hub: HubId,
    community: CommunityId,
    dedicatedTo: Option<CommunityId>,
    localChannel: string,
    sends: bool,
    receives: bool,
    filterMode: FilterMode,
    filterList: seq<CommunityId>)

  type Endpoints = map<EndpointId, Endpoint>

  /** `channels` is what the hand-off journal answers for an idempotency key (community, peer). */
  datatype Registry = Registry(
    hub: Option<HubId>,
    endpoints: Endpoints,
    channels: map<(CommunityId, CommunityId), string>)

  // ---------------------------------------------------------------- queries

  predicate IsOrdinary(eps: Endpoints, id: EndpointId, community: CommunityId) {
    id in eps && eps[id].community == community && eps[id].dedicatedTo.None?
  }

  predicate IsDedicated(eps: Endpoints, id: EndpointId, community: CommunityId, peer: CommunityId) {
    id in eps && eps[id].community == community && eps[id].dedicatedTo == Some(peer)
  }

  predicate IsMember(eps: Endpoints, community: CommunityId) {
    exists id | id in eps :: IsOrdinary(eps, id, community)
  }

  predicate HasEndpoint(eps: Endpoints, community: CommunityId) {
    exists id | id in eps :: eps[id].community == community
  }

  /** What resolving a handle demands of a peer: some endpoint of it receives. */
  predicate IsReachable(eps: Endpoints, community: CommunityId) {
    exists id | id in eps :: eps[id].community == community && eps[id].receives
  }

  predicate HasDedicated(eps: Endpoints, community: CommunityId, peer: CommunityId) {
    exists id | id in eps :: IsDedicated(eps, id, community, peer)
  }

  predicate IsRouted(eps: Endpoints, community: CommunityId, channel: string, except: Option<EndpointId>) {
    exists id | id in eps :: eps[id].community == community && eps[id].localChannel == channel && except != Some(id)
  }

  // ---------------------------------------------------------------- invariant

  ghost predicate OneHub(r: Registry) {
    forall id | id in r.endpoints :: r.hub == Some(r.endpoints[id].hub)
  }

  ghost predicate OneOrdinary(eps: Endpoints) {
    forall i, j, c | IsOrdinary(eps, i, c) && IsOrdinary(eps, j, c) :: i == j
  }

  ghost predicate OneDedicated(eps: Endpoints) {
    forall i, j, c, p | IsDedicated(eps, i, c, p) && IsDedicated(eps, j, c, p) :: i == j
  }

  ghost predicate EveryoneIsMember(eps: Endpoints) {
    forall id | id in eps ::
      && IsMember(eps, eps[id].community)
      && (eps[id].dedicatedTo.Some? ==> IsMember(eps, eps[id].dedicatedTo.value))
  }

  /** A dedicated endpoint is never dedicated to itself, is wholly open or wholly closed, and filters nobody. */
  predicate DedicatedShape(e: Endpoint) {
    e.dedicatedTo.Some? ==>
      && e.dedicatedTo.value != e.community && e.sends == e.receives
      && e.filterMode == EveryoneExcept && e.filterList == []
  }

  ghost predicate Duplicates(list: seq<CommunityId>) {
    exists i, j | 0 <= i < j < |list| :: list[i] == list[j]
  }

  ghost predicate FilterIsSound(eps: Endpoints, e: Endpoint) {
    && !Duplicates(e.filterList)
    && e.community !in e.filterList
    && forall c | c in e.filterList :: IsMember(eps, c)
  }

  ghost predicate ChannelsAreDistinct(eps: Endpoints) {
    forall i, j | i in eps && j in eps && eps[i].community == eps[j].community
                  && eps[i].localChannel == eps[j].localChannel :: i == j
  }

  /** `/open` and the provisioner meet on the channel the journal holds for the pair. */
  ghost predicate DedicatedChannelsAgree(r: Registry) {
    forall id, c, p | IsDedicated(r.endpoints, id, c, p) ::
      (c, p) in r.channels && r.endpoints[id].localChannel == r.channels[(c, p)]
  }

  ghost predicate HubInv(r: Registry) {
    && OneHub(r)
    && OneOrdinary(r.endpoints)
    && OneDedicated(r.endpoints)
    && EveryoneIsMember(r.endpoints)
    && (forall id | id in r.endpoints :: DedicatedShape(r.endpoints[id]) && FilterIsSound(r.endpoints, r.endpoints[id]))
    && ChannelsAreDistinct(r.endpoints)
    && DedicatedChannelsAgree(r)
  }

  const EMPTY := Registry(None, map[], map[])

  // ---------------------------------------------------------------- operations

  datatype Outcome = Outcome(registry: Registry, error: Option<string>)

  function Ok(r: Registry): Outcome {
    Outcome(r, None)
  }

  function OrdinaryEndpoint(hub: HubId, community: CommunityId, channel: string): Endpoint {
    Endpoint(hub, community, None, channel, true, true, EveryoneExcept, [])
  }

  /** Ids that the database generates during one call. */
  datatype NewIds = NewIds(hub: HubId, home: EndpointId, own: EndpointId)

  predicate AreFresh(ids: NewIds, eps: Endpoints) {
    ids.home !in eps && ids.own !in eps && ids.home != ids.own
  }

  /** The hub row, created together with the home community's endpoint when it is missing. */
  function WithHub(r: Registry, home: CommunityId, homeChannel: string, ids: NewIds): Registry {
    if r.hub.Some? then r
    else r.(hub := Some(ids.hub), endpoints := r.endpoints[ids.home := OrdinaryEndpoint(ids.hub, home, homeChannel)])
  }

  function Join(r: Registry, community: CommunityId, channel: string,
                home: Option<CommunityId>, homeChannel: string, ids: NewIds): Outcome
  {
    if HasEndpoint(r.endpoints, community) then Ok(r)
    else if IsRouted(r.endpoints, community, channel, None) then Outcome(r, Some("channel_already_routed"))
    else if r.hub.None? && home.None? then Outcome(r, Some("featured_unavailable"))
    else
      var ready := if r.hub.Some? then r else WithHub(r, home.value, homeChannel, ids);
      if r.hub.None? && home.value == community then Ok(ready)
      else Ok(ready.(endpoints :=
                  ready.endpoints[ids.own := OrdinaryEndpoint(ready.hub.value, community, channel)]))
  }

  datatype Settings = Settings(
    sends: bool, receives: bool, filterMode: FilterMode, filterList: seq<CommunityId>, channel: Option<string>)

  /** `[...new Set(list)]` */
  function Dedup(list: seq<CommunityId>): (unique: seq<CommunityId>)
    ensures forall c :: c in unique <==> c in list
    ensures forall i, j | 0 <= i < j < |unique| :: unique[i] != unique[j]
  {
    if list == [] then []
    else
      var init := Dedup(list[..|list| - 1]);
      var last := list[|list| - 1];
      assert list == list[..|list| - 1] + [last];
      if last in init then init else init + [last]
  }

  predicate IsListedRow(eps: Endpoints, community: CommunityId, list: seq<CommunityId>, row: (EndpointId, EndpointId)) {
    && IsOrdinary(eps, row.0, community)
    && row.1 in eps && eps[row.1].hub == eps[row.0].hub
    && IsOrdinary(eps, row.1, eps[row.1].community) && eps[row.1].community in list
  }

  /** The rows of the validity query: the caller's own endpoint joined with each listed member's. */
  function ListedRows(eps: Endpoints, community: CommunityId, list: seq<CommunityId>)
    : (rows: set<(EndpointId, EndpointId)>)
    ensures forall row :: row in rows <==> IsListedRow(eps, community, list, row)
  {
    set own, other | own in eps && other in eps && IsListedRow(eps, community, list, (own, other)) :: (own, other)
  }

  predicate FilterAccepted(eps: Endpoints, community: CommunityId, list: seq<CommunityId>) {
    |ListedRows(eps, community, list)| == |list| && community !in list
  }

  function WithSettings(e: Endpoint, s: Settings): Endpoint {
    e.(sends := s.sends, receives := s.receives, filterMode := s.filterMode, filterList := Dedup(s.filterList),
       localChannel := if s.channel.Some? then s.channel.value else e.localChannel)
  }

  /** The community's ordinary endpoint would move to a channel that another of its endpoints uses. */
  predicate MovesOntoRouted(eps: Endpoints, community: CommunityId, channel: string) {
    exists id | id in eps ::
      IsOrdinary(eps, id, community) && eps[id].localChannel != channel && IsRouted(eps, community, channel, Some(id))
  }

  function UpdateSettings(r: Registry, community: CommunityId, s: Settings): Outcome {
    if !IsMember(r.endpoints, community) then Outcome(r, Some("hub_membership_not_found"))
    else if s.channel.Some? && MovesOntoRouted(r.endpoints, community, s.channel.value) then
      Outcome(r, Some("channel_already_routed"))
    else if !FilterAccepted(r.endpoints, community, Dedup(s.filterList)) then Outcome(r, Some("hub_filter_invalid"))
    else
      Ok(r.(endpoints := map id | id in r.endpoints ::
                           if IsOrdinary(r.endpoints, id, community) then WithSettings(r.endpoints[id], s)
                           else r.endpoints[id]))
  }

  function DedicatedEndpoint(hub: HubId, community: CommunityId, peer: CommunityId, channel: string): Endpoint {
    Endpoint(hub, community, Some(peer), channel, true, true, EveryoneExcept, [])
  }

  /** Some constraint would reject the row: one dedicated endpoint per pair, one route per channel. */
  predicate Conflicts(eps: Endpoints, community: CommunityId, peer: CommunityId, channel: string) {
    HasDedicated(eps, community, peer) || IsRouted(eps, community, channel, None)
  }

  /** The insert of a dedicated endpoint does nothing without a home row or on any conflict. */
  predicate Attachable(r: Registry, community: CommunityId, peer: CommunityId, channel: string) {
    r.hub.Some? && IsMember(r.endpoints, community) && !Conflicts(r.endpoints, community, peer, channel)
  }

  function Attach(r: Registry, community: CommunityId, peer: CommunityId, channel: string, id: EndpointId): Registry {
    if !Attachable(r, community, peer, channel) then r
    else r.(endpoints := r.endpoints[id := DedicatedEndpoint(r.hub.value, community, peer, channel)])
  }

  /** The hub, an inbox of the community's own, no row for the pair yet, and a channel of no other row. */
  predicate CanBind(r: Registry, community: CommunityId, peer: CommunityId, channel: string) {
    && r.hub.Some?
    && (exists e | e in r.endpoints :: r.endpoints[e].community == community && r.endpoints[e].dedicatedTo == None)
    && forall e | e in r.endpoints && r.endpoints[e].community == community ::
         r.endpoints[e].dedicatedTo != Some(peer) && r.endpoints[e].localChannel != channel
  }

  /** Binding adds the one row for the pair, open and filtering nobody, exactly if it can, and else changes nothing. */
  lemma AttachIsExact(r: Registry, community: CommunityId, peer: CommunityId, channel: string, id: EndpointId)
    ensures Attach(r, community, peer, channel, id)
         == if CanBind(r, community, peer, channel) then
              r.(endpoints := r.endpoints[id := Endpoint(r.hub.value, community, Some(peer), channel, true, true,
                                                         EveryoneExcept, [])])
            else r
  {
    var eps := r.endpoints;
    assert IsMember(eps, community) <==>
           exists e | e in eps :: eps[e].community == community && eps[e].dedicatedTo == None by {
      assert forall e :: IsOrdinary(eps, e, community)
                         <==> e in eps && eps[e].community == community && eps[e].dedicatedTo == None;
    }
    assert Conflicts(eps, community, peer, channel) <==>
           exists e | e in eps :: eps[e].community == community
                                  && (eps[e].dedicatedTo == Some(peer) || eps[e].localChannel == channel) by {
      assert forall e :: IsDedicated(eps, e, community, peer)
                         <==> e in eps && eps[e].community == community && eps[e].dedicatedTo == Some(peer);
    }
  }

  function SetFlow(eps: Endpoints, community: CommunityId, peer: CommunityId, on: bool): (changed: Endpoints)
    ensures changed.Keys == eps.Keys
  {
    map id | id in eps ::
      if IsDedicated(eps, id, community, peer) then eps[id].(sends := on, receives := on) else eps[id]
  }

  function Unbind(r: Registry, community: CommunityId, peer: CommunityId): Registry {
    r.(endpoints := SetFlow(r.endpoints, community, peer, false))
  }

  function Reopen(r: Registry, community: CommunityId, peer: CommunityId): Registry {
    r.(endpoints := SetFlow(r.endpoints, community, peer, true))
  }

  /** The hand-off journal: the channel reserved first for a pair is the one every later call gets. */
  function ReserveChannel(r: Registry, community: CommunityId, peer: CommunityId, minted: string): Registry {
    if (community, peer) in r.channels then r
    else r.(channels := r.channels[(community, peer) := minted])
  }

  predicate CanOpen(r: Registry, community: CommunityId, peer: CommunityId) {
    IsMember(r.endpoints, community) && IsReachable(r.endpoints, peer) && peer != community
  }

  /** The insert as both its callers make it: for another member, on the channel that the journal holds. */
  function Bind(r: Registry, community: CommunityId, peer: CommunityId, id: EndpointId): Registry {
    if peer == community || !IsMember(r.endpoints, peer) || (community, peer) !in r.channels then r
    else Attach(r, community, peer, r.channels[(community, peer)], id)
  }

  function BindOrReopen(r: Registry, community: CommunityId, peer: CommunityId, channel: string, id: EndpointId)
    : Registry
  {
    if Attachable(r, community, peer, channel) then Attach(r, community, peer, channel, id)
    else Reopen(r, community, peer)
  }

  /** `/open` undisturbed: reserve the channel, bind it, or turn the existing endpoint back on. */
  function Open(r: Registry, community: CommunityId, peer: CommunityId, minted: string, id: EndpointId): Registry {
    if !CanOpen(r, community, peer) then r
    else
      var reserved := ReserveChannel(r, community, peer, minted);
      BindOrReopen(reserved, community, peer, reserved.channels[(community, peer)], id)
  }

  /** One undisturbed round of the provisioner for a peer that has no dedicated row at all. */
  function Provision(r: Registry, home: CommunityId, peer: CommunityId, minted: string, id: EndpointId): Registry {
    if !IsMember(r.endpoints, home) || !IsMember(r.endpoints, peer) || peer == home
       || HasDedicated(r.endpoints, home, peer) then r
    else
      var reserved := ReserveChannel(r, home, peer, minted);
      Attach(reserved, home, peer, reserved.channels[(home, peer)], id)
  }

  datatype HubOp =
    | JoinOp(community: CommunityId, channel: string, home: Option<CommunityId>, homeChannel: string, ids: NewIds)
    | SettingsOp(community: CommunityId, settings: Settings)
    | ReserveOp(community: CommunityId, peer: CommunityId, minted: string)
    | AttachOp(community: CommunityId, peer: CommunityId, id: EndpointId)
    | ReopenOp(community: CommunityId, peer: CommunityId)
    | CloseOp(community: CommunityId, peer: CommunityId)

  function Apply(r: Registry, op: HubOp): Registry {
    match op
    case JoinOp(c, channel, home, homeChannel, ids) => Join(r, c, channel, home, homeChannel, ids).registry
    case SettingsOp(c, s) => UpdateSettings(r, c, s).registry
    case ReserveOp(c, peer, minted) => ReserveChannel(r, c, peer, minted)
    case AttachOp(c, peer, id) => Bind(r, c, peer, id)
    case ReopenOp(c, peer) => Reopen(r, c, peer)
    case CloseOp(c, peer) => Unbind(r, c, peer)
  }

  /** The transactions of one undisturbed `/open`. */
  function OpenOps(r: Registry, community: CommunityId, peer: CommunityId, minted: string, id: EndpointId)
    : (ops: seq<HubOp>)
  {
    var reserved := ReserveChannel(r, community, peer, minted);
    [ReserveOp(community, peer, minted), AttachOp(community, peer, id)]
    + if Attachable(reserved, community, peer, reserved.channels[(community, peer)]) then []
      else [ReopenOp(community, peer)]
  }

  /** The transactions of one undisturbed round of the provisioner. */
  function ProvisionOps(home: CommunityId, peer: CommunityId, minted: string, id: EndpointId): seq<HubOp> {
    [ReserveOp(home, peer, minted), AttachOp(home, peer, id)]
  }

  /** Generated row ids do not repeat. */
  predicate IdsAreFresh(r: Registry, op: HubOp) {
    match op
    case JoinOp(_, _, _, _, ids) => AreFresh(ids, r.endpoints)
    case AttachOp(_, _, id) => id !in r.endpoints
    case _ => true
  }

  // ---------------------------------------------------------------- preservation

  /** A row that respects the unique keys of the endpoints table. */
  ghost predicate Insertable(r: Registry, id: EndpointId, e: Endpoint) {
    && id !in r.endpoints && r.hub == Some(e.hub) && e.filterList == [] && DedicatedShape(e)
    && !IsRouted(r.endpoints, e.community, e.localChannel, None)
    && (e.dedicatedTo.None? ==> !HasEndpoint(r.endpoints, e.community))
    && (e.dedicatedTo.Some? ==>
          && IsMember(r.endpoints, e.community) && IsMember(r.endpoints, e.dedicatedTo.value)
          && !HasDedicated(r.endpoints, e.community, e.dedicatedTo.value)
          && (e.community, e.dedicatedTo.value) in r.channels
          && r.channels[(e.community, e.dedicatedTo.value)] == e.localChannel)
  }

  lemma InsertKeepsKeys(r: Registry, id: EndpointId, e: Endpoint)
    requires HubInv(r) && Insertable(r, id, e)
    ensures var r' := r.(endpoints := r.endpoints[id := e]);
            OneHub(r') && OneOrdinary(r'.endpoints) && OneDedicated(r'.endpoints)
            && ChannelsAreDistinct(r'.endpoints) && DedicatedChannelsAgree(r')
  {
    var eps, eps' := r.endpoints, r.endpoints[id := e];
    forall i, c | IsOrdinary(eps', i, c) ensures i == id || IsOrdinary(eps, i, c) {
    }
    forall i, c, p | IsDedicated(eps', i, c, p) ensures i == id || IsDedicated(eps, i, c, p) {
    }
  }

  lemma InsertKeepsMembers(r: Registry, id: EndpointId, e: Endpoint)
    requires HubInv(r) && Insertable(r, id, e)
    ensures var eps' := r.endpoints[id := e];
            EveryoneIsMember(eps') && forall i | i in eps' :: DedicatedShape(eps'[i]) && FilterIsSound(eps', eps'[i])
  {
    var eps, eps' := r.endpoints, r.endpoints[id := e];
    MembersStay(eps, eps');
    if e.dedicatedTo.None? {
      assert IsOrdinary(eps', id, e.community);
    }
    forall i | i in eps' ensures FilterIsSound(eps', eps'[i]) {
      if i != id {
        assert FilterIsSound(eps, eps[i]);
      }
    }
  }

  lemma InsertKeepsInv(r: Registry, id: EndpointId, e: Endpoint)
    requires HubInv(r) && Insertable(r, id, e)
    ensures HubInv(r.(endpoints := r.endpoints[id := e]))
  {
    InsertKeepsKeys(r, id, e);
    InsertKeepsMembers(r, id, e);
  }

  /** Rows are never deleted, and neither whom they belong to nor the channel of a dedicated one ever changes. */
  ghost predicate KeepsRows(eps: Endpoints, eps': Endpoints) {
    forall id | id in eps ::
      && id in eps' && eps'[id].hub == eps[id].hub
      && eps'[id].community == eps[id].community && eps'[id].dedicatedTo == eps[id].dedicatedTo
      && (eps[id].dedicatedTo.Some? ==> eps'[id].localChannel == eps[id].localChannel)
  }

  lemma MembersStay(eps: Endpoints, eps': Endpoints)
    requires KeepsRows(eps, eps')
    ensures forall c | IsMember(eps, c) :: IsMember(eps', c)
  {
    forall c | IsMember(eps, c) ensures IsMember(eps', c) {
      var id :| id in eps && IsOrdinary(eps, id, c);
      assert IsOrdinary(eps', id, c);
    }
  }

  lemma JoinKeepsInv(r: Registry, community: CommunityId, channel: string,
                     home: Option<CommunityId>, homeChannel: string, ids: NewIds)
    requires HubInv(r) && AreFresh(ids, r.endpoints)
    ensures HubInv(Join(r, community, channel, home, homeChannel, ids).registry)
  {
    if !HasEndpoint(r.endpoints, community) && !IsRouted(r.endpoints, community, channel, None)
       && !(r.hub.None? && home.None?) {
      var ready := if r.hub.Some? then r else WithHub(r, home.value, homeChannel, ids);
      if r.hub.None? {
        assert forall id | id in r.endpoints :: r.hub.Some?;
        assert r.endpoints == map[];
        var empty := r.(hub := Some(ids.hub));
        assert HubInv(empty);
        InsertKeepsInv(empty, ids.home, OrdinaryEndpoint(ids.hub, home.value, homeChannel));
      }
      if !(r.hub.None? && home.value == community) {
        InsertKeepsInv(ready, ids.own, OrdinaryEndpoint(ready.hub.value, community, channel));
      }
    }
  }

  /** Rewriting settings in place keeps every uniqueness key but that of ordinary channels. */
  lemma RewriteKeepsKeys(r: Registry, eps': Endpoints)
    requires HubInv(r)
    requires eps'.Keys == r.endpoints.Keys && KeepsRows(r.endpoints, eps')
    ensures OneHub(r.(endpoints := eps')) && OneOrdinary(eps') && OneDedicated(eps') && EveryoneIsMember(eps')
    ensures DedicatedChannelsAgree(r.(endpoints := eps'))
  {
    var eps := r.endpoints;
    MembersStay(eps, eps');
    forall i, c | IsOrdinary(eps', i, c) ensures IsOrdinary(eps, i, c) {
    }
    forall i, c, p | IsDedicated(eps', i, c, p) ensures IsDedicated(eps, i, c, p) {
    }
  }

  lemma FilterStays(eps: Endpoints, eps': Endpoints, e: Endpoint, e': Endpoint)
    requires KeepsRows(eps, eps') && FilterIsSound(eps, e)
    requires e'.filterList == e.filterList && e'.community == e.community
    ensures FilterIsSound(eps', e')
  {
    MembersStay(eps, eps');
  }

  lemma FlowKeepsRows(eps: Endpoints, community: CommunityId, peer: CommunityId, on: bool)
    requires forall i | i in eps :: DedicatedShape(eps[i]) && FilterIsSound(eps, eps[i])
    ensures var eps' := SetFlow(eps, community, peer, on);
            forall i | i in eps' :: DedicatedShape(eps'[i]) && FilterIsSound(eps', eps'[i])
  {
    var eps' := SetFlow(eps, community, peer, on);
    forall i | i in eps' ensures DedicatedShape(eps'[i]) && FilterIsSound(eps', eps'[i]) {
      FilterStays(eps, eps', eps[i], eps'[i]);
    }
  }

  lemma FlowKeepsChannels(eps: Endpoints, community: CommunityId, peer: CommunityId, on: bool)
    requires ChannelsAreDistinct(eps)
    ensures ChannelsAreDistinct(SetFlow(eps, community, peer, on))
  {
  }

  lemma FlowMovesNothing(eps: Endpoints, community: CommunityId, peer: CommunityId, on: bool)
    ensures KeepsRows(eps, SetFlow(eps, community, peer, on))
  {
  }

  lemma SetFlowKeepsInv(r: Registry, community: CommunityId, peer: CommunityId, on: bool)
    requires HubInv(r)
    ensures HubInv(r.(endpoints := SetFlow(r.endpoints, community, peer, on)))
  {
    var eps, eps' := r.endpoints, SetFlow(r.endpoints, community, peer, on);
    FlowMovesNothing(eps, community, peer, on);
    RewriteKeepsKeys(r, eps');
    FlowKeepsRows(eps, community, peer, on);
    FlowKeepsChannels(eps, community, peer, on);
  }

  lemma UnbindKeepsInv(r: Registry, community: CommunityId, peer: CommunityId)
    requires HubInv(r)
    ensures HubInv(Unbind(r, community, peer))
  {
    SetFlowKeepsInv(r, community, peer, false);
    assert Unbind(r, community, peer) == r.(endpoints := SetFlow(r.endpoints, community, peer, false));
  }

  lemma AttachKeepsInv(r: Registry, community: CommunityId, peer: CommunityId, channel: string, id: EndpointId)
    requires HubInv(r) && id !in r.endpoints
    requires peer != community && IsMember(r.endpoints, peer)
    requires (community, peer) in r.channels && r.channels[(community, peer)] == channel
    ensures HubInv(Attach(r, community, peer, channel, id))
  {
    if Attachable(r, community, peer, channel) {
      InsertKeepsInv(r, id, DedicatedEndpoint(r.hub.value, community, peer, channel));
    }
  }

  lemma ReserveKeepsInv(r: Registry, community: CommunityId, peer: CommunityId, minted: string)
    requires HubInv(r)
    ensures HubInv(ReserveChannel(r, community, peer, minted))
    ensures ReserveChannel(r, community, peer, minted).endpoints == r.endpoints
  {
  }

  // ------------------------------------------------------- the filter check is a pigeonhole

  /** The community whose endpoint a row selected. */
  predicate RowFor(eps: Endpoints, row: (EndpointId, EndpointId), c: CommunityId) {
    row.1 in eps && eps[row.1].community == c
  }

  lemma InjectedRowsFit(rows: set<(EndpointId, EndpointId)>, eps: Endpoints, communities: set<CommunityId>)
    requires forall p | p in rows :: p.1 in eps && eps[p.1].community in communities
    requires forall p, q | p in rows && q in rows && eps[p.1].community == eps[q.1].community :: p == q
    ensures |rows| <= |communities|
    ensures |rows| == |communities| ==> forall c | c in communities :: exists p | p in rows :: RowFor(eps, p, c)
  {
    if rows != {} {
      var p :| p in rows;
      var c := eps[p.1].community;
      InjectedRowsFit(rows - {p}, eps, communities - {c});
      if |rows| == |communities| {
        forall d | d in communities ensures exists q | q in rows :: RowFor(eps, q, d) {
          if d != c {
            assert d in communities - {c};
            var q :| q in rows - {p} && RowFor(eps, q, d);
          } else {
            assert RowFor(eps, p, d);
          }
        }
      }
    } else if |communities| == 0 {
      assert communities == {};
    }
  }

  lemma EveryMemberHasARow(rows: set<(EndpointId, EndpointId)>, eps: Endpoints, communities: set<CommunityId>)
    requires forall c | c in communities :: exists p | p in rows :: RowFor(eps, p, c)
    ensures |communities| <= |rows|
  {
    if communities != {} {
      NonEmpty(communities);
      var c :| c in communities;
      var p :| p in rows && RowFor(eps, p, c);
      forall d | d in communities - {c} ensures exists q | q in rows - {p} :: RowFor(eps, q, d) {
        var q :| q in rows && RowFor(eps, q, d);
        assert q in rows - {p};
      }
      EveryMemberHasARow(rows - {p}, eps, communities - {c});
    }
  }

  lemma DistinctListSize(list: seq<CommunityId>)
    requires forall i, j | 0 <= i < j < |list| :: list[i] != list[j]
    ensures |set c | c in list| == |list|
  {
    if list != [] {
      var init, last := list[..|list| - 1], list[|list| - 1];
      assert forall i, j | 0 <= i < j < |init| :: init[i] != init[j];
      DistinctListSize(init);
      assert list == init + [last];
      assert (set c | c in list) == (set c | c in init) + {last};
      assert last !in init by {
        assert forall i | 0 <= i < |init| :: init[i] == list[i];
      }
    }
  }

  lemma RowsAreInjective(r: Registry, community: CommunityId, list: seq<CommunityId>)
    requires HubInv(r)
    ensures var eps := r.endpoints;
            var rows := ListedRows(eps, community, list);
            forall p, q | p in rows && q in rows && eps[p.1].community == eps[q.1].community :: p == q
  {
    var eps := r.endpoints;
    var rows := ListedRows(eps, community, list);
    forall p, q | p in rows && q in rows && eps[p.1].community == eps[q.1].community ensures p == q {
      assert IsOrdinary(eps, p.0, community) && IsOrdinary(eps, q.0, community);
      assert IsOrdinary(eps, p.1, eps[p.1].community) && IsOrdinary(eps, q.1, eps[p.1].community);
    }
  }

  lemma FullRowsMeanMembers(r: Registry, community: CommunityId, list: seq<CommunityId>)
    requires HubInv(r)
    requires |ListedRows(r.endpoints, community, list)| == |set c | c in list|
    ensures forall c | c in list :: IsMember(r.endpoints, c)
  {
    var eps := r.endpoints;
    var rows := ListedRows(eps, community, list);
    var communities := set c | c in list;
    RowsAreInjective(r, community, list);
    assert forall p | p in rows :: p.1 in eps && eps[p.1].community in communities;
    InjectedRowsFit(rows, eps, communities);
    forall c | c in list ensures IsMember(eps, c) {
      assert c in communities;
      var p :| p in rows && RowFor(eps, p, c);
      assert IsOrdinary(eps, p.1, c);
    }
  }

  lemma MembersMeanFullRows(r: Registry, community: CommunityId, list: seq<CommunityId>)
    requires HubInv(r) && IsMember(r.endpoints, community)
    requires forall c | c in list :: IsMember(r.endpoints, c)
    ensures |ListedRows(r.endpoints, community, list)| == |set c | c in list|
  {
    var eps := r.endpoints;
    var rows := ListedRows(eps, community, list);
    var communities := set c | c in list;
    RowsAreInjective(r, community, list);
    InjectedRowsFit(rows, eps, communities);
    var own :| own in eps && IsOrdinary(eps, own, community);
    forall c | c in communities ensures exists p | p in rows :: RowFor(eps, p, c) {
      var other :| other in eps && IsOrdinary(eps, other, c);
      assert (own, other) in rows && RowFor(eps, (own, other), c);
    }
    EveryMemberHasARow(rows, eps, communities);
  }

  /**
   Counting rows is enough: because a community has one ordinary endpoint, the
   settings query returns as many rows as the list has entries exactly when
   every listed community is a member. The acceptance test therefore means
   "only other members of the hub".
   */
  lemma FilterCheckIsExact(r: Registry, community: CommunityId, list: seq<CommunityId>)
    requires HubInv(r) && IsMember(r.endpoints, community)
    requires forall i, j | 0 <= i < j < |list| :: list[i] != list[j]
    ensures FilterAccepted(r.endpoints, community, list)
       <==> community !in list && forall c | c in list :: IsMember(r.endpoints, c)
  {
    DistinctListSize(list);
    if FilterAccepted(r.endpoints, community, list) {
      FullRowsMeanMembers(r, community, list);
    }
    if forall c | c in list :: IsMember(r.endpoints, c) {
      MembersMeanFullRows(r, community, list);
    }
  }

  /** Rewriting the ordinary row with an accepted list leaves every filter sound. */
  lemma RewrittenFilters(eps: Endpoints, eps': Endpoints, community: CommunityId, s: Settings)
    requires forall i | i in eps :: DedicatedShape(eps[i]) && FilterIsSound(eps, eps[i])
    requires community !in s.filterList && forall c | c in s.filterList :: IsMember(eps, c)
    requires eps'.Keys == eps.Keys
    requires forall i | i in eps :: eps'[i] == if IsOrdinary(eps, i, community) then WithSettings(eps[i], s) else eps[i]
    ensures forall i | i in eps' :: DedicatedShape(eps'[i]) && FilterIsSound(eps', eps'[i])
  {
    assert KeepsRows(eps, eps');
    forall i | i in eps' ensures DedicatedShape(eps'[i]) && FilterIsSound(eps', eps'[i]) {
      FilterStays(eps, eps', if IsOrdinary(eps, i, community) then WithSettings(eps[i], s) else eps[i], eps'[i]);
    }
  }

  lemma SettingsKeepFilters(r: Registry, community: CommunityId, s: Settings)
    requires HubInv(r) && UpdateSettings(r, community, s).error.None?
    ensures var eps' := UpdateSettings(r, community, s).registry.endpoints;
            forall i | i in eps' :: DedicatedShape(eps'[i]) && FilterIsSound(eps', eps'[i])
  {
    FilterCheckIsExact(r, community, Dedup(s.filterList));
    RewrittenFilters(r.endpoints, UpdateSettings(r, community, s).registry.endpoints, community, s);
  }

  lemma SettingsKeepInv(r: Registry, community: CommunityId, s: Settings)
    requires HubInv(r)
    ensures HubInv(UpdateSettings(r, community, s).registry)
  {
    if UpdateSettings(r, community, s).error.None? {
      RewriteKeepsKeys(r, UpdateSettings(r, community, s).registry.endpoints);
      SettingsKeepFilters(r, community, s);
      SettingsKeepChannels(r, community, s);
    }
  }

  lemma SettingsKeepChannels(r: Registry, community: CommunityId, s: Settings)
    requires HubInv(r) && UpdateSettings(r, community, s).error.None?
    ensures ChannelsAreDistinct(UpdateSettings(r, community, s).registry.endpoints)
  {
    var eps := r.endpoints;
    var eps' := UpdateSettings(r, community, s).registry.endpoints;
    forall i, j | i in eps' && j in eps' && eps'[i].community == eps'[j].community
                  && eps'[i].localChannel == eps'[j].localChannel
      ensures i == j
    {
      if i != j {
        if IsOrdinary(eps, i, community) {
          OtherChannelIsFree(r, community, s, i, j);
        } else if IsOrdinary(eps, j, community) {
          OtherChannelIsFree(r, community, s, j, i);
        }
      }
    }
  }

  /** Accepted settings are what the member's ordinary row then says, field by field; no other row changes. */
  lemma SettingsTake(r: Registry, community: CommunityId, s: Settings)
    requires UpdateSettings(r, community, s).error.None?
    ensures var eps, eps' := r.endpoints, UpdateSettings(r, community, s).registry.endpoints;
            && (forall id :: id in eps' <==> id in eps)
            && forall id | id in eps ::
                 var e, e' := eps[id], eps'[id];
                 if e.community == community && e.dedicatedTo.None? then
                   && e'.sends == s.sends && e'.receives == s.receives && e'.filterMode == s.filterMode
                   && (forall c :: c in e'.filterList <==> c in s.filterList)
                   && e'.localChannel == (match s.channel case Some(channel) => channel case None => e.localChannel)
                   && e'.hub == e.hub && e'.community == e.community && e'.dedicatedTo == e.dedicatedTo
                 else e' == e
  {
  }

  lemma OtherChannelIsFree(r: Registry, community: CommunityId, s: Settings, own: EndpointId, other: EndpointId)
    requires HubInv(r) && UpdateSettings(r, community, s).error.None?
    requires IsOrdinary(r.endpoints, own, community)
    requires other in r.endpoints && other != own && r.endpoints[other].community == community
    ensures WithSettings(r.endpoints[own], s).localChannel != r.endpoints[other].localChannel
    ensures !IsOrdinary(r.endpoints, other, community)
  {
    var eps := r.endpoints;
    var target := if s.channel.Some? then s.channel.value else eps[own].localChannel;
    assert eps[other].localChannel == target ==> IsRouted(eps, community, target, Some(own));
  }

  lemma ReachableMeansMember(r: Registry, community: CommunityId)
    requires HubInv(r) && IsReachable(r.endpoints, community)
    ensures IsMember(r.endpoints, community)
  {
  }

  lemma BindKeepsInv(r: Registry, community: CommunityId, peer: CommunityId, id: EndpointId)
    requires HubInv(r) && id !in r.endpoints
    ensures HubInv(Bind(r, community, peer, id))
  {
    if peer != community && IsMember(r.endpoints, peer) && (community, peer) in r.channels {
      AttachKeepsInv(r, community, peer, r.channels[(community, peer)], id);
    }
  }

  /** Every hub operation keeps the hub invariant. */
  lemma ApplyKeepsInv(r: Registry, op: HubOp)
    requires HubInv(r) && IdsAreFresh(r, op)
    ensures HubInv(Apply(r, op))
  {
    match op
    case JoinOp(c, channel, home, homeChannel, ids) => JoinKeepsInv(r, c, channel, home, homeChannel, ids);
    case SettingsOp(c, s) => SettingsKeepInv(r, c, s);
    case ReserveOp(c, peer, minted) => ReserveKeepsInv(r, c, peer, minted);
    case AttachOp(c, peer, id) => BindKeepsInv(r, c, peer, id);
    case ReopenOp(c, peer) => SetFlowKeepsInv(r, c, peer, true);
    case CloseOp(c, peer) => SetFlowKeepsInv(r, c, peer, false);
  }

  function Run(r: Registry, ops: seq<HubOp>): Registry {
    if ops == [] then r else Apply(Run(r, ops[..|ops| - 1]), ops[|ops| - 1])
  }

  ghost predicate RunIsFresh(r: Registry, ops: seq<HubOp>) {
    forall n | 0 <= n < |ops| :: IdsAreFresh(Run(r, ops[..n]), ops[n])
  }

  /**
   The hub invariant holds after any sequence of joins, settings, closes and the separate
   transactions of any number of `/open`s and provisioning rounds, however they interleave.
   */
  lemma {:induction false} HubRunKeepsInv(ops: seq<HubOp>)
    requires RunIsFresh(EMPTY, ops)
    ensures HubInv(Run(EMPTY, ops))
  {
    if ops != [] {
      var init := ops[..|ops| - 1];
      forall n | 0 <= n < |init| ensures IdsAreFresh(Run(EMPTY, init[..n]), init[n]) {
        assert init[..n] == ops[..n];
      }
      HubRunKeepsInv(init);
      ApplyKeepsInv(Run(EMPTY, init), ops[|ops| - 1]);
    }
  }

  // ---------------------------------------------------------------- what operations leave alone

  lemma JoinKeepsRows(r: Registry, community: CommunityId, channel: string,
                      home: Option<CommunityId>, homeChannel: string, ids: NewIds)
    requires AreFresh(ids, r.endpoints)
    ensures KeepsRows(r.endpoints, Join(r, community, channel, home, homeChannel, ids).registry.endpoints)
  {
  }

  lemma SettingsKeepRows(r: Registry, community: CommunityId, s: Settings)
    ensures KeepsRows(r.endpoints, UpdateSettings(r, community, s).registry.endpoints)
  {
  }

  lemma BindKeepsRows(r: Registry, community: CommunityId, peer: CommunityId, id: EndpointId)
    requires id !in r.endpoints
    ensures KeepsRows(r.endpoints, Bind(r, community, peer, id).endpoints)
  {
  }

  /** No hub operation deletes a row or moves it to another owner or peer. */
  lemma ApplyKeepsRows(r: Registry, op: HubOp)
    requires IdsAreFresh(r, op)
    ensures KeepsRows(r.endpoints, Apply(r, op).endpoints)
  {
    match op
    case JoinOp(c, channel, home, homeChannel, ids) => JoinKeepsRows(r, c, channel, home, homeChannel, ids);
    case SettingsOp(c, s) => SettingsKeepRows(r, c, s);
    case ReserveOp(c, peer, minted) =>
    case AttachOp(c, peer, id) => BindKeepsRows(r, c, peer, id);
    case ReopenOp(c, peer) => FlowMovesNothing(r.endpoints, c, peer, true);
    case CloseOp(c, peer) => FlowMovesNothing(r.endpoints, c, peer, false);
  }

  /** A member's row as joining makes it: it sends, it receives, and it shuts nobody out. */
  predicate IsOpenInbox(e: Endpoint, community: CommunityId, channel: string) {
    && e.community == community && e.dedicatedTo == None && e.localChannel == channel
    && e.sends && e.receives && e.filterMode == EveryoneExcept && e.filterList == []
  }

  /** The community's only row is an open inbox in this channel. */
  ghost predicate HasOnlyInbox(eps: Endpoints, community: CommunityId, channel: string) {
    exists id | id in eps ::
      && IsOpenInbox(eps[id], community, channel)
      && forall other | other in eps && eps[other].community == community :: other == id
  }

  ghost predicate HasRow(eps: Endpoints, community: CommunityId) {
    exists id | id in eps :: eps[id].community == community
  }

  /**
   Joining, on the rows: a community that has a row already gets none; any other gets an open
   inbox, unless there is no hub yet and no home to found it, which gets one as well.
   */
  lemma JoinTakes(r: Registry, community: CommunityId, channel: string, home: Option<CommunityId>, homeChannel: string,
                  ids: NewIds)
    requires HubInv(r) && AreFresh(ids, r.endpoints)
    ensures var out := Join(r, community, channel, home, homeChannel, ids);
            var eps, eps' := r.endpoints, out.registry.endpoints;
            && (forall id | id in eps :: id in eps' && eps'[id] == eps[id])
            && (if HasRow(eps, community) then out.error == None && out.registry == r
                else if r.hub.None? && home.None? then out.error == Some("featured_unavailable") && out.registry == r
                else && out.error == None && out.registry.hub.Some? && out.registry.channels == r.channels
                     && HasOnlyInbox(eps', community,
                                     if r.hub.None? && home == Some(community) then homeChannel else channel)
                     && (r.hub.None? && home != Some(community) ==> HasOnlyInbox(eps', home.value, homeChannel)))
  {
    var out := Join(r, community, channel, home, homeChannel, ids);
    if !HasRow(r.endpoints, community) && (r.hub.Some? || home.Some?) {
      if r.hub.None? {
        assert forall id | id in r.endpoints :: r.hub.Some?;
        assert r.endpoints == map[];
        assert IsOpenInbox(out.registry.endpoints[ids.home], home.value, homeChannel);
      }
      if !(r.hub.None? && home == Some(community)) {
        assert IsOpenInbox(out.registry.endpoints[ids.own], community, channel);
      }
    }
  }

  lemma RunSplits(r: Registry, ops: seq<HubOp>, op: HubOp)
    ensures Run(r, ops + [op]) == Apply(Run(r, ops), op)
  {
    assert (ops + [op])[..|ops|] == ops;
  }

  lemma TwoOps(r: Registry, first: HubOp, second: HubOp)
    ensures Run(r, [first, second]) == Apply(Apply(r, first), second)
  {
    OneOp(r, first);
    RunSplits(r, [first], second);
    assert [first] + [second] == [first, second];
  }

  lemma OneOp(r: Registry, op: HubOp)
    ensures Run(r, [op]) == Apply(r, op)
  {
    RunSplits(r, [], op);
    assert [] + [op] == [op];
  }

  /** Undisturbed, the transactions of `/open` and of a provisioning round come to what the two functions say. */
  lemma OpenIsItsOps(r: Registry, community: CommunityId, peer: CommunityId, minted: string, id: EndpointId)
    requires HubInv(r) && CanOpen(r, community, peer)
    ensures Run(r, OpenOps(r, community, peer, minted, id)) == Open(r, community, peer, minted, id)
  {
    ReachableMeansMember(r, peer);
    var ops := OpenOps(r, community, peer, minted, id);
    TwoOps(r, ReserveOp(community, peer, minted), AttachOp(community, peer, id));
    var reserved := ReserveChannel(r, community, peer, minted);
    if Attachable(reserved, community, peer, reserved.channels[(community, peer)]) {
      assert ops == [ReserveOp(community, peer, minted), AttachOp(community, peer, id)];
    } else {
      RunSplits(r, [ReserveOp(community, peer, minted), AttachOp(community, peer, id)], ReopenOp(community, peer));
    }
  }

  lemma ProvisionIsItsOps(r: Registry, home: CommunityId, peer: CommunityId, minted: string, id: EndpointId)
    requires IsMember(r.endpoints, home) && IsMember(r.endpoints, peer) && peer != home
    requires !HasDedicated(r.endpoints, home, peer)
    ensures Run(r, ProvisionOps(home, peer, minted, id)) == Provision(r, home, peer, minted, id)
  {
    TwoOps(r, ReserveOp(home, peer, minted), AttachOp(home, peer, id));
  }

  /** The provisioner adds at most one row and touches no other, so it never revives a closed channel. */
  lemma ProvisionNeverRevives(r: Registry, home: CommunityId, peer: CommunityId, minted: string, id: EndpointId)
    requires id !in r.endpoints
    ensures var r' := Provision(r, home, peer, minted, id);
            && (forall e | e in r.endpoints :: e in r'.endpoints && r'.endpoints[e] == r.endpoints[e])
            && r'.endpoints.Keys <= r.endpoints.Keys + {id}
            && (HasDedicated(r.endpoints, home, peer) ==> r' == r)
  {
  }

  ghost predicate HasOpenChannel(eps: Endpoints, community: CommunityId, peer: CommunityId) {
    exists id | id in eps :: IsDedicated(eps, id, community, peer) && eps[id].sends && eps[id].receives
  }

  /**
   `/open` always answers that the channel is open. It is, exactly when the pair had a
   dedicated endpoint already or the channel carries no other route of the community.
   */
  lemma OpenOpensIff(r: Registry, community: CommunityId, peer: CommunityId, minted: string, id: EndpointId)
    requires HubInv(r) && CanOpen(r, community, peer) && id !in r.endpoints
    ensures var channel := ReserveChannel(r, community, peer, minted).channels[(community, peer)];
            HasOpenChannel(Open(r, community, peer, minted, id).endpoints, community, peer)
            <==> HasDedicated(r.endpoints, community, peer) || !IsRouted(r.endpoints, community, channel, None)
  {
    var reserved := ReserveChannel(r, community, peer, minted);
    var channel := reserved.channels[(community, peer)];
    var after := Open(r, community, peer, minted, id).endpoints;
    assert r.hub.Some? by {
      var e :| e in r.endpoints && IsOrdinary(r.endpoints, e, community);
    }
    if HasDedicated(r.endpoints, community, peer) {
      var e :| e in r.endpoints && IsDedicated(r.endpoints, e, community, peer);
      assert IsDedicated(after, e, community, peer) && after[e].sends && after[e].receives;
    } else if !IsRouted(r.endpoints, community, channel, None) {
      assert IsDedicated(after, id, community, peer) && after[id].sends && after[id].receives;
    }
  }

  /** Two members, the first of which joined a hub that the second's home endpoint opened. */
  function Pair(a: CommunityId, b: CommunityId, ids: NewIds): Registry {
    Registry(Some(ids.hub),
             map[ids.home := OrdinaryEndpoint(ids.hub, a, "a"), ids.own := OrdinaryEndpoint(ids.hub, b, "b")],
             map[])
  }

  lemma PairJoins(a: CommunityId, b: CommunityId, ids: NewIds)
    requires a != b && ids.home != ids.own
    ensures Apply(EMPTY, JoinOp(b, "b", Some(a), "a", ids)) == Pair(a, b, ids)
  {
  }

  const ON_X := Settings(true, true, EveryoneExcept, [], Some("x"))

  /** Both members are open to everyone, and the first one's inbox is in channel `x`. */
  function MovedPair(a: CommunityId, b: CommunityId, ids: NewIds): Registry {
    Registry(Some(ids.hub),
             map[ids.home := OrdinaryEndpoint(ids.hub, a, "x"), ids.own := OrdinaryEndpoint(ids.hub, b, "b")],
             map[(a, b) := "x"])
  }

  lemma PairMoves(a: CommunityId, b: CommunityId, ids: NewIds)
    requires a != b && ids.home != ids.own
    ensures Apply(Apply(Pair(a, b, ids), ReserveOp(a, b, "x")), SettingsOp(a, ON_X)) == MovedPair(a, b, ids)
  {
    var r := Apply(Pair(a, b, ids), ReserveOp(a, b, "x"));
    assert IsOrdinary(r.endpoints, ids.home, a);
    assert ListedRows(r.endpoints, a, []) == {};
    assert Apply(r, SettingsOp(a, ON_X)).endpoints == MovedPair(a, b, ids).endpoints;
  }

  lemma FailedOpen(a: CommunityId, b: CommunityId, ids: NewIds, minted: string, id: EndpointId)
    requires a != b && ids.home != ids.own
    ensures CanOpen(MovedPair(a, b, ids), a, b)
    ensures !HasOpenChannel(Open(MovedPair(a, b, ids), a, b, minted, id).endpoints, a, b)
  {
    var r := MovedPair(a, b, ids);
    assert IsOrdinary(r.endpoints, ids.home, a);
    assert r.endpoints[ids.own].community == b && r.endpoints[ids.own].receives;
    assert IsRouted(r.endpoints, a, "x", None);
  }

  /**
   It can fail: between the hand-off of an earlier `/open` and its insert the caller moved
   its inbox into the channel that was handed off, and no later `/open` makes up for it.
   */
  lemma OpenMayFail(a: CommunityId, b: CommunityId, ids: NewIds, minted: string, id: EndpointId)
    requires a != b && ids.home != ids.own && id != ids.home && id != ids.own
    ensures var ops := [JoinOp(b, "b", Some(a), "a", ids), ReserveOp(a, b, "x"), SettingsOp(a, ON_X)];
            && RunIsFresh(EMPTY, ops) && CanOpen(Run(EMPTY, ops), a, b)
            && !HasOpenChannel(Open(Run(EMPTY, ops), a, b, minted, id).endpoints, a, b)
  {
    var join, reserve, move := JoinOp(b, "b", Some(a), "a", ids), ReserveOp(a, b, "x"), SettingsOp(a, ON_X);
    TwoOps(EMPTY, join, reserve);
    RunSplits(EMPTY, [join, reserve], move);
    assert [join, reserve] + [move] == [join, reserve, move];
    assert [join, reserve, move][..0] == [];
    PairJoins(a, b, ids);
    PairMoves(a, b, ids);
    FailedOpen(a, b, ids, minted, id);
  }

  lemma FlowOffThenOn(r: Registry, community: CommunityId, peer: CommunityId, e: EndpointId)
    requires HubInv(r) && IsDedicated(r.endpoints, e, community, peer) && r.endpoints[e].receives
    ensures SetFlow(SetFlow(r.endpoints, community, peer, false), community, peer, true) == r.endpoints
  {
    var closed := SetFlow(r.endpoints, community, peer, false);
    var again := SetFlow(closed, community, peer, true);
    forall i | i in r.endpoints ensures again[i] == r.endpoints[i] {
      if IsDedicated(r.endpoints, i, community, peer) {
        assert IsDedicated(closed, i, community, peer);
        assert i == e && DedicatedShape(r.endpoints[e]);
      } else {
        assert !IsDedicated(closed, i, community, peer);
      }
    }
  }

  /** Closing a pair's channel takes nothing away from the peer's own endpoints. */
  lemma ReachableAfterClose(eps: Endpoints, community: CommunityId, peer: CommunityId)
    requires community != peer
    ensures IsReachable(SetFlow(eps, community, peer, false), peer) <==> IsReachable(eps, peer)
  {
    var closed := SetFlow(eps, community, peer, false);
    assert forall id | id in eps && eps[id].community == peer :: closed[id] == eps[id];
    if IsReachable(eps, peer) {
      var id :| id in eps && eps[id].community == peer && eps[id].receives;
      assert closed[id].community == peer && closed[id].receives;
    }
  }

  lemma ClosedCanOpen(r: Registry, community: CommunityId, peer: CommunityId, e: EndpointId)
    requires HubInv(r) && IsDedicated(r.endpoints, e, community, peer)
    ensures var closed := Unbind(r, community, peer);
            && (CanOpen(closed, community, peer) <==> IsReachable(r.endpoints, peer))
            && (community, peer) in closed.channels && HasDedicated(closed.endpoints, community, peer)
  {
    var closed := Unbind(r, community, peer);
    assert DedicatedShape(r.endpoints[e]);
    ReachableAfterClose(r.endpoints, community, peer);
    assert IsMember(closed.endpoints, community) by {
      MembersStay(r.endpoints, closed.endpoints);
      assert IsMember(r.endpoints, community);
    }
    assert IsDedicated(closed.endpoints, e, community, peer);
  }

  /**
   Closing an open channel and opening it again restores every row, exactly when the
   peer still has some endpoint that receives: `/open` resolves the peer by such a row.
   */
  lemma ReopenUndoesClose(r: Registry, community: CommunityId, peer: CommunityId, e: EndpointId, minted: string,
                          id: EndpointId)
    requires HubInv(r) && IsDedicated(r.endpoints, e, community, peer) && r.endpoints[e].receives
    ensures Open(Unbind(r, community, peer), community, peer, minted, id) == r <==> IsReachable(r.endpoints, peer)
  {
    FlowOffThenOn(r, community, peer, e);
    ClosedCanOpen(r, community, peer, e);
    assert !Unbind(r, community, peer).endpoints[e].receives;
  }

  const SILENT := Settings(true, false, EveryoneExcept, [], None)

  /** The first member has a channel for the second, which receives nothing. */
  function SilentPair(a: CommunityId, b: CommunityId, ids: NewIds, id: EndpointId): Registry {
    Registry(Some(ids.hub),
             map[ids.home := OrdinaryEndpoint(ids.hub, a, "a"),
                 ids.own := OrdinaryEndpoint(ids.hub, b, "b").(receives := false),
                 id := DedicatedEndpoint(ids.hub, a, b, "x")],
             map[(a, b) := "x"])
  }

  lemma PairBinds(a: CommunityId, b: CommunityId, ids: NewIds, id: EndpointId)
    requires a != b && ids.home != ids.own && id != ids.home && id != ids.own
    ensures Apply(Apply(Pair(a, b, ids), ReserveOp(a, b, "x")), AttachOp(a, b, id))
         == SilentPair(a, b, ids, id).(endpoints :=
                SilentPair(a, b, ids, id).endpoints[ids.own := OrdinaryEndpoint(ids.hub, b, "b")])
  {
    var r := Apply(Pair(a, b, ids), ReserveOp(a, b, "x"));
    assert IsOrdinary(r.endpoints, ids.home, a) && IsOrdinary(r.endpoints, ids.own, b);
    assert Attachable(r, a, b, "x");
  }

  lemma PairFallsSilent(a: CommunityId, b: CommunityId, ids: NewIds, id: EndpointId)
    requires a != b && ids.home != ids.own && id != ids.home && id != ids.own
    ensures var r := SilentPair(a, b, ids, id).(endpoints :=
                         SilentPair(a, b, ids, id).endpoints[ids.own := OrdinaryEndpoint(ids.hub, b, "b")]);
            Apply(r, SettingsOp(b, SILENT)) == SilentPair(a, b, ids, id)
  {
    var r := SilentPair(a, b, ids, id).(endpoints :=
      SilentPair(a, b, ids, id).endpoints[ids.own := OrdinaryEndpoint(ids.hub, b, "b")]);
    assert IsOrdinary(r.endpoints, ids.own, b);
    assert ListedRows(r.endpoints, b, []) == {};
    assert Apply(r, SettingsOp(b, SILENT)).endpoints == SilentPair(a, b, ids, id).endpoints;
  }

  /** A peer that turned receiving off is out of reach, and a channel for it that is closed then stays closed. */
  lemma ReopenMayFail(a: CommunityId, b: CommunityId, ids: NewIds, minted: string, id: EndpointId, id': EndpointId)
    requires a != b && ids.home != ids.own && id != ids.home && id != ids.own
    ensures var ops := [JoinOp(b, "b", Some(a), "a", ids), ReserveOp(a, b, "x"), AttachOp(a, b, id),
                        SettingsOp(b, SILENT)];
            var r := Run(EMPTY, ops);
            && RunIsFresh(EMPTY, ops) && HasOpenChannel(r.endpoints, a, b)
            && Open(Unbind(r, a, b), a, b, minted, id') == Unbind(r, a, b) != r
  {
    var join, reserve, attach, silence :=
      JoinOp(b, "b", Some(a), "a", ids), ReserveOp(a, b, "x"), AttachOp(a, b, id), SettingsOp(b, SILENT);
    TwoOps(EMPTY, join, reserve);
    RunSplits(EMPTY, [join, reserve], attach);
    RunSplits(EMPTY, [join, reserve] + [attach], silence);
    assert [join, reserve] + [attach] + [silence] == [join, reserve, attach, silence];
    FourAreFresh(EMPTY, join, reserve, attach, silence);
    PairJoins(a, b, ids);
    PairBinds(a, b, ids, id);
    PairFallsSilent(a, b, ids, id);
    SilenceStrands(a, b, ids, minted, id, id');
  }

  lemma FourAreFresh(r: Registry, first: HubOp, second: HubOp, third: HubOp, fourth: HubOp)
    requires IdsAreFresh(r, first) && IdsAreFresh(Apply(r, first), second)
    requires IdsAreFresh(Run(r, [first, second]), third) && IdsAreFresh(Run(r, [first, second] + [third]), fourth)
    ensures RunIsFresh(r, [first, second, third, fourth])
  {
    var ops := [first, second, third, fourth];
    RunSplits(r, [], first);
    assert ops[..0] == [] && ops[..1] == [] + [first] && ops[..2] == [first, second];
    assert ops[..3] == [first, second] + [third];
  }

  lemma SilenceStrands(a: CommunityId, b: CommunityId, ids: NewIds, minted: string, id: EndpointId, id': EndpointId)
    requires a != b && ids.home != ids.own && id != ids.home && id != ids.own
    ensures var r := SilentPair(a, b, ids, id);
            && HasOpenChannel(r.endpoints, a, b)
            && Open(Unbind(r, a, b), a, b, minted, id') == Unbind(r, a, b) != r
  {
    var r := SilentPair(a, b, ids, id);
    assert IsDedicated(r.endpoints, id, a, b) && r.endpoints[id].sends && r.endpoints[id].receives;
    assert !Unbind(r, a, b).endpoints[id].receives;
    assert !IsReachable(Unbind(r, a, b).endpoints, b);
  }

  /** Turning on a channel that is on changes nothing. */
  lemma OpenStaysOpen(eps: Endpoints, community: CommunityId, peer: CommunityId)
    requires forall i | IsDedicated(eps, i, community, peer) :: eps[i].sends && eps[i].receives
    ensures SetFlow(eps, community, peer, true) == eps
  {
  }

  /**
   `/open` and the provisioner converge: in either order the pair ends with the
   one channel reserved first, and with the same single endpoint when both meet
   the same ids.
   */
  lemma OpenAndProvisionConverge(r: Registry, home: CommunityId, peer: CommunityId, minted: string, minted': string,
                                 id: EndpointId, id': EndpointId)
    requires HubInv(r) && id !in r.endpoints && id' !in r.endpoints && id != id'
    requires IsMember(r.endpoints, home) && IsMember(r.endpoints, peer) && home != peer
    requires IsReachable(r.endpoints, peer)
    requires !HasDedicated(r.endpoints, home, peer)
    requires !IsRouted(r.endpoints, home, ReserveChannel(r, home, peer, minted).channels[(home, peer)], None)
    ensures Provision(Open(r, home, peer, minted, id), home, peer, minted', id') == Open(r, home, peer, minted, id)
    ensures Open(Provision(r, home, peer, minted, id), home, peer, minted', id') == Open(r, home, peer, minted, id)
    ensures HasDedicated(Open(r, home, peer, minted, id).endpoints, home, peer)
  {
    var reserved := ReserveChannel(r, home, peer, minted);
    var channel := reserved.channels[(home, peer)];
    assert r.hub.Some? by {
      var e :| e in r.endpoints && IsOrdinary(r.endpoints, e, home);
    }
    var bound := Attach(reserved, home, peer, channel, id);
    assert id in bound.endpoints && bound.endpoints != reserved.endpoints;
    assert Open(r, home, peer, minted, id) == bound == Provision(r, home, peer, minted, id);
    assert IsDedicated(bound.endpoints, id, home, peer);
    assert KeepsRows(r.endpoints, bound.endpoints);
    MembersStay(r.endpoints, bound.endpoints);
    assert IsReachable(bound.endpoints, peer) by {
      var e :| e in r.endpoints && r.endpoints[e].community == peer && r.endpoints[e].receives;
      assert bound.endpoints[e].community == peer && bound.endpoints[e].receives;
    }
    forall i | IsDedicated(bound.endpoints, i, home, peer) ensures i == id {
      assert i != id ==> IsDedicated(r.endpoints, i, home, peer);
    }
    OpenStaysOpen(bound.endpoints, home, peer);
  }
}
