/**
 Destination selection. A message is routed point to point: the selection query
 picks, in the addressed community, the endpoint dedicated to the sender if it
 receives, else the ordinary one.
 */
module Routing {
  import opened Wrappers
  import opened Nostr
  import opened Hub

  /** The filter of `e` lets through traffic with this community. */
  predicate Allows(e: Endpoint, community: CommunityId) {
    match e.filterMode
    case EveryoneExcept => community !in e.filterList
    case OnlyThese => community in e.filterList
  }

  /** The peer's ordinary endpoint yields to a dedicated one that receives. */
  predicate HasOpenDedicated(eps: Endpoints, hub: HubId, community: CommunityId, peer: CommunityId) {
    exists id | id in eps ::
      IsDedicated(eps, id, community, peer) && eps[id].hub == hub && eps[id].receives
  }

  /** The `WHERE` clause of the selection query, for one candidate row. */
  predicate Selects(eps: Endpoints, source: EndpointId, addressed: Option<CommunityId>, candidate: EndpointId)
    requires source in eps && candidate in eps
  {
    var s, d := eps[source], eps[candidate];
    && d.hub == s.hub
    && candidate != source
    && d.receives
    && (addressed.Some? ==> d.community == addressed.value)
    && (d.dedicatedTo.Some? ==> d.dedicatedTo.value == s.community)
    && (s.dedicatedTo.Some? ==> s.dedicatedTo.value == d.community)
    && (d.dedicatedTo.Some? || !HasOpenDedicated(eps, d.hub, d.community, s.community))
    && Allows(d, s.community)
    && Allows(s, d.community)
  }

  function Destinations(eps: Endpoints, source: EndpointId, addressed: Option<CommunityId>): set<EndpointId>
    requires source in eps
  {
    set id | id in eps && Selects(eps, source, addressed, id)
  }

  /** What delivery checks about the two rows before handing an event to the relay. */
  predicate RouteActive(source: Endpoint, destination: Endpoint) {
    && source.sends
    && destination.receives
    && Allows(destination, source.community)
    && Allows(source, destination.community)
  }

  /**
   Addressing one community selects at most one endpoint: never the sender's own
   community, never an endpoint dedicated to a third community, and from a
   dedicated channel only the peer it is bound to.
   */
  lemma SelectionIsPointToPoint(r: Registry, source: EndpointId, addressed: CommunityId)
    requires HubInv(r) && source in r.endpoints
    ensures var eps := r.endpoints;
            var picked := Destinations(eps, source, Some(addressed));
            && (forall i, j | i in picked && j in picked :: i == j)
            && (forall i | i in picked ::
                  && eps[i].community == addressed && addressed != eps[source].community
                  && (eps[i].dedicatedTo.Some? ==> eps[i].dedicatedTo.value == eps[source].community)
                  && (eps[source].dedicatedTo.Some? ==> eps[source].dedicatedTo.value == addressed))
  {
    var eps := r.endpoints;
    var picked := Destinations(eps, source, Some(addressed));
    forall i | i in picked ensures addressed != eps[source].community {
      assert DedicatedShape(eps[i]) && DedicatedShape(eps[source]);
      if addressed == eps[source].community {
        assert IsOrdinary(eps, i, addressed) && IsOrdinary(eps, source, addressed);
      }
    }
    forall i, j | i in picked && j in picked ensures i == j {
      OnlyOnePicked(r, source, addressed, i, j);
    }
  }

  lemma PickedDedicatedIsOpen(eps: Endpoints, source: EndpointId, addressed: CommunityId, i: EndpointId)
    requires source in eps && i in eps && Selects(eps, source, Some(addressed), i) && eps[i].dedicatedTo.Some?
    ensures IsDedicated(eps, i, addressed, eps[source].community)
    ensures HasOpenDedicated(eps, eps[source].hub, addressed, eps[source].community)
  {
  }

  lemma OnlyOnePicked(r: Registry, source: EndpointId, addressed: CommunityId, i: EndpointId, j: EndpointId)
    requires HubInv(r) && source in r.endpoints && i in r.endpoints && j in r.endpoints
    requires Selects(r.endpoints, source, Some(addressed), i) && Selects(r.endpoints, source, Some(addressed), j)
    ensures i == j
  {
    var eps := r.endpoints;
    if eps[i].dedicatedTo.Some? {
      PickedDedicatedIsOpen(eps, source, addressed, i);
    }
    if eps[j].dedicatedTo.Some? {
      PickedDedicatedIsOpen(eps, source, addressed, j);
    }
    assert eps[i].dedicatedTo.Some? <==> eps[j].dedicatedTo.Some?;
    if eps[i].dedicatedTo.None? {
      assert IsOrdinary(eps, i, addressed) && IsOrdinary(eps, j, addressed);
    }
  }

  /** Whatever the selection picks from a sending endpoint passes delivery's own route check. */
  lemma SelectedIsDeliverable(eps: Endpoints, source: EndpointId, addressed: Option<CommunityId>, picked: EndpointId)
    requires source in eps && eps[source].sends
    requires picked in Destinations(eps, source, addressed)
    ensures RouteActive(eps[source], eps[picked])
  {
  }

  /** Where a message from `source` to `peer` lands, as a function of the peer's two endpoints. */
  ghost predicate LandsOn(eps: Endpoints, source: EndpointId, peer: CommunityId, landing: EndpointId)
    requires source in eps
  {
    Destinations(eps, source, Some(peer)) == {landing}
  }

  /** The destination receives, and both filters let the pair through. */
  predicate Reaches(eps: Endpoints, source: EndpointId, destination: EndpointId)
    requires source in eps && destination in eps
  {
    && eps[destination].receives
    && Allows(eps[destination], eps[source].community) && Allows(eps[source], eps[destination].community)
  }

  lemma SelectedUnlessHidden(r: Registry, source: EndpointId, peer: CommunityId, ordinary: EndpointId)
    requires HubInv(r) && source in r.endpoints && r.endpoints[source].community != peer
    requires r.endpoints[source].dedicatedTo.Some? ==> r.endpoints[source].dedicatedTo.value == peer
    requires IsOrdinary(r.endpoints, ordinary, peer)
    requires !HasOpenDedicated(r.endpoints, r.endpoints[ordinary].hub, peer, r.endpoints[source].community)
    ensures LandsOn(r.endpoints, source, peer, ordinary) <==> Reaches(r.endpoints, source, ordinary)
  {
    var eps := r.endpoints;
    var picked := Destinations(eps, source, Some(peer));
    SelectionIsPointToPoint(r, source, peer);
    assert eps[ordinary].hub == eps[source].hub;
    if ordinary in picked {
      assert picked == {ordinary};
    }
    assert ordinary in picked <==> Selects(eps, source, Some(peer), ordinary);
  }

  lemma ClosedIsNotOpen(eps: Endpoints, hub: HubId, community: CommunityId, peer: CommunityId)
    ensures !HasOpenDedicated(SetFlow(eps, community, peer, false), hub, community, peer)
  {
  }

  lemma ClosedFallsBack(r: Registry, source: EndpointId, peer: CommunityId, ordinary: EndpointId)
    requires source in r.endpoints && r.endpoints[source].community != peer
    requires HubInv(Unbind(r, peer, r.endpoints[source].community))
    requires r.endpoints[source].dedicatedTo.Some? ==> r.endpoints[source].dedicatedTo.value == peer
    requires IsOrdinary(r.endpoints, ordinary, peer)
    ensures LandsOn(Unbind(r, peer, r.endpoints[source].community).endpoints, source, peer, ordinary)
       <==> Reaches(r.endpoints, source, ordinary)
  {
    var eps, closed := r.endpoints, Unbind(r, peer, r.endpoints[source].community);
    assert closed.endpoints[source] == eps[source] && closed.endpoints[ordinary] == eps[ordinary];
    ClosedIsNotOpen(eps, closed.endpoints[ordinary].hub, peer, eps[source].community);
    SelectedUnlessHidden(closed, source, peer, ordinary);
  }

  /**
   Closing the dedicated channel of `peer` for the sender reroutes the sender to
   the peer's ordinary endpoint, exactly when that endpoint receives and both
   filters allow it.
   */
  lemma ClosingFallsBack(r: Registry, source: EndpointId, peer: CommunityId, ordinary: EndpointId)
    requires HubInv(r) && source in r.endpoints && r.endpoints[source].community != peer
    requires r.endpoints[source].dedicatedTo.Some? ==> r.endpoints[source].dedicatedTo.value == peer
    requires IsOrdinary(r.endpoints, ordinary, peer)
    ensures LandsOn(Unbind(r, peer, r.endpoints[source].community).endpoints, source, peer, ordinary)
       <==> Reaches(r.endpoints, source, ordinary)
  {
    UnbindKeepsInv(r, peer, r.endpoints[source].community);
    ClosedFallsBack(r, source, peer, ordinary);
  }

  /** While the dedicated endpoint is open it receives the sender's messages instead. */
  lemma OpenDedicatedWins(r: Registry, source: EndpointId, peer: CommunityId, dedicated: EndpointId)
    requires HubInv(r) && source in r.endpoints
    requires r.endpoints[source].dedicatedTo.Some? ==> r.endpoints[source].dedicatedTo.value == peer
    requires IsDedicated(r.endpoints, dedicated, peer, r.endpoints[source].community)
    requires r.endpoints[dedicated].receives
    ensures LandsOn(r.endpoints, source, peer, dedicated) <==> Allows(r.endpoints[source], peer)
  {
    var eps := r.endpoints;
    var picked := Destinations(eps, source, Some(peer));
    SelectionIsPointToPoint(r, source, peer);
    assert DedicatedShape(eps[dedicated]);
    assert eps[dedicated].hub == eps[source].hub;
    if dedicated in picked {
      assert picked == {dedicated};
    }
    assert dedicated in picked <==> Selects(eps, source, Some(peer), dedicated);
  }

  /** Reopening gives the sender exactly the destinations it had before the channel was closed. */
  lemma ReopeningRestoresRouting(r: Registry, source: EndpointId, peer: CommunityId, dedicated: EndpointId,
                                 minted: string, id: EndpointId)
    requires HubInv(r) && source in r.endpoints
    requires IsDedicated(r.endpoints, dedicated, peer, r.endpoints[source].community) && r.endpoints[dedicated].receives
    requires IsReachable(r.endpoints, r.endpoints[source].community)
    ensures var sender := r.endpoints[source].community;
            var again := Open(Unbind(r, peer, sender), peer, sender, minted, id).endpoints;
            && source in again
            && forall addressed ::
                Destinations(again, source, addressed) == Destinations(r.endpoints, source, addressed)
  {
    ReopenUndoesClose(r, peer, r.endpoints[source].community, dedicated, minted, id);
  }

  // ---------------------------------------------------------------- selection, on the rows themselves

  /** The row's own list, as its mode reads it: only those listed, or everyone but those. */
  predicate Lets(e: Endpoint, community: CommunityId) {
    && (e.filterMode == OnlyThese ==> community in e.filterList)
    && (e.filterMode == EveryoneExcept ==> community !in e.filterList)
  }

  /** Some row of the peer is dedicated to this community and receives. */
  predicate HearsApart(eps: Endpoints, peer: CommunityId, community: CommunityId) {
    exists id | id in eps :: eps[id].community == peer && eps[id].dedicatedTo == Some(community) && eps[id].receives
  }

  /** What makes a row the destination of what `source` sends to the peer. */
  predicate IsPick(eps: Endpoints, source: EndpointId, peer: CommunityId, id: EndpointId)
    requires source in eps
  {
    && id in eps && eps[id].community == peer && peer != eps[source].community && eps[id].receives
    && Lets(eps[id], eps[source].community) && Lets(eps[source], peer)
    && (eps[source].dedicatedTo == None || eps[source].dedicatedTo == Some(peer))
    && (|| eps[id].dedicatedTo == Some(eps[source].community)
        || (eps[id].dedicatedTo == None && !HearsApart(eps, peer, eps[source].community)))
  }

  lemma AllowsIff(e: Endpoint, community: CommunityId)
    ensures Allows(e, community) <==> Lets(e, community)
  {
  }

  lemma HearsApartIff(r: Registry, peer: CommunityId, community: CommunityId)
    requires HubInv(r) && r.hub.Some?
    ensures HasOpenDedicated(r.endpoints, r.hub.value, peer, community) <==> HearsApart(r.endpoints, peer, community)
  {
    var eps := r.endpoints;
    if HearsApart(eps, peer, community) {
      var id :| id in eps && eps[id].community == peer && eps[id].dedicatedTo == Some(community) && eps[id].receives;
      assert IsDedicated(eps, id, peer, community);
    }
  }

  /** Selection is exact: addressed to a peer, a message goes to a row if and only if the two rows say so. */
  lemma SelectionIsExact(r: Registry, source: EndpointId, peer: CommunityId, id: EndpointId)
    requires HubInv(r) && source in r.endpoints
    ensures id in Destinations(r.endpoints, source, Some(peer)) <==> IsPick(r.endpoints, source, peer, id)
  {
    var eps := r.endpoints;
    HearsApartIff(r, peer, eps[source].community);
    SelectionIsPointToPoint(r, source, peer);
    if id in eps {
      assert eps[id].hub == eps[source].hub == r.hub.value;
      AllowsIff(eps[id], eps[source].community);
      AllowsIff(eps[source], eps[id].community);
    }
  }

  /** And delivery's own check: the source sends, the destination receives, and each lets the other through. */
  lemma RouteActiveIff(source: Endpoint, destination: Endpoint)
    ensures RouteActive(source, destination)
       <==> && source.sends && destination.receives
            && Lets(destination, source.community) && Lets(source, destination.community)
  {
    AllowsIff(source, destination.community);
    AllowsIff(destination, source.community);
  }

  lemma HearsApartStays(r: Registry, community: CommunityId, s: Settings, of: CommunityId)
    requires UpdateSettings(r, community, s).error.None?
    ensures HearsApart(UpdateSettings(r, community, s).registry.endpoints, community, of)
       <==> HearsApart(r.endpoints, community, of)
  {
    SettingsTake(r, community, s);
    var eps, eps' := r.endpoints, UpdateSettings(r, community, s).registry.endpoints;
    if HearsApart(eps, community, of) {
      var id :| id in eps && eps[id].community == community && eps[id].dedicatedTo == Some(of) && eps[id].receives;
      assert eps'[id] == eps[id];
    }
    if HearsApart(eps', community, of) {
      var id :| id in eps' && eps'[id].community == community && eps'[id].dedicatedTo == Some(of) && eps'[id].receives;
      assert eps'[id] == eps[id];
    }
  }

  /**
   What a member sets takes effect: its inbox then hears a source if and only if it is to
   receive, the list it set lets the source's community through, and nothing on the source's
   side or a channel of their own stands in between.
   */
  lemma InboxHearsAsSet(r: Registry, community: CommunityId, s: Settings, inbox: EndpointId, source: EndpointId)
    requires HubInv(r) && UpdateSettings(r, community, s).error.None? && IsOrdinary(r.endpoints, inbox, community)
    requires source in r.endpoints && r.endpoints[source].community != community
    ensures var from, eps' := r.endpoints[source], UpdateSettings(r, community, s).registry.endpoints;
            source in eps' && inbox in Destinations(eps', source, Some(community))
            <==> && s.receives
                 && (s.filterMode == OnlyThese ==> from.community in s.filterList)
                 && (s.filterMode == EveryoneExcept ==> from.community !in s.filterList)
                 && Lets(from, community)
                 && (from.dedicatedTo == None || from.dedicatedTo == Some(community))
                 && !HearsApart(r.endpoints, community, from.community)
  {
    SettingsKeepInv(r, community, s);
    SettingsTake(r, community, s);
    HearsApartStays(r, community, s, r.endpoints[source].community);
    SelectionIsExact(UpdateSettings(r, community, s).registry, source, community, inbox);
  }
}
