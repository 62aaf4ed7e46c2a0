/**
 The store: one field per table, one method per exported transaction. Each method
 is proved against the transaction function of the same purpose.
 */
module Database {
  import opened Wrappers
  import opened Nostr
  import opened Text
  import opened Addressing
  import opened Bridge
  import opened Hub
  import opened Routing
  import opened Slugs
  import opened Tables

  /** The unique keys that the declared indexes keep. */
  ghost predicate UniqueMessages(messages: map<Uuid, Message>) {
    forall i, j | i in messages && j in messages && messages[i].hub == messages[j].hub
                  && messages[i].source == messages[j].source && messages[i].event == messages[j].event :: i == j
  }

  ghost predicate UniqueMappings(mappings: map<(EndpointId, Uuid), EventId>) {
    forall k, l | k in mappings && l in mappings && k.0 == l.0 && mappings[k] == mappings[l] :: k == l
  }

  /** What the tables keep: the hub's invariant and the two unique keys. */
  datatype Part = HubRules | MessageKey | MappingKey

  // ---------------------------------------------------------------- what ingest does, case by case

  lemma InsertKeepsUnique(db: Db, input: IngestInput, rows: seq<EndpointId>, first: Uuid)
    requires UniqueMessages(db.messages) && UniqueMappings(db.mappings) && FreshIds(db, input.messageId, first)
    requires IsNew(db, input)
    requires !IsMapped(db, input.source, IdOf(input.event))
    ensures UniqueMessages(Insert(db, input, rows, first).messages)
    ensures UniqueMappings(Insert(db, input, rows, first).mappings)
  {
    forall i | i in db.messages ensures db.messages[i].hub != input.hub || db.messages[i].source != input.source
                                        || db.messages[i].event != input.event {
      assert !IsMessageAt(db, i, input.hub, input.source, input.event);
    }
  }

  predicate IsOpenFor(db: Db, input: IngestInput) {
    && BodyFits(input.body) && SourceIsOpen(db, input)
    && Destinations(db.registry.endpoints, input.source, input.destination) != {}
  }

  ghost predicate IsNew(db: Db, input: IngestInput) {
    forall id :: !IsMessageAt(db, id, input.hub, input.source, input.event)
  }

  ghost predicate IsOnly(db: Db, input: IngestInput, only: Uuid) {
    && IsMessageAt(db, only, input.hub, input.source, input.event)
    && forall id :: IsMessageAt(db, id, input.hub, input.source, input.event) ==> id == only
  }

  function CreatedBy(db: Db, input: IngestInput, rows: seq<EndpointId>, first: Uuid): IngestOutcome
    requires FreshIds(db, input.messageId, first)
  {
    IngestOutcome(Insert(db, input, rows, first), Created(NewDeliveries(input.messageId, rows, first).Keys))
  }

  lemma OneMoreDelivery(rest: map<Uuid, Delivery>, message: Uuid, rows: seq<EndpointId>, first: Uuid, n: nat)
    requires n < |rows|
    ensures rest + FirstDeliveries(message, rows, n + 1, first)
         == (rest + FirstDeliveries(message, rows, n, first))[first + n := NewDelivery(message, rows[n])]
  {
  }

  lemma OneMoreJob(rest: map<Uuid, Uuid>, message: Uuid, n: nat, first: Uuid)
    requires message < first
    ensures rest + NewJobs(message, n + 1, first)
         == (rest + NewJobs(message, n, first))[if n == 0 then message else first + n := first + n]
  {
  }

  lemma JobQueued(rest: map<Uuid, Uuid>, jobs: map<Uuid, Uuid>, message: Uuid, n: nat, first: Uuid, id: Uuid)
    requires message < first && id == first + n && jobs == rest + NewJobs(message, n, first)
    ensures jobs[if n == 0 then message else id := id] == rest + NewJobs(message, n + 1, first)
  {
    OneMoreJob(rest, message, n, first);
  }

  lemma NumberedIds(message: Uuid, rows: seq<EndpointId>, ids: seq<Uuid>, first: Uuid)
    requires |ids| == |rows| && forall i | 0 <= i < |ids| :: ids[i] == first + i
    ensures (set id | id in ids) == NewDeliveries(message, rows, first).Keys
  {
    forall d | first <= d < first + |rows| ensures d in ids {
      assert ids[d - first] == d;
    }
  }

  lemma ReplayCase(db: Db, input: IngestInput, first: Uuid, id: Uuid)
    requires FreshIds(db, input.messageId, first) && IsOpenFor(db, input)
    requires IsOnly(db, input, id)
    ensures Ingest(db, input, first)
         == IngestOutcome(db, if DeliveriesOf(db, id) == {} then Rejected("message_ingest_failed")
                              else Replayed(id, DeliveriesOf(db, id)))
  {
  }

  lemma NewCase(db: Db, input: IngestInput, first: Uuid)
    requires FreshIds(db, input.messageId, first) && IsOpenFor(db, input)
    requires IsNew(db, input)
    ensures Ingest(db, input, first)
         == if IsMapped(db, input.source, IdOf(input.event)) then IngestOutcome(db, Rejected("unique_violation"))
            else CreatedBy(db, input, Listed(Destinations(db.registry.endpoints, input.source, input.destination)),
                           first)
  {
  }

  lemma ClosedCase(db: Db, input: IngestInput, first: Uuid)
    requires FreshIds(db, input.messageId, first) && !IsOpenFor(db, input)
    ensures Ingest(db, input, first)
         == IngestOutcome(db, Rejected(if BodyFits(input.body) then "route_inactive" else "invalid_input"))
  {
  }

  // ---------------------------------------------------------------- statements that update one row

  /** The pair's dedicated endpoint exists and has this flow. */
  ghost predicate HasFlow(eps: Endpoints, community: CommunityId, peer: CommunityId, on: bool) {
    exists id | id in eps :: IsDedicated(eps, id, community, peer) && eps[id].receives == on
  }

  ghost predicate DedicatedFlows(eps: Endpoints) {
    forall id | id in eps && eps[id].dedicatedTo.Some? :: eps[id].sends == eps[id].receives
  }

  /** At most one row is dedicated to a pair, so updating it is updating all. */
  lemma FlowOfOne(eps: Endpoints, community: CommunityId, peer: CommunityId, on: bool, id: EndpointId)
    requires OneDedicated(eps) && IsDedicated(eps, id, community, peer)
    ensures SetFlow(eps, community, peer, on) == eps[id := eps[id].(sends := on, receives := on)]
    ensures HasFlow(eps, community, peer, on) <==> eps[id].receives == on
  {
  }

  lemma FlowOfNone(eps: Endpoints, community: CommunityId, peer: CommunityId, on: bool)
    requires !HasDedicated(eps, community, peer)
    ensures SetFlow(eps, community, peer, on) == eps
    ensures !HasFlow(eps, community, peer, !on)
  {
  }

  lemma InvMeansFlows(r: Registry)
    requires HubInv(r)
    ensures OneDedicated(r.endpoints) && DedicatedFlows(r.endpoints)
  {
    assert forall id | id in r.endpoints :: DedicatedShape(r.endpoints[id]);
  }

  /** The community's one ordinary row decides a settings call, and is the only row it writes. */
  lemma OwnRowIsIt(r: Registry, community: CommunityId, s: Settings, own: EndpointId)
    requires OneOrdinary(r.endpoints) && IsOrdinary(r.endpoints, own, community)
    ensures IsMember(r.endpoints, community)
    ensures s.channel.Some? ==>
              (MovesOntoRouted(r.endpoints, community, s.channel.value)
               <==> r.endpoints[own].localChannel != s.channel.value
                    && IsRouted(r.endpoints, community, s.channel.value, Some(own)))
    ensures UpdateSettings(r, community, s).error.None? ==>
              UpdateSettings(r, community, s).registry.endpoints
                  == r.endpoints[own := WithSettings(r.endpoints[own], s)]
  {
  }

  // ---------------------------------------------------------------- the parent lookup

  lemma LocalParentIs(db: Db, m: Message, at: EndpointId, parent: Option<Uuid>)
    requires forall p :: IsParentMessage(db, m, p) <==> parent == Some(p)
    ensures LocalParent(db, m, at)
         == if parent.Some? && (at, parent.value) in db.mappings then Some(db.mappings[(at, parent.value)]) else None
  {
    if parent.Some? && (at, parent.value) in db.mappings {
      assert IsParentMessage(db, m, parent.value);
      assert IsLocalParent(db, m, at, db.mappings[(at, parent.value)]);
    }
  }

  // ---------------------------------------------------------------- joining

  /** Joining assigns the handle and the membership together, or changes nothing. */
  ghost predicate JoinsAs(r: Registry, handles: Handles, r': Registry, handles': Handles, error: Option<string>,
                          slug: SlugOutcome, joined: Outcome)
  {
    && (slug.result.Failure? ==> error == Some(slug.result.error))
    && (slug.result.Success? ==> error == joined.error)
    && (error.Some? ==> r' == r && handles' == handles)
    && (error.None? ==> r' == joined.registry)
    && (error.None? ==> handles' == slug.handles)
  }

  // ---------------------------------------------------------------- handles

  predicate ResolvesTo(db: Db, slug: string, c: CommunityId) {
    c in db.handles && ToLower(db.handles[c]) == ToLower(slug) && IsReachable(db.registry.endpoints, c)
  }

  ghost predicate ResolvesToNone(db: Db, slug: string) {
    forall c :: !ResolvesTo(db, slug, c)
  }

  /** What looking a handle up can answer. */
  ghost predicate IsResolved(db: Db, slug: string, found: Option<CommunityId>) {
    if found.Some? then ResolvesTo(db, slug, found.value) else ResolvesToNone(db, slug)
  }

  /** Some row of the community receives. */
  ghost predicate IsHeardAnywhere(eps: Endpoints, c: CommunityId) {
    exists id | id in eps :: eps[id].community == c && eps[id].receives
  }

  /** A lookup finds the community with this handle, in any letter case, if it receives somewhere; else nothing. */
  lemma ResolvedIff(db: Db, slug: string, found: Option<CommunityId>, c: CommunityId)
    requires CaseInsensitivelyUnique(db.handles) && IsResolved(db, slug, found)
    ensures found == Some(c)
       <==> c in db.handles && ToLower(db.handles[c]) == ToLower(slug) && IsHeardAnywhere(db.registry.endpoints, c)
  {
    assert IsHeardAnywhere(db.registry.endpoints, c) <==> IsReachable(db.registry.endpoints, c);
    if c in db.handles && ToLower(db.handles[c]) == ToLower(slug) && IsHeardAnywhere(db.registry.endpoints, c) {
      assert ResolvesTo(db, slug, c);
    }
  }

  /** So an address finds its community even if the handle is typed in capitals. */
  lemma CapitalsResolve(db: Db, sp: Spelling, found: Option<CommunityId>, c: CommunityId)
    requires CaseInsensitivelyUnique(db.handles) && c in db.handles && ValidSlug(db.handles[c])
    requires IsSpelling(sp) && sp.typed == Capitals(db.handles[c])
    ensures var a := ParseMessageAddress(Written(sp));
            a.Some? && (IsResolved(db, a.value.slug, found) ==>
                          (found == Some(c) <==> IsHeardAnywhere(db.registry.endpoints, c)))
  {
    SpellingParses(sp);
    CapitalsAreRead(db.handles[c]);
    ValidSlugIsLower(db.handles[c]);
    if IsResolved(db, db.handles[c], found) {
      ResolvedIff(db, db.handles[c], found, c);
    }
  }

  class Store {
    const hosts: map<CommunityId, string>
    var hub: Option<HubId>
    var endpoints: Endpoints
    var channels: map<(CommunityId, CommunityId), string>
    var handles: map<CommunityId, string>
    var messages: map<Uuid, Message>
    var deliveries: map<Uuid, Delivery>
    var mappings: map<(EndpointId, Uuid), EventId>
    var jobs: map<Uuid, Uuid>
    var cursors: map<EndpointId, int>
    var notices: set<SourceEvent>
    var commands: set<SourceEvent>
    var hints: set<(EndpointId, CommunityId)>

    ghost function HubRows(): Registry
      reads this`hub, this`endpoints, this`channels
    {
      Registry(hub, endpoints, channels)
    }

    ghost function Tables(): Db
      reads this
    {
      Db(HubRows(), handles, hosts, messages, deliveries, mappings, jobs, cursors, notices, commands, hints)
    }

    ghost predicate Holds(part: Part)
      reads this`hub, this`endpoints, this`channels, this`messages, this`mappings
    {
      match part
      case HubRules => HubInv(HubRows())
      case MessageKey => UniqueMessages(messages)
      case MappingKey => UniqueMappings(mappings)
    }

    /** Every part of the invariant holds. */
    ghost predicate Valid()
      reads this`hub, this`endpoints, this`channels, this`messages, this`mappings
    {
      forall part :: Holds(part)
    }

    constructor (handles: map<CommunityId, string>, hosts: map<CommunityId, string>)
      ensures Valid() && Tables() == Db(EMPTY, handles, hosts, map[], map[], map[], map[], map[], {}, {}, {})
    {
      hub, endpoints, channels := None, map[], map[];
      this.handles, this.hosts := handles, hosts;
      messages, deliveries, mappings, jobs, cursors := map[], map[], map[], map[], map[];
      notices, commands, hints := {}, {}, {};
    }

    // -------------------------------------------------------------- ingest

    method InsertDeliveries(message: Uuid, rows: seq<EndpointId>, first: Uuid) returns (ids: seq<Uuid>)
      requires forall d | d in deliveries :: d < first
      modifies this`deliveries
      ensures deliveries == old(deliveries) + NewDeliveries(message, rows, first)
      ensures |ids| == |rows| && forall i | 0 <= i < |ids| :: ids[i] == first + i
    {
      ghost var before := deliveries;
      ids := [];
      var n := 0;
      while n < |rows|
        invariant n == |ids| <= |rows| && forall i | 0 <= i < n :: ids[i] == first + i
        invariant deliveries == before + FirstDeliveries(message, rows, n, first)
      {
        OneMoreDelivery(before, message, rows, first, n);
        deliveries := deliveries[first + n := NewDelivery(message, rows[n])];
        ids := ids + [first + n];
        n := n + 1;
      }
    }

    method SendJobs(message: Uuid, ids: seq<Uuid>, ghost first: Uuid)
      requires forall i | 0 <= i < |ids| :: ids[i] == first + i
      requires message < first && message !in jobs && forall j | j in jobs :: j < first
      modifies this`jobs
      ensures jobs == old(jobs) + NewJobs(message, |ids|, first)
    {
      var index := 0;
      while index < |ids|
        invariant index <= |ids|
        invariant jobs == old(jobs) + NewJobs(message, index, first)
      {
        JobQueued(old(jobs), jobs, message, index, first, ids[index]);
        jobs := jobs[if index == 0 then message else ids[index] := ids[index]];
        index := index + 1;
      }
    }

    /** The message a source event was ingested as before. */
    method FindMessage(input: IngestInput) returns (found: Option<Uuid>)
      requires UniqueMessages(messages)
      ensures if found.Some? then IsOnly(Tables(), input, found.value) else IsNew(Tables(), input)
    {
      found := None;
      if id: Uuid :| id in messages && messages[id].hub == input.hub && messages[id].source == input.source
                     && messages[id].event == input.event
      {
        found := Some(id);
      }
    }

    method InsertMessage(input: IngestInput)
      modifies this`messages, this`mappings, this`cursors
      ensures messages == old(messages)[input.messageId :=
                            Message(input.hub, input.source, input.event, input.parentEvent, input.parentMessage,
                                    input.body, input.actorName, input.actorDigits)]
      ensures mappings == old(mappings)[(input.source, input.messageId) := IdOf(input.event)]
      ensures cursors == Advance(old(cursors), input.source, input.event.createdAt)
    {
      messages := messages[input.messageId :=
                    Message(input.hub, input.source, input.event, input.parentEvent, input.parentMessage,
                            input.body, input.actorName, input.actorDigits)];
      mappings := mappings[(input.source, input.messageId) := IdOf(input.event)];
      var current := if input.source in cursors then cursors[input.source] else 0;
      cursors := cursors[input.source := if current < input.event.createdAt then input.event.createdAt else current];
    }

    method Enqueue(message: Uuid, rows: seq<EndpointId>, first: Uuid) returns (created: set<Uuid>)
      requires message < first && message !in jobs
      requires (forall d | d in deliveries :: d < first) && forall j | j in jobs :: j < first
      modifies this`deliveries, this`jobs
      ensures deliveries == old(deliveries) + NewDeliveries(message, rows, first)
      ensures jobs == old(jobs) + NewJobs(message, |rows|, first)
      ensures created == NewDeliveries(message, rows, first).Keys
    {
      var ids := InsertDeliveries(message, rows, first);
      SendJobs(message, ids, first);
      created := set id | id in ids;
      NumberedIds(message, rows, ids, first);
    }

    method Record(input: IngestInput, rows: seq<EndpointId>, first: Uuid) returns (created: set<Uuid>)
      requires FreshIds(Tables(), input.messageId, first)
      modifies this
      ensures Tables() == Insert(old(Tables()), input, rows, first)
      ensures created == NewDeliveries(input.messageId, rows, first).Keys
    {
      created := Enqueue(input.messageId, rows, first);
      InsertMessage(input);
    }

    method IngestBridgeMessage(input: IngestInput, first: Uuid) returns (result: IngestResult)
      requires Valid() && FreshIds(Tables(), input.messageId, first)
      modifies this
      ensures Valid()
      ensures IngestOutcome(Tables(), result) == Ingest(old(Tables()), input, first)
    {
      assert Holds(HubRules) && Holds(MessageKey) && Holds(MappingKey);
      result := IngestUnique(input, first);
      assert Holds(HubRules) && Holds(MessageKey) && Holds(MappingKey);
    }

    method IngestUnique(input: IngestInput, first: Uuid) returns (result: IngestResult)
      requires UniqueMessages(messages) && UniqueMappings(mappings) && FreshIds(Tables(), input.messageId, first)
      modifies this
      ensures UniqueMessages(messages) && UniqueMappings(mappings) && HubRows() == old(HubRows())
      ensures IngestOutcome(Tables(), result) == Ingest(old(Tables()), input, first)
    {
      ghost var db := Tables();
      if !BodyFits(input.body) {
        return Rejected("invalid_input");
      }
      if input.source !in endpoints || endpoints[input.source].hub != input.hub || !endpoints[input.source].sends {
        ClosedCase(db, input, first);
        return Rejected("route_inactive");
      }
      var rows := Listed(Destinations(endpoints, input.source, input.destination));
      if |rows| == 0 {
        ClosedCase(db, input, first);
        return Rejected("route_inactive");
      }
      var existing := FindMessage(input);
      if existing.Some? {
        var ids := set d | d in deliveries && deliveries[d].message == existing.value;
        ReplayCase(db, input, first, existing.value);
        return if ids == {} then Rejected("message_ingest_failed") else Replayed(existing.value, ids);
      }
      NewCase(db, input, first);
      if exists k | k in mappings :: k.0 == input.source && mappings[k] == IdOf(input.event) {
        return Rejected("unique_violation");
      }
      InsertKeepsUnique(db, input, rows, first);
      var created := Record(input, rows, first);
      assert HubRows() == db.registry;
      result := Created(created);
    }

    // -------------------------------------------------------------- delivery

    method FindParentMessage(m: Message) returns (parent: Option<Uuid>)
      requires UniqueMappings(mappings)
      ensures forall p :: IsParentMessage(Tables(), m, p) <==> parent == Some(p)
    {
      parent := m.parentMessage;
      if m.parentMessage.None? && m.parentEvent.Some? {
        if k: (EndpointId, Uuid) :| k in mappings && k.0 == m.source && mappings[k] == m.parentEvent.value {
          parent := Some(k.1);
        }
      }
    }

    method FindLocalParent(m: Message, at: EndpointId) returns (local: Option<EventId>)
      requires UniqueMappings(mappings)
      ensures local == LocalParent(Tables(), m, at)
    {
      var parent := FindParentMessage(m);
      local := if parent.Some? && (at, parent.value) in mappings then Some(mappings[(at, parent.value)]) else None;
      LocalParentIs(Tables(), m, at, parent);
    }

    function SlugOf(community: CommunityId): string
      reads this`handles
    {
      HandleOf(handles, hosts, community)
    }

    method GetBridgeDeliveryContext(delivery: Uuid) returns (context: Option<Context>)
      requires Valid()
      ensures context == GetContext(Tables(), delivery)
    {
      if delivery !in deliveries || deliveries[delivery].message !in messages
         || deliveries[delivery].destination !in endpoints
         || messages[deliveries[delivery].message].source !in endpoints
      {
        return None;
      }
      var row := deliveries[delivery];
      var m := messages[row.message];
      var from, to := endpoints[m.source], endpoints[row.destination];
      assert Holds(MappingKey);
      var local := FindLocalParent(m, row.destination);
      return Some(Context(delivery, row.state, row.signed, row.message, m, row.destination, to.community,
                          to.localChannel, from.community, HandleOf(handles, hosts, from.community), local,
                          RouteActive(from, to)));
    }

    method MarkBridgeDeliveryDelivering(delivery: Uuid) returns (marked: bool)
      requires Valid()
      modifies this`deliveries
      ensures Valid() && Tables() == MarkDelivering(old(Tables()), delivery)
      ensures marked <==> CanStart(old(Tables()), delivery)
    {
      marked := delivery in deliveries && deliveries[delivery].state in {Queued, Retry, Delivering};
      if marked {
        var row := deliveries[delivery];
        deliveries := deliveries[delivery := row.(state := Delivering, attempts := row.attempts + 1)];
      }
    }

    method IsBridgeDeliveryRouteActive(delivery: Uuid) returns (active: bool)
      requires Valid()
      ensures active <==> RouteStillActive(Tables(), delivery)
    {
      if delivery !in deliveries || deliveries[delivery].message !in messages
         || deliveries[delivery].destination !in endpoints
         || messages[deliveries[delivery].message].source !in endpoints
      {
        return false;
      }
      var row := deliveries[delivery];
      return row.state == Delivering
          && RouteActive(endpoints[messages[row.message].source], endpoints[row.destination]);
    }

    method PersistDestinationEvent(delivery: Uuid, event: Event) returns (result: Result<Event, string>)
      requires Valid()
      modifies this`deliveries
      ensures Valid() && PersistOutcome(Tables(), result) == Persist(old(Tables()), delivery, event)
    {
      if delivery !in deliveries {
        return Failure("delivery_not_found");
      }
      var row := deliveries[delivery];
      if row.state == Cancelled || row.state == Failed {
        return Failure("delivery_terminal");
      }
      if row.signed.Some? {
        return Success(row.signed.value);
      }
      deliveries := deliveries[delivery := row.(signed := Some(event))];
      return Success(event);
    }

    /** The update and the insert are one transaction: a conflict on the insert takes the update back. */
    method CompleteBridgeDelivery(delivery: Uuid, event: Event) returns (error: Option<string>)
      requires Valid()
      modifies this`deliveries, this`mappings
      ensures Valid() && CompleteOutcome(Tables(), error) == Complete(old(Tables()), delivery, event)
    {
      if delivery !in deliveries || deliveries[delivery].message !in messages || deliveries[delivery].signed.None?
         || IdOf(deliveries[delivery].signed.value) != IdOf(event) || deliveries[delivery].state == Cancelled
      {
        return Some("delivery_completion_conflict");
      }
      assert Holds(HubRules) && Holds(MessageKey) && Holds(MappingKey);
      var before := deliveries;
      var row := deliveries[delivery];
      deliveries := deliveries[delivery := row.(state := Delivered, error := None)];
      if (row.destination, row.message) !in mappings {
        if exists k | k in mappings :: k.0 == row.destination && mappings[k] == IdOf(event) {
          deliveries := before;
          return Some("unique_violation");
        }
        mappings := mappings[(row.destination, row.message) := IdOf(event)];
      }
      return None;
    }

    method MarkBridgeDeliveryRetry(delivery: Uuid, code: string, terminal: bool)
      requires Valid()
      modifies this`deliveries
      ensures Valid() && Tables() == MarkRetry(old(Tables()), delivery, code, terminal)
    {
      if delivery in deliveries && deliveries[delivery].state != Delivered && deliveries[delivery].state != Cancelled {
        var state := if terminal then Failed else Retry;
        deliveries := deliveries[delivery := deliveries[delivery].(state := state, error := Some(Take(code, 80)))];
      }
    }

    method CancelBridgeDelivery(delivery: Uuid)
      requires Valid()
      modifies this`deliveries
      ensures Valid() && Tables() == Cancel(old(Tables()), delivery)
    {
      if delivery in deliveries && deliveries[delivery].state != Delivered {
        var row := deliveries[delivery];
        deliveries := deliveries[delivery := row.(state := Cancelled, error := Some("route_inactive"))];
      }
    }

    // -------------------------------------------------------------- claims

    method ClaimUndeliverableNotice(key: SourceEvent) returns (claimed: bool)
      requires Valid()
      modifies this`notices
      ensures Valid() && ClaimOutcome(Tables(), claimed) == ClaimNotice(old(Tables()), key)
    {
      claimed := key !in notices;
      notices := notices + {key};
    }

    method ClaimCommandReceipt(key: SourceEvent) returns (claimed: bool)
      requires Valid()
      modifies this`commands
      ensures Valid() && ClaimOutcome(Tables(), claimed) == ClaimCommand(old(Tables()), key)
    {
      claimed := key !in commands;
      commands := commands + {key};
    }

    method ClaimDirectChannelHint(endpoint: EndpointId, community: CommunityId) returns (claimed: bool)
      requires Valid()
      modifies this`hints
      ensures Valid() && ClaimOutcome(Tables(), claimed) == ClaimHint(old(Tables()), endpoint, community)
    {
      claimed := endpoint in endpoints && endpoints[endpoint].dedicatedTo.None? && (endpoint, community) !in hints;
      if claimed {
        hints := hints + {(endpoint, community)};
      }
    }

    // -------------------------------------------------------------- hub membership

    /** Tries fifty candidates and takes the first that nobody else answers to. */
    method EnsureCommunitySlug(community: CommunityId, host: Option<string>) returns (result: Result<string, string>)
      modifies this`handles
      ensures result.Failure? ==> handles == old(handles)
      ensures SlugOutcome(handles, result) == Assign(old(handles), community, host)
    {
      if host.None? {
        return Failure("invalid_input");
      }
      if community in handles && Trim(handles[community]) != [] {
        return Success(handles[community]);
      }
      var stem := Stem(host.value);
      var attempt := 0;
      while attempt < ATTEMPTS
        invariant attempt <= ATTEMPTS && handles == old(handles)
        invariant FirstFree(handles, community, stem, 0) == FirstFree(handles, community, stem, attempt)
      {
        var candidate := Candidate(stem, attempt);
        if !IsTaken(handles, community, candidate) {
          if !FitsColumn(candidate) {
            return Failure("check_violation");
          }
          handles := handles[community := candidate];
          return Success(candidate);
        }
        attempt := attempt + 1;
      }
      return Failure("invalid_input");
    }

    /** What a hub call owes the cursors, given the endpoints and cursors it found. */
    ghost predicate CursorsFit(eps: Endpoints, before: map<EndpointId, int>, now: int)
      reads this`endpoints, this`cursors
    {
      cursors == CursorsAfter(eps, endpoints, before, now)
    }

    method InsertOrdinary(id: EndpointId, hub: HubId, community: CommunityId, channel: string, now: int)
      modifies this`endpoints, this`cursors
      ensures endpoints == old(endpoints)[id := OrdinaryEndpoint(hub, community, channel)]
      ensures cursors == old(cursors)[id := now]
    {
      cursors := cursors[id := now];
      endpoints := endpoints[id := Endpoint(hub, community, None, channel, true, true, EveryoneExcept, [])];
    }

    /** Creates the hub row, with the home community's endpoint, when there is none. */
    method CreateHub(home: CommunityId, homeChannel: string, ids: NewIds, now: int)
      requires hub.None?
      modifies this`hub, this`endpoints, this`cursors
      ensures HubRows() == WithHub(old(HubRows()), home, homeChannel, ids)
      ensures cursors == old(cursors)[ids.home := now]
    {
      hub := Some(ids.hub);
      InsertOrdinary(ids.home, ids.hub, home, homeChannel, now);
    }

    /** `home` is the verified and connected community of our own relay, if there is one. */
    method InsertMember(community: CommunityId, channel: string, home: Option<CommunityId>, homeChannel: string,
                        ids: NewIds, now: int)
      returns (error: Option<string>)
      requires AreFresh(ids, endpoints)
      modifies this`hub, this`endpoints, this`cursors
      ensures Outcome(HubRows(), error) == Join(old(HubRows()), community, channel, home, homeChannel, ids)
      ensures CursorsFit(old(endpoints), old(cursors), now)
    {
      NoRestart(endpoints, endpoints, cursors, now);
      if exists id | id in endpoints :: endpoints[id].community == community {
        return None;
      }
      if IsRouted(endpoints, community, channel, None) {
        return Some("channel_already_routed");
      }
      if hub.None? {
        if home.None? {
          return Some("featured_unavailable");
        }
        CreateHub(home.value, homeChannel, ids, now);
        OneRestart(old(endpoints), ids.home, endpoints[ids.home], old(cursors), now);
        if home.value == community {
          return None;
        }
        TwoRestarts(old(endpoints), ids.home, ids.own, endpoints[ids.home],
                    OrdinaryEndpoint(hub.value, community, channel), old(cursors), now);
      } else {
        OneRestart(old(endpoints), ids.own, OrdinaryEndpoint(hub.value, community, channel), old(cursors), now);
      }
      InsertOrdinary(ids.own, hub.value, community, channel, now);
      return None;
    }

    /** Handle and membership are one transaction: if either fails, neither is kept. */
    method JoinTransaction(community: CommunityId, host: Option<string>, channel: string,
                           home: Option<CommunityId>, homeChannel: string, ids: NewIds, now: int)
      returns (error: Option<string>)
      requires AreFresh(ids, endpoints)
      modifies this`hub, this`endpoints, this`cursors, this`handles
      ensures CursorsFit(old(endpoints), old(cursors), now)
      ensures JoinsAs(old(HubRows()), old(handles), HubRows(), handles, error, Assign(old(handles), community, host),
                      Join(old(HubRows()), community, channel, home, homeChannel, ids))
    {
      var before := handles;
      var slug := EnsureCommunitySlug(community, host);
      error := JoinWith(slug, before, community, channel, home, homeChannel, ids, now);
    }

    /** The insert, once the handle is there; without a handle, or a row, the handles are as they were `before`. */
    method JoinWith(slug: Result<string, string>, before: Handles, community: CommunityId, channel: string,
                    home: Option<CommunityId>, homeChannel: string, ids: NewIds, now: int)
      returns (error: Option<string>)
      requires AreFresh(ids, endpoints) && (slug.Failure? ==> handles == before)
      modifies this`hub, this`endpoints, this`cursors, this`handles
      ensures CursorsFit(old(endpoints), old(cursors), now)
      ensures JoinsAs(old(HubRows()), before, HubRows(), handles, error, SlugOutcome(old(handles), slug),
                      Join(old(HubRows()), community, channel, home, homeChannel, ids))
    {
      if slug.Failure? {
        NoRestart(endpoints, endpoints, cursors, now);
        return Some(slug.error);
      }
      error := InsertMember(community, channel, home, homeChannel, ids, now);
      if error.Some? {
        handles := before;
      }
    }

    method JoinOpenHub(community: CommunityId, host: Option<string>, channel: string,
                       home: Option<CommunityId>, homeChannel: string, ids: NewIds, now: int)
      returns (error: Option<string>)
      requires Valid() && AreFresh(ids, endpoints)
      modifies this`hub, this`endpoints, this`cursors, this`handles
      ensures Valid() && CursorsFit(old(endpoints), old(cursors), now)
      ensures JoinsAs(old(HubRows()), old(handles), HubRows(), handles, error, Assign(old(handles), community, host),
                      Join(old(HubRows()), community, channel, home, homeChannel, ids))
    {
      assert Holds(HubRules) && Holds(MessageKey) && Holds(MappingKey);
      JoinKeepsInv(HubRows(), community, channel, home, homeChannel, ids);
      error := JoinTransaction(community, host, channel, home, homeChannel, ids, now);
      assert Holds(MessageKey) && Holds(MappingKey);
    }

    /** `[...new Set(list)]`, one element at a time. */
    method Distinct(list: seq<CommunityId>) returns (unique: seq<CommunityId>)
      ensures unique == Dedup(list)
    {
      unique := [];
      var i := 0;
      while i < |list|
        invariant i <= |list| && unique == Dedup(list[..i])
      {
        assert list[..i + 1][..i] == list[..i];
        if list[i] !in unique {
          unique := unique + [list[i]];
        }
        i := i + 1;
      }
      assert list[..|list|] == list;
    }

    method RewriteOrdinary(own: EndpointId, s: Settings, list: seq<CommunityId>, now: int)
      requires own in endpoints && list == Dedup(s.filterList)
      modifies this`endpoints, this`cursors
      ensures endpoints == old(endpoints)[own := WithSettings(old(endpoints)[own], s)]
      ensures CursorsFit(old(endpoints), old(cursors), now)
    {
      var moved := endpoints[own].(
        sends := s.sends, receives := s.receives, filterMode := s.filterMode, filterList := list,
        localChannel := if s.channel.Some? then s.channel.value else endpoints[own].localChannel);
      OneRestart(endpoints, own, moved, cursors, now);
      if moved.localChannel != endpoints[own].localChannel {
        cursors := cursors[own := now];
      }
      endpoints := endpoints[own := moved];
    }

    /** A channel that moves is read from now on: its cursor is set to the clock, even backwards. */
    method UpdateOpenHubSettings(community: CommunityId, s: Settings, now: int) returns (error: Option<string>)
      requires Valid()
      modifies this`endpoints, this`cursors
      ensures Valid() && Outcome(HubRows(), error) == UpdateSettings(old(HubRows()), community, s)
      ensures CursorsFit(old(endpoints), old(cursors), now)
    {
      assert Holds(HubRules) && Holds(MessageKey) && Holds(MappingKey);
      SettingsKeepInv(HubRows(), community, s);
      error := CheckAndRewrite(community, s, now);
      assert Holds(HubRules) && Holds(MessageKey) && Holds(MappingKey);
    }

    method CheckAndRewrite(community: CommunityId, s: Settings, now: int) returns (error: Option<string>)
      requires OneOrdinary(endpoints)
      modifies this`endpoints, this`cursors
      ensures Outcome(HubRows(), error) == UpdateSettings(old(HubRows()), community, s)
      ensures CursorsFit(old(endpoints), old(cursors), now)
    {
      NoRestart(endpoints, endpoints, cursors, now);
      var list := Distinct(s.filterList);
      if own: EndpointId :| own in endpoints && endpoints[own].community == community
                            && endpoints[own].dedicatedTo.None?
      {
        OwnRowIsIt(HubRows(), community, s, own);
        if s.channel.Some? && endpoints[own].localChannel != s.channel.value
           && IsRouted(endpoints, community, s.channel.value, Some(own))
        {
          return Some("channel_already_routed");
        }
        if |ListedRows(endpoints, community, list)| != |list| || community in list {
          return Some("hub_filter_invalid");
        }
        RewriteOrdinary(own, s, list, now);
        return None;
      }
      return Some("hub_membership_not_found");
    }

    /** `ON CONFLICT DO NOTHING`: without a home row, or on any conflict, nothing is bound. */
    method AttachDedicatedPeerChannel(community: CommunityId, peer: CommunityId, channel: string, id: EndpointId,
                                      now: int)
      returns (bound: bool)
      requires Valid() && id !in endpoints && peer != community && IsMember(endpoints, peer)
      requires (community, peer) in channels && channels[(community, peer)] == channel
      modifies this`endpoints, this`cursors
      ensures Valid() && HubRows() == Attach(old(HubRows()), community, peer, channel, id)
      ensures CursorsFit(old(endpoints), old(cursors), now)
      ensures bound <==> Attachable(old(HubRows()), community, peer, channel)
    {
      assert Holds(HubRules) && Holds(MessageKey) && Holds(MappingKey);
      AttachKeepsInv(HubRows(), community, peer, channel, id);
      NoRestart(endpoints, endpoints, cursors, now);
      bound := false;
      if home: EndpointId :| home in endpoints && IsOrdinary(endpoints, home, community) {
        bound := !HasDedicated(endpoints, community, peer) && !IsRouted(endpoints, community, channel, None);
        if bound {
          var e := Endpoint(endpoints[home].hub, community, Some(peer), channel, true, true, EveryoneExcept, []);
          OneRestart(endpoints, id, e, cursors, now);
          endpoints, cursors := endpoints[id := e], cursors[id := now];
        }
      }
    }

    /** Turns the pair's dedicated endpoint on or off, and says whether that changed anything. */
    method UpdateFlow(community: CommunityId, peer: CommunityId, on: bool) returns (changed: bool)
      requires OneDedicated(endpoints) && DedicatedFlows(endpoints)
      modifies this`endpoints
      ensures endpoints == SetFlow(old(endpoints), community, peer, on)
      ensures Tables() == old(Tables()).(registry := old(HubRows()).(endpoints := endpoints))
      ensures changed <==> HasFlow(old(endpoints), community, peer, !on)
    {
      changed := false;
      if id: EndpointId :| id in endpoints && IsDedicated(endpoints, id, community, peer) {
        FlowOfOne(endpoints, community, peer, on, id);
        FlowOfOne(endpoints, community, peer, !on, id);
        changed := endpoints[id].sends != on || endpoints[id].receives != on;
        endpoints := endpoints[id := endpoints[id].(sends := on, receives := on)];
      } else {
        FlowOfNone(endpoints, community, peer, on);
      }
    }

    method UnbindDedicatedPeerChannel(community: CommunityId, peer: CommunityId) returns (closed: bool)
      requires Valid()
      modifies this`endpoints
      ensures Valid() && HubRows() == Unbind(old(HubRows()), community, peer)
      ensures Tables() == old(Tables()).(registry := HubRows())
      ensures closed <==> HasFlow(old(endpoints), community, peer, true)
    {
      assert Holds(HubRules) && Holds(MessageKey) && Holds(MappingKey);
      InvMeansFlows(HubRows());
      SetFlowKeepsInv(HubRows(), community, peer, false);
      closed := UpdateFlow(community, peer, false);
      assert Holds(MessageKey) && Holds(MappingKey);
      assert HubRows() == Unbind(old(HubRows()), community, peer);
    }

    method ReopenDedicatedPeerChannel(community: CommunityId, peer: CommunityId) returns (reopened: bool)
      requires Valid()
      modifies this`endpoints
      ensures Valid() && HubRows() == Reopen(old(HubRows()), community, peer)
      ensures reopened <==> HasFlow(old(endpoints), community, peer, false)
    {
      assert Holds(HubRules) && Holds(MessageKey) && Holds(MappingKey);
      InvMeansFlows(HubRows());
      SetFlowKeepsInv(HubRows(), community, peer, true);
      reopened := UpdateFlow(community, peer, true);
      assert Holds(MessageKey) && Holds(MappingKey);
      assert HubRows() == Reopen(old(HubRows()), community, peer);
    }

    /** What a handle resolves to: a community that answers to it and has an endpoint that receives. */
    method FindRoutableCommunityBySlug(slug: string) returns (found: Option<CommunityId>)
      ensures IsResolved(Tables(), slug, found)
    {
      found := None;
      if c: CommunityId :| c in handles && ToLower(handles[c]) == ToLower(slug) && IsReachable(endpoints, c) {
        found := Some(c);
      }
    }

    /** The channel that the hand-off journal holds for the pair; the first call mints it. */
    method CreateDedicatedChannel(community: CommunityId, peer: CommunityId, minted: string) returns (channel: string)
      requires Valid()
      modifies this`channels
      ensures Valid() && HubRows() == ReserveChannel(old(HubRows()), community, peer, minted)
      ensures (community, peer) in channels && channel == channels[(community, peer)]
    {
      assert Holds(HubRules) && Holds(MessageKey) && Holds(MappingKey);
      ReserveKeepsInv(HubRows(), community, peer, minted);
      if (community, peer) !in channels {
        channels := channels[(community, peer) := minted];
      }
      channel := channels[(community, peer)];
      assert Holds(MessageKey) && Holds(MappingKey);
      assert HubRows() == ReserveChannel(old(HubRows()), community, peer, minted);
    }
  }
}
