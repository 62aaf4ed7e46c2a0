/** Each transaction keeps the table invariant and only extends the tables. */
module NetworkSteps {
  import opened Wrappers
  import opened Nostr
  import opened Bridge
  import opened Hub
  import opened Routing
  import opened Tables
  import opened Network
  import opened NetworkInvariant

  // ---------------------------------------------------------------- growth lemmas

  lemma MessagesStay(db: Db, db': Db, relay: Relay, relay': Relay)
    requires Extends(db, db') && relay <= relay' && MessagesOk(db, relay)
    requires db'.messages == db.messages
    ensures MessagesOk(db', relay')
  {
    forall id | id in db'.messages ensures MessageOk(db', relay', id) {
      assert MessageOk(db, relay, id);
    }
  }

  /** A row that is not rewritten stays sound in larger tables. */
  lemma DeliveryStays(db: Db, db': Db, relay: Relay, relay': Relay, d: Uuid)
    requires Extends(db, db') && relay <= relay' && MessagesOk(db, relay)
    requires d in db.deliveries && DeliveryOk(db, relay, d)
    requires db'.deliveries[d] == db.deliveries[d]
    ensures DeliveryOk(db', relay', d)
  {
    var row := db.deliveries[d];
    assert MessageOk(db, relay, row.message);
    if row.signed.Some? {
      MirrorsStays(db, db', relay, row, row.signed.value);
    }
  }

  lemma MappingStays(db: Db, db': Db, key: (EndpointId, Uuid))
    requires Extends(db, db') && JobsMatch(db) && key in db.mappings && MappingOk(db, key)
    ensures MappingOk(db', key)
  {
    if DeliversTo(db, key.1, key.0, db.mappings[key]) {
      var d := db.jobs[key.1];
      assert d in db'.deliveries && RowGrows(db.deliveries[d], db'.deliveries[d]);
      assert DeliversTo(db', key.1, key.0, db'.mappings[key]);
    }
  }

  lemma HeardStays(db: Db, db': Db, relay: Relay, relay': Relay, key: SourceEvent)
    requires KeepsRows(db.registry.endpoints, db'.registry.endpoints) && relay <= relay' && IsHeard(db, relay, key)
    ensures IsHeard(db', relay', key)
  {
    var at := key.0;
    assert at in db.registry.endpoints && at in db'.registry.endpoints;
  }

  lemma SenderStays(db: Db, db': Db, at: EndpointId, peer: CommunityId)
    requires Extends(db, db') && exists d :: IsSender(db, at, peer, d)
    ensures exists d :: IsSender(db', at, peer, d)
  {
    var d :| IsSender(db, at, peer, d);
    assert IsSender(db', at, peer, d);
  }

  lemma ClaimsStay(db: Db, db': Db, relay: Relay, relay': Relay)
    requires Extends(db, db') && relay <= relay' && ClaimsOk(db, relay)
    requires db'.notices == db.notices && db'.commands == db.commands && db'.hints == db.hints
    ensures ClaimsOk(db', relay')
  {
    forall key | key in db.notices || key in db.commands ensures IsHeard(db', relay', key) {
      HeardStays(db, db', relay, relay', key);
    }
    forall h | h in db.hints ensures exists d :: IsSender(db', h.0, h.1, d) {
      SenderStays(db, db', h.0, h.1);
    }
  }

  lemma SettledStays(db: Db, db': Db, settled: set<Uuid>)
    requires Extends(db, db') && SettledOk(db, settled) && db'.registry == db.registry
    ensures SettledOk(db', settled)
  {
  }

  lemma RowsStayWithRelay(db: Db, relay: Relay, relay': Relay)
    requires RowsOk(db, relay) && relay <= relay'
    ensures RowsOk(db, relay') && Extends(db, db)
  {
    MessagesStay(db, db, relay, relay');
    forall d | d in db.deliveries ensures DeliveryOk(db, relay', d) {
      DeliveryStays(db, db, relay, relay', d);
    }
  }

  // ---------------------------------------------------------------- rewriting one delivery row

  lemma RewriteExtends(db: Db, d: Uuid, row': Delivery)
    requires d in db.deliveries && RowGrows(db.deliveries[d], row')
    ensures Extends(db, SetDelivery(db, d, row'))
  {
  }

  /** The one rewrite lemma: a grown row that is itself sound leaves all tables sound. */
  lemma RewriteKeeps(db: Db, relay: Relay, d: Uuid, row': Delivery)
    requires RowsOk(db, relay) && d in db.deliveries && RowGrows(db.deliveries[d], row')
    requires row'.signed.Some? ==> Mirrors(db, row', row'.signed.value)
    requires row'.state == Delivered ==> row'.destination in db.registry.endpoints && IsDelivered(db, relay, row')
    ensures RowsOk(SetDelivery(db, d, row'), relay)
    ensures Extends(db, SetDelivery(db, d, row'))
  {
    var db' := SetDelivery(db, d, row');
    RewriteExtends(db, d, row');
    MessagesStay(db, db', relay, relay);
    assert DeliveryOk(db, relay, d);
    forall x | x in db'.deliveries ensures DeliveryOk(db', relay, x) {
      assert DeliveryOk(db, relay, x);
      if x != d {
        DeliveryStays(db, db', relay, relay, x);
      } else if row'.signed.Some? {
        assert MessageOk(db, relay, row'.message);
        MirrorsStays(db, db', relay, row', row'.signed.value);
      }
    }
    forall key | key in db'.mappings ensures MappingOk(db', key) {
      MappingStays(db, db', key);
    }
  }

  /** Another state, short of delivered. */
  lemma RestateKeeps(db: Db, relay: Relay, d: Uuid, row': Delivery)
    requires RowsOk(db, relay) && d in db.deliveries && row'.state != Delivered
    requires row' == db.deliveries[d].(state := row'.state, attempts := row'.attempts, error := row'.error)
    ensures RowsOk(SetDelivery(db, d, row'), relay) && Extends(db, SetDelivery(db, d, row'))
  {
    assert DeliveryOk(db, relay, d);
    RewriteKeeps(db, relay, d, row');
  }

  lemma MarkDeliveringKeeps(db: Db, relay: Relay, d: Uuid)
    requires RowsOk(db, relay)
    ensures RowsOk(MarkDelivering(db, d), relay) && Extends(db, MarkDelivering(db, d))
  {
    if MarkDelivering(db, d) != db {
      RestateKeeps(db, relay, d, MarkDelivering(db, d).deliveries[d]);
    } else {
      ExtendsItself(db);
    }
  }

  lemma MarkRetryKeeps(db: Db, relay: Relay, d: Uuid, code: string, terminal: bool)
    requires RowsOk(db, relay)
    ensures RowsOk(MarkRetry(db, d, code, terminal), relay) && Extends(db, MarkRetry(db, d, code, terminal))
  {
    if MarkRetry(db, d, code, terminal) != db {
      RestateKeeps(db, relay, d, MarkRetry(db, d, code, terminal).deliveries[d]);
    } else {
      ExtendsItself(db);
    }
  }

  lemma CancelKeeps(db: Db, relay: Relay, d: Uuid)
    requires RowsOk(db, relay)
    ensures RowsOk(Cancel(db, d), relay) && Extends(db, Cancel(db, d))
  {
    if Cancel(db, d) != db {
      RestateKeeps(db, relay, d, Cancel(db, d).deliveries[d]);
    } else {
      ExtendsItself(db);
    }
  }

  /** After a successful persist the row holds exactly the event that the run will publish. */
  lemma PersistKeeps(db: Db, relay: Relay, d: Uuid, event: Event)
    requires RowsOk(db, relay) && d in db.deliveries && Mirrors(db, db.deliveries[d], event)
    ensures var out := Persist(db, d, event);
            && RowsOk(out.db, relay) && Extends(db, out.db)
            && (out.result.Success? ==> out.db.deliveries[d].signed == Some(out.result.value))
  {
    var row := db.deliveries[d];
    assert DeliveryOk(db, relay, d);
    if row.state !in {Cancelled, Failed} && row.signed.None? {
      RewriteKeeps(db, relay, d, row.(signed := Some(event)));
    } else {
      ExtendsItself(db);
    }
  }

  // ---------------------------------------------------------------- completion

  lemma MirrorIsMarked(event: Event)
    requires MirroredMessage(event).Some?
    ensures HasProjectionMarker(event)
  {
  }

  /**
   Completing a signed delivery never hits the unique key of mappings: no other
   message is known at the destination by this event, because the event names the
   message it mirrors, and what names one is never ingested.
   */
  lemma CompletionNeverConflicts(db: Db, relay: Relay, d: Uuid, event: Event)
    requires RowsOk(db, relay) && d in db.deliveries && db.deliveries[d].signed == Some(event)
    requires (db.deliveries[d].destination, db.deliveries[d].message) !in db.mappings
    ensures !IsMapped(db, db.deliveries[d].destination, IdOf(event))
  {
    var row := db.deliveries[d];
    assert DeliveryOk(db, relay, d);
    MirrorIsMarked(event);
    forall k | k in db.mappings && k.0 == row.destination ensures db.mappings[k] != IdOf(event) {
      assert MappingOk(db, k);
      assert MessageOk(db, relay, k.1);
      if DeliversTo(db, k.1, k.0, db.mappings[k]) {
        assert DeliveryOk(db, relay, db.jobs[k.1]);
      }
    }
  }

  /** If the destination already knows the message, it is by this very event. */
  lemma MappedByItsProjection(db: Db, relay: Relay, d: Uuid, event: Event)
    requires RowsOk(db, relay) && d in db.deliveries && db.deliveries[d].signed == Some(event)
    requires (db.deliveries[d].destination, db.deliveries[d].message) in db.mappings
    ensures db.mappings[(db.deliveries[d].destination, db.deliveries[d].message)] == IdOf(event)
  {
    var row := db.deliveries[d];
    assert DeliveryOk(db, relay, d);
    assert MappingOk(db, (row.destination, row.message));
  }

  lemma MappingExtends(db: Db, key: (EndpointId, Uuid), event: EventId)
    requires key !in db.mappings
    ensures Extends(db, db.(mappings := db.mappings[key := event]))
  {
  }

  lemma MapDeliveryKeeps(db: Db, relay: Relay, d: Uuid, event: Event)
    requires RowsOk(db, relay) && d in db.deliveries && db.deliveries[d].signed == Some(event)
    requires (db.deliveries[d].destination, db.deliveries[d].message) !in db.mappings
    ensures var key := (db.deliveries[d].destination, db.deliveries[d].message);
            var db' := db.(mappings := db.mappings[key := IdOf(event)]);
            RowsOk(db', relay) && Extends(db, db')
  {
    var row := db.deliveries[d];
    var db' := db.(mappings := db.mappings[(row.destination, row.message) := IdOf(event)]);
    MappingExtends(db, (row.destination, row.message), IdOf(event));
    assert DeliveryOk(db, relay, d);
    MessagesStay(db, db', relay, relay);
    forall x | x in db'.deliveries ensures DeliveryOk(db', relay, x) {
      DeliveryStays(db, db', relay, relay, x);
    }
    forall key | key in db'.mappings ensures MappingOk(db', key) {
      if key in db.mappings {
        MappingStays(db, db', key);
      }
    }
  }

  /** Completion of a published event succeeds unless the row was cancelled, and then it is delivered. */
  lemma CompleteKeeps(db: Db, relay: Relay, d: Uuid, event: Event)
    requires RowsOk(db, relay) && d in db.deliveries && db.deliveries[d].signed == Some(event)
    requires (db.registry.endpoints[db.deliveries[d].destination].community, event) in relay
    ensures var out := Complete(db, d, event);
            && RowsOk(out.db, relay) && Extends(db, out.db)
            && (out.error.None? <==> db.deliveries[d].state != Cancelled)
            && (out.error.None? ==> out.db.deliveries[d].state == Delivered)
            && (out.error.Some? ==> out.db == db)
  {
    var row := db.deliveries[d];
    assert DeliveryOk(db, relay, d);
    if !CanComplete(db, d, event) {
      ExtendsItself(db);
    } else {
      if (row.destination, row.message) in db.mappings {
        MappedByItsProjection(db, relay, d, event);
        RewriteKeeps(db, relay, d, row.(state := Delivered, error := None));
      } else {
        CompletionNeverConflicts(db, relay, d, event);
        CompletedKeeps(db, relay, d, event);
      }
    }
  }

  lemma CompletedKeeps(db: Db, relay: Relay, d: Uuid, event: Event)
    requires RowsOk(db, relay) && d in db.deliveries && db.deliveries[d].signed == Some(event)
    requires (db.registry.endpoints[db.deliveries[d].destination].community, event) in relay
    requires (db.deliveries[d].destination, db.deliveries[d].message) !in db.mappings
    ensures var row := db.deliveries[d];
            var mapped := db.(mappings := db.mappings[(row.destination, row.message) := IdOf(event)]);
            var db' := SetDelivery(mapped, d, row.(state := Delivered, error := None));
            RowsOk(db', relay) && Extends(db, db')
  {
    var row := db.deliveries[d];
    var mapped := db.(mappings := db.mappings[(row.destination, row.message) := IdOf(event)]);
    var row' := row.(state := Delivered, error := None);
    MapDeliveryKeeps(db, relay, d, event);
    assert DeliveryOk(mapped, relay, d);
    RewriteKeeps(mapped, relay, d, row');
    ExtendsOn(db, mapped, SetDelivery(mapped, d, row'));
  }

  lemma ExtendsOn(db: Db, mid: Db, db': Db)
    requires Extends(db, mid) && Extends(mid, db')
    ensures Extends(db, db')
  {
  }

  // ---------------------------------------------------------------- ingest

  /** An event the connector passes to ingest: one its endpoint may ingest, from its community's relay. */
  ghost predicate IsSourceInput(db: Db, relay: Relay, input: IngestInput) {
    && input.source in db.registry.endpoints
    && db.registry.endpoints[input.source].hub == input.hub
    && MayIngest(db.registry.endpoints[input.source], input.event)
    && (db.registry.endpoints[input.source].community, input.event) in relay
    && input.destination.Some? && input.parentMessage.None?
  }

  /** The connector's selection has exactly one row. */
  lemma OneRow(db: Db, input: IngestInput)
    requires HubInv(db.registry) && input.source in db.registry.endpoints && input.destination.Some?
    requires Destinations(db.registry.endpoints, input.source, input.destination) != {}
    ensures exists to :: Listed(Destinations(db.registry.endpoints, input.source, input.destination)) == [to]
                         && to in Destinations(db.registry.endpoints, input.source, input.destination)
  {
    var picked := Destinations(db.registry.endpoints, input.source, input.destination);
    SelectionIsPointToPoint(db.registry, input.source, input.destination.value);
    var to :| to in picked;
    assert picked == {to};
    assert Listed(picked)[0] in picked;
    assert Listed(picked) == [to];
  }

  /** The tables after a message with one destination was inserted. */
  function InsertOne(db: Db, input: IngestInput, to: EndpointId, first: Uuid): Db {
    db.(messages := db.messages[input.messageId :=
                      Message(input.hub, input.source, input.event, input.parentEvent, input.parentMessage,
                              input.body, input.actorName, input.actorDigits)],
        mappings := db.mappings[(input.source, input.messageId) := IdOf(input.event)],
        cursors := Advance(db.cursors, input.source, input.event.createdAt),
        deliveries := db.deliveries[first := NewDelivery(input.messageId, to)],
        jobs := db.jobs[input.messageId := first])
  }

  lemma InsertIsInsertOne(db: Db, input: IngestInput, to: EndpointId, first: Uuid)
    requires FreshIds(db, input.messageId, first)
    ensures Insert(db, input, [to], first) == InsertOne(db, input, to, first)
    ensures NewDeliveries(input.messageId, [to], first).Keys == {first}
  {
    assert NewDeliveries(input.messageId, [to], first) == map[first := NewDelivery(input.messageId, to)];
    OneJob(input.messageId, first);
    AddsOne(db.deliveries, first, NewDelivery(input.messageId, to));
    AddsOne(db.jobs, input.messageId, first);
  }

  lemma OneJob(message: Uuid, first: Uuid)
    requires message < first
    ensures NewJobs(message, 1, first) == map[message := first]
  {
  }

  lemma AddsOne<V>(rows: map<int, V>, key: int, value: V)
    ensures rows + map[key := value] == rows[key := value]
  {
  }

  lemma InsertExtends(db: Db, input: IngestInput, to: EndpointId, first: Uuid)
    requires FreshIds(db, input.messageId, first)
    ensures Extends(db, InsertOne(db, input, to, first))
  {
  }

  lemma InsertKeepsMessageRows(db: Db, relay: Relay, input: IngestInput, to: EndpointId, first: Uuid)
    requires RowsOk(db, relay) && IsSourceInput(db, relay, input) && FreshIds(db, input.messageId, first)
    ensures var db' := InsertOne(db, input, to, first);
            forall id | id in db'.messages :: MessageOk(db', relay, id)
  {
    var db' := InsertOne(db, input, to, first);
    forall id | id in db'.messages ensures MessageOk(db', relay, id) {
      if id != input.messageId {
        assert MessageOk(db, relay, id);
      }
    }
  }

  lemma InsertKeepsMessageKey(db: Db, relay: Relay, input: IngestInput, to: EndpointId, first: Uuid)
    requires RowsOk(db, relay) && IsSourceInput(db, relay, input) && FreshIds(db, input.messageId, first)
    requires forall id :: !IsMessageAt(db, id, input.hub, input.source, input.event)
    ensures MessagesOk(InsertOne(db, input, to, first), relay)
  {
    InsertKeepsMessageRows(db, relay, input, to, first);
    forall i | i in db.messages ensures db.messages[i].source != input.source || db.messages[i].event != input.event {
      assert MessageOk(db, relay, i) && !IsMessageAt(db, i, input.hub, input.source, input.event);
    }
  }

  lemma InsertKeepsJobs(db: Db, relay: Relay, input: IngestInput, to: EndpointId, first: Uuid)
    requires RowsOk(db, relay) && FreshIds(db, input.messageId, first)
    ensures JobsMatch(InsertOne(db, input, to, first))
  {
    var db' := InsertOne(db, input, to, first);
    forall d | d in db.deliveries ensures db.deliveries[d].message != input.messageId {
      assert DeliveryOk(db, relay, d);
    }
  }

  lemma InsertKeepsDeliveries(db: Db, relay: Relay, input: IngestInput, to: EndpointId, first: Uuid)
    requires RowsOk(db, relay) && IsSourceInput(db, relay, input) && FreshIds(db, input.messageId, first)
    requires to in db.registry.endpoints
    requires db.registry.endpoints[to].community != db.registry.endpoints[input.source].community
    ensures DeliveriesOk(InsertOne(db, input, to, first), relay)
  {
    var db' := InsertOne(db, input, to, first);
    InsertExtends(db, input, to, first);
    forall d | d in db'.deliveries ensures DeliveryOk(db', relay, d) {
      if d != first {
        assert DeliveryOk(db, relay, d);
        DeliveryStays(db, db', relay, relay, d);
      }
    }
  }

  lemma InsertKeepsMappings(db: Db, relay: Relay, input: IngestInput, to: EndpointId, first: Uuid)
    requires RowsOk(db, relay) && FreshIds(db, input.messageId, first)
    ensures MappingsOk(InsertOne(db, input, to, first))
  {
    var db' := InsertOne(db, input, to, first);
    InsertExtends(db, input, to, first);
    forall key | key in db'.mappings ensures MappingOk(db', key) {
      if key in db.mappings {
        MappingStays(db, db', key);
      }
    }
  }

  /** What ingest promises about its answer: created once, replayed as it was, or nothing at all. */
  ghost predicate AnswersOnce(db: Db, input: IngestInput, first: Uuid, out: IngestOutcome) {
    match out.result
    case Created(ids) =>
      && (forall id :: !IsMessageAt(db, id, input.hub, input.source, input.event))
      && ids == {first} && IsQueuedRoute(db, out.db, input, first)
    case Replayed(id, original) =>
      && out.db == db && IsMessageAt(db, id, input.hub, input.source, input.event)
      && id in db.jobs && original == {db.jobs[id]}
    case Rejected(_) => out.db == db
  }

  /** A new delivery of the message, to the addressed community, over a route that is active. */
  ghost predicate IsQueuedRoute(db: Db, db': Db, input: IngestInput, d: Uuid) {
    && Joins(db', d) && d !in db.deliveries
    && db'.deliveries[d] == Delivery(input.messageId, db'.deliveries[d].destination, None, Queued, 0, None)
    && db'.messages[input.messageId] == Message(input.hub, input.source, input.event, input.parentEvent,
                                                input.parentMessage, input.body, input.actorName, input.actorDigits)
    && db'.registry == db.registry && db'.notices == db.notices && db'.commands == db.commands && db'.hints == db.hints
    && var from, to := db.registry.endpoints[input.source], db.registry.endpoints[db'.deliveries[d].destination];
       RouteActive(from, to) && input.destination == Some(to.community)
       && IsPick(db.registry.endpoints, input.source, to.community, db'.deliveries[d].destination)
  }

  lemma CreatedIsQueued(db: Db, input: IngestInput, first: Uuid, to: EndpointId)
    requires HubInv(db.registry) && FreshIds(db, input.messageId, first)
    requires input.destination.Some? && SourceIsOpen(db, input)
    requires to in Destinations(db.registry.endpoints, input.source, input.destination)
    ensures IsQueuedRoute(db, InsertOne(db, input, to, first), input, first)
  {
    SelectionIsPointToPoint(db.registry, input.source, input.destination.value);
    SelectionIsExact(db.registry, input.source, input.destination.value, to);
    SelectedIsDeliverable(db.registry.endpoints, input.source, input.destination, to);
  }

  lemma CreatedKeeps(db: Db, relay: Relay, input: IngestInput, first: Uuid, to: EndpointId)
    requires RowsOk(db, relay) && IsSourceInput(db, relay, input) && FreshIds(db, input.messageId, first)
    requires to in db.registry.endpoints
    requires db.registry.endpoints[to].community != db.registry.endpoints[input.source].community
    requires forall id :: !IsMessageAt(db, id, input.hub, input.source, input.event)
    ensures RowsOk(InsertOne(db, input, to, first), relay) && Extends(db, InsertOne(db, input, to, first))
  {
    InsertExtends(db, input, to, first);
    InsertKeepsMessageKey(db, relay, input, to, first);
    InsertKeepsJobs(db, relay, input, to, first);
    InsertKeepsDeliveries(db, relay, input, to, first);
    InsertKeepsMappings(db, relay, input, to, first);
  }

  lemma ReplayIsOriginal(db: Db, relay: Relay, id: Uuid)
    requires RowsOk(db, relay) && id in db.messages
    ensures id in db.jobs && DeliveriesOf(db, id) == {db.jobs[id]}
  {
    assert forall d :: d in DeliveriesOf(db, id) <==> d == db.jobs[id];
  }

  /** Where an ingest call ends: one insert towards `to`, an answer from the existing rows, or nothing. */
  ghost predicate IngestCase(db: Db, input: IngestInput, first: Uuid, to: EndpointId, out: IngestOutcome) {
    match out.result
    case Created(_) =>
      && SourceIsOpen(db, input)
      && to in Destinations(db.registry.endpoints, input.source, input.destination)
      && db.registry.endpoints[to].community != db.registry.endpoints[input.source].community
      && (forall id :: !IsMessageAt(db, id, input.hub, input.source, input.event))
      && out == IngestOutcome(InsertOne(db, input, to, first), Created({first}))
    case Replayed(id, original) =>
      && out.db == db && IsMessageAt(db, id, input.hub, input.source, input.event)
      && original == DeliveriesOf(db, id)
    case Rejected(_) => out.db == db
  }

  lemma IngestCases(db: Db, input: IngestInput, first: Uuid) returns (to: EndpointId)
    requires HubInv(db.registry) && FreshIds(db, input.messageId, first)
    requires input.source in db.registry.endpoints && input.destination.Some?
    ensures IngestCase(db, input, first, to, Ingest(db, input, first))
  {
    var out := Ingest(db, input, first);
    to := 0;
    if out.result.Created? {
      OneRow(db, input);
      var picked := Destinations(db.registry.endpoints, input.source, input.destination);
      to :| Listed(picked) == [to] && to in picked;
      InsertIsInsertOne(db, input, to, first);
      SelectionIsPointToPoint(db.registry, input.source, input.destination.value);
    }
  }

  lemma ExtendsItself(db: Db)
    ensures Extends(db, db)
  {
  }

  lemma CaseKeeps(db: Db, relay: Relay, input: IngestInput, first: Uuid, to: EndpointId, out: IngestOutcome)
    requires RowsOk(db, relay) && IsSourceInput(db, relay, input) && FreshIds(db, input.messageId, first)
    requires IngestCase(db, input, first, to, out)
    ensures RowsOk(out.db, relay) && Extends(db, out.db) && out.db.registry == db.registry
  {
    if out.result.Created? {
      CreatedKeeps(db, relay, input, first, to);
    } else {
      ExtendsItself(db);
    }
  }

  /**
   Ingest is exactly once. An event that was never read creates one message with
   one queued delivery, deliverable at once; a replay answers with the ids created
   the first time; and whatever is not created leaves every table as it was.
   */
  lemma IngestAnswersOnce(db: Db, relay: Relay, input: IngestInput, first: Uuid)
    requires TablesOk(db, relay) && IsSourceInput(db, relay, input) && FreshIds(db, input.messageId, first)
    ensures AnswersOnce(db, input, first, Ingest(db, input, first))
  {
    var to := IngestCases(db, input, first);
    var out := Ingest(db, input, first);
    if out.result.Created? {
      CreatedIsQueued(db, input, first, to);
    } else if out.result.Replayed? {
      ReplayIsOriginal(db, relay, out.result.messageId);
    }
  }

  /** A body of legal length, a source that sends, and a row that the selection picks. */
  predicate FindsRoute(db: Db, input: IngestInput) {
    BodyFits(input.body) && SourceIsOpen(db, input)
    && Destinations(db.registry.endpoints, input.source, input.destination) != {}
  }

  ghost predicate WasRead(db: Db, input: IngestInput) {
    exists id :: IsMessageAt(db, id, input.hub, input.source, input.event)
  }

  lemma DeliversMarked(db: Db, relay: Relay, m: Uuid, at: EndpointId, event: EventId)
    requires DeliveriesOk(db, relay) && DeliversTo(db, m, at, event)
    ensures event.IdOf? && HasProjectionMarker(event.event)
  {
    assert DeliveryOk(db, relay, db.jobs[m]);
    MirrorIsMarked(db.deliveries[db.jobs[m]].signed.value);
  }

  lemma MappedEvent(db: Db, relay: Relay, key: (EndpointId, Uuid), event: Event)
    requires RowsOk(db, relay) && key in db.mappings && db.mappings[key] == IdOf(event)
    ensures HasProjectionMarker(event)
            || (key.1 in db.messages && db.messages[key.1].source == key.0 && db.messages[key.1].event == event)
  {
    assert MappingOk(db, key);
    if DeliversTo(db, key.1, key.0, db.mappings[key]) {
      DeliversMarked(db, relay, key.1, key.0, db.mappings[key]);
    }
  }

  /** The mapping key never stops an event that was not read before: a mirror is not ingested. */
  lemma MappedWasRead(db: Db, relay: Relay, input: IngestInput)
    requires RowsOk(db, relay) && IsSourceInput(db, relay, input)
    requires IsMapped(db, input.source, IdOf(input.event))
    ensures WasRead(db, input)
  {
    var key :| key in db.mappings && key.0 == input.source && db.mappings[key] == IdOf(input.event);
    MappedEvent(db, relay, key, input.event);
    assert MessageOk(db, relay, key.1);
    assert IsMessageAt(db, key.1, input.hub, input.source, input.event);
  }

  lemma CreatesIffRouted(db: Db, relay: Relay, input: IngestInput, first: Uuid)
    requires RowsOk(db, relay) && IsSourceInput(db, relay, input) && FreshIds(db, input.messageId, first)
    ensures Ingest(db, input, first).result.Created? <==> FindsRoute(db, input) && !WasRead(db, input)
    ensures Ingest(db, input, first).result.Replayed? <==> FindsRoute(db, input) && WasRead(db, input)
  {
    forall id | IsMessageAt(db, id, input.hub, input.source, input.event) ensures DeliveriesOf(db, id) != {} {
      ReplayIsOriginal(db, relay, id);
    }
    if IsMapped(db, input.source, IdOf(input.event)) {
      MappedWasRead(db, relay, input);
    }
  }

  /** A body of 1 to 16384 bytes, a source of this hub that sends, and a row that the two rows' settings pick. */
  predicate HasWay(db: Db, input: IngestInput) {
    var eps := db.registry.endpoints;
    && 1 <= Utf8Length(input.body, |input.body|) <= 16384
    && input.source in eps && eps[input.source].hub == input.hub && eps[input.source].sends
    && input.destination.Some?
    && exists id | id in eps :: IsPick(eps, input.source, input.destination.value, id)
  }

  lemma HasWayIff(db: Db, input: IngestInput)
    requires HubInv(db.registry) && input.source in db.registry.endpoints && input.destination.Some?
    ensures HasWay(db, input) <==> FindsRoute(db, input)
  {
    var eps := db.registry.endpoints;
    var picked := Destinations(eps, input.source, input.destination);
    forall id ensures id in picked <==> IsPick(eps, input.source, input.destination.value, id) {
      SelectionIsExact(db.registry, input.source, input.destination.value, id);
    }
    if HasWay(db, input) {
      var id :| id in eps && IsPick(eps, input.source, input.destination.value, id);
      assert id in picked;
    }
    if FindsRoute(db, input) {
      var id :| id in picked;
      assert IsPick(eps, input.source, input.destination.value, id);
    }
  }

  /** Ingest refuses nothing but what has no way: an event with a way is created, or replayed if it was read. */
  lemma IngestCreatesIff(db: Db, relay: Relay, input: IngestInput, first: Uuid)
    requires TablesOk(db, relay) && IsSourceInput(db, relay, input) && FreshIds(db, input.messageId, first)
    ensures Ingest(db, input, first).result.Created? <==> HasWay(db, input) && !WasRead(db, input)
    ensures Ingest(db, input, first).result.Replayed? <==> HasWay(db, input) && WasRead(db, input)
  {
    HasWayIff(db, input);
    CreatesIffRouted(db, relay, input, first);
  }

  lemma IngestKeeps(db: Db, relay: Relay, input: IngestInput, first: Uuid)
    requires TablesOk(db, relay) && IsSourceInput(db, relay, input) && FreshIds(db, input.messageId, first)
    ensures var db' := Ingest(db, input, first).db;
            RowsOk(db', relay) && Extends(db, db') && db'.registry == db.registry
  {
    var to := IngestCases(db, input, first);
    CaseKeeps(db, relay, input, first, to, Ingest(db, input, first));
  }

  // ---------------------------------------------------------------- hub operations

  lemma NewRegistryKeeps(db: Db, relay: Relay, registry: Registry, cursors: map<EndpointId, int>)
    requires RowsOk(db, relay) && KeepsRows(db.registry.endpoints, registry.endpoints)
    ensures var db' := db.(registry := registry, cursors := cursors);
            RowsOk(db', relay) && Extends(db, db')
  {
    var db' := db.(registry := registry, cursors := cursors);
    MessagesStay(db, db', relay, relay);
    forall d | d in db'.deliveries ensures DeliveryOk(db', relay, d) {
      DeliveryStays(db, db', relay, relay, d);
    }
    forall key | key in db'.mappings ensures MappingOk(db', key) {
      MappingStays(db, db', key);
    }
  }

  // ---------------------------------------------------------------- claims

  lemma ClaimKeeps(db: Db, db': Db, relay: Relay)
    requires RowsOk(db, relay)
    requires OnlyClaims(db, db')
    ensures RowsOk(db', relay) && Extends(db, db')
  {
    MessagesStay(db, db', relay, relay);
    forall d | d in db'.deliveries ensures DeliveryOk(db', relay, d) {
      DeliveryStays(db, db', relay, relay, d);
    }
    forall key | key in db'.mappings ensures MappingOk(db', key) {
      MappingStays(db, db', key);
    }
  }
}
