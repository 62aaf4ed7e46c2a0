/**
 The bridge's tables, and each of its transactions as one function from tables to
 tables. Row ids are generated by the database; `first` is the first id generated
 for delivery rows in a call.
 */
module Tables {
  import opened Wrappers
  import opened Nostr
  import opened Counting
  import opened Bridge
  import opened Hub
  import opened Routing

  datatype Message = Message(
    hub: HubId,
    source: EndpointId,
    event: Event,
    parentEvent: Option<EventId>,
    parentMessage: Option<Uuid>,
    body: string,
    actorName: Option<string>,
    actorDigits: string)

  datatype DeliveryState = Queued | Delivering | Retry | Delivered | Failed | Cancelled

  datatype Delivery = Delivery(
    message: Uuid,
    destination: EndpointId,
    signed: Option<Event>,
    state: DeliveryState,
    attempts: nat,
    error: Option<string>)

  type SourceEvent = (EndpointId, EventId)

  /**
   `hosts` are the communities' relay hosts; `cursors` say from when on an endpoint's channel
   is read; `jobs` records every delivery job ever queued, by job id.
   */
  datatype Db = Db(
    registry: Registry,
    handles: map<CommunityId, string>,
    hosts: map<CommunityId, string>,
    messages: map<Uuid, Message>,
    deliveries: map<Uuid, Delivery>,
    mappings: map<(EndpointId, Uuid), EventId>,
    jobs: map<Uuid, Uuid>,
    cursors: map<EndpointId, int>,
    notices: set<SourceEvent>,
    commands: set<SourceEvent>,
    hints: set<(EndpointId, CommunityId)>)

  // ---------------------------------------------------------------- hub operations

  /** A new endpoint, and one that moved to another channel, is read from now on. */
  predicate Restarts(eps: Endpoints, eps': Endpoints, id: EndpointId) {
    id in eps' && (id !in eps || eps'[id].localChannel != eps[id].localChannel)
  }

  function CursorsAfter(eps: Endpoints, eps': Endpoints, cursors: map<EndpointId, int>, now: int)
    : map<EndpointId, int>
  {
    map id | id in cursors.Keys + eps'.Keys && (id in cursors || Restarts(eps, eps', id)) ::
      if Restarts(eps, eps', id) then now else cursors[id]
  }

  lemma OneRestart(eps: Endpoints, id: EndpointId, e: Endpoint, cursors: map<EndpointId, int>, now: int)
    ensures CursorsAfter(eps, eps[id := e], cursors, now)
         == if id !in eps || e.localChannel != eps[id].localChannel then cursors[id := now] else cursors
  {
  }

  lemma NoRestart(eps: Endpoints, eps': Endpoints, cursors: map<EndpointId, int>, now: int)
    requires forall id | id in eps' :: id in eps && eps'[id].localChannel == eps[id].localChannel
    ensures CursorsAfter(eps, eps', cursors, now) == cursors
  {
  }

  lemma TwoRestarts(eps: Endpoints, one: EndpointId, two: EndpointId, e: Endpoint, f: Endpoint,
                    cursors: map<EndpointId, int>, now: int)
    requires one !in eps && two !in eps
    ensures CursorsAfter(eps, eps[one := e][two := f], cursors, now) == cursors[one := now][two := now]
  {
  }

  /** The tables after a hub operation at time `now`. */
  function Changed(db: Db, op: HubOp, now: int): Db {
    var registry := Apply(db.registry, op);
    db.(registry := registry,
        cursors := CursorsAfter(db.registry.endpoints, registry.endpoints, db.cursors, now))
  }

  // ---------------------------------------------------------------- ingest

  datatype IngestInput = IngestInput(
    hub: HubId,
    source: EndpointId,
    destination: Option<CommunityId>,
    messageId: Uuid,
    event: Event,
    parentEvent: Option<EventId>,
    parentMessage: Option<Uuid>,
    body: string,
    actorName: Option<string>,
    actorDigits: string)

  datatype IngestResult =
    | Created(deliveryIds: set<Uuid>)
    | Replayed(messageId: Uuid, original: set<Uuid>)
    | Rejected(code: string)

  datatype IngestOutcome = IngestOutcome(db: Db, result: IngestResult)

  /** The unique key of messages: one per (channel, endpoint, event). */
  predicate IsMessageAt(db: Db, id: Uuid, hub: HubId, source: EndpointId, event: Event) {
    id in db.messages
    && db.messages[id].hub == hub && db.messages[id].source == source && db.messages[id].event == event
  }

  /** The unique key of mappings: one message per (endpoint, local event). */
  predicate IsMapped(db: Db, endpoint: EndpointId, event: EventId) {
    exists k | k in db.mappings :: k.0 == endpoint && db.mappings[k] == event
  }

  function DeliveriesOf(db: Db, message: Uuid): set<Uuid> {
    set d | d in db.deliveries && db.deliveries[d].message == message
  }

  predicate IsLeast(x: int, s: set<int>) {
    x in s && forall y | y in s :: x <= y
  }

  lemma LeastExists(s: set<int>)
    requires s != {}
    ensures exists x :: IsLeast(x, s)
  {
    NonEmpty(s);
    var x :| x in s;
    if s - {x} == {} {
      assert s == {x};
      assert IsLeast(x, s);
    } else {
      LeastExists(s - {x});
      var z :| IsLeast(z, s - {x});
      assert s == (s - {x}) + {x};
      assert IsLeast(if x <= z then x else z, s);
    }
  }

  /** The rows of a query, in the order of their ids. */
  function Listed(s: set<int>): (rows: seq<int>)
    ensures |rows| == |s|
    ensures forall x :: x in rows <==> x in s
    ensures forall i, j | 0 <= i < j < |rows| :: rows[i] != rows[j]
  {
    if s == {} then []
    else
      LeastExists(s);
      var x :| IsLeast(x, s);
      [x] + Listed(s - {x})
  }

  predicate Ascends(rows: seq<int>) {
    forall i, j | 0 <= i < j < |rows| :: rows[i] < rows[j]
  }

  lemma LeastFirst(x: int, rest: seq<int>)
    requires Ascends(rest) && forall y | y in rest :: x < y
    ensures Ascends([x] + rest)
  {
    assert forall i | 0 <= i < |rest| :: rest[i] in rest;
  }

  lemma {:induction false} ListedAscends(s: set<int>)
    ensures Ascends(Listed(s))
  {
    if s != {} {
      LeastExists(s);
      var rows := Listed(s);
      assert IsLeast(rows[0], s) && rows == [rows[0]] + Listed(s - {rows[0]});
      ListedAscends(s - {rows[0]});
      LeastFirst(rows[0], Listed(s - {rows[0]}));
    }
  }

  function NewDelivery(message: Uuid, destination: EndpointId): Delivery {
    Delivery(message, destination, None, Queued, 0, None)
  }

  /** One queued delivery for each destination row, numbered from `first`. */
  function NewDeliveries(message: Uuid, rows: seq<EndpointId>, first: Uuid): (made: map<Uuid, Delivery>)
    ensures forall d :: d in made <==> first <= d < first + |rows|
    ensures forall d | d in made :: made[d] == NewDelivery(message, rows[d - first])
  {
    FirstDeliveries(message, rows, |rows|, first)
  }

  /** The deliveries to the first `n` of the rows. */
  function FirstDeliveries(message: Uuid, rows: seq<EndpointId>, n: nat, first: Uuid): (made: map<Uuid, Delivery>)
    requires n <= |rows|
    ensures forall d :: d in made <==> first <= d < first + n
    ensures forall d | d in made :: made[d] == NewDelivery(message, rows[d - first])
  {
    if n == 0 then map[]
    else FirstDeliveries(message, rows, n - 1, first)[first + n - 1 := NewDelivery(message, rows[n - 1])]
  }

  /** One job for each new delivery: the first carries the message id, every other its delivery's id. */
  function NewJobs(message: Uuid, count: nat, first: Uuid): (made: map<Uuid, Uuid>)
    requires !(first < message < first + count)
    ensures forall j :: j in made <==> count > 0 && (j == message || first < j < first + count)
    ensures forall j | j in made :: made[j] == if j == message then first else j
  {
    if count == 0 then map[]
    else if count == 1 then map[message := first]
    else NewJobs(message, count - 1, first)[first + count - 1 := first + count - 1]
  }

  function Advance(cursors: map<EndpointId, int>, endpoint: EndpointId, createdAt: int): map<EndpointId, int> {
    var current := if endpoint in cursors then cursors[endpoint] else 0;
    cursors[endpoint := if current < createdAt then createdAt else current]
  }

  /** Generated ids do not repeat: this message id, and every id from `first` on, is unused. */
  predicate FreshIds(db: Db, message: Uuid, first: Uuid) {
    && message !in db.messages && message !in db.jobs && message < first
    && (forall k | k in db.mappings :: k.1 != message)
    && (forall d | d in db.deliveries :: d < first)
    && (forall j | j in db.jobs :: j < first)
  }

  function Insert(db: Db, input: IngestInput, rows: seq<EndpointId>, first: Uuid): Db
    requires FreshIds(db, input.messageId, first)
  {
    db.(messages := db.messages[input.messageId :=
                      Message(input.hub, input.source, input.event, input.parentEvent, input.parentMessage,
                              input.body, input.actorName, input.actorDigits)],
        mappings := db.mappings[(input.source, input.messageId) := IdOf(input.event)],
        cursors := Advance(db.cursors, input.source, input.event.createdAt),
        deliveries := db.deliveries + NewDeliveries(input.messageId, rows, first),
        jobs := db.jobs + NewJobs(input.messageId, |rows|, first))
  }

  predicate SourceIsOpen(db: Db, input: IngestInput) {
    input.source in db.registry.endpoints
    && db.registry.endpoints[input.source].hub == input.hub && db.registry.endpoints[input.source].sends
  }

  ghost function Ingest(db: Db, input: IngestInput, first: Uuid): (out: IngestOutcome)
    requires FreshIds(db, input.messageId, first)
    ensures !out.result.Created? ==> out.db == db
    ensures out.db == db.(messages := out.db.messages, mappings := out.db.mappings, cursors := out.db.cursors,
                          deliveries := out.db.deliveries, jobs := out.db.jobs)
  {
    if !BodyFits(input.body) then IngestOutcome(db, Rejected("invalid_input"))
    else if !SourceIsOpen(db, input) then IngestOutcome(db, Rejected("route_inactive"))
    else
      var picked := Destinations(db.registry.endpoints, input.source, input.destination);
      if picked == {} then IngestOutcome(db, Rejected("route_inactive"))
      else if exists id :: IsMessageAt(db, id, input.hub, input.source, input.event) then
        var id :| IsMessageAt(db, id, input.hub, input.source, input.event);
        if DeliveriesOf(db, id) == {} then IngestOutcome(db, Rejected("message_ingest_failed"))
        else IngestOutcome(db, Replayed(id, DeliveriesOf(db, id)))
      else if IsMapped(db, input.source, IdOf(input.event)) then IngestOutcome(db, Rejected("unique_violation"))
      else
        IngestOutcome(Insert(db, input, Listed(picked), first),
                      Created(NewDeliveries(input.messageId, Listed(picked), first).Keys))
  }

  // ---------------------------------------------------------------- delivery

  /** What a delivery run reads before it starts. */
  datatype Context = Context(
    delivery: Uuid,
    state: DeliveryState,
    signed: Option<Event>,
    messageId: Uuid,
    message: Message,
    destination: EndpointId,
    destinationCommunity: CommunityId,
    destinationChannel: string,
    sourceCommunity: CommunityId,
    sourceSlug: string,
    localParent: Option<EventId>,
    routeActive: bool)

  /** `parent` is the bridge message that `m` answers: the one given, else the one its parent event is mapped to. */
  predicate IsParentMessage(db: Db, m: Message, parent: Uuid) {
    if m.parentMessage.Some? then parent == m.parentMessage.value
    else
      && m.parentEvent.Some?
      && (m.source, parent) in db.mappings
      && db.mappings[(m.source, parent)] == m.parentEvent.value
  }

  /** `local` is how the parent of `m` is known at endpoint `at`. */
  ghost predicate IsLocalParent(db: Db, m: Message, at: EndpointId, local: EventId) {
    exists parent ::
      IsParentMessage(db, m, parent) && (at, parent) in db.mappings && db.mappings[(at, parent)] == local
  }

  ghost function LocalParent(db: Db, m: Message, at: EndpointId): Option<EventId> {
    if exists local :: IsLocalParent(db, m, at, local) then
      var local :| IsLocalParent(db, m, at, local);
      Some(local)
    else None
  }

  /** The rows that a delivery joins: its message and both endpoints. */
  predicate Joins(db: Db, delivery: Uuid) {
    && delivery in db.deliveries
    && db.deliveries[delivery].message in db.messages
    && db.deliveries[delivery].destination in db.registry.endpoints
    && db.messages[db.deliveries[delivery].message].source in db.registry.endpoints
  }

  function SourceOf(db: Db, delivery: Uuid): EndpointId
    requires Joins(db, delivery)
  {
    db.messages[db.deliveries[delivery].message].source
  }

  /** The handle a community is tagged with; one without a handle goes by its relay host. */
  function HandleOf(handles: map<CommunityId, string>, hosts: map<CommunityId, string>, community: CommunityId)
    : string
  {
    if community in handles then handles[community]
    else if community in hosts then hosts[community]
    else []
  }

  ghost function ReadContext(db: Db, delivery: Uuid): Context
    requires Joins(db, delivery)
  {
    var d := db.deliveries[delivery];
    var m := db.messages[d.message];
    var from, to := db.registry.endpoints[m.source], db.registry.endpoints[d.destination];
    Context(delivery, d.state, d.signed, d.message, m, d.destination, to.community, to.localChannel,
            from.community, HandleOf(db.handles, db.hosts, from.community), LocalParent(db, m, d.destination),
            RouteActive(from, to))
  }

  ghost function GetContext(db: Db, delivery: Uuid): Option<Context> {
    if Joins(db, delivery) then Some(ReadContext(db, delivery)) else None
  }

  /** The second route check: also demands that the row is still being delivered. */
  predicate RouteStillActive(db: Db, delivery: Uuid) {
    && Joins(db, delivery)
    && db.deliveries[delivery].state == Delivering
    && RouteActive(db.registry.endpoints[SourceOf(db, delivery)],
                   db.registry.endpoints[db.deliveries[delivery].destination])
  }

  /** A delivery transaction writes delivery rows and mappings and nothing else. */
  predicate OnlyDelivers(db: Db, db': Db) {
    db' == db.(deliveries := db'.deliveries, mappings := db'.mappings)
  }

  function SetDelivery(db: Db, delivery: Uuid, row: Delivery): Db {
    db.(deliveries := db.deliveries[delivery := row])
  }

  predicate CanStart(db: Db, delivery: Uuid) {
    delivery in db.deliveries && db.deliveries[delivery].state in {Queued, Retry, Delivering}
  }

  function MarkDelivering(db: Db, delivery: Uuid): (db': Db)
    ensures OnlyDelivers(db, db')
  {
    if !CanStart(db, delivery) then db
    else
      var row := db.deliveries[delivery];
      SetDelivery(db, delivery, row.(state := Delivering, attempts := row.attempts + 1))
  }

  datatype PersistOutcome = PersistOutcome(db: Db, result: Result<Event, string>)

  /** Stores the signed event once; later callers get the stored one. */
  function Persist(db: Db, delivery: Uuid, event: Event): (out: PersistOutcome)
    ensures OnlyDelivers(db, out.db)
  {
    if delivery !in db.deliveries then PersistOutcome(db, Failure("delivery_not_found"))
    else
      var row := db.deliveries[delivery];
      if row.state in {Cancelled, Failed} then PersistOutcome(db, Failure("delivery_terminal"))
      else if row.signed.Some? then PersistOutcome(db, Success(row.signed.value))
      else PersistOutcome(SetDelivery(db, delivery, row.(signed := Some(event))), Success(event))
  }

  predicate CanComplete(db: Db, delivery: Uuid, event: Event) {
    && delivery in db.deliveries
    && db.deliveries[delivery].message in db.messages
    && db.deliveries[delivery].signed.Some?
    && IdOf(db.deliveries[delivery].signed.value) == IdOf(event)
    && db.deliveries[delivery].state != Cancelled
  }

  datatype CompleteOutcome = CompleteOutcome(db: Db, error: Option<string>)

  /** Marks the row delivered and maps the message to the local event; a unique violation rolls both back. */
  function Complete(db: Db, delivery: Uuid, event: Event): (out: CompleteOutcome)
    ensures OnlyDelivers(db, out.db)
  {
    if !CanComplete(db, delivery, event) then CompleteOutcome(db, Some("delivery_completion_conflict"))
    else
      var row := db.deliveries[delivery];
      var key := (row.destination, row.message);
      var marked := SetDelivery(db, delivery, row.(state := Delivered, error := None));
      if key in db.mappings then CompleteOutcome(marked, None)
      else if IsMapped(db, row.destination, IdOf(event)) then CompleteOutcome(db, Some("unique_violation"))
      else CompleteOutcome(marked.(mappings := db.mappings[key := IdOf(event)]), None)
  }

  function MarkRetry(db: Db, delivery: Uuid, code: string, terminal: bool): (db': Db)
    ensures OnlyDelivers(db, db')
  {
    if delivery !in db.deliveries || db.deliveries[delivery].state in {Delivered, Cancelled} then db
    else
      SetDelivery(db, delivery,
                  db.deliveries[delivery].(state := if terminal then Failed else Retry, error := Some(Take(code, 80))))
  }

  function Cancel(db: Db, delivery: Uuid): (db': Db)
    ensures OnlyDelivers(db, db')
  {
    if delivery !in db.deliveries || db.deliveries[delivery].state == Delivered then db
    else SetDelivery(db, delivery, db.deliveries[delivery].(state := Cancelled, error := Some("route_inactive")))
  }

  // ---------------------------------------------------------------- claims

  datatype ClaimOutcome = ClaimOutcome(db: Db, claimed: bool)

  /** A claim transaction writes claims and nothing else, and forgets none. */
  predicate OnlyClaims(db: Db, db': Db) {
    && db' == db.(notices := db'.notices, commands := db'.commands, hints := db'.hints)
    && db.notices <= db'.notices && db.commands <= db'.commands && db.hints <= db'.hints
  }

  function ClaimNotice(db: Db, key: SourceEvent): (out: ClaimOutcome)
    ensures OnlyClaims(db, out.db)
  {
    ClaimOutcome(db.(notices := db.notices + {key}), key !in db.notices)
  }

  function ClaimCommand(db: Db, key: SourceEvent): (out: ClaimOutcome)
    ensures OnlyClaims(db, out.db)
  {
    ClaimOutcome(db.(commands := db.commands + {key}), key !in db.commands)
  }

  /** Only an inbox can be hinted at: a dedicated channel means the receiver already opened one. */
  function ClaimHint(db: Db, endpoint: EndpointId, community: CommunityId): (out: ClaimOutcome)
    ensures OnlyClaims(db, out.db)
    ensures out.db.notices == db.notices && out.db.commands == db.commands
    ensures out.claimed ==> (endpoint, community) !in db.hints && (endpoint, community) in out.db.hints
    ensures out.db.hints <= db.hints + {(endpoint, community)}
  {
    if endpoint !in db.registry.endpoints || db.registry.endpoints[endpoint].dedicatedTo.Some? then
      ClaimOutcome(db, false)
    else ClaimOutcome(db.(hints := db.hints + {(endpoint, community)}), (endpoint, community) !in db.hints)
  }
}
