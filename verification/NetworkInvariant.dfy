/** One inductive invariant of the bridge network, kept by every step. */
module NetworkInvariant {
  import opened Wrappers
  import opened Nostr
  import opened Commands
  import opened Bridge
  import opened Hub
  import opened Routing
  import opened Tables
  import opened Network

  type Relay = set<(CommunityId, Event)>

  // ---------------------------------------------------------------- the tables

  /**
   What an endpoint may ingest: a person's event, or, through a channel bound to a peer, what
   another bridge wrote that is no projection and names this channel.
   */
  predicate MayIngest(e: Endpoint, event: Event) {
    && !HasProjectionMarker(event) && event.pubkey != BridgeKey(e.community)
    && (event.pubkey.BridgeKey? ==>
          e.dedicatedTo.Some? && FirstValue(event.tags, "h") == Some(Field.Text(e.localChannel)))
  }

  /** Every message was read once, by the endpoint of an event on that community's relay. */
  ghost predicate MessageOk(db: Db, relay: Relay, id: Uuid)
    requires id in db.messages
  {
    var m := db.messages[id];
    && m.source in db.registry.endpoints
    && db.registry.endpoints[m.source].hub == m.hub
    && MayIngest(db.registry.endpoints[m.source], m.event)
    && (db.registry.endpoints[m.source].community, m.event) in relay
    && m.parentMessage.None?
    && (m.source, id) in db.mappings && db.mappings[(m.source, id)] == IdOf(m.event)
  }

  ghost predicate MessagesOk(db: Db, relay: Relay) {
    && (forall id | id in db.messages :: MessageOk(db, relay, id))
    && (forall i, j | i in db.messages && j in db.messages
                      && db.messages[i].source == db.messages[j].source && db.messages[i].event == db.messages[j].event
          :: i == j)
  }

  /** Messages, deliveries and jobs correspond one to one: the job of a message queues its one delivery. */
  ghost predicate JobsMatch(db: Db) {
    && db.jobs.Keys == db.messages.Keys
    && (forall m | m in db.jobs :: db.jobs[m] in db.deliveries && db.deliveries[db.jobs[m]].message == m)
    && (forall d | d in db.deliveries ::
          db.deliveries[d].message in db.jobs && db.jobs[db.deliveries[d].message] == d)
  }

  /** The reply tag of `event` is what the destination calls the message that the source calls its parent. */
  ghost predicate ThreadOk(db: Db, m: Message, at: EndpointId, reply: Option<EventId>) {
    if m.parentEvent.None? then reply.None?
    else reply.Some? && IsLocalParent(db, m, at, reply.value)
  }

  /** `event` is a projection of the row's message, for the row's destination, into the right thread. */
  ghost predicate Mirrors(db: Db, row: Delivery, event: Event) {
    && row.message in db.messages && row.destination in db.registry.endpoints
    && event.pubkey == BridgeKey(db.registry.endpoints[row.destination].community)
    && MirroredMessage(event) == Some(row.message)
    && ThreadOk(db, db.messages[row.message], row.destination, ReplyEventId(event))
  }

  ghost predicate DeliveryOk(db: Db, relay: Relay, d: Uuid)
    requires d in db.deliveries
  {
    var row := db.deliveries[d];
    && Joins(db, d)
    && db.registry.endpoints[row.destination].community != db.registry.endpoints[SourceOf(db, d)].community
    && (row.signed.Some? ==> Mirrors(db, row, row.signed.value))
    && (row.state == Delivered ==> IsDelivered(db, relay, row))
  }

  /** The relay holds the row's one event, and the destination knows the message by it. */
  ghost predicate IsDelivered(db: Db, relay: Relay, row: Delivery)
    requires row.destination in db.registry.endpoints
  {
    && row.signed.Some?
    && (db.registry.endpoints[row.destination].community, row.signed.value) in relay
    && (row.destination, row.message) in db.mappings
    && db.mappings[(row.destination, row.message)] == IdOf(row.signed.value)
  }

  ghost predicate DeliveriesOk(db: Db, relay: Relay) {
    forall d | d in db.deliveries :: DeliveryOk(db, relay, d)
  }

  /** The row that delivers message `m`. */
  ghost predicate DeliversTo(db: Db, m: Uuid, endpoint: EndpointId, event: EventId) {
    && m in db.jobs && db.jobs[m] in db.deliveries
    && db.deliveries[db.jobs[m]].destination == endpoint
    && db.deliveries[db.jobs[m]].signed.Some?
    && event == IdOf(db.deliveries[db.jobs[m]].signed.value)
  }

  /** A mapping is either the source event of a message or the projection that delivered it. */
  ghost predicate MappingOk(db: Db, key: (EndpointId, Uuid))
    requires key in db.mappings
  {
    && key.1 in db.messages
    && (|| (key.0 == db.messages[key.1].source && db.mappings[key] == IdOf(db.messages[key.1].event))
        || DeliversTo(db, key.1, key.0, db.mappings[key]))
  }

  ghost predicate MappingsOk(db: Db) {
    forall key | key in db.mappings :: MappingOk(db, key)
  }

  ghost predicate RowsOk(db: Db, relay: Relay) {
    && MessagesOk(db, relay)
    && JobsMatch(db)
    && DeliveriesOk(db, relay)
    && MappingsOk(db)
  }

  ghost predicate TablesOk(db: Db, relay: Relay) {
    HubInv(db.registry) && RowsOk(db, relay)
  }

  /** Claims are made for people's events that the claiming endpoint's relay holds, or for delivered senders. */
  ghost predicate IsHeard(db: Db, relay: Relay, key: SourceEvent) {
    && key.0 in db.registry.endpoints && key.1.IdOf?
    && key.1.event.pubkey.HumanKey?
    && (db.registry.endpoints[key.0].community, key.1.event) in relay
  }

  ghost predicate IsSender(db: Db, at: EndpointId, peer: CommunityId, d: Uuid) {
    Joins(db, d) && db.deliveries[d].destination == at && db.registry.endpoints[SourceOf(db, d)].community == peer
  }

  ghost predicate ClaimsOk(db: Db, relay: Relay) {
    && (forall key | key in db.notices :: IsHeard(db, relay, key))
    && (forall key | key in db.commands :: IsHeard(db, relay, key))
    && (forall h | h in db.hints :: exists d :: IsSender(db, h.0, h.1, d))
  }

  // ---------------------------------------------------------------- growth

  /** Later tables only add rows, sign what was unsigned and change delivery states and settings. */
  ghost predicate Extends(db: Db, db': Db) {
    && KeepsRows(db.registry.endpoints, db'.registry.endpoints)
    && (forall id | id in db.messages :: id in db'.messages && db'.messages[id] == db.messages[id])
    && (forall key | key in db.mappings :: key in db'.mappings && db'.mappings[key] == db.mappings[key])
    && (forall j | j in db.jobs :: j in db'.jobs && db'.jobs[j] == db.jobs[j])
    && (forall d | d in db.deliveries :: d in db'.deliveries && RowGrows(db.deliveries[d], db'.deliveries[d]))
    && db.notices <= db'.notices && db.commands <= db'.commands && db.hints <= db'.hints
  }

  predicate RowGrows(row: Delivery, row': Delivery) {
    && row'.message == row.message && row'.destination == row.destination
    && (row.signed.Some? ==> row'.signed == row.signed)
  }

  lemma LocalParentStays(db: Db, db': Db, m: Message, at: EndpointId, local: EventId)
    requires Extends(db, db') && IsLocalParent(db, m, at, local) && m.parentMessage.None?
    ensures IsLocalParent(db', m, at, local)
  {
    var parent :| IsParentMessage(db, m, parent) && (at, parent) in db.mappings && db.mappings[(at, parent)] == local;
    assert IsParentMessage(db', m, parent);
  }

  lemma MirrorsStays(db: Db, db': Db, relay: Relay, row: Delivery, event: Event)
    requires Extends(db, db') && Mirrors(db, row, event)
    requires MessageOk(db, relay, row.message)
    ensures Mirrors(db', row, event)
  {
    var m := db.messages[row.message];
    if m.parentEvent.Some? {
      LocalParentStays(db, db', m, row.destination, ReplyEventId(event).value);
    }
  }

  // ---------------------------------------------------------------- delivery runs

  /** A context agrees with the row it was read from, and its parent lookup still holds. */
  ghost predicate ContextOk(db: Db, d: Uuid, ctx: Context) {
    && Joins(db, d)
    && var row := db.deliveries[d];
       && ctx.delivery == d
       && ctx.messageId == row.message && ctx.message == db.messages[row.message]
       && ctx.destination == row.destination
       && ctx.destinationCommunity == db.registry.endpoints[row.destination].community
       && ctx.sourceCommunity == db.registry.endpoints[SourceOf(db, d)].community
       && (ctx.signed.Some? ==> row.signed == ctx.signed)
       && ThreadOk(db, ctx.message, ctx.destination, ctx.localParent)
  }

  ghost predicate WorkerOk(db: Db, relay: Relay, worker: Worker) {
    && worker.delivery in db.deliveries
    && var d := worker.delivery;
       var row := db.deliveries[d];
       match worker.phase
       case Marking(ctx, _) => ContextOk(db, d, ctx)
       case Projecting(ctx, _) => ContextOk(db, d, ctx)
       case Persisting(ctx, event) => ContextOk(db, d, ctx) && Mirrors(db, row, event)
       case Checking(ctx, event) => ContextOk(db, d, ctx) && row.signed == Some(event)
       case Publishing(ctx, event) => ContextOk(db, d, ctx) && row.signed == Some(event)
       case Completing(ctx, event) =>
         ContextOk(db, d, ctx) && row.signed == Some(event) && (ctx.destinationCommunity, event) in relay
       case Hinting(ctx) => ContextOk(db, d, ctx) && row.signed.Some?
       case _ => true
  }

  lemma ContextStays(db: Db, db': Db, relay: Relay, d: Uuid, ctx: Context)
    requires Extends(db, db') && RowsOk(db, relay) && ContextOk(db, d, ctx)
    ensures ContextOk(db', d, ctx)
  {
    assert MessageOk(db, relay, ctx.messageId);
    if ctx.message.parentEvent.Some? {
      LocalParentStays(db, db', ctx.message, ctx.destination, ctx.localParent.value);
    }
  }

  lemma WorkerStays(db: Db, db': Db, relay: Relay, relay': Relay, worker: Worker)
    requires Extends(db, db') && relay <= relay' && RowsOk(db, relay) && WorkerOk(db, relay, worker)
    ensures WorkerOk(db', relay', worker)
  {
    if worker.phase.Marking? || worker.phase.Projecting? || worker.phase.Persisting? || worker.phase.Checking?
       || worker.phase.Publishing? || worker.phase.Completing? || worker.phase.Hinting? {
      ContextStays(db, db', relay, worker.delivery, worker.phase.ctx);
    }
    if worker.phase.Persisting? {
      assert DeliveryOk(db, relay, worker.delivery);
      assert MessageOk(db, relay, db.deliveries[worker.delivery].message);
      MirrorsStays(db, db', relay, db.deliveries[worker.delivery], worker.phase.event);
    }
  }

  // ---------------------------------------------------------------- what the bridge published

  /** A cause of a notice that has been claimed. */
  ghost predicate IsClaimed(db: Db, cause: Cause) {
    match cause
    case Mirror(_) => false
    case Bounce(at, event) => (at, event) in db.notices
    case Answer(at, event) => (at, event) in db.commands
    case Hint(at, peer) => (at, peer) in db.hints
  }

  /** What was handed over is its delivery's one event, or a notice whose claim is spent. */
  ghost predicate PostOk(db: Db, pending: set<Cause>, post: Post) {
    && post.event.pubkey == BridgeKey(post.community)
    && match post.cause
       case Mirror(d) =>
         d in db.deliveries && db.deliveries[d].signed == Some(post.event) && HasProjectionMarker(post.event)
       case _ => IsClaimed(db, post.cause) && post.cause !in pending && IsNotice(post.event)
  }

  ghost predicate PostsOk(db: Db, pending: set<Cause>, handed: set<Post>) {
    && (forall cause | cause in pending :: IsClaimed(db, cause))
    && (forall post | post in handed :: PostOk(db, pending, post))
    && (forall p, q | p in handed && q in handed && p.cause == q.cause :: p.event == q.event)
  }

  /** Whatever a relay holds under a bridge key was once handed to some relay by that bridge. */
  ghost predicate RelayOk(relay: Relay, handed: set<Post>) {
    forall e | e in relay && e.1.pubkey.BridgeKey? :: WasHanded(handed, e.1)
  }

  /** A route is an endpoint of its community; only an ordinary one may have moved to another channel since. */
  predicate RouteIsOk(r: Registry, route: Route) {
    && route.endpoint in r.endpoints
    && r.endpoints[route.endpoint].community == route.community
    && r.endpoints[route.endpoint].hub == route.hub
    && r.endpoints[route.endpoint].dedicatedTo == route.dedicatedTo
    && (route.dedicatedTo.Some? ==> r.endpoints[route.endpoint].localChannel == route.localChannel)
  }

  ghost predicate SessionOk(r: Registry, community: CommunityId, session: Session) {
    forall i | 0 <= i < |session.routes| ::
      session.routes[i].community == community && RouteIsOk(r, session.routes[i])
  }

  /** An event being handled is on the relay of its route's community, and names the route's channel. */
  ghost predicate ReceiptOk(r: Registry, relay: Relay, receipt: Receipt) {
    && RouteIsOk(r, receipt.0) && (receipt.0.community, receipt.1) in relay
    && FirstValue(receipt.1.tags, "h") == Some(Field.Text(receipt.0.localChannel))
  }

  ghost predicate ReceiptsOk(r: Registry, relay: Relay, received: set<Receipt>) {
    forall receipt | receipt in received :: ReceiptOk(r, relay, receipt)
  }

  ghost predicate SessionsOk(w: World) {
    forall c | c in w.sessions :: SessionOk(w.db.registry, c, w.sessions[c]) && w.sessions[c].id < w.nextSession
  }

  ghost predicate WorkersOk(db: Db, relay: Relay, workers: map<nat, Worker>) {
    forall id | id in workers :: WorkerOk(db, relay, workers[id])
  }

  /** A settled delivery's route passes both checks. */
  ghost predicate SettledOk(db: Db, settled: set<Uuid>) {
    forall d | d in settled ::
      && Joins(db, d)
      && RouteActive(db.registry.endpoints[SourceOf(db, d)],
                     db.registry.endpoints[db.deliveries[d].destination])
  }

  ghost predicate Inv(w: World) {
    && RowsOk(w.db, w.relay)
    && ClaimsOk(w.db, w.relay)
    && WorkersOk(w.db, w.relay, w.workers)
    && PostsOk(w.db, w.pending, w.handed)
    && RelayOk(w.relay, w.handed)
    && SessionsOk(w)
    && ReceiptsOk(w.db.registry, w.relay, w.received)
    && SettledOk(w.db, w.settled)
  }

  /** The whole invariant: the hub's, which only hub operations can break, and the bridge's. */
  ghost predicate Sound(w: World) {
    HubInv(w.db.registry) && Inv(w)
  }
}
