/**
 The bridge as a state machine: the tables, every community's relay, the live
 sessions, the events being handled and the delivery runs in flight. Each step is one
 transaction, one relay call or one read; they interleave freely, repeat, crash and
 lose answers.
 */
module Network {
  import opened Wrappers
  import opened Nostr
  import opened Commands
  import opened Bridge
  import opened Hub
  import opened Routing
  import opened Tables

  /** The queue's retry limit: the run with this retry count is the last one. */
  const RETRY_LIMIT := 8

  /** Why the bridge hands an event to a relay. */
  datatype Cause =
    | Mirror(delivery: Uuid)
    | Bounce(at: EndpointId, event: EventId)
    | Answer(at: EndpointId, event: EventId)
    | Hint(at: EndpointId, peer: CommunityId)

  /** What a delivery run throws: its session's key was wiped, or an error with a code. */
  datatype Fault = KeyWiped | Coded(code: string)

  datatype Post = Post(cause: Cause, community: CommunityId, event: Event)

  /** Where a delivery run stands between two of its awaited calls. */
  datatype Phase =
    | Starting
    | Cancelling
    | Retrying(code: string)
    | Marking(ctx: Context, session: nat)
    | Projecting(ctx: Context, session: nat)
    | Persisting(ctx: Context, event: Event)
    | Checking(ctx: Context, event: Event)
    | Publishing(ctx: Context, event: Event)
    | Completing(ctx: Context, event: Event)
    | Hinting(ctx: Context)
    | Returned
    | Threw(fault: Fault)

  datatype Worker = Worker(delivery: Uuid, retryCount: nat, phase: Phase)

  datatype Session = Session(id: nat, routes: seq<Route>)

  /** An event that a session received, with the route it was received on. */
  type Receipt = (Route, Event)

  /**
   `received` holds the events whose handling has begun; their session may be gone by the
   time it goes on. `settled` holds the deliveries whose two endpoints have not been written
   since ingest.
   */
  datatype World = World(
    db: Db,
    relay: set<(CommunityId, Event)>,
    sessions: map<CommunityId, Session>,
    nextSession: nat,
    received: set<Receipt>,
    workers: map<nat, Worker>,
    pending: set<Cause>,
    handed: set<Post>,
    settled: set<Uuid>)

  // ---------------------------------------------------------------- reading source events

  /** The first of the routes from `from` on that is for this channel. */
  function FindRoute(routes: seq<Route>, channel: Option<Field>, from: nat): Option<Route>
    requires from <= |routes|
    decreases |routes| - from
  {
    if from == |routes| then None
    else if channel == Some(Field.Text(routes[from].localChannel)) then Some(routes[from])
    else FindRoute(routes, channel, from + 1)
  }

  /** The route of the session through which an event of this relay is read. */
  function RouteOf(w: World, community: CommunityId, event: Event): Option<Route> {
    if community !in w.sessions then None
    else FindRoute(w.sessions[community].routes, FirstValue(event.tags, "h"), 0)
  }

  predicate IsCommandFor(event: Event, route: Route) {
    !WrittenByBridge(event, route) && ParseCommand(event.content).Some?
  }

  predicate OnRelay(w: World, community: CommunityId, event: Event) {
    (community, event) in w.relay
  }

  /** Some bridge handed the event to some relay, where anyone may pick it up and publish it elsewhere. */
  ghost predicate WasHanded(handed: set<Post>, event: Event) {
    exists post | post in handed :: post.event == event
  }

  /** On this route the event reaches the routing code and is a routable message there. */
  predicate IsRoutable(event: Event, route: Route, verified: bool, now: int) {
    !IsCommandFor(event, route) && Canonicalize(event, route, verified, now).Routed?
  }

  /** What the connector passes on: bound channels name the peer, inboxes use the resolved handle. */
  function MessageInput(route: Route, event: Event, canonical: Canonical, resolved: CommunityId,
                        messageId: Uuid, name: Option<string>, digits: string): IngestInput
    requires canonical.Routed?
  {
    IngestInput(
      route.hub, route.endpoint,
      Some(if canonical.destination.Bound? then canonical.destination.peer else resolved),
      messageId, event, canonical.parent, None, canonical.body, name, digits)
  }

  // ---------------------------------------------------------------- delivery runs

  /** What the environment answers during one worker step; `code` is the error of a failed publication. */
  datatype Oracle = Oracle(now: int, stored: bool, acked: bool, found: bool, code: string)

  function Project(ctx: Context, now: int): Event {
    CreateProjection(
      ProjectionInput(ctx.message.body, ctx.destinationChannel, ctx.localParent, ctx.messageId,
                      ctx.message.event.pubkey, ctx.message.actorDigits, ctx.message.actorName,
                      ctx.sourceCommunity, ctx.sourceSlug, IdOf(ctx.message.event)),
      BridgeKey(ctx.destinationCommunity), now)
  }

  predicate IsTerminal(state: DeliveryState) {
    state in {Delivered, Cancelled, Failed}
  }

  /** What a run does after reading its context. */
  function Decide(w: World, context: Option<Context>): Phase {
    if context.None? || IsTerminal(context.value.state) then Returned
    else
      var ctx := context.value;
      if !ctx.routeActive then Cancelling
      else if ctx.message.parentEvent.Some? && ctx.localParent.None? then Retrying("parent_mapping_missing")
      else if ctx.destinationCommunity !in w.sessions then Retrying("connector_unavailable")
      else Marking(ctx, w.sessions[ctx.destinationCommunity].id)
  }

  /** The session a run found at its start is still the live one, so its key is not wiped. */
  predicate SessionIsLive(w: World, community: CommunityId, session: nat) {
    community in w.sessions && w.sessions[community].id == session
  }

  function SetPhase(w: World, id: nat, phase: Phase): World
    requires id in w.workers
  {
    w.(workers := w.workers[id := w.workers[id].(phase := phase)])
  }

  predicate IsLastAttempt(worker: Worker) {
    worker.retryCount >= RETRY_LIMIT
  }

  /** A relay call: the event is handed over, may be stored, and the answer may be lost. */
  function HandOver(w: World, post: Post, stored: bool): World {
    w.(handed := w.handed + {post}, relay := if stored then w.relay + {(post.community, post.event)} else w.relay)
  }

  /** An acknowledged event is stored, and a lookup finds only stored events. */
  predicate AnswersAreHonest(w: World, community: CommunityId, event: Event, o: Oracle) {
    && (o.acked ==> o.stored)
    && (o.found ==> o.stored || (community, event) in w.relay)
  }

  predicate OracleIsHonest(w: World, id: nat, o: Oracle)
    requires id in w.workers
  {
    var phase := w.workers[id].phase;
    phase.Publishing? ==> AnswersAreHonest(w, phase.ctx.destinationCommunity, phase.event, o)
  }

  /** One awaited call of a delivery run. */
  ghost function Work(w: World, id: nat, o: Oracle): World
    requires id in w.workers
  {
    var worker := w.workers[id];
    var d := worker.delivery;
    match worker.phase
    case Starting => SetPhase(w, id, Decide(w, GetContext(w.db, d)))
    case Cancelling => SetPhase(w.(db := Cancel(w.db, d)), id, Returned)
    case Retrying(code) =>
      SetPhase(w.(db := MarkRetry(w.db, d, code, IsLastAttempt(worker))), id,
               if IsLastAttempt(worker) then Returned else Threw(Coded(code)))
    case Marking(ctx, session) =>
      SetPhase(w.(db := MarkDelivering(w.db, d)), id, if CanStart(w.db, d) then Projecting(ctx, session) else Returned)
    case Projecting(ctx, session) =>
      SetPhase(w, id,
               if ctx.signed.Some? then Persisting(ctx, ctx.signed.value)
               else if SessionIsLive(w, ctx.destinationCommunity, session) then Persisting(ctx, Project(ctx, o.now))
               else Threw(KeyWiped))
    case Persisting(ctx, event) =>
      var out := Persist(w.db, d, event);
      SetPhase(w.(db := out.db), id,
               if out.result.Success? then Checking(ctx, out.result.value) else Threw(Coded(out.result.error)))
    case Checking(ctx, event) =>
      SetPhase(w, id, if RouteStillActive(w.db, d) then Publishing(ctx, event) else Cancelling)
    case Publishing(ctx, event) =>
      SetPhase(HandOver(w, Post(Mirror(d), ctx.destinationCommunity, event), o.stored), id,
               if o.acked || o.found then Completing(ctx, event) else Retrying(o.code))
    case Completing(ctx, event) =>
      var out := Complete(w.db, d, event);
      SetPhase(w.(db := out.db), id, if out.error.None? then Hinting(ctx) else Threw(Coded(out.error.value)))
    case Hinting(ctx) =>
      var out := ClaimHint(w.db, ctx.destination, ctx.sourceCommunity);
      SetPhase(w.(db := out.db,
                  pending := if out.claimed then w.pending + {Hint(ctx.destination, ctx.sourceCommunity)}
                             else w.pending),
               id, Returned)
    case Returned => w
    case Threw(_) => w
  }

  // ---------------------------------------------------------------- steps

  datatype Step =
    | HumanPost(community: CommunityId, event: Event)
    | Copy(community: CommunityId, event: Event)
    | Connect(community: CommunityId, routes: seq<Route>)
    | Disconnect(community: CommunityId)
    | Receive(community: CommunityId, event: Event)
    | ReadMessage(route: Route, event: Event, verified: bool, now: int, resolved: CommunityId,
                  messageId: Uuid, first: Uuid, name: Option<string>, digits: string)
    | ReadUnroutable(route: Route, event: Event, verified: bool, now: int)
    | ReadCommand(route: Route, event: Event)
    | Announce(cause: Cause, notice: Notice, now: int, stored: bool)
    | Begin(worker: nat, delivery: Uuid, retryCount: nat)
    | Proceed(worker: nat, oracle: Oracle)
    | Crash(worker: nat)
    | Change(op: HubOp, now: int)

  /** The routes a session subscribes to: sending endpoints of its own community. */
  predicate AreRoutesOf(r: Registry, community: CommunityId, routes: seq<Route>) {
    forall i | 0 <= i < |routes| ::
      var route := routes[i];
      && route.community == community
      && route.endpoint in r.endpoints
      && r.endpoints[route.endpoint].sends
      && r.endpoints[route.endpoint].community == community
      && r.endpoints[route.endpoint].hub == route.hub
      && r.endpoints[route.endpoint].localChannel == route.localChannel
      && r.endpoints[route.endpoint].dedicatedTo == route.dedicatedTo
  }

  predicate IsQueued(db: Db, delivery: Uuid) {
    exists j | j in db.jobs :: db.jobs[j] == delivery
  }

  ghost predicate Enabled(w: World, step: Step) {
    match step
    case HumanPost(_, event) => event.pubkey.HumanKey?
    case Copy(_, event) => WasHanded(w.handed, event)
    case Connect(c, routes) => AreRoutesOf(w.db.registry, c, routes)
    case Disconnect(_) => true
    case Receive(c, event) => OnRelay(w, c, event) && RouteOf(w, c, event).Some?
    case ReadMessage(route, event, verified, now, _, messageId, first, _, _) =>
      (route, event) in w.received && IsRoutable(event, route, verified, now) && FreshIds(w.db, messageId, first)
    case ReadUnroutable(route, event, verified, now) =>
      && (route, event) in w.received && IsRoutable(event, route, verified, now)
      && Canonicalize(event, route, verified, now).destination.Addressed?
    case ReadCommand(route, event) => (route, event) in w.received && IsCommandFor(event, route)
    case Announce(cause, notice, _, _) =>
      cause in w.pending && !cause.Mirror? && cause.at in w.db.registry.endpoints && OpensPlainly(notice.text)
    case Begin(worker, d, _) => worker !in w.workers && IsQueued(w.db, d)
    case Proceed(worker, o) => worker in w.workers && OracleIsHonest(w, worker, o)
    case Crash(worker) => worker in w.workers
    case Change(op, _) => IdsAreFresh(w.db.registry, op)
  }

  /** Deliveries whose endpoints an operation rewrites are no longer settled. */
  ghost predicate Untouched(db: Db, registry: Registry, delivery: Uuid) {
    && Joins(db, delivery)
    && SourceOf(db, delivery) in registry.endpoints && db.deliveries[delivery].destination in registry.endpoints
    && registry.endpoints[SourceOf(db, delivery)] == db.registry.endpoints[SourceOf(db, delivery)]
    && registry.endpoints[db.deliveries[delivery].destination]
       == db.registry.endpoints[db.deliveries[delivery].destination]
  }

  /** What a routable step passes to ingest. */
  function InputOf(step: Step): IngestInput
    requires step.ReadMessage? && IsRoutable(step.event, step.route, step.verified, step.now)
    ensures InputOf(step).messageId == step.messageId
  {
    MessageInput(step.route, step.event, Canonicalize(step.event, step.route, step.verified, step.now), step.resolved,
                 step.messageId, step.name, step.digits)
  }

  ghost function Ingested(w: World, input: IngestInput, first: Uuid): World
    requires FreshIds(w.db, input.messageId, first)
  {
    var out := Ingest(w.db, input, first);
    w.(db := out.db, settled := if out.result.Created? then w.settled + out.result.deliveryIds else w.settled)
  }

  /** Whoever claims first owes the notice. */
  function ClaimBounce(w: World, key: SourceEvent): World {
    var out := ClaimNotice(w.db, key);
    w.(db := out.db, pending := if out.claimed then w.pending + {Bounce(key.0, key.1)} else w.pending)
  }

  function ClaimAnswer(w: World, key: SourceEvent): World {
    var out := ClaimCommand(w.db, key);
    w.(db := out.db, pending := if out.claimed then w.pending + {Answer(key.0, key.1)} else w.pending)
  }

  ghost function Announced(w: World, step: Step): World
    requires step.Announce? && Enabled(w, step)
  {
    var community := w.db.registry.endpoints[step.cause.at].community;
    HandOver(w.(pending := w.pending - {step.cause}),
             Post(step.cause, community, NoticeEvent(community, step.notice, step.now)), step.stored)
  }

  ghost function Received(w: World, step: Step): World
    requires step.Receive? && Enabled(w, step)
  {
    w.(received := w.received + {(RouteOf(w, step.community, step.event).value, step.event)})
  }

  ghost function Worked(w: World, step: Step): World
    requires step.Proceed? && Enabled(w, step)
  {
    Work(w, step.worker, step.oracle)
  }

  /** The endpoints were rewritten. */
  ghost function Rewritten(w: World, db: Db): World {
    w.(db := db, settled := set d | d in w.settled && Untouched(w.db, db.registry, d))
  }

  ghost function Next(w: World, step: Step): World
    requires Enabled(w, step)
  {
    match step
    case HumanPost(c, event) => w.(relay := w.relay + {(c, event)})
    case Copy(c, event) => w.(relay := w.relay + {(c, event)})
    case Connect(c, routes) =>
      w.(sessions := w.sessions[c := Session(w.nextSession, routes)], nextSession := w.nextSession + 1)
    case Disconnect(c) => w.(sessions := w.sessions - {c})
    case ReadMessage(_, _, _, _, _, _, _, _, _) => Ingested(w, InputOf(step), step.first)
    case Receive(_, _) => Received(w, step)
    case ReadUnroutable(route, event, _, _) => ClaimBounce(w, (route.endpoint, IdOf(event)))
    case ReadCommand(route, event) => ClaimAnswer(w, (route.endpoint, IdOf(event)))
    case Announce(_, _, _, _) => Announced(w, step)
    case Begin(worker, d, retryCount) => w.(workers := w.workers[worker := Worker(d, retryCount, Starting)])
    case Proceed(_, _) => Worked(w, step)
    case Crash(worker) => w.(workers := w.workers - {worker})
    case Change(op, now) => Rewritten(w, Changed(w.db, op, now))
  }

  function Initial(handles: map<CommunityId, string>, hosts: map<CommunityId, string>): World {
    World(Db(Hub.EMPTY, handles, hosts, map[], map[], map[], map[], map[], {}, {}, {}),
          {}, map[], 0, {}, map[], {}, {}, {})
  }

  /** Step `n` is enabled where it is taken, and leads to the next world. */
  ghost predicate IsStep(worlds: seq<World>, steps: seq<Step>, n: nat)
    requires n < |steps| && |worlds| == |steps| + 1
  {
    Enabled(worlds[n], steps[n]) && worlds[n + 1] == Next(worlds[n], steps[n])
  }

  /** A run is made of steps. */
  ghost predicate IsRun(worlds: seq<World>, steps: seq<Step>) {
    |worlds| == |steps| + 1 && forall n | 0 <= n < |steps| :: IsStep(worlds, steps, n)
  }

  ghost predicate StartsEmpty(worlds: seq<World>) {
    worlds != [] && exists handles, hosts :: worlds[0] == Initial(handles, hosts)
  }

  /** The world after a sequence of steps, each enabled where it is taken. */
  ghost function Taken(w: World, steps: seq<Step>): Option<World> {
    if steps == [] then Some(w)
    else
      var mid := Taken(w, steps[..|steps| - 1]);
      var step := steps[|steps| - 1];
      if mid.Some? && Enabled(mid.value, step) then Some(Next(mid.value, step)) else None
  }

  lemma TakenThen(w: World, steps: seq<Step>, step: Step)
    requires Taken(w, steps).Some? && Enabled(Taken(w, steps).value, step)
    ensures Taken(w, steps + [step]) == Some(Next(Taken(w, steps).value, step))
  {
    assert (steps + [step])[..|steps|] == steps;
  }
}
