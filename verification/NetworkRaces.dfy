/**
 The failures that overlapping runs, closed sessions and copied notices lead to, each as a
 run that starts in any sound world where a delivery is ready, and changes no setting.
 */
module NetworkRaces {
  import opened Wrappers
  import opened Nostr
  import opened Bridge
  import opened Hub
  import opened Routing
  import opened Tables
  import opened Network
  import opened NetworkInvariant
  import opened NetworkSteps
  import opened NetworkProof
  import opened NetworkTheorems

  // ---------------------------------------------------------------- reaching a world

  ghost predicate IsPath(w: World, steps: seq<Step>, w': World) {
    Taken(w, steps) == Some(w') && forall i | 0 <= i < |steps| :: !steps[i].Change?
  }

  /** Some steps that change no setting lead from `w` to `w'`. */
  ghost predicate Reaches(w: World, w': World) {
    exists steps :: IsPath(w, steps, w')
  }

  lemma ReachesItself(w: World)
    ensures Reaches(w, w)
  {
    assert IsPath(w, [], w);
  }

  lemma StepsOn(w: World, mid: World, step: Step)
    requires Reaches(w, mid) && Enabled(mid, step) && !step.Change?
    ensures Reaches(w, Next(mid, step))
  {
    var steps :| IsPath(w, steps, mid);
    TakenThen(w, steps, step);
    PathGrows(w, steps, mid, step, Next(mid, step));
  }

  lemma PathGrows(w: World, steps: seq<Step>, mid: World, step: Step, w': World)
    requires IsPath(w, steps, mid) && Taken(w, steps + [step]) == Some(w') && !step.Change?
    ensures Reaches(w, w')
  {
    assert IsPath(w, steps + [step], w');
  }

  lemma WorksOn(w: World, mid: World, id: nat, o: Oracle)
    requires Reaches(w, mid) && id in mid.workers && OracleIsHonest(mid, id, o)
    ensures Reaches(w, Work(mid, id, o))
  {
    StepsOn(w, mid, Proceed(id, o));
  }

  lemma ReachedIsSound(w: World, w': World)
    requires Sound(w) && Reaches(w, w')
    ensures Sound(w')
  {
    var steps :| IsPath(w, steps, w');
    TakenKeepsSound(w, steps);
  }

  // ---------------------------------------------------------------- one run, call by call

  /** A relay that stores and answers, and one that is out of reach. */
  const FINE := Oracle(0, true, true, true, "")
  const LOST := Oracle(0, false, false, false, "relay_publish_failed")

  ghost predicate HasParent(db: Db, d: Uuid)
    requires Joins(db, d)
  {
    var m := db.messages[db.deliveries[d].message];
    m.parentEvent.Some? ==> LocalParent(db, m, db.deliveries[d].destination).Some?
  }

  /** Nothing stands in the way of delivering `d`. */
  ghost predicate IsReady(w: World, d: Uuid) {
    && IsQueued(w.db, d) && CanStart(w.db, d) && Joins(w.db, d) && HasParent(w.db, d)
    && var to := w.db.registry.endpoints[w.db.deliveries[d].destination];
       RouteActive(w.db.registry.endpoints[SourceOf(w.db, d)], to) && to.community in w.sessions
  }

  /** Queued, with its endpoints untouched since ingest, its parent known and its destination connected. */
  ghost predicate IsWaiting(w: World, d: Uuid) {
    && d in w.settled && HasState(w.db, d, Queued) && Joins(w.db, d) && HasParent(w.db, d)
    && w.db.registry.endpoints[w.db.deliveries[d].destination].community in w.sessions
  }

  lemma WaitingIsReady(w: World, d: Uuid)
    requires Inv(w) && IsWaiting(w, d)
    ensures IsReady(w, d)
  {
    var j := w.db.deliveries[d].message;
    assert j in w.db.jobs && w.db.jobs[j] == d;
  }

  predicate At(w: World, id: nat, d: Uuid, retryCount: nat, phase: Phase) {
    id in w.workers && w.workers[id] == Worker(d, retryCount, phase)
  }

  /** Only the run `id` moved, and only the row it delivers was written. */
  predicate OnlyRan(w: World, w': World, id: nat, d: Uuid) {
    && d in w.db.deliveries && d in w'.db.deliveries && id in w'.workers
    && w'.db == w.db.(deliveries := w.db.deliveries[d := w'.db.deliveries[d]])
    && RowGrows(w.db.deliveries[d], w'.db.deliveries[d])
    && w'.workers == w.workers[id := w'.workers[id]]
    && w'.sessions == w.sessions && w'.settled == w.settled
  }

  lemma StaysReady(w: World, w': World, id: nat, d: Uuid)
    requires IsReady(w, d) && OnlyRan(w, w', id, d) && CanStart(w'.db, d)
    ensures IsReady(w', d)
  {
    assert IsQueued(w'.db, d);
    var m := w.db.messages[w.db.deliveries[d].message];
    var at := w.db.deliveries[d].destination;
    SameLookup(w.db, w'.db, m, at);
  }

  lemma SameLookup(db: Db, db': Db, m: Message, at: EndpointId)
    requires db'.mappings == db.mappings
    ensures LocalParent(db', m, at).Some? <==> LocalParent(db, m, at).Some?
  {
    forall local ensures IsLocalParent(db', m, at, local) <==> IsLocalParent(db, m, at, local) {
      forall parent ensures IsParentMessage(db', m, parent) <==> IsParentMessage(db, m, parent) {
      }
    }
  }

  lemma BeginRun(start: World, w: World, id: nat, d: Uuid, retryCount: nat) returns (w': World)
    requires Reaches(start, w) && IsReady(w, d) && id !in w.workers
    ensures Reaches(start, w') && OnlyRan(w, w', id, d) && w'.db == w.db && At(w', id, d, retryCount, Starting)
  {
    w' := Next(w, Begin(id, d, retryCount));
    StepsOn(start, w, Begin(id, d, retryCount));
  }

  predicate IsMarking(w: World, id: nat, d: Uuid, retryCount: nat, ctx: Context) {
    && ctx.destinationCommunity in w.sessions
    && At(w, id, d, retryCount, Marking(ctx, w.sessions[ctx.destinationCommunity].id))
  }

  lemma RunToMarking(start: World, w: World, id: nat, d: Uuid, retryCount: nat) returns (w': World, ctx: Context)
    requires Reaches(start, w) && IsReady(w, d) && id !in w.workers
    ensures Reaches(start, w') && OnlyRan(w, w', id, d) && w'.db == w.db
    ensures IsMarking(w', id, d, retryCount, ctx) && ctx.signed == w.db.deliveries[d].signed
  {
    var begun := BeginRun(start, w, id, d, retryCount);
    ctx := ReadContext(w.db, d);
    w' := Work(begun, id, FINE);
    WorksOn(start, begun, id, FINE);
  }

  /** The row is marked, and the run is about to sign. */
  lemma RunToProjecting(start: World, w: World, id: nat, d: Uuid, retryCount: nat) returns (w': World, ctx: Context)
    requires Reaches(start, w) && IsReady(w, d) && id !in w.workers
    ensures Reaches(start, w') && OnlyRan(w, w', id, d) && HasState(w'.db, d, Delivering)
    ensures w'.db.deliveries[d].signed == w.db.deliveries[d].signed == ctx.signed
    ensures ctx.destinationCommunity in w'.sessions
    ensures At(w', id, d, retryCount, Projecting(ctx, w'.sessions[ctx.destinationCommunity].id))
  {
    var marking;
    marking, ctx := RunToMarking(start, w, id, d, retryCount);
    w' := Work(marking, id, FINE);
    WorkIsTransaction(marking, id, FINE);
    WorksOn(start, marking, id, FINE);
  }

  lemma RunToPersisting(start: World, w: World, id: nat, d: Uuid, retryCount: nat)
    returns (w': World, ctx: Context, event: Event)
    requires Reaches(start, w) && IsReady(w, d) && id !in w.workers
    ensures Reaches(start, w') && OnlyRan(w, w', id, d) && HasState(w'.db, d, Delivering)
    ensures At(w', id, d, retryCount, Persisting(ctx, event))
  {
    var projecting;
    projecting, ctx := RunToProjecting(start, w, id, d, retryCount);
    event := if ctx.signed.Some? then ctx.signed.value else Project(ctx, FINE.now);
    SignsLive(start, projecting, id, d, retryCount, ctx, event);
    w' := SetPhase(projecting, id, Persisting(ctx, event));
  }

  lemma SignsLive(start: World, w: World, id: nat, d: Uuid, retryCount: nat, ctx: Context, event: Event)
    requires Reaches(start, w) && ctx.destinationCommunity in w.sessions
    requires At(w, id, d, retryCount, Projecting(ctx, w.sessions[ctx.destinationCommunity].id))
    requires event == if ctx.signed.Some? then ctx.signed.value else Project(ctx, FINE.now)
    ensures Reaches(start, SetPhase(w, id, Persisting(ctx, event)))
  {
    WorksOn(start, w, id, FINE);
    assert Work(w, id, FINE) == SetPhase(w, id, Persisting(ctx, event));
  }

  /** The event is stored, and the run is about to make its second route check. */
  lemma RunToChecking(start: World, w: World, id: nat, d: Uuid, retryCount: nat)
    returns (w': World, ctx: Context, event: Event)
    requires Reaches(start, w) && IsReady(w, d) && id !in w.workers
    ensures Reaches(start, w') && OnlyRan(w, w', id, d) && HasState(w'.db, d, Delivering) && IsReady(w', d)
    ensures At(w', id, d, retryCount, Checking(ctx, event))
  {
    var persisting, signed;
    persisting, ctx, signed := RunToPersisting(start, w, id, d, retryCount);
    w', event := PersistOn(start, persisting, id, d, retryCount, ctx, signed);
    StaysReady(w, w', id, d);
  }

  lemma PersistOn(start: World, w: World, id: nat, d: Uuid, retryCount: nat, ctx: Context, signed: Event)
    returns (w': World, event: Event)
    requires Reaches(start, w) && HasState(w.db, d, Delivering) && At(w, id, d, retryCount, Persisting(ctx, signed))
    ensures Reaches(start, w') && OnlyRan(w, w', id, d) && HasState(w'.db, d, Delivering)
    ensures At(w', id, d, retryCount, Checking(ctx, event))
  {
    event := Persist(w.db, d, signed).result.value;
    w' := Work(w, id, FINE);
    WorkIsTransaction(w, id, FINE);
    WorksOn(start, w, id, FINE);
  }

  lemma RunToPublishing(start: World, w: World, id: nat, d: Uuid, retryCount: nat)
    returns (w': World, ctx: Context, event: Event)
    requires Reaches(start, w) && IsReady(w, d) && id !in w.workers
    ensures Reaches(start, w') && OnlyRan(w, w', id, d) && HasState(w'.db, d, Delivering) && IsReady(w', d)
    ensures At(w', id, d, retryCount, Publishing(ctx, event))
  {
    var checking;
    checking, ctx, event := RunToChecking(start, w, id, d, retryCount);
    w' := Work(checking, id, FINE);
    WorkIsTransaction(checking, id, FINE);
    WorksOn(start, checking, id, FINE);
    StaysReady(w, w', id, d);
  }

  /** The relay was out of reach, and the run is about to note a retry. */
  lemma RunToRetrying(start: World, w: World, id: nat, d: Uuid, retryCount: nat) returns (w': World)
    requires Reaches(start, w) && IsReady(w, d) && id !in w.workers
    ensures Reaches(start, w') && OnlyRan(w, w', id, d) && HasState(w'.db, d, Delivering) && IsReady(w', d)
    ensures At(w', id, d, retryCount, Retrying(LOST.code))
  {
    var publishing, ctx, event := RunToPublishing(start, w, id, d, retryCount);
    w' := Work(publishing, id, LOST);
    WorkIsPublishing(publishing, id, LOST);
    WorksOn(start, publishing, id, LOST);
    StaysReady(w, w', id, d);
  }

  /** The relay stored the event and said so, and the run is about to complete. */
  lemma RunToCompleting(start: World, w: World, id: nat, d: Uuid, retryCount: nat)
    returns (w': World, ctx: Context, event: Event)
    requires Reaches(start, w) && IsReady(w, d) && id !in w.workers
    ensures Reaches(start, w') && OnlyRan(w, w', id, d) && HasState(w'.db, d, Delivering)
    ensures At(w', id, d, retryCount, Completing(ctx, event))
  {
    var publishing;
    publishing, ctx, event := RunToPublishing(start, w, id, d, retryCount);
    w' := Work(publishing, id, FINE);
    WorkIsPublishing(publishing, id, FINE);
    WorksOn(start, publishing, id, FINE);
  }

  // ---------------------------------------------------------------- two runs of one delivery

  /** The state a run leaves that notes a retry. */
  function NotedState(retryCount: nat): DeliveryState {
    if retryCount >= RETRY_LIMIT then Failed else Retry
  }

  lemma NoteRetryOf(start: World, w: World, id: nat, d: Uuid, retryCount: nat, code: string) returns (w': World)
    requires Reaches(start, w) && At(w, id, d, retryCount, Retrying(code))
    requires d in w.db.deliveries && !IsAbsorbing(w.db.deliveries[d].state)
    ensures Reaches(start, w') && OnlyRan(w, w', id, d) && HasState(w'.db, d, NotedState(retryCount))
  {
    w' := Work(w, id, FINE);
    WorkIsTransaction(w, id, FINE);
    WorksOn(start, w, id, FINE);
  }

  /**
   The race: of two runs of a waiting delivery, one fails to publish and notes a retry
   while the other is about to make its second check, which then cancels the delivery for
   good, although no setting was changed. If the first was the last attempt, the row was
   `failed` in between.
   */
  lemma RaceCancels(w: World, d: Uuid, retrying: nat, checking: nat, retryCount: nat)
    returns (noted: World, cancelled: World)
    requires Sound(w) && IsWaiting(w, d) && retrying !in w.workers && checking !in w.workers && retrying != checking
    ensures Reaches(w, noted) && HasState(noted.db, d, NotedState(retryCount))
    ensures Reaches(noted, cancelled) && Reaches(w, cancelled)
    ensures HasState(cancelled.db, d, Cancelled) && d in cancelled.settled
  {
    WaitingIsReady(w, d);
    ReachesItself(w);
    var failed := RunToRetrying(w, w, retrying, d, retryCount);
    var both, ctx, event := RunToChecking(w, failed, checking, d, 0);
    assert At(both, retrying, d, retryCount, Retrying(LOST.code));
    noted := NoteRetryOf(w, both, retrying, d, retryCount, LOST.code);
    assert At(noted, checking, d, 0, Checking(ctx, event));
    ReachesItself(noted);
    cancelled := CheckFails(w, noted, checking, d, ctx, event);
    var same := CheckFails(noted, noted, checking, d, ctx, event);
  }

  /** A run whose second check finds the row moved on cancels it. */
  lemma CheckFails(start: World, w: World, id: nat, d: Uuid, ctx: Context, event: Event) returns (w': World)
    requires Reaches(start, w) && At(w, id, d, 0, Checking(ctx, event))
    requires HasState(w.db, d, Retry) || HasState(w.db, d, Failed)
    ensures w' == Work(Work(w, id, FINE), id, FINE) && Reaches(start, w')
    ensures HasState(w'.db, d, Cancelled) && w'.settled == w.settled
  {
    var stopped := Work(w, id, FINE);
    WorkIsTransaction(w, id, FINE);
    WorksOn(start, w, id, FINE);
    w' := Work(stopped, id, FINE);
    WorkIsTransaction(stopped, id, FINE);
    WorksOn(start, stopped, id, FINE);
  }

  /** A row that one run failed for good is delivered by another that was completing meanwhile. */
  lemma FailedMayBeDelivered(w: World, d: Uuid, giver: nat, finisher: nat) returns (failed: World, delivered: World)
    requires Sound(w) && IsWaiting(w, d) && giver !in w.workers && finisher !in w.workers && giver != finisher
    ensures Reaches(w, failed) && HasState(failed.db, d, Failed)
    ensures Reaches(failed, delivered) && HasState(delivered.db, d, Delivered)
  {
    WaitingIsReady(w, d);
    ReachesItself(w);
    var retrying := RunToRetrying(w, w, giver, d, RETRY_LIMIT);
    var both, ctx, event := RunToCompleting(w, retrying, finisher, d, 0);
    assert At(both, giver, d, RETRY_LIMIT, Retrying(LOST.code));
    failed := NoteRetryOf(w, both, giver, d, RETRY_LIMIT, LOST.code);
    assert At(failed, finisher, d, 0, Completing(ctx, event));
    ReachedIsSound(w, failed);
    ReachesItself(failed);
    WorksOn(failed, failed, finisher, FINE);
    delivered := Work(failed, finisher, FINE);
    FailedStaysIff(failed, Proceed(finisher, FINE), d);
  }

  /** Or it is put back to be retried by another that failed to publish later and has tries left. */
  lemma FailedMayBeRetried(w: World, d: Uuid, giver: nat, other: nat) returns (failed: World, retried: World)
    requires Sound(w) && IsWaiting(w, d) && giver !in w.workers && other !in w.workers && giver != other
    ensures Reaches(w, failed) && HasState(failed.db, d, Failed)
    ensures Reaches(failed, retried) && HasState(retried.db, d, Retry)
  {
    WaitingIsReady(w, d);
    ReachesItself(w);
    var retrying := RunToRetrying(w, w, giver, d, RETRY_LIMIT);
    var both := RunToRetrying(w, retrying, other, d, 0);
    assert At(both, giver, d, RETRY_LIMIT, Retrying(LOST.code));
    failed := NoteRetryOf(w, both, giver, d, RETRY_LIMIT, LOST.code);
    assert At(failed, other, d, 0, Retrying(LOST.code));
    ReachesItself(failed);
    retried := NoteRetryOf(failed, failed, other, d, 0, LOST.code);
  }

  // ---------------------------------------------------------------- a closed session

  /**
   The one way a last run leaves its delivery undecided: its session is closed after the
   row was marked and before the event was signed.
   */
  lemma ClosedSessionStrands(w: World, d: Uuid, id: nat) returns (stranded: World)
    requires Sound(w) && IsWaiting(w, d) && id !in w.workers && w.db.deliveries[d].signed.None?
    ensures Reaches(w, stranded) && At(stranded, id, d, RETRY_LIMIT, Threw(KeyWiped))
    ensures HasState(stranded.db, d, Delivering) && d in stranded.settled
  {
    WaitingIsReady(w, d);
    ReachesItself(w);
    var projecting, ctx := RunToProjecting(w, w, id, d, RETRY_LIMIT);
    var closed := projecting.(sessions := projecting.sessions - {ctx.destinationCommunity});
    StepsOn(w, projecting, Disconnect(ctx.destinationCommunity));
    WorksOn(w, closed, id, FINE);
    WipedThrows(closed, id, FINE);
    stranded := SetPhase(closed, id, Threw(KeyWiped));
  }

  lemma WipedThrows(w: World, id: nat, o: Oracle)
    requires id in w.workers && w.workers[id].phase.Projecting? && w.workers[id].phase.ctx.signed.None?
    requires !SessionIsLive(w, w.workers[id].phase.ctx.destinationCommunity, w.workers[id].phase.session)
    ensures Work(w, id, o) == SetPhase(w, id, Threw(KeyWiped))
  {
  }

  // ---------------------------------------------------------------- a copied notice

  predicate IsStray(w: World, post: Post, community: CommunityId, route: Route) {
    && post in w.handed && !post.cause.Mirror? && post.community != community
    && RouteOf(w, community, post.event) == Some(route) && route.dedicatedTo.Some?
    && BodyFits(post.event.content)
  }

  /** The route's peer can be reached from it, and its endpoint has not read the event yet. */
  ghost predicate Welcomes(db: Db, route: Route, event: Event)
    requires route.endpoint in db.registry.endpoints && route.dedicatedTo.Some?
  {
    && db.registry.endpoints[route.endpoint].sends
    && Destinations(db.registry.endpoints, route.endpoint, route.dedicatedTo) != {}
    && forall id :: !IsMessageAt(db, id, route.hub, route.endpoint, event)
  }

  function StrayRead(event: Event, route: Route, messageId: Uuid, first: Uuid): Step {
    ReadMessage(route, event, true, event.createdAt, 0, messageId, first, None, "")
  }

  lemma StrayIsRoutable(w: World, post: Post, community: CommunityId, route: Route)
    requires Inv(w) && IsStray(w, post, community, route)
    ensures post.event.pubkey.BridgeKey? && WasHanded(w.handed, post.event)
    ensures IsRoutable(post.event, route, true, post.event.createdAt)
    ensures route.endpoint in w.db.registry.endpoints
  {
    assert PostOk(w.db, w.pending, post);
    RouteOfIsOk(w, community, post.event);
    NoticeIsRoutedIff(post.event, route, true, post.event.createdAt);
  }

  /**
   A notice is read by another community's bridge as soon as someone copies it to that
   community's relay, if a session is live there whose route for the channel it names is
   bound to a peer; and it is mirrored to that peer exactly if the peer can be reached and
   the notice was not read there before.
   */
  lemma StrayNoticeIsRead(w: World, post: Post, community: CommunityId, route: Route, messageId: Uuid, first: Uuid)
    requires Sound(w) && IsStray(w, post, community, route) && FreshIds(w.db, messageId, first)
    ensures route.endpoint in w.db.registry.endpoints
    ensures var steps := [Copy(community, post.event), Receive(community, post.event),
                          StrayRead(post.event, route, messageId, first)];
            && Taken(w, steps).Some?
            && (HasState(Taken(w, steps).value.db, first, Queued) <==> Welcomes(w.db, route, post.event))
  {
    var event, read := post.event, StrayRead(post.event, route, messageId, first);
    StrayIsRoutable(w, post, community, route);
    CopiedIsReceived(w, community, event, route);
    var received := WithReceived(w, community, event, route);
    RoutableIsEnabled(received, read);
    ThreeSteps(w, Copy(community, event), Receive(community, event), read, received);
    CopyKeepsSound(w, community, event, route);
    StrayIsIngested(received, route, event, messageId, first);
  }

  /** The event is on that relay, and the session has received it. */
  function WithReceived(w: World, community: CommunityId, event: Event, route: Route): World {
    w.(relay := w.relay + {(community, event)}, received := w.received + {(route, event)})
  }

  lemma CopyKeepsSound(w: World, community: CommunityId, event: Event, route: Route)
    requires Sound(w) && WasHanded(w.handed, event) && RouteOf(w, community, event) == Some(route)
    ensures Sound(WithReceived(w, community, event, route))
  {
    CopiedIsReceived(w, community, event, route);
    TakenKeepsSound(w, [Copy(community, event), Receive(community, event)]);
  }

  lemma ThreeSteps(w: World, first: Step, second: Step, third: Step, mid: World)
    requires Taken(w, [first, second]) == Some(mid) && Enabled(mid, third)
    ensures Taken(w, [first, second, third]) == Some(Next(mid, third))
  {
    TakenThen(w, [first, second], third);
    assert [first, second] + [third] == [first, second, third];
  }

  lemma RoutableIsEnabled(w: World, step: Step)
    requires step.ReadMessage? && (step.route, step.event) in w.received
    requires IsRoutable(step.event, step.route, step.verified, step.now) && FreshIds(w.db, step.messageId, step.first)
    ensures Enabled(w, step)
  {
  }

  lemma StrayIsIngested(w: World, route: Route, event: Event, messageId: Uuid, first: Uuid)
    requires Sound(w) && (route, event) in w.received && event.pubkey.BridgeKey? && route.dedicatedTo.Some?
    requires Enabled(w, StrayRead(event, route, messageId, first))
    ensures route.endpoint in w.db.registry.endpoints
    ensures HasState(Next(w, StrayRead(event, route, messageId, first)).db, first, Queued)
       <==> Welcomes(w.db, route, event)
  {
    var read := StrayRead(event, route, messageId, first);
    assert ReceiptOk(w.db.registry, w.relay, (route, event));
    ReadInputIsOk(w, read);
    BoundInput(read);
    CreatesIffWelcome(w, route, event, InputOf(read), first);
  }

  /** What is read on a channel bound to a peer goes to that peer as it is. */
  lemma BoundInput(read: Step)
    requires read.ReadMessage? && IsRoutable(read.event, read.route, read.verified, read.now)
    requires read.route.dedicatedTo.Some?
    ensures var input := InputOf(read);
            && input.source == read.route.endpoint && input.hub == read.route.hub && input.event == read.event
            && input.destination == read.route.dedicatedTo && BodyFits(input.body)
  {
  }

  lemma CreatesIffWelcome(w: World, route: Route, event: Event, input: IngestInput, first: Uuid)
    requires Sound(w) && IsSourceInput(w.db, w.relay, input) && FreshIds(w.db, input.messageId, first)
    requires input.source == route.endpoint && input.hub == route.hub && input.event == event
    requires input.destination == route.dedicatedTo && BodyFits(input.body)
    ensures HasState(Ingest(w.db, input, first).db, first, Queued) <==> Welcomes(w.db, route, event)
  {
    CreatesIffRouted(w.db, w.relay, input, first);
    IngestAnswersOnce(w.db, w.relay, input, first);
  }

  lemma CopiedIsReceived(w: World, community: CommunityId, event: Event, route: Route)
    requires WasHanded(w.handed, event) && RouteOf(w, community, event) == Some(route)
    ensures Taken(w, [Copy(community, event), Receive(community, event)])
         == Some(WithReceived(w, community, event, route))
  {
    var copied := w.(relay := w.relay + {(community, event)});
    TakenThen(w, [], Copy(community, event));
    assert [] + [Copy(community, event)] == [Copy(community, event)];
    assert Next(w, Copy(community, event)) == copied;
    TakenThen(w, [Copy(community, event)], Receive(community, event));
    assert [Copy(community, event)] + [Receive(community, event)]
        == [Copy(community, event), Receive(community, event)];
  }
}
