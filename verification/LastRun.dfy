/**
 Where the last run of a delivery leaves it, if nothing else touches the delivery or its
 session meanwhile: a function of the tables, the live sessions, the relay and its answers.
 */
module LastRun {
  import opened Wrappers
  import opened Nostr
  import opened Hub
  import opened Routing
  import opened Tables
  import opened Network
  import opened NetworkInvariant
  import opened NetworkSteps
  import opened NetworkProof
  import opened NetworkTheorems
  import opened NetworkSerial
  import opened Connector

  function EventOf(ctx: Context, now: int): Event {
    if ctx.signed.Some? then ctx.signed.value else Project(ctx, now)
  }

  /** The relay has the event and says so, when asked to store it or when asked for it. */
  predicate Confirms(relay: Relay, community: CommunityId, event: Event, o: Oracle) {
    || (o.stored && (o.acked || o.found))
    || (o.found && (community, event) in relay)
  }

  /** A message that answers another needs that other's event at the destination. */
  predicate FindsParent(ctx: Context) {
    ctx.message.parentEvent.Some? ==> ctx.localParent.Some?
  }

  ghost function LastState(w: World, d: Uuid, o: Oracle): DeliveryState
    requires Joins(w.db, d)
  {
    var ctx := ReadContext(w.db, d);
    if IsTerminal(ctx.state) then ctx.state
    else if !ctx.routeActive then Cancelled
    else if FindsParent(ctx) && ctx.destinationCommunity in w.sessions
            && Confirms(w.relay, ctx.destinationCommunity, EventOf(ctx, o.now), o) then Delivered
    else Failed
  }

  // ---------------------------------------------------------------- one call

  predicate IsAt(w: World, id: nat, d: Uuid, phase: Phase) {
    id in w.workers && w.workers[id] == Worker(d, RETRY_LIMIT, phase)
  }

  ghost predicate Ends(w: World, id: nat, o: Oracle, d: Uuid, state: DeliveryState)
    requires id in w.workers
  {
    HasState(RunOut(w, id, o).db, d, state)
  }

  lemma CallKeepsBoth(w: World, id: nat, o: Oracle)
    requires Sound(w) && SerialOk(w) && id in w.workers
    ensures Sound(Call(w, id, o)) && SerialOk(Call(w, id, o))
  {
    var step := Proceed(id, Honest(w, id, o));
    NextKeepsSound(w, step);
    NextKeepsSerial(w, step);
  }

  lemma {:induction false} RunOutKeepsTerminal(w: World, id: nat, o: Oracle, d: Uuid, state: DeliveryState)
    requires Sound(w) && SerialOk(w) && id in w.workers && HasState(w.db, d, state) && IsTerminal(state)
    ensures Ends(w, id, o, d, state)
    decreases CallsLeft(w.workers[id].phase)
  {
    if IsActive(w.workers[id]) {
      CallsLeftFalls(w, id, Honest(w, id, o));
      CallKeepsBoth(w, id, o);
      WorkKeepsTerminal(w, id, Honest(w, id, o), d, state);
      RunOutKeepsTerminal(Call(w, id, o), id, o, d, state);
      OneCall(w, id, o);
    }
  }

  /** A call that settles the row settles it for the run. */
  lemma SettlingCall(w: World, id: nat, o: Oracle, d: Uuid, state: DeliveryState)
    requires Sound(w) && SerialOk(w) && id in w.workers && IsActive(w.workers[id])
    requires HasState(Call(w, id, o).db, d, state) && IsTerminal(state)
    ensures Ends(w, id, o, d, state)
  {
    OneCall(w, id, o);
    CallKeepsBoth(w, id, o);
    RunOutKeepsTerminal(Call(w, id, o), id, o, d, state);
  }

  /** Any other call leaves the end to the rest of the run. */
  lemma EndsAfter(w: World, id: nat, o: Oracle, d: Uuid, state: DeliveryState)
    requires id in w.workers && IsActive(w.workers[id]) && id in Call(w, id, o).workers
    requires Ends(Call(w, id, o), id, o, d, state)
    ensures Ends(w, id, o, d, state)
  {
    OneCall(w, id, o);
  }

  // ---------------------------------------------------------------- from each phase to the end

  lemma EndsDelivered(w: World, id: nat, o: Oracle, d: Uuid, ctx: Context, event: Event)
    requires Sound(w) && SerialOk(w) && IsAt(w, id, d, Completing(ctx, event))
    ensures Ends(w, id, o, d, Delivered)
  {
    RowIsDelivering(w, id, d);
    assert WorkerOk(w.db, w.relay, w.workers[id]);
    CompletingCall(w, id, o, d, ctx, event);
    SettlingCall(w, id, o, d, Delivered);
  }

  lemma RowIsDelivering(w: World, id: nat, d: Uuid)
    requires SerialOk(w) && id in w.workers && w.workers[id].delivery == d
    requires w.workers[id].phase.Persisting? || w.workers[id].phase.Checking? || w.workers[id].phase.Completing?
    ensures HasState(w.db, d, Delivering)
  {
    assert WorkerFits(w.db, w.workers[id]);
  }

  lemma CompletingCall(w: World, id: nat, o: Oracle, d: Uuid, ctx: Context, event: Event)
    requires IsAt(w, id, d, Completing(ctx, event)) && RowsOk(w.db, w.relay) && WorkerOk(w.db, w.relay, w.workers[id])
    requires HasState(w.db, d, Delivering)
    ensures HasState(Call(w, id, o).db, d, Delivered)
  {
    CompleteKeeps(w.db, w.relay, d, event);
    WorkIsTransaction(w, id, Honest(w, id, o));
  }

  lemma EndsFailed(w: World, id: nat, o: Oracle, d: Uuid, code: string)
    requires Sound(w) && SerialOk(w) && IsAt(w, id, d, Retrying(code))
    ensures Ends(w, id, o, d, Failed)
  {
    assert WorkerFits(w.db, w.workers[id]);
    WorkIsTransaction(w, id, Honest(w, id, o));
    SettlingCall(w, id, o, d, Failed);
  }

  lemma EndsCancelled(w: World, id: nat, o: Oracle, d: Uuid)
    requires Sound(w) && SerialOk(w) && IsAt(w, id, d, Cancelling)
    ensures Ends(w, id, o, d, Cancelled)
  {
    assert WorkerFits(w.db, w.workers[id]);
    WorkIsTransaction(w, id, Honest(w, id, o));
    SettlingCall(w, id, o, d, Cancelled);
  }

  function PublishedAs(relay: Relay, ctx: Context, event: Event, o: Oracle): DeliveryState {
    if Confirms(relay, ctx.destinationCommunity, event, o) then Delivered else Failed
  }

  lemma PublishingCall(w: World, id: nat, o: Oracle, d: Uuid, ctx: Context, event: Event)
    requires IsAt(w, id, d, Publishing(ctx, event))
    ensures IsAt(Call(w, id, o), id, d,
                 if Confirms(w.relay, ctx.destinationCommunity, event, o) then Completing(ctx, event)
                 else Retrying(o.code))
  {
    WorkIsPublishing(w, id, Honest(w, id, o));
  }

  lemma EndsPublished(w: World, id: nat, o: Oracle, d: Uuid, ctx: Context, event: Event)
    requires Sound(w) && SerialOk(w) && IsAt(w, id, d, Publishing(ctx, event))
    ensures Ends(w, id, o, d, PublishedAs(w.relay, ctx, event, o))
  {
    PublishingCall(w, id, o, d, ctx, event);
    CallKeepsBoth(w, id, o);
    if Confirms(w.relay, ctx.destinationCommunity, event, o) {
      EndsDelivered(Call(w, id, o), id, o, d, ctx, event);
    } else {
      EndsFailed(Call(w, id, o), id, o, d, o.code);
    }
    EndsAfter(w, id, o, d, PublishedAs(w.relay, ctx, event, o));
  }

  /** The route of the delivery is active. */
  predicate IsRouted(db: Db, d: Uuid) {
    Joins(db, d)
    && RouteActive(db.registry.endpoints[SourceOf(db, d)], db.registry.endpoints[db.deliveries[d].destination])
  }

  lemma CheckingCall(w: World, id: nat, o: Oracle, d: Uuid, ctx: Context, event: Event)
    requires IsAt(w, id, d, Checking(ctx, event)) && IsRouted(w.db, d) && HasState(w.db, d, Delivering)
    ensures IsAt(Call(w, id, o), id, d, Publishing(ctx, event)) && Call(w, id, o).relay == w.relay
  {
    WorkIsTransaction(w, id, Honest(w, id, o));
  }

  lemma EndsChecked(w: World, id: nat, o: Oracle, d: Uuid, ctx: Context, event: Event)
    requires Sound(w) && SerialOk(w) && IsAt(w, id, d, Checking(ctx, event)) && IsRouted(w.db, d)
    ensures Ends(w, id, o, d, PublishedAs(w.relay, ctx, event, o))
  {
    RowIsDelivering(w, id, d);
    CheckingCall(w, id, o, d, ctx, event);
    CallKeepsBoth(w, id, o);
    EndsPublished(Call(w, id, o), id, o, d, ctx, event);
    EndsAfter(w, id, o, d, PublishedAs(w.relay, ctx, event, o));
  }

  /** The row is as the context has it, up to its state. */
  predicate IsUntouched(db: Db, d: Uuid, ctx: Context) {
    IsRouted(db, d) && db.deliveries[d].signed == ctx.signed
  }

  lemma PersistingCall(w: World, id: nat, o: Oracle, d: Uuid, ctx: Context, event: Event)
    requires IsAt(w, id, d, Persisting(ctx, event)) && IsUntouched(w.db, d, ctx) && HasState(w.db, d, Delivering)
    requires ctx.signed.Some? ==> event == ctx.signed.value
    ensures IsAt(Call(w, id, o), id, d, Checking(ctx, event))
    ensures IsRouted(Call(w, id, o).db, d) && Call(w, id, o).relay == w.relay
  {
    WorkIsTransaction(w, id, Honest(w, id, o));
  }

  lemma EndsPersisted(w: World, id: nat, o: Oracle, d: Uuid, ctx: Context, event: Event)
    requires Sound(w) && SerialOk(w) && IsAt(w, id, d, Persisting(ctx, event)) && IsUntouched(w.db, d, ctx)
    requires ctx.signed.Some? ==> event == ctx.signed.value
    ensures Ends(w, id, o, d, PublishedAs(w.relay, ctx, event, o))
  {
    RowIsDelivering(w, id, d);
    PersistingCall(w, id, o, d, ctx, event);
    CallKeepsBoth(w, id, o);
    EndsChecked(Call(w, id, o), id, o, d, ctx, event);
    EndsAfter(w, id, o, d, PublishedAs(w.relay, ctx, event, o));
  }

  lemma ProjectingCall(w: World, id: nat, o: Oracle, d: Uuid, ctx: Context, session: nat)
    requires IsAt(w, id, d, Projecting(ctx, session)) && SessionIsLive(w, ctx.destinationCommunity, session)
    ensures Call(w, id, o) == SetPhase(w, id, Persisting(ctx, EventOf(ctx, o.now)))
  {
  }

  lemma EndsProjected(w: World, id: nat, o: Oracle, d: Uuid, ctx: Context, session: nat)
    requires Sound(w) && SerialOk(w) && IsAt(w, id, d, Projecting(ctx, session)) && IsUntouched(w.db, d, ctx)
    requires SessionIsLive(w, ctx.destinationCommunity, session)
    ensures Ends(w, id, o, d, PublishedAs(w.relay, ctx, EventOf(ctx, o.now), o))
  {
    ProjectingCall(w, id, o, d, ctx, session);
    CallKeepsBoth(w, id, o);
    EndsPersisted(Call(w, id, o), id, o, d, ctx, EventOf(ctx, o.now));
    EndsAfter(w, id, o, d, PublishedAs(w.relay, ctx, EventOf(ctx, o.now), o));
  }

  lemma MarkingCall(w: World, id: nat, o: Oracle, d: Uuid, ctx: Context, session: nat)
    requires IsAt(w, id, d, Marking(ctx, session)) && IsUntouched(w.db, d, ctx) && CanStart(w.db, d)
    ensures IsAt(Call(w, id, o), id, d, Projecting(ctx, session)) && IsUntouched(Call(w, id, o).db, d, ctx)
    ensures Call(w, id, o).relay == w.relay && Call(w, id, o).sessions == w.sessions
  {
    WorkIsTransaction(w, id, Honest(w, id, o));
  }

  lemma EndsMarked(w: World, id: nat, o: Oracle, d: Uuid, ctx: Context, session: nat)
    requires Sound(w) && SerialOk(w) && IsAt(w, id, d, Marking(ctx, session)) && IsUntouched(w.db, d, ctx)
    requires SessionIsLive(w, ctx.destinationCommunity, session)
    ensures Ends(w, id, o, d, PublishedAs(w.relay, ctx, EventOf(ctx, o.now), o))
  {
    assert WorkerFits(w.db, w.workers[id]);
    StartsUnlessTerminal(w.db.deliveries[d].state);
    MarkingCall(w, id, o, d, ctx, session);
    CallKeepsBoth(w, id, o);
    EndsProjected(Call(w, id, o), id, o, d, ctx, session);
    EndsAfter(w, id, o, d, PublishedAs(w.relay, ctx, EventOf(ctx, o.now), o));
  }

  lemma StartingCall(w: World, id: nat, o: Oracle, d: Uuid)
    requires IsAt(w, id, d, Starting) && Joins(w.db, d)
    ensures Call(w, id, o) == SetPhase(w, id, Decide(w, Some(ReadContext(w.db, d))))
    ensures Call(w, id, o).db == w.db && Call(w, id, o).relay == w.relay && Call(w, id, o).sessions == w.sessions
    ensures IsAt(Call(w, id, o), id, d, Decide(Call(w, id, o), Some(ReadContext(w.db, d))))
  {
  }

  lemma EndsDecided(w: World, id: nat, o: Oracle, d: Uuid, ctx: Context)
    requires Sound(w) && SerialOk(w) && Joins(w.db, d) && ctx == ReadContext(w.db, d)
    requires IsAt(w, id, d, Decide(w, Some(ctx)))
    ensures Ends(w, id, o, d, LastState(w, d, o))
  {
    if IsTerminal(ctx.state) {
      RunOutKeepsTerminal(w, id, o, d, ctx.state);
    } else if !ctx.routeActive {
      EndsCancelled(w, id, o, d);
    } else if !FindsParent(ctx) {
      EndsFailed(w, id, o, d, "parent_mapping_missing");
    } else if ctx.destinationCommunity !in w.sessions {
      EndsFailed(w, id, o, d, "connector_unavailable");
    } else {
      EndsMarked(w, id, o, d, ctx, w.sessions[ctx.destinationCommunity].id);
    }
  }

  /**
   The last run, undisturbed, ends exactly thus: a row that is settled stays, one whose route
   is inactive is cancelled, and any other is delivered if its parent is known, its
   destination connected and the event confirmed by the relay, and failed otherwise.
   */
  lemma LastRunEndsAs(w: World, id: nat, d: Uuid, o: Oracle)
    requires Sound(w) && SerialOk(w) && id !in w.workers && IsQueued(w.db, d)
    requires IsSerialStep(w, Begin(id, d, RETRY_LIMIT))
    ensures Joins(w.db, d) && Ends(Begun(w, id, d, RETRY_LIMIT), id, o, d, LastState(w, d, o))
  {
    var begun := Begun(w, id, d, RETRY_LIMIT);
    BeginsSound(w, id, d);
    QueuedJoins(w, d);
    EndsStarted(begun, id, o, d);
    SameLastState(w, begun, d, o);
  }

  lemma EndsStarted(w: World, id: nat, o: Oracle, d: Uuid)
    requires Sound(w) && SerialOk(w) && Joins(w.db, d) && IsAt(w, id, d, Starting)
    ensures Ends(w, id, o, d, LastState(w, d, o))
  {
    var decided := Call(w, id, o);
    StartingCall(w, id, o, d);
    CallKeepsBoth(w, id, o);
    SameLastState(w, decided, d, o);
    EndsDecided(decided, id, o, d, ReadContext(w.db, d));
    EndsAfter(w, id, o, d, LastState(w, d, o));
  }

  lemma SameLastState(w: World, w': World, d: Uuid, o: Oracle)
    requires w'.db == w.db && w'.relay == w.relay && w'.sessions == w.sessions && Joins(w.db, d)
    ensures LastState(w', d, o) == LastState(w, d, o)
  {
  }

  lemma QueuedJoins(w: World, d: Uuid)
    requires Inv(w) && IsQueued(w.db, d)
    ensures Joins(w.db, d)
  {
    var j :| j in w.db.jobs && w.db.jobs[j] == d;
    assert DeliveryOk(w.db, w.relay, d);
  }
}
