/** What the invariant means for every run of the bridge, however its steps interleave. */
module NetworkTheorems {
  import opened Wrappers
  import opened Nostr
  import opened Commands
  import opened Bridge
  import opened Hub
  import opened Routing
  import opened Tables
  import opened Network
  import opened NetworkInvariant
  import opened NetworkSteps
  import opened NetworkProof
  import opened NetworkContent
  import opened Events
  import opened Counting

  // ---------------------------------------------------------------- thread fidelity

  /** No endpoint knows two messages by one event: mappings are a partial bijection. */
  lemma MappingsAreInjective(w: World, endpoint: EndpointId, m: Uuid, n: Uuid)
    requires Sound(w) && (endpoint, m) in w.db.mappings && (endpoint, n) in w.db.mappings
    requires w.db.mappings[(endpoint, m)] == w.db.mappings[(endpoint, n)]
    ensures m == n
  {
    var db := w.db;
    assert MappingOk(db, (endpoint, m)) && MappingOk(db, (endpoint, n));
    assert MessageOk(db, w.relay, m) && MessageOk(db, w.relay, n);
    if DeliversTo(db, m, endpoint, db.mappings[(endpoint, m)]) {
      assert DeliveryOk(db, w.relay, db.jobs[m]);
      MirrorIsMarked(db.deliveries[db.jobs[m]].signed.value);
    }
    if DeliversTo(db, n, endpoint, db.mappings[(endpoint, n)]) {
      assert DeliveryOk(db, w.relay, db.jobs[n]);
      MirrorIsMarked(db.deliveries[db.jobs[n]].signed.value);
    }
  }

  /** `event` answers, at the destination of `d`, the very message that its source event's tags answer at the source. */
  ghost predicate InThread(db: Db, d: Uuid, event: Event) {
    && Joins(db, d)
    && var m := db.messages[db.deliveries[d].message];
       exists answered ::
         Answers(m.event, answered) && CrossesOver(db, m.source, answered, db.deliveries[d].destination, event)
  }

  /** What is answered at one endpoint is a message that both know, and `event` answers it at the other. */
  ghost predicate CrossesOver(db: Db, source: EndpointId, answered: Option<EventId>, at: EndpointId, event: Event) {
    match answered
    case None => Answers(event, None)
    case Some(id) =>
      exists parent ::
        && (source, parent) in db.mappings && db.mappings[(source, parent)] == id
        && (at, parent) in db.mappings && Answers(event, Some(db.mappings[(at, parent)]))
  }

  lemma StoredParentCrosses(db: Db, relay: Relay, d: Uuid)
    requires RowsOk(db, relay) && d in db.deliveries && db.deliveries[d].signed.Some? && Joins(db, d)
    ensures var m := db.messages[db.deliveries[d].message];
            CrossesOver(db, m.source, m.parentEvent, db.deliveries[d].destination, db.deliveries[d].signed.value)
  {
    assert DeliveryOk(db, relay, d);
    var m, event := db.messages[db.deliveries[d].message], db.deliveries[d].signed.value;
    assert MessageOk(db, relay, db.deliveries[d].message);
    ReplyIsExact(event, ReplyEventId(event));
    if m.parentEvent.Some? {
      var reply := ReplyEventId(event).value;
      var parent :| IsParentMessage(db, m, parent) && (db.deliveries[d].destination, parent) in db.mappings
                    && db.mappings[(db.deliveries[d].destination, parent)] == reply;
    }
  }

  /**
   In every world of every run, each persisted projection replies to the local event of
   exactly the message that its source event answers, as the tags of the two events say it.
   */
  lemma EveryProjectionIsInThread(worlds: seq<World>, steps: seq<Step>, n: nat, d: Uuid)
    requires IsRun(worlds, steps) && StartsEmpty(worlds) && n < |worlds|
    requires d in worlds[n].db.deliveries && worlds[n].db.deliveries[d].signed.Some?
    ensures InThread(worlds[n].db, d, worlds[n].db.deliveries[d].signed.value)
  {
    EveryWorldIsSound(worlds, steps, n);
    EveryMessageTells(worlds, steps, n);
    var db := worlds[n].db;
    assert DeliveryOk(db, worlds[n].relay, d);
    StoredParentCrosses(db, worlds[n].relay, d);
    assert Tells(db.registry, db.messages[db.deliveries[d].message]);
  }

  /**
   Replies cross back: answering a mirrored message, in the channel it was mirrored
   to, produces at the original's endpoint a reply to the original event.
   */
  lemma ReplyToMirrorFindsOriginal(worlds: seq<World>, steps: seq<Step>, n: nat, mirror: Uuid, reply: Uuid)
    requires IsRun(worlds, steps) && StartsEmpty(worlds) && n < |worlds|
    requires Joins(worlds[n].db, mirror) && Joins(worlds[n].db, reply)
    requires worlds[n].db.deliveries[mirror].signed.Some? && worlds[n].db.deliveries[reply].signed.Some?
    requires SourceOf(worlds[n].db, reply) == worlds[n].db.deliveries[mirror].destination
    requires worlds[n].db.deliveries[reply].destination == SourceOf(worlds[n].db, mirror)
    requires Answers(worlds[n].db.messages[worlds[n].db.deliveries[reply].message].event,
                     Some(IdOf(worlds[n].db.deliveries[mirror].signed.value)))
    ensures Answers(worlds[n].db.deliveries[reply].signed.value,
                    Some(IdOf(worlds[n].db.messages[worlds[n].db.deliveries[mirror].message].event)))
  {
    EveryWorldIsSound(worlds, steps, n);
    EveryMessageTells(worlds, steps, n);
    var m := worlds[n].db.messages[worlds[n].db.deliveries[reply].message];
    assert Tells(worlds[n].db.registry, m);
    AnswersOne(m.event, m.parentEvent, Some(IdOf(worlds[n].db.deliveries[mirror].signed.value)));
    StoredReplyFindsOriginal(worlds[n], mirror, reply);
  }

  lemma StoredReplyFindsOriginal(w: World, mirror: Uuid, reply: Uuid)
    requires Sound(w) && Joins(w.db, mirror) && Joins(w.db, reply)
    requires w.db.deliveries[mirror].signed.Some? && w.db.deliveries[reply].signed.Some?
    requires SourceOf(w.db, reply) == w.db.deliveries[mirror].destination
    requires w.db.deliveries[reply].destination == SourceOf(w.db, mirror)
    requires w.db.messages[w.db.deliveries[reply].message].parentEvent
               == Some(IdOf(w.db.deliveries[mirror].signed.value))
    ensures Answers(w.db.deliveries[reply].signed.value,
                    Some(IdOf(w.db.messages[w.db.deliveries[mirror].message].event)))
  {
    var db := w.db;
    var original := db.deliveries[mirror].message;
    StoredParentCrosses(db, w.relay, reply);
    var source, at := db.messages[db.deliveries[reply].message].source, db.deliveries[reply].destination;
    var id := IdOf(db.deliveries[mirror].signed.value);
    var parent :| (source, parent) in db.mappings && db.mappings[(source, parent)] == id
        && (at, parent) in db.mappings && Answers(db.deliveries[reply].signed.value, Some(db.mappings[(at, parent)]));
    ParentOfMirrorIsOriginal(w, mirror, parent);
    assert MessageOk(db, w.relay, original);
  }

  lemma ParentOfMirrorIsOriginal(w: World, mirror: Uuid, parent: Uuid)
    requires Sound(w) && Joins(w.db, mirror) && w.db.deliveries[mirror].signed.Some?
    requires (w.db.deliveries[mirror].destination, parent) in w.db.mappings
    requires w.db.mappings[(w.db.deliveries[mirror].destination, parent)] == IdOf(w.db.deliveries[mirror].signed.value)
    ensures parent == w.db.deliveries[mirror].message
  {
    var db := w.db;
    var at := db.deliveries[mirror].destination;
    assert DeliveryOk(db, w.relay, mirror);
    MirrorIsMarked(db.deliveries[mirror].signed.value);
    assert MappingOk(db, (at, parent)) && MessageOk(db, w.relay, parent);
    if DeliversTo(db, parent, at, db.mappings[(at, parent)]) {
      assert DeliveryOk(db, w.relay, db.jobs[parent]);
    }
  }

  // ---------------------------------------------------------------- single publication

  lemma HandedStays(w: World, step: Step)
    requires Enabled(w, step)
    ensures w.handed <= Next(w, step).handed
  {
    if step.Proceed? {
      WorkKeepsHanded(w, step.worker, step.oracle);
    }
  }

  lemma WorkKeepsHanded(w: World, id: nat, o: Oracle)
    requires id in w.workers
    ensures w.handed <= Work(w, id, o).handed
  {
    if IsTransactional(w.workers[id].phase) {
      WorkIsTransaction(w, id, o);
    }
  }

  lemma {:induction false} HistoryGrows(worlds: seq<World>, steps: seq<Step>, m: nat, n: nat)
    requires IsRun(worlds, steps) && m <= n < |worlds|
    ensures worlds[m].handed <= worlds[n].handed
  {
    if m < n {
      HistoryGrows(worlds, steps, m, n - 1);
      assert IsStep(worlds, steps, n - 1);
      HandedStays(worlds[n - 1], steps[n - 1]);
    }
  }

  /**
   However the runs of one delivery interleave, crash, repeat or lose their
   answers, every event ever handed to a relay for it is the same event.
   */
  lemma OneEventPerDelivery(worlds: seq<World>, steps: seq<Step>, m: nat, n: nat, p: Post, q: Post)
    requires IsRun(worlds, steps) && StartsEmpty(worlds) && m < |worlds| && n < |worlds|
    requires p in worlds[m].handed && q in worlds[n].handed
    requires p.cause.Mirror? && q.cause == p.cause
    ensures p.event == q.event
  {
    var last := if m < n then n else m;
    HistoryGrows(worlds, steps, m, last);
    HistoryGrows(worlds, steps, n, last);
    EveryWorldIsSound(worlds, steps, last);
  }

  /** A delivered row's relay holds its one event, and the destination knows the message by that event. */
  lemma DeliveredMeansStored(worlds: seq<World>, steps: seq<Step>, n: nat, d: Uuid)
    requires IsRun(worlds, steps) && StartsEmpty(worlds) && n < |worlds|
    requires d in worlds[n].db.deliveries && worlds[n].db.deliveries[d].state == Delivered
    ensures worlds[n].db.deliveries[d].destination in worlds[n].db.registry.endpoints
    ensures IsDelivered(worlds[n].db, worlds[n].relay, worlds[n].db.deliveries[d])
  {
    EveryWorldIsSound(worlds, steps, n);
    assert DeliveryOk(worlds[n].db, worlds[n].relay, d);
  }

  // ---------------------------------------------------------------- the outbox

  lemma JobsCount(db: Db, relay: Relay)
    requires JobsMatch(db) && DeliveriesOk(db, relay)
    ensures |db.deliveries| == |db.messages| == |db.jobs|
  {
    var messageOf := map d | d in db.deliveries :: db.deliveries[d].message;
    forall d | d in db.deliveries ensures messageOf[d] in db.messages {
      assert DeliveryOk(db, relay, d);
    }
    assert Injects(messageOf, db.deliveries.Keys, db.messages.Keys);
    InjectionBound(messageOf, db.deliveries.Keys, db.messages.Keys);
    assert Injects(db.jobs, db.messages.Keys, db.deliveries.Keys);
    InjectionBound(db.jobs, db.messages.Keys, db.deliveries.Keys);
    assert |db.jobs| == |db.jobs.Keys| && |db.messages| == |db.messages.Keys|
        && |db.deliveries| == |db.deliveries.Keys|;
  }

  /**
   In every world, messages, deliveries and queued jobs correspond one to one, and
   no two messages were made from the same event of the same endpoint.
   */
  lemma OneJobPerMessage(worlds: seq<World>, steps: seq<Step>, n: nat)
    requires IsRun(worlds, steps) && StartsEmpty(worlds) && n < |worlds|
    ensures JobsMatch(worlds[n].db)
    ensures |worlds[n].db.deliveries| == |worlds[n].db.messages| == |worlds[n].db.jobs|
    ensures forall i, j | i in worlds[n].db.messages && j in worlds[n].db.messages
                          && worlds[n].db.messages[i].source == worlds[n].db.messages[j].source
                          && worlds[n].db.messages[i].event == worlds[n].db.messages[j].event :: i == j
  {
    EveryWorldIsSound(worlds, steps, n);
    JobsCount(worlds[n].db, worlds[n].relay);
  }

  // ---------------------------------------------------------------- absorbing states

  predicate IsAbsorbing(state: DeliveryState) {
    state == Delivered || state == Cancelled
  }

  predicate HasState(db: Db, d: Uuid, state: DeliveryState) {
    d in db.deliveries && db.deliveries[d].state == state
  }

  lemma CompleteRespectsAbsorbing(db: Db, x: Uuid, event: Event, d: Uuid, state: DeliveryState)
    requires HasState(db, d, state) && IsAbsorbing(state)
    ensures HasState(Complete(db, x, event).db, d, state)
  {
  }

  lemma CancelRespectsAbsorbing(db: Db, x: Uuid, d: Uuid, state: DeliveryState)
    requires HasState(db, d, state) && IsAbsorbing(state)
    ensures HasState(Cancel(db, x), d, state)
  {
  }

  lemma RetryRespectsAbsorbing(db: Db, x: Uuid, code: string, terminal: bool, d: Uuid, state: DeliveryState)
    requires HasState(db, d, state) && IsAbsorbing(state)
    ensures HasState(MarkRetry(db, x, code, terminal), d, state)
  {
  }

  lemma MarkingRespectsAbsorbing(db: Db, x: Uuid, d: Uuid, state: DeliveryState)
    requires HasState(db, d, state) && IsAbsorbing(state)
    ensures HasState(MarkDelivering(db, x), d, state)
  {
  }

  lemma PersistRespectsAbsorbing(db: Db, x: Uuid, event: Event, d: Uuid, state: DeliveryState)
    requires HasState(db, d, state) && IsAbsorbing(state)
    ensures HasState(Persist(db, x, event).db, d, state)
  {
  }

  lemma TransactionRespectsAbsorbing(db: Db, worker: Worker, d: Uuid, state: DeliveryState)
    requires HasState(db, d, state) && IsAbsorbing(state)
    ensures HasState(TransactionOf(db, worker), d, state)
  {
    var x := worker.delivery;
    match worker.phase
    case Completing(_, event) => CompleteRespectsAbsorbing(db, x, event, d, state);
    case Persisting(_, event) => PersistRespectsAbsorbing(db, x, event, d, state);
    case Retrying(code) => RetryRespectsAbsorbing(db, x, code, IsLastAttempt(worker), d, state);
    case Cancelling => CancelRespectsAbsorbing(db, x, d, state);
    case Marking(_, _) => MarkingRespectsAbsorbing(db, x, d, state);
    case _ =>
  }

  lemma IngestKeepsRows(db: Db, input: IngestInput, first: Uuid, d: Uuid)
    requires FreshIds(db, input.messageId, first) && d in db.deliveries
    ensures d in Ingest(db, input, first).db.deliveries && Ingest(db, input, first).db.deliveries[d] == db.deliveries[d]
  {
  }

  lemma ReadKeepsRow(w: World, step: Step, d: Uuid)
    requires step.ReadMessage? && Enabled(w, step) && d in w.db.deliveries
    ensures d in Next(w, step).db.deliveries && Next(w, step).db.deliveries[d] == w.db.deliveries[d]
  {
    IngestKeepsRows(w.db, InputOf(step), step.first, d);
  }

  /** Under any interleaving, no step leaves `delivered_to_relay` or `cancelled`. */
  lemma AbsorbingStatesStay(w: World, step: Step, d: Uuid, state: DeliveryState)
    requires Enabled(w, step) && HasState(w.db, d, state) && IsAbsorbing(state)
    ensures HasState(Next(w, step).db, d, state)
  {
    if step.ReadMessage? {
      ReadKeepsRow(w, step, d);
    } else if step.Proceed? {
      WorkRespectsAbsorbing(w, step.worker, step.oracle, d, state);
    } else {
      OthersKeepDeliveries(w, step);
    }
  }

  lemma WorkRespectsAbsorbing(w: World, id: nat, o: Oracle, d: Uuid, state: DeliveryState)
    requires id in w.workers && HasState(w.db, d, state) && IsAbsorbing(state)
    ensures HasState(Work(w, id, o).db, d, state)
  {
    if IsTransactional(w.workers[id].phase) {
      WorkIsTransaction(w, id, o);
      TransactionRespectsAbsorbing(w.db, w.workers[id], d, state);
    }
  }

  lemma {:induction false} AbsorbedForever(worlds: seq<World>, steps: seq<Step>, m: nat, n: nat, d: Uuid,
                                           state: DeliveryState)
    requires IsRun(worlds, steps) && m <= n < |worlds|
    requires HasState(worlds[m].db, d, state) && IsAbsorbing(state)
    ensures HasState(worlds[n].db, d, state)
  {
    if m < n {
      AbsorbedForever(worlds, steps, m, n - 1, d, state);
      assert IsStep(worlds, steps, n - 1);
      AbsorbingStatesStay(worlds[n - 1], steps[n - 1], d, state);
    }
  }

  /** The step belongs to a run of the delivery that is completing, cancelling or noting a retry with tries left. */
  predicate LeavesFailed(w: World, step: Step, d: Uuid) {
    && step.Proceed? && step.worker in w.workers && w.workers[step.worker].delivery == d
    && var worker := w.workers[step.worker];
       worker.phase.Completing? || worker.phase.Cancelling? || (worker.phase.Retrying? && !IsLastAttempt(worker))
  }

  function AfterFailed(worker: Worker): DeliveryState {
    if worker.phase.Completing? then Delivered else if worker.phase.Cancelling? then Cancelled else Retry
  }

  lemma OwnTransactionLeavesFailed(db: Db, relay: Relay, worker: Worker)
    requires RowsOk(db, relay) && WorkerOk(db, relay, worker) && IsTransactional(worker.phase)
    requires HasState(db, worker.delivery, Failed)
    ensures var leaves := worker.phase.Completing? || worker.phase.Cancelling?
                          || (worker.phase.Retrying? && !IsLastAttempt(worker));
            HasState(TransactionOf(db, worker), worker.delivery, if leaves then AfterFailed(worker) else Failed)
  {
    if worker.phase.Completing? {
      CompleteKeeps(db, relay, worker.delivery, worker.phase.event);
    }
  }

  lemma OtherRowStays(db: Db, worker: Worker, d: Uuid)
    requires d in db.deliveries && d != worker.delivery
    ensures HasState(TransactionOf(db, worker), d, db.deliveries[d].state)
  {
    match worker.phase
    case Completing(_, event) => CompleteLeavesOthers(db, worker.delivery, event, d);
    case Persisting(_, event) => PersistLeavesOthers(db, worker.delivery, event, d);
    case Retrying(code) => RetryLeavesOthers(db, worker.delivery, code, IsLastAttempt(worker), d);
    case Cancelling => CancelLeavesOthers(db, worker.delivery, d);
    case Marking(_, _) => MarkingLeavesOthers(db, worker.delivery, d);
    case _ =>
  }

  lemma PersistLeavesOthers(db: Db, x: Uuid, event: Event, d: Uuid)
    requires d in db.deliveries && d != x
    ensures HasState(Persist(db, x, event).db, d, db.deliveries[d].state)
  {
  }

  lemma RetryLeavesOthers(db: Db, x: Uuid, code: string, terminal: bool, d: Uuid)
    requires d in db.deliveries && d != x
    ensures HasState(MarkRetry(db, x, code, terminal), d, db.deliveries[d].state)
  {
  }

  lemma CancelLeavesOthers(db: Db, x: Uuid, d: Uuid)
    requires d in db.deliveries && d != x
    ensures HasState(Cancel(db, x), d, db.deliveries[d].state)
  {
  }

  lemma MarkingLeavesOthers(db: Db, x: Uuid, d: Uuid)
    requires d in db.deliveries && d != x
    ensures HasState(MarkDelivering(db, x), d, db.deliveries[d].state)
  {
  }

  lemma CompleteLeavesOthers(db: Db, x: Uuid, event: Event, d: Uuid)
    requires d in db.deliveries && d != x
    ensures HasState(Complete(db, x, event).db, d, db.deliveries[d].state)
  {
  }

  /**
   `failed` is not absorbing. Under any interleaving, a step takes a row out of it exactly
   when another run of the delivery is completing, cancelling, or noting a retry that is
   not its last; the row is then delivered, cancelled, or to be retried.
   */
  lemma FailedStaysIff(w: World, step: Step, d: Uuid)
    requires Inv(w) && Enabled(w, step) && HasState(w.db, d, Failed)
    ensures HasState(Next(w, step).db, d, Failed) <==> !LeavesFailed(w, step, d)
    ensures LeavesFailed(w, step, d) ==> HasState(Next(w, step).db, d, AfterFailed(w.workers[step.worker]))
  {
    StepFromFailed(w, step, d);
  }

  lemma StepFromFailed(w: World, step: Step, d: Uuid)
    requires Inv(w) && Enabled(w, step) && HasState(w.db, d, Failed)
    ensures HasState(Next(w, step).db, d,
                     if LeavesFailed(w, step, d) then AfterFailed(w.workers[step.worker]) else Failed)
  {
    if step.ReadMessage? {
      ReadKeepsRow(w, step, d);
    } else if step.Proceed? {
      ProceedLeavesFailed(w, step, d);
    } else {
      OthersKeepDeliveries(w, step);
    }
  }

  lemma OthersKeepDeliveries(w: World, step: Step)
    requires Enabled(w, step) && !step.ReadMessage? && !step.Proceed?
    ensures Next(w, step).db.deliveries == w.db.deliveries
  {
  }

  lemma ProceedLeavesFailed(w: World, step: Step, d: Uuid)
    requires Inv(w) && step.Proceed? && Enabled(w, step) && HasState(w.db, d, Failed)
    ensures HasState(Next(w, step).db, d,
                     if LeavesFailed(w, step, d) then AfterFailed(w.workers[step.worker]) else Failed)
  {
    WorkLeavesFailed(w, step.worker, step.oracle, d);
  }

  lemma WorkLeavesFailed(w: World, id: nat, o: Oracle, d: Uuid)
    requires Inv(w) && id in w.workers && HasState(w.db, d, Failed)
    ensures HasState(Work(w, id, o).db, d,
                     if LeavesFailed(w, Proceed(id, o), d) then AfterFailed(w.workers[id]) else Failed)
  {
    var worker := w.workers[id];
    if IsTransactional(worker.phase) {
      WorkIsTransaction(w, id, o);
      if worker.delivery == d {
        OwnTransactionLeavesFailed(w.db, w.relay, worker);
      } else {
        OtherRowStays(w.db, worker, d);
      }
    }
  }

  // ---------------------------------------------------------------- cursors

  /** A settings call that the hub accepts moves the endpoint to another channel. */
  predicate MovesChannel(r: Registry, op: HubOp, e: EndpointId) {
    && op.SettingsOp? && UpdateSettings(r, op.community, op.settings).error.None?
    && IsOrdinary(r.endpoints, e, op.community)
    && op.settings.channel.Some? && op.settings.channel.value != r.endpoints[e].localChannel
  }

  lemma OnlySettingsMove(r: Registry, op: HubOp, e: EndpointId)
    requires IdsAreFresh(r, op) && e in r.endpoints
    ensures Restarts(r.endpoints, Apply(r, op).endpoints, e) <==> MovesChannel(r, op, e)
  {
    match op
    case JoinOp(_, _, _, _, _) =>
    case SettingsOp(_, _) =>
    case ReserveOp(_, _, _) =>
    case AttachOp(_, _, _) =>
    case ReopenOp(c, peer) => FlowMovesNothing(r.endpoints, c, peer, true);
    case CloseOp(c, peer) => FlowMovesNothing(r.endpoints, c, peer, false);
  }

  lemma WorkKeepsCursors(w: World, id: nat, o: Oracle)
    requires id in w.workers
    ensures Work(w, id, o).db.cursors == w.db.cursors
  {
    if IsTransactional(w.workers[id].phase) {
      WorkIsTransaction(w, id, o);
    }
  }

  /**
   An endpoint's cursor falls behind events it has ingested only when its channel is moved
   by a clock that is behind the cursor, as it can be after an event from the near future.
   */
  lemma CursorFallsIff(w: World, step: Step, e: EndpointId)
    requires Enabled(w, step) && e in w.db.registry.endpoints && e in w.db.cursors
    ensures e in Next(w, step).db.cursors
    ensures Next(w, step).db.cursors[e] < w.db.cursors[e]
       <==> step.Change? && MovesChannel(w.db.registry, step.op, e) && step.now < w.db.cursors[e]
  {
    if step.Change? {
      OnlySettingsMove(w.db.registry, step.op, e);
      ChangedCursor(w.db, step.op, step.now, e);
    } else if step.Proceed? {
      WorkKeepsCursors(w, step.worker, step.oracle);
    } else if step.ReadMessage? {
      IngestedCursor(w.db, InputOf(step), step.first, e);
    }
  }

  lemma ChangedCursor(db: Db, op: HubOp, now: int, e: EndpointId)
    requires e in db.registry.endpoints && e in db.cursors
    ensures e in Changed(db, op, now).cursors
    ensures Changed(db, op, now).cursors[e]
         == if Restarts(db.registry.endpoints, Apply(db.registry, op).endpoints, e) then now else db.cursors[e]
  {
  }

  lemma IngestedCursor(db: Db, input: IngestInput, first: Uuid, e: EndpointId)
    requires FreshIds(db, input.messageId, first) && e in db.cursors
    ensures e in Ingest(db, input, first).db.cursors && Ingest(db, input, first).db.cursors[e] >= db.cursors[e]
  {
  }

  // ---------------------------------------------------------------- who reads a bridge's events

  predicate IsReading(step: Step) {
    step.ReadMessage? || step.ReadUnroutable? || step.ReadCommand?
  }

  /**
   What a bridge wrote is never bounced and never run as a command, and the one way to be
   read is as another bridge's notice, copied to a relay where a channel bound to a peer
   has the very id that the notice names.
   */
  lemma OnlyStrayNoticesAreRead(worlds: seq<World>, steps: seq<Step>, n: nat)
    requires IsRun(worlds, steps) && StartsEmpty(worlds) && n < |steps|
    requires IsReading(steps[n]) && steps[n].event.pubkey.BridgeKey?
    ensures steps[n].ReadMessage? && IsNotice(steps[n].event)
    ensures CarriesNotice(steps[n].event, steps[n].route, steps[n].verified, steps[n].now)
  {
    EveryWorldIsSound(worlds, steps, n);
    assert IsStep(worlds, steps, n);
    match steps[n]
    case ReadCommand(route, event) => BridgeEventIsReadIff(worlds[n], route, event, true, 0);
    case ReadUnroutable(route, event, verified, now) => BridgeEventIsReadIff(worlds[n], route, event, verified, now);
    case ReadMessage(route, event, verified, now, _, _, _, _, _) =>
      BridgeEventIsReadIff(worlds[n], route, event, verified, now);
  }

  /** No channel bound to a peer has the id that some other community's notice names. */
  ghost predicate ChannelsApart(w: World) {
    forall post, id | post in w.handed && id in w.db.registry.endpoints ::
      IsNotice(post.event) && w.db.registry.endpoints[id].dedicatedTo.Some?
      && w.db.registry.endpoints[id].community != post.community
      ==> NoticeChannel(post.event) != w.db.registry.endpoints[id].localChannel
  }

  /** Then nothing that a bridge wrote is ever ingested. */
  lemma ApartMeansHuman(w: World, e: Endpoint, id: EndpointId, event: Event)
    requires Inv(w) && ChannelsApart(w)
    requires id in w.db.registry.endpoints && w.db.registry.endpoints[id] == e
    requires MayIngest(e, event) && (e.community, event) in w.relay
    ensures event.pubkey.HumanKey?
  {
    if event.pubkey.BridgeKey? {
      BridgeEventKinds(w, event);
      assert WasHanded(w.handed, (e.community, event).1);
      var post :| post in w.handed && post.event == event;
      assert PostOk(w.db, w.pending, post);
      NoticeIsRoutedIff(event, Route(id, e.community, e.hub, e.localChannel, e.dedicatedTo), true, 0);
      assert false;
    }
  }

  lemma ApartBridgesAreNeverRead(worlds: seq<World>, steps: seq<Step>, n: nat)
    requires IsRun(worlds, steps) && StartsEmpty(worlds) && n < |steps|
    requires IsReading(steps[n]) && ChannelsApart(worlds[n])
    ensures steps[n].event.pubkey.HumanKey?
  {
    EveryWorldIsSound(worlds, steps, n);
    assert IsStep(worlds, steps, n);
    if steps[n].ReadMessage? {
      var route, event := steps[n].route, steps[n].event;
      RoutableMayBeIngested(worlds[n], route, event, steps[n].verified, steps[n].now);
      ApartMeansHuman(worlds[n], worlds[n].db.registry.endpoints[route.endpoint], route.endpoint, event);
    } else if steps[n].event.pubkey.BridgeKey? {
      OnlyStrayNoticesAreRead(worlds, steps, n);
    }
  }

  // ---------------------------------------------------------------- amplification

  ghost function HumanEvents(w: World): set<Event> {
    set e | e in w.relay && e.1.pubkey.HumanKey? :: e.1
  }

  /** Every distinct event that a bridge ever handed to a relay. */
  ghost function BridgeEvents(w: World): set<Event> {
    set post | post in w.handed :: post.event
  }

  /** Those that are bounces, command replies or hints. */
  ghost function NoticeEvents(w: World): set<Event> {
    set post | post in w.handed && !post.cause.Mirror? :: post.event
  }

  ghost function Causes(w: World): set<Cause> {
    set post | post in w.handed :: post.cause
  }

  type Origin = (nat, (EndpointId, Event))

  /** The kind of a post, and the endpoint and event it goes back to. */
  ghost function OriginOf(w: World, cause: Cause): Origin
    requires Sound(w) && cause in Causes(w)
  {
    var post :| post in w.handed && post.cause == cause;
    assert PostOk(w.db, w.pending, post);
    match cause
    case Mirror(d) => (0, SourceKey(w, d))
    case Bounce(at, event) => (1, (at, event.event))
    case Answer(at, event) => (2, (at, event.event))
    case Hint(at, peer) =>
      assert (at, peer) in w.db.hints;
      var d :| IsSender(w.db, at, peer, d);
      (3, SourceKey(w, d))
  }

  ghost function SourceKey(w: World, d: Uuid): (EndpointId, Event)
    requires Sound(w) && d in w.db.deliveries
  {
    assert DeliveryOk(w.db, w.relay, d);
    var m := w.db.messages[w.db.deliveries[d].message];
    (m.source, m.event)
  }

  /** A delivery goes back to one (endpoint, event), and each of those to one delivery. */
  lemma SourceKeyIsInjective(w: World, d: Uuid, e: Uuid)
    requires Sound(w) && d in w.db.deliveries && e in w.db.deliveries && SourceKey(w, d) == SourceKey(w, e)
    ensures d == e
  {
    assert DeliveryOk(w.db, w.relay, d) && DeliveryOk(w.db, w.relay, e);
  }

  /** What is ingested, a person wrote, or it is a notice. */
  lemma SourceKeyIsHeard(w: World, d: Uuid)
    requires Sound(w) && d in w.db.deliveries
    ensures SourceKey(w, d).0 in w.db.registry.endpoints
    ensures SourceKey(w, d).1 in HumanEvents(w) + NoticeEvents(w)
    ensures ChannelsApart(w) ==> SourceKey(w, d).1 in HumanEvents(w)
  {
    assert DeliveryOk(w.db, w.relay, d);
    assert MessageOk(w.db, w.relay, w.db.deliveries[d].message);
    var m := w.db.messages[w.db.deliveries[d].message];
    var read := (w.db.registry.endpoints[m.source].community, m.event);
    if m.event.pubkey.HumanKey? {
      assert read in w.relay && read.1 in HumanEvents(w);
    } else {
      assert WasHanded(w.handed, read.1);
      var post :| post in w.handed && post.event == m.event;
      assert PostOk(w.db, w.pending, post);
      assert post.event in NoticeEvents(w);
      if ChannelsApart(w) {
        ApartMeansHuman(w, w.db.registry.endpoints[m.source], m.source, m.event);
      }
    }
  }

  lemma HeardIsHuman(w: World, key: SourceEvent)
    requires IsHeard(w.db, w.relay, key)
    ensures key.0 in w.db.registry.endpoints && key.1.event in HumanEvents(w)
  {
    var read := (w.db.registry.endpoints[key.0].community, key.1.event);
    assert read in w.relay && read.1 in HumanEvents(w);
  }

  lemma OriginIsHeard(w: World, cause: Cause)
    requires Sound(w) && cause in Causes(w)
    ensures var origin := OriginOf(w, cause);
            && origin.0 < 4 && origin.1.0 in w.db.registry.endpoints
            && origin.1.1 in HumanEvents(w) + NoticeEvents(w)
            && (cause.Bounce? || cause.Answer? || ChannelsApart(w) ==> origin.1.1 in HumanEvents(w))
  {
    var post :| post in w.handed && post.cause == cause;
    assert PostOk(w.db, w.pending, post);
    match cause
    case Mirror(d) => SourceKeyIsHeard(w, d);
    case Bounce(at, event) => HeardIsHuman(w, (at, event));
    case Answer(at, event) => HeardIsHuman(w, (at, event));
    case Hint(at, peer) =>
      forall d | IsSender(w.db, at, peer, d)
        ensures SourceKey(w, d).0 in w.db.registry.endpoints
        ensures SourceKey(w, d).1 in HumanEvents(w) + NoticeEvents(w)
        ensures ChannelsApart(w) ==> SourceKey(w, d).1 in HumanEvents(w)
      {
        SourceKeyIsHeard(w, d);
      }
  }

  lemma OriginIsInjective(w: World, b: Cause, c: Cause)
    requires Sound(w) && b in Causes(w) && c in Causes(w) && OriginOf(w, b) == OriginOf(w, c)
    ensures b == c
  {
    var p :| p in w.handed && p.cause == b;
    var q :| q in w.handed && q.cause == c;
    assert PostOk(w.db, w.pending, p) && PostOk(w.db, w.pending, q);
    match b
    case Mirror(d) => SourceKeyIsInjective(w, d, c.delivery);
    case Bounce(at, event) =>
      assert IsHeard(w.db, w.relay, (at, event)) && IsHeard(w.db, w.relay, (c.at, c.event));
    case Answer(at, event) =>
      assert IsHeard(w.db, w.relay, (at, event)) && IsHeard(w.db, w.relay, (c.at, c.event));
    case Hint(at, peer) => HintOriginIsInjective(w, b, c);
  }

  lemma HintOriginIsInjective(w: World, b: Cause, c: Cause)
    requires Sound(w) && b in Causes(w) && c in Causes(w) && OriginOf(w, b) == OriginOf(w, c) && b.Hint? && c.Hint?
    ensures b == c
  {
    assert (b.at, b.peer) in w.db.hints && (c.at, c.peer) in w.db.hints;
    var d :| IsSender(w.db, b.at, b.peer, d) && OriginOf(w, b) == (3, SourceKey(w, d));
    var e :| IsSender(w.db, c.at, c.peer, e) && OriginOf(w, c) == (3, SourceKey(w, e));
    SourceKeyIsInjective(w, d, e);
  }

  ghost function EventFor(w: World, cause: Cause): Event
    requires cause in Causes(w)
  {
    var post :| post in w.handed && post.cause == cause;
    post.event
  }

  /** Only causes decide events, so there are no more distinct events than causes. */
  lemma FewerEventsThanCauses(w: World, causes: set<Cause>, events: set<Event>)
    requires Sound(w) && causes <= Causes(w)
    requires forall e | e in events :: exists post | post in w.handed :: post.event == e && post.cause in causes
    ensures |events| <= |causes|
  {
    var eventOf := map cause | cause in causes :: EventFor(w, cause);
    forall e | e in events ensures exists c | c in causes :: eventOf[c] == e {
      var post :| post in w.handed && post.event == e && post.cause in causes;
      assert eventOf[post.cause] == e;
    }
    ImageBound(eventOf, causes, events);
  }

  /** Some of the posts are no more than the pairs of an endpoint and an event that posts of their kind go back to. */
  lemma CausesOfKind(w: World, causes: set<Cause>, kind: nat, events: set<Event>)
    requires Sound(w) && causes <= Causes(w)
    requires forall c | c in causes :: OriginOf(w, c).0 == kind && OriginOf(w, c).1.1 in events
    ensures |causes| <= |w.db.registry.endpoints| * |events|
  {
    var keyOf := map c | c in causes :: OriginOf(w, c).1;
    var pairs := Pairs(w.db.registry.endpoints.Keys, events);
    forall c | c in causes ensures keyOf[c] in pairs {
      OriginIsHeard(w, c);
      assert keyOf[c] == (keyOf[c].0, keyOf[c].1);
    }
    forall b, c | b in causes && c in causes && keyOf[b] == keyOf[c] ensures b == c {
      assert OriginOf(w, b) == (kind, keyOf[b]) && OriginOf(w, c) == (kind, keyOf[c]);
      OriginIsInjective(w, b, c);
    }
    InjectionBound(keyOf, causes, pairs);
    PairsSize(w.db.registry.endpoints.Keys, events);
  }

  ghost function MirrorCauses(w: World): set<Cause> {
    set c | c in Causes(w) && c.Mirror?
  }

  ghost function BounceCauses(w: World): set<Cause> {
    set c | c in Causes(w) && c.Bounce?
  }

  ghost function AnswerCauses(w: World): set<Cause> {
    set c | c in Causes(w) && c.Answer?
  }

  ghost function HintCauses(w: World): set<Cause> {
    set c | c in Causes(w) && c.Hint?
  }

  lemma FourKinds(w: World)
    ensures Causes(w) == MirrorCauses(w) + BounceCauses(w) + AnswerCauses(w) + HintCauses(w)
    ensures |Causes(w)| <= |MirrorCauses(w)| + |BounceCauses(w)| + |AnswerCauses(w)| + |HintCauses(w)|
  {
    assert Causes(w) == MirrorCauses(w) + BounceCauses(w) + AnswerCauses(w) + HintCauses(w);
  }

  lemma HeardCauses(w: World)
    requires Sound(w)
    ensures |BounceCauses(w)| <= |w.db.registry.endpoints| * |HumanEvents(w)|
    ensures |AnswerCauses(w)| <= |w.db.registry.endpoints| * |HumanEvents(w)|
  {
    forall c | c in BounceCauses(w) || c in AnswerCauses(w) ensures OriginOf(w, c).1.1 in HumanEvents(w) {
      OriginIsHeard(w, c);
    }
    CausesOfKind(w, BounceCauses(w), 1, HumanEvents(w));
    CausesOfKind(w, AnswerCauses(w), 2, HumanEvents(w));
  }

  lemma ReadCauses(w: World, events: set<Event>)
    requires Sound(w) && HumanEvents(w) + (if ChannelsApart(w) then {} else NoticeEvents(w)) <= events
    ensures |MirrorCauses(w)| <= |w.db.registry.endpoints| * |events|
    ensures |HintCauses(w)| <= |w.db.registry.endpoints| * |events|
  {
    forall c | c in MirrorCauses(w) || c in HintCauses(w) ensures OriginOf(w, c).1.1 in events {
      OriginIsHeard(w, c);
    }
    CausesOfKind(w, MirrorCauses(w), 0, events);
    CausesOfKind(w, HintCauses(w), 3, events);
  }

  lemma AllEventsHaveCauses(w: World)
    requires Sound(w)
    ensures |BridgeEvents(w)| <= |Causes(w)|
    ensures |NoticeEvents(w)| <= |BounceCauses(w)| + |AnswerCauses(w)| + |HintCauses(w)|
  {
    forall e | e in BridgeEvents(w)
      ensures exists post | post in w.handed :: post.event == e && post.cause in Causes(w)
    {
      var post :| post in w.handed && post.event == e;
      assert post.cause in Causes(w);
    }
    FewerEventsThanCauses(w, Causes(w), BridgeEvents(w));
    var notices := BounceCauses(w) + AnswerCauses(w) + HintCauses(w);
    forall e | e in NoticeEvents(w)
      ensures exists post | post in w.handed :: post.event == e && post.cause in notices
    {
      var post :| post in w.handed && !post.cause.Mirror? && post.event == e;
      assert post.cause in Causes(w);
    }
    FewerEventsThanCauses(w, notices, NoticeEvents(w));
  }

  /**
   Amplification is bounded: over any run, with any replays, crashes, copies and lost
   answers, while no bound channel has the id that another community's notice names, the
   bridges of the whole network author at most four distinct events (a mirror, a bounce, a
   command reply and a hint) for each pair of an endpoint and an event that a person wrote.
   */
  lemma AmplificationIsBounded(worlds: seq<World>, steps: seq<Step>, n: nat)
    requires IsRun(worlds, steps) && StartsEmpty(worlds) && n < |worlds| && ChannelsApart(worlds[n])
    ensures |BridgeEvents(worlds[n])| <= 4 * (|worlds[n].db.registry.endpoints| * |HumanEvents(worlds[n])|)
  {
    EveryWorldIsSound(worlds, steps, n);
    AllEventsHaveCauses(worlds[n]);
    FourKinds(worlds[n]);
    HeardCauses(worlds[n]);
    ReadCauses(worlds[n], HumanEvents(worlds[n]));
  }

  /** A hint is for one inbox and one sending community, so for a pair of endpoints. */
  lemma HintsAreForPairs(w: World)
    requires Sound(w)
    ensures |HintCauses(w)| <= |w.db.registry.endpoints| * |w.db.registry.endpoints|
  {
    var hints, ends := HintCauses(w), w.db.registry.endpoints.Keys;
    var pairOf := map c | c in hints :: (c.at, OriginOf(w, c).1.0);
    forall c | c in hints ensures pairOf[c] in Pairs(ends, ends) {
      HintIsFromItsPeer(w, c);
    }
    forall b, c | b in hints && c in hints && pairOf[b] == pairOf[c] ensures b == c {
      HintIsFromItsPeer(w, b);
      HintIsFromItsPeer(w, c);
    }
    InjectionBound(pairOf, hints, Pairs(ends, ends));
    PairsSize(ends, ends);
  }

  lemma HintIsFromItsPeer(w: World, c: Cause)
    requires Sound(w) && c in Causes(w) && c.Hint?
    ensures c.at in w.db.registry.endpoints && OriginOf(w, c).1.0 in w.db.registry.endpoints
    ensures w.db.registry.endpoints[OriginOf(w, c).1.0].community == c.peer
  {
    var post :| post in w.handed && post.cause == c;
    assert PostOk(w.db, w.pending, post) && (c.at, c.peer) in w.db.hints;
    var d :| IsSender(w.db, c.at, c.peer, d) && OriginOf(w, c) == (3, SourceKey(w, d));
  }

  lemma Grows(e: nat, small: nat, large: nat)
    requires small <= large
    ensures e * small <= e * large
  {
  }

  /**
   And without that condition it is bounded still: with `e` endpoints and `h` events that
   people wrote there are at most `n = 2eh + ee` notices, and at most `e (h + n)` mirrors.
   */
  lemma AmplificationIsFinite(worlds: seq<World>, steps: seq<Step>, n: nat)
    requires IsRun(worlds, steps) && StartsEmpty(worlds) && n < |worlds|
    ensures var e, h := |worlds[n].db.registry.endpoints|, |HumanEvents(worlds[n])|;
            var notices := 2 * (e * h) + e * e;
            |BridgeEvents(worlds[n])| <= notices + e * (h + notices)
  {
    var w := worlds[n];
    EveryWorldIsSound(worlds, steps, n);
    var read, mirrors, bounces, answers, hints := CountCauses(w);
    var e, h := |w.db.registry.endpoints|, |HumanEvents(w)|;
    AddUp(e, read, h + (2 * (e * h) + e * e), mirrors);
  }

  lemma CountCauses(w: World) returns (read: nat, mirrors: nat, bounces: nat, answers: nat, hints: nat)
    requires Sound(w)
    ensures var e, h := |w.db.registry.endpoints|, |HumanEvents(w)|;
            && bounces <= e * h && answers <= e * h && hints <= e * e
            && read <= h + bounces + answers + hints && mirrors <= e * read
    ensures |BridgeEvents(w)| <= mirrors + bounces + answers + hints
  {
    AllEventsHaveCauses(w);
    FourKinds(w);
    HeardCauses(w);
    HintsAreForPairs(w);
    ReadCauses(w, HumanEvents(w) + NoticeEvents(w));
    read := |HumanEvents(w) + NoticeEvents(w)|;
    mirrors, bounces, answers, hints := |MirrorCauses(w)|, |BounceCauses(w)|, |AnswerCauses(w)|, |HintCauses(w)|;
  }

  lemma AddUp(e: nat, read: nat, most: nat, mirrors: nat)
    requires read <= most && mirrors <= e * read
    ensures mirrors <= e * most
  {
    Grows(e, read, most);
  }
}
