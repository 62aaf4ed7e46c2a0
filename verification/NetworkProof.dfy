/** Every step of the network keeps the invariant, so it holds in every world of every run. */
module NetworkProof {
  import opened Wrappers
  import opened Nostr
  import opened Commands
  import opened Bridge
  import opened Hub
  import opened Routing
  import opened Tables
  import opened Network
  import opened NetworkInvariant
  import opened NetworkSteps

  // ---------------------------------------------------------------- frames

  lemma PostsStay(db: Db, db': Db, pending: set<Cause>, handed: set<Post>)
    requires Extends(db, db') && PostsOk(db, pending, handed)
    ensures PostsOk(db', pending, handed)
  {
    forall post | post in handed ensures PostOk(db', pending, post) {
      assert PostOk(db, pending, post);
    }
  }

  lemma SessionsStay(w: World, w': World)
    requires SessionsOk(w) && KeepsRows(w.db.registry.endpoints, w'.db.registry.endpoints)
    requires w'.sessions == w.sessions && w'.nextSession == w.nextSession
    ensures SessionsOk(w')
  {
    forall c | c in w'.sessions ensures SessionOk(w'.db.registry, c, w'.sessions[c]) {
      assert SessionOk(w.db.registry, c, w.sessions[c]);
    }
  }

  /** The runs that moved are sound where they are now, and the others are where they were. */
  ghost predicate Moves(before: map<nat, Worker>, db': Db, relay': Relay, after: map<nat, Worker>, moved: set<nat>) {
    forall id | id in after ::
      if id in moved then WorkerOk(db', relay', after[id]) else id in before && after[id] == before[id]
  }

  lemma OneMoves(before: map<nat, Worker>, db': Db, relay': Relay, id: nat, worker: Worker)
    requires WorkerOk(db', relay', worker)
    ensures Moves(before, db', relay', before[id := worker], {id})
  {
  }

  /** Runs in flight stay sound while tables and relays only grow. */
  lemma OthersStay(w: World, w': World, moved: set<nat>)
    requires RowsOk(w.db, w.relay) && WorkersOk(w.db, w.relay, w.workers)
    requires Extends(w.db, w'.db) && w.relay <= w'.relay
    requires Moves(w.workers, w'.db, w'.relay, w'.workers, moved)
    ensures WorkersOk(w'.db, w'.relay, w'.workers)
  {
    forall id | id in w'.workers ensures WorkerOk(w'.db, w'.relay, w'.workers[id]) {
      if id !in moved {
        WorkerStays(w.db, w'.db, w.relay, w'.relay, w.workers[id]);
      }
    }
  }

  lemma RelayStays(relay: Relay, handed: set<Post>, relay': Relay, handed': set<Post>)
    requires RelayOk(relay, handed) && handed <= handed'
    requires forall e | e in relay' && e !in relay && e.1.pubkey.BridgeKey? :: WasHanded(handed', e.1)
    ensures RelayOk(relay', handed')
  {
    forall e | e in relay' && e.1.pubkey.BridgeKey? ensures WasHanded(handed', e.1) {
      if e in relay {
        var p :| p in handed && p.event == e.1;
        assert p in handed';
      }
    }
  }

  lemma ReceiptsStay(r: Registry, r': Registry, relay: Relay, relay': Relay, received: set<Receipt>)
    requires KeepsRows(r.endpoints, r'.endpoints) && relay <= relay' && ReceiptsOk(r, relay, received)
    ensures ReceiptsOk(r', relay', received)
  {
    forall receipt | receipt in received ensures ReceiptOk(r', relay', receipt) {
      assert ReceiptOk(r, relay, receipt);
    }
  }

  // ---------------------------------------------------------------- delivery runs: what each call establishes

  /** A context read from sound tables describes its row; without a parent event there is no local parent. */
  lemma ReadContextIsOk(db: Db, relay: Relay, d: Uuid)
    requires RowsOk(db, relay) && Joins(db, d)
    requires var m := db.messages[db.deliveries[d].message];
             m.parentEvent.Some? ==> LocalParent(db, m, db.deliveries[d].destination).Some?
    ensures ContextOk(db, d, ReadContext(db, d))
  {
    assert MessageOk(db, relay, db.deliveries[d].message);
  }

  lemma DecideIsOk(w: World, id: nat)
    requires RowsOk(w.db, w.relay) && id in w.workers && w.workers[id].delivery in w.db.deliveries
    ensures var worker := w.workers[id];
            WorkerOk(w.db, w.relay, worker.(phase := Decide(w, GetContext(w.db, worker.delivery))))
  {
    var d := w.workers[id].delivery;
    assert DeliveryOk(w.db, w.relay, d);
    if Decide(w, GetContext(w.db, d)).Marking? {
      ReadContextIsOk(w.db, w.relay, d);
    }
  }

  /** A projection made from a sound context mirrors the row, into the right thread. */
  lemma ProjectMirrors(db: Db, d: Uuid, ctx: Context, now: int)
    requires ContextOk(db, d, ctx)
    ensures Mirrors(db, db.deliveries[d], Project(ctx, now))
  {
    var input := ProjectionInput(ctx.message.body, ctx.destinationChannel, ctx.localParent, ctx.messageId,
                                 ctx.message.event.pubkey, ctx.message.actorDigits, ctx.message.actorName,
                                 ctx.sourceCommunity, ctx.sourceSlug, IdOf(ctx.message.event));
    ProjectionReadsBack(input, BridgeKey(ctx.destinationCommunity), now);
  }

  /** A worker's transaction kept the rows sound and touched no claim or endpoint. */
  ghost predicate TableStep(db: Db, db': Db, relay: Relay) {
    RowsOk(db', relay) && Extends(db, db') && OnlyDelivers(db, db')
  }

  /** The tables after a worker's step that is one transaction, and the phase it leaves. */
  function TransactionOf(db: Db, worker: Worker): (db': Db)
    ensures OnlyDelivers(db, db')
  {
    match worker.phase
    case Cancelling => Cancel(db, worker.delivery)
    case Retrying(code) => MarkRetry(db, worker.delivery, code, IsLastAttempt(worker))
    case Marking(_, _) => MarkDelivering(db, worker.delivery)
    case Persisting(_, event) => Persist(db, worker.delivery, event).db
    case Completing(_, event) => Complete(db, worker.delivery, event).db
    case _ => db
  }

  function PhaseAfter(db: Db, worker: Worker): Phase {
    match worker.phase
    case Cancelling => Returned
    case Retrying(code) => if IsLastAttempt(worker) then Returned else Threw(Coded(code))
    case Marking(ctx, session) => if CanStart(db, worker.delivery) then Projecting(ctx, session) else Returned
    case Persisting(ctx, event) =>
      var result := Persist(db, worker.delivery, event).result;
      if result.Success? then Checking(ctx, result.value) else Threw(Coded(result.error))
    case Checking(ctx, event) => if RouteStillActive(db, worker.delivery) then Publishing(ctx, event) else Cancelling
    case Completing(ctx, event) =>
      var error := Complete(db, worker.delivery, event).error;
      if error.None? then Hinting(ctx) else Threw(Coded(error.value))
    case phase => phase
  }

  predicate IsTransactional(phase: Phase) {
    phase.Cancelling? || phase.Retrying? || phase.Marking? || phase.Persisting? || phase.Checking? || phase.Completing?
  }

  lemma CompletingTables(db: Db, relay: Relay, worker: Worker)
    requires RowsOk(db, relay) && WorkerOk(db, relay, worker) && worker.phase.Completing?
    ensures TableStep(db, Complete(db, worker.delivery, worker.phase.event).db, relay)
  {
    CompleteKeeps(db, relay, worker.delivery, worker.phase.event);
  }

  lemma PersistingTables(db: Db, relay: Relay, worker: Worker)
    requires RowsOk(db, relay) && WorkerOk(db, relay, worker) && worker.phase.Persisting?
    ensures TableStep(db, Persist(db, worker.delivery, worker.phase.event).db, relay)
  {
    PersistKeeps(db, relay, worker.delivery, worker.phase.event);
  }

  lemma RestatingTables(db: Db, relay: Relay, worker: Worker)
    requires RowsOk(db, relay) && (worker.phase.Cancelling? || worker.phase.Retrying? || worker.phase.Marking?)
    ensures TableStep(db, TransactionOf(db, worker), relay)
  {
    match worker.phase
    case Cancelling => CancelKeeps(db, relay, worker.delivery);
    case Retrying(code) => MarkRetryKeeps(db, relay, worker.delivery, code, IsLastAttempt(worker));
    case Marking(_, _) => MarkDeliveringKeeps(db, relay, worker.delivery);
  }

  lemma TransactionTables(db: Db, relay: Relay, worker: Worker)
    requires RowsOk(db, relay) && WorkerOk(db, relay, worker) && IsTransactional(worker.phase)
    ensures TableStep(db, TransactionOf(db, worker), relay)
  {
    match worker.phase
    case Persisting(_, _) => PersistingTables(db, relay, worker);
    case Checking(_, _) => ExtendsItself(db);
    case Completing(_, _) => CompletingTables(db, relay, worker);
    case _ => RestatingTables(db, relay, worker);
  }

  lemma MarkingIsOk(db: Db, relay: Relay, worker: Worker)
    requires RowsOk(db, relay) && WorkerOk(db, relay, worker) && worker.phase.Marking?
    ensures WorkerOk(TransactionOf(db, worker), relay, worker.(phase := PhaseAfter(db, worker)))
  {
    MarkDeliveringKeeps(db, relay, worker.delivery);
    ContextStays(db, MarkDelivering(db, worker.delivery), relay, worker.delivery, worker.phase.ctx);
  }

  lemma PersistingIsOk(db: Db, relay: Relay, worker: Worker)
    requires RowsOk(db, relay) && WorkerOk(db, relay, worker) && worker.phase.Persisting?
    ensures WorkerOk(TransactionOf(db, worker), relay, worker.(phase := PhaseAfter(db, worker)))
  {
    PersistKeeps(db, relay, worker.delivery, worker.phase.event);
    ContextStays(db, Persist(db, worker.delivery, worker.phase.event).db, relay, worker.delivery, worker.phase.ctx);
  }

  lemma CompletingIsOk(db: Db, relay: Relay, worker: Worker)
    requires RowsOk(db, relay) && WorkerOk(db, relay, worker) && worker.phase.Completing?
    ensures WorkerOk(TransactionOf(db, worker), relay, worker.(phase := PhaseAfter(db, worker)))
  {
    CompleteKeeps(db, relay, worker.delivery, worker.phase.event);
    ContextStays(db, Complete(db, worker.delivery, worker.phase.event).db, relay, worker.delivery, worker.phase.ctx);
  }

  lemma TransactionIsOk(db: Db, relay: Relay, worker: Worker)
    requires RowsOk(db, relay) && WorkerOk(db, relay, worker) && IsTransactional(worker.phase)
    ensures WorkerOk(TransactionOf(db, worker), relay, worker.(phase := PhaseAfter(db, worker)))
  {
    match worker.phase
    case Marking(_, _) => MarkingIsOk(db, relay, worker);
    case Persisting(_, _) => PersistingIsOk(db, relay, worker);
    case Completing(_, _) => CompletingIsOk(db, relay, worker);
    case Retrying(code) =>
    case Cancelling =>
    case Checking(_, _) =>
  }

  lemma ProjectingIsOk(db: Db, relay: Relay, worker: Worker, now: int)
    requires RowsOk(db, relay) && WorkerOk(db, relay, worker) && worker.phase.Projecting?
    ensures var ctx := worker.phase.ctx;
            WorkerOk(db, relay, worker.(phase :=
                Persisting(ctx, if ctx.signed.Some? then ctx.signed.value else Project(ctx, now))))
  {
    assert DeliveryOk(db, relay, worker.delivery);
    if worker.phase.ctx.signed.None? {
      ProjectMirrors(db, worker.delivery, worker.phase.ctx, now);
    }
  }

  // ---------------------------------------------------------------- delivery runs: the invariant

  /** A worker step that changes only rows of deliveries and mappings. */
  lemma TableStepKeepsInv(w: World, id: nat, db': Db, phase: Phase)
    requires Inv(w) && id in w.workers
    requires TableStep(w.db, db', w.relay) && WorkerOk(db', w.relay, w.workers[id].(phase := phase))
    ensures Inv(SetPhase(w.(db := db'), id, phase))
  {
    ClaimsStay(w.db, db', w.relay, w.relay);
    PostsStay(w.db, db', w.pending, w.handed);
    PhaseStepKeepsInv(w, id, db', w.pending, phase);
    SetPhaseIsUpdate(w, id, db', phase);
  }

  lemma SetPhaseIsUpdate(w: World, id: nat, db': Db, phase: Phase)
    requires id in w.workers
    ensures SetPhase(w.(db := db'), id, phase)
         == w.(db := db', pending := w.pending, workers := w.workers[id := w.workers[id].(phase := phase)])
  {
  }

  lemma TransactionKeepsInv(w: World, id: nat, o: Oracle)
    requires Inv(w) && id in w.workers && IsTransactional(w.workers[id].phase)
    ensures Inv(Work(w, id, o))
  {
    var worker := w.workers[id];
    TransactionTables(w.db, w.relay, worker);
    TransactionIsOk(w.db, w.relay, worker);
    TableStepKeepsInv(w, id, TransactionOf(w.db, worker), PhaseAfter(w.db, worker));
    WorkIsTransaction(w, id, o);
  }

  lemma WorkIsTransaction(w: World, id: nat, o: Oracle)
    requires id in w.workers && IsTransactional(w.workers[id].phase)
    ensures Work(w, id, o)
              == SetPhase(w.(db := TransactionOf(w.db, w.workers[id])), id, PhaseAfter(w.db, w.workers[id]))
  {
  }

  lemma LocalStepKeepsInv(w: World, id: nat, phase: Phase)
    requires Inv(w) && id in w.workers
    requires WorkerOk(w.db, w.relay, w.workers[id].(phase := phase))
    ensures Inv(SetPhase(w, id, phase))
  {
    ExtendsItself(w.db);
    TableStepKeepsInv(w, id, w.db, phase);
  }

  lemma StartingKeepsInv(w: World, id: nat, o: Oracle)
    requires Inv(w) && id in w.workers && w.workers[id].phase.Starting?
    ensures Inv(Work(w, id, o))
  {
    DecideIsOk(w, id);
    LocalStepKeepsInv(w, id, Decide(w, GetContext(w.db, w.workers[id].delivery)));
  }

  lemma ProjectingKeepsInv(w: World, id: nat, o: Oracle)
    requires Inv(w) && id in w.workers && w.workers[id].phase.Projecting?
    ensures Inv(Work(w, id, o))
  {
    var worker := w.workers[id];
    var ctx := worker.phase.ctx;
    if ctx.signed.Some? || SessionIsLive(w, ctx.destinationCommunity, worker.phase.session) {
      ProjectingIsOk(w.db, w.relay, worker, o.now);
      LocalStepKeepsInv(w, id, Persisting(ctx, if ctx.signed.Some? then ctx.signed.value else Project(ctx, o.now)));
    } else {
      LocalStepKeepsInv(w, id, Threw(KeyWiped));
    }
  }

  /** Handing over the row's own event: the history gains no second event for this delivery. */
  lemma MirrorPostKeeps(db: Db, relay: Relay, pending: set<Cause>, handed: set<Post>, worker: Worker, relay': Relay)
    requires PostsOk(db, pending, handed) && RelayOk(relay, handed)
    requires WorkerOk(db, relay, worker) && worker.phase.Publishing?
    requires DeliveryOk(db, relay, worker.delivery)
    requires relay' <= relay + {(worker.phase.ctx.destinationCommunity, worker.phase.event)}
    ensures var post := Post(Mirror(worker.delivery), worker.phase.ctx.destinationCommunity, worker.phase.event);
            PostsOk(db, pending, handed + {post}) && RelayOk(relay', handed + {post})
  {
    var post := Post(Mirror(worker.delivery), worker.phase.ctx.destinationCommunity, worker.phase.event);
    MirrorIsMarked(post.event);
    forall p | p in handed + {post} ensures PostOk(db, pending, p) {
      if p != post {
        assert PostOk(db, pending, p);
      }
    }
    assert post in handed + {post};
    RelayStays(relay, handed, relay', handed + {post});
  }

  /** A relay that only grew leaves everything but the history to check. */
  lemma RelayStepKeepsInv(w: World, w': World, moved: set<nat>)
    requires Inv(w) && w.relay <= w'.relay
    requires w' == w.(relay := w'.relay, handed := w'.handed, workers := w'.workers, pending := w'.pending)
    requires Moves(w.workers, w'.db, w'.relay, w'.workers, moved)
    requires PostsOk(w'.db, w'.pending, w'.handed) && RelayOk(w'.relay, w'.handed)
    ensures Inv(w')
  {
    RowsStayWithRelay(w.db, w.relay, w'.relay);
    ClaimsStay(w.db, w'.db, w.relay, w'.relay);
    OthersStay(w, w', moved);
    SessionsStay(w, w');
    ReceiptsStay(w.db.registry, w.db.registry, w.relay, w'.relay, w.received);
  }

  function Published(w: World, id: nat, o: Oracle): World
    requires id in w.workers && w.workers[id].phase.Publishing?
  {
    var worker := w.workers[id];
    var post := Post(Mirror(worker.delivery), worker.phase.ctx.destinationCommunity, worker.phase.event);
    SetPhase(HandOver(w, post, o.stored), id,
             if o.acked || o.found then Completing(worker.phase.ctx, worker.phase.event)
             else Retrying(o.code))
  }

  lemma WorkIsPublishing(w: World, id: nat, o: Oracle)
    requires id in w.workers && w.workers[id].phase.Publishing?
    ensures Work(w, id, o) == Published(w, id, o)
  {
  }

  lemma PublishingKeepsInv(w: World, id: nat, o: Oracle)
    requires Inv(w) && id in w.workers && w.workers[id].phase.Publishing? && OracleIsHonest(w, id, o)
    ensures Inv(Work(w, id, o))
  {
    WorkIsPublishing(w, id, o);
    PublishedKeepsInv(w, id, o);
  }

  lemma PublishedKeepsInv(w: World, id: nat, o: Oracle)
    requires Inv(w) && id in w.workers && w.workers[id].phase.Publishing? && OracleIsHonest(w, id, o)
    ensures Inv(Published(w, id, o))
  {
    var w' := Published(w, id, o);
    assert WorkerOk(w.db, w.relay, w.workers[id]) && DeliveryOk(w.db, w.relay, w.workers[id].delivery);
    PublishedIsUpdate(w, id, o);
    MirrorPostKeeps(w.db, w.relay, w.pending, w.handed, w.workers[id], w'.relay);
    PublishedWorkerIsOk(w, id, o);
    PublishStepKeepsInv(w, w', id);
  }

  lemma PublishedIsUpdate(w: World, id: nat, o: Oracle)
    requires id in w.workers && w.workers[id].phase.Publishing?
    ensures var w', worker := Published(w, id, o), w.workers[id];
            var post := Post(Mirror(worker.delivery), worker.phase.ctx.destinationCommunity, worker.phase.event);
            && w.relay <= w'.relay <= w.relay + {(worker.phase.ctx.destinationCommunity, worker.phase.event)}
            && w'.handed == w.handed + {post} && id in w'.workers
            && w' == w.(relay := w'.relay, handed := w'.handed, workers := w.workers[id := w'.workers[id]])
  {
  }

  lemma PublishedWorkerIsOk(w: World, id: nat, o: Oracle)
    requires id in w.workers && w.workers[id].phase.Publishing? && OracleIsHonest(w, id, o)
    requires WorkerOk(w.db, w.relay, w.workers[id])
    ensures var w' := Published(w, id, o); id in w'.workers && WorkerOk(w'.db, w'.relay, w'.workers[id])
  {
  }

  lemma PublishStepKeepsInv(w: World, w': World, id: nat)
    requires Inv(w) && id in w.workers && id in w'.workers && w.relay <= w'.relay
    requires w' == w.(relay := w'.relay, handed := w'.handed, workers := w.workers[id := w'.workers[id]])
    requires WorkerOk(w'.db, w'.relay, w'.workers[id])
    requires PostsOk(w'.db, w'.pending, w'.handed) && RelayOk(w'.relay, w'.handed)
    ensures Inv(w')
  {
    RelayStepKeepsInv(w, w', {id});
  }

  /** The only new hint is for a community whose message was delivered here. */
  lemma HintClaimKeeps(db: Db, db': Db, relay: Relay, d: Uuid, ctx: Context)
    requires RowsOk(db, relay) && ClaimsOk(db, relay) && ContextOk(db, d, ctx)
    requires OnlyClaims(db, db') && db'.notices == db.notices && db'.commands == db.commands
    requires db'.hints <= db.hints + {(ctx.destination, ctx.sourceCommunity)}
    ensures RowsOk(db', relay) && Extends(db, db') && ClaimsOk(db', relay)
  {
    ClaimKeeps(db, db', relay);
    forall key | key in db'.notices || key in db'.commands ensures IsHeard(db', relay, key) {
      HeardStays(db, db', relay, relay, key);
    }
    forall h | h in db'.hints ensures exists x :: IsSender(db', h.0, h.1, x) {
      if h in db.hints {
        SenderStays(db, db', h.0, h.1);
      } else {
        assert IsSender(db', h.0, h.1, d);
      }
    }
  }

  /** A claim that was just won has never been posted, so its notice may be announced once. */
  lemma NewClaimKeepsPosts(db: Db, db': Db, pending: set<Cause>, handed: set<Post>, cause: Cause)
    requires Extends(db, db') && PostsOk(db, pending, handed)
    requires !IsClaimed(db, cause) && IsClaimed(db', cause) && !cause.Mirror?
    ensures PostsOk(db', pending + {cause}, handed)
  {
    forall post | post in handed ensures PostOk(db', pending + {cause}, post) {
      assert PostOk(db, pending, post);
    }
  }

  /** Larger tables, the same relay and history but for the claims: everything else is carried over. */
  lemma ClaimStepKeepsInv(w: World, db': Db, pending: set<Cause>, moved: set<nat>, workers: map<nat, Worker>)
    requires Inv(w) && RowsOk(db', w.relay) && Extends(w.db, db') && ClaimsOk(db', w.relay)
    requires db'.registry == w.db.registry
    requires PostsOk(db', pending, w.handed)
    requires Moves(w.workers, db', w.relay, workers, moved)
    ensures Inv(w.(db := db', pending := pending, workers := workers))
  {
    var w' := w.(db := db', pending := pending, workers := workers);
    OthersStay(w, w', moved);
    SessionsStay(w, w');
    SettledStays(w.db, db', w.settled);
  }

  lemma PhaseStepKeepsInv(w: World, id: nat, db': Db, pending: set<Cause>, phase: Phase)
    requires Inv(w) && RowsOk(db', w.relay) && Extends(w.db, db') && ClaimsOk(db', w.relay)
    requires db'.registry == w.db.registry
    requires PostsOk(db', pending, w.handed)
    requires id in w.workers && WorkerOk(db', w.relay, w.workers[id].(phase := phase))
    ensures Inv(w.(db := db', pending := pending, workers := w.workers[id := w.workers[id].(phase := phase)]))
  {
    OneMoves(w.workers, db', w.relay, id, w.workers[id].(phase := phase));
    ClaimStepKeepsInv(w, db', pending, {id}, w.workers[id := w.workers[id].(phase := phase)]);
  }

  lemma HintPosts(db: Db, db': Db, pending: set<Cause>, handed: set<Post>, at: EndpointId, peer: CommunityId,
                  claimed: bool)
    requires Extends(db, db') && PostsOk(db, pending, handed)
    requires claimed ==> (at, peer) !in db.hints && (at, peer) in db'.hints
    ensures PostsOk(db', if claimed then pending + {Hint(at, peer)} else pending, handed)
  {
    if claimed {
      NewClaimKeepsPosts(db, db', pending, handed, Hint(at, peer));
    } else {
      PostsStay(db, db', pending, handed);
    }
  }

  lemma HintClaimKeepsInv(w: World, id: nat, ctx: Context, db': Db, pending: set<Cause>)
    requires Inv(w) && id in w.workers && ContextOk(w.db, w.workers[id].delivery, ctx)
    requires OnlyClaims(w.db, db') && db'.notices == w.db.notices && db'.commands == w.db.commands
    requires db'.hints <= w.db.hints + {(ctx.destination, ctx.sourceCommunity)}
    requires PostsOk(db', pending, w.handed)
    ensures Inv(w.(db := db', pending := pending, workers := w.workers[id := w.workers[id].(phase := Returned)]))
  {
    HintClaimKeeps(w.db, db', w.relay, w.workers[id].delivery, ctx);
    assert WorkerOk(db', w.relay, w.workers[id].(phase := Returned));
    PhaseStepKeepsInv(w, id, db', pending, Returned);
  }

  lemma HintingKeepsInv(w: World, id: nat, o: Oracle)
    requires Inv(w) && id in w.workers && w.workers[id].phase.Hinting?
    ensures Inv(Work(w, id, o))
  {
    var ctx := w.workers[id].phase.ctx;
    assert WorkerOk(w.db, w.relay, w.workers[id]);
    WorkIsHinting(w, id, o);
    var out := ClaimHint(w.db, ctx.destination, ctx.sourceCommunity);
    ClaimKeeps(w.db, out.db, w.relay);
    HintPosts(w.db, out.db, w.pending, w.handed, ctx.destination, ctx.sourceCommunity, out.claimed);
    HintClaimKeepsInv(w, id, ctx, out.db, PendingAfterHint(w, id));
  }

  function PendingAfterHint(w: World, id: nat): set<Cause>
    requires id in w.workers && w.workers[id].phase.Hinting?
  {
    var ctx := w.workers[id].phase.ctx;
    if ClaimHint(w.db, ctx.destination, ctx.sourceCommunity).claimed then
      w.pending + {Hint(ctx.destination, ctx.sourceCommunity)}
    else w.pending
  }

  lemma WorkIsHinting(w: World, id: nat, o: Oracle)
    requires id in w.workers && w.workers[id].phase.Hinting?
    ensures var ctx := w.workers[id].phase.ctx;
            Work(w, id, o) == w.(db := ClaimHint(w.db, ctx.destination, ctx.sourceCommunity).db,
                                 pending := PendingAfterHint(w, id),
                                 workers := w.workers[id := w.workers[id].(phase := Returned)])
  {
  }

  lemma WorkKeepsInv(w: World, id: nat, o: Oracle)
    requires Inv(w) && id in w.workers && OracleIsHonest(w, id, o)
    ensures Inv(Work(w, id, o))
  {
    match w.workers[id].phase
    case Starting => StartingKeepsInv(w, id, o);
    case Projecting(_, _) => ProjectingKeepsInv(w, id, o);
    case Publishing(_, _) => PublishingKeepsInv(w, id, o);
    case Hinting(_) => HintingKeepsInv(w, id, o);
    case Returned =>
    case Threw(_) =>
    case _ => TransactionKeepsInv(w, id, o);
  }

  // ---------------------------------------------------------------- reading source events

  lemma FoundRoute(routes: seq<Route>, channel: Option<Field>, from: nat)
    requires from <= |routes| && FindRoute(routes, channel, from).Some?
    ensures exists i | 0 <= i < |routes| :: routes[i] == FindRoute(routes, channel, from).value
    ensures channel == Some(Field.Text(FindRoute(routes, channel, from).value.localChannel))
    decreases |routes| - from
  {
  }

  /** The route that a session finds for an event is an endpoint of its community, and the event names its channel. */
  lemma RouteOfIsOk(w: World, community: CommunityId, event: Event)
    requires SessionsOk(w) && RouteOf(w, community, event).Some?
    ensures var route := RouteOf(w, community, event).value;
            && route.community == community && RouteIsOk(w.db.registry, route)
            && FirstValue(event.tags, "h") == Some(Field.Text(route.localChannel))
  {
    var session := w.sessions[community];
    assert SessionOk(w.db.registry, community, session);
    FoundRoute(session.routes, FirstValue(event.tags, "h"), 0);
  }

  /** An event under a bridge key that is on some relay is a projection, marked as one, or a notice. */
  lemma BridgeEventKinds(w: World, event: Event)
    requires Inv(w) && event.pubkey.BridgeKey? && exists c :: (c, event) in w.relay
    ensures HasProjectionMarker(event) || IsNotice(event)
  {
    var c :| (c, event) in w.relay;
    assert WasHanded(w.handed, (c, event).1);
    var post :| post in w.handed && post.event == event;
    assert PostOk(w.db, w.pending, post);
  }

  /**
   What a received event under a bridge key can still be: not a command, and a routable
   message exactly if it is another bridge's notice in a channel bound to a peer.
   */
  lemma BridgeEventIsReadIff(w: World, route: Route, event: Event, verified: bool, now: int)
    requires Inv(w) && (route, event) in w.received && event.pubkey.BridgeKey?
    ensures !IsCommandFor(event, route)
    ensures IsRoutable(event, route, verified, now) <==> IsNotice(event) && CarriesNotice(event, route, verified, now)
    ensures IsRoutable(event, route, verified, now) ==>
              Canonicalize(event, route, verified, now).destination == Bound(route.dedicatedTo.value)
  {
    assert ReceiptOk(w.db.registry, w.relay, (route, event));
    BridgeEventKinds(w, event);
    if IsNotice(event) {
      NoticeIsRoutedIff(event, route, verified, now);
    }
  }

  lemma RoutableMayBeIngested(w: World, route: Route, event: Event, verified: bool, now: int)
    requires Inv(w) && (route, event) in w.received && IsRoutable(event, route, verified, now)
    ensures route.endpoint in w.db.registry.endpoints && MayIngest(w.db.registry.endpoints[route.endpoint], event)
    ensures (w.db.registry.endpoints[route.endpoint].community, event) in w.relay
    ensures w.db.registry.endpoints[route.endpoint].hub == route.hub
  {
    assert ReceiptOk(w.db.registry, w.relay, (route, event));
    if event.pubkey.BridgeKey? {
      BridgeEventIsReadIff(w, route, event, verified, now);
    }
  }

  lemma ReadInputIsOk(w: World, step: Step)
    requires step.ReadMessage? && IsRoutable(step.event, step.route, step.verified, step.now)
    requires Inv(w) && (step.route, step.event) in w.received
    ensures IsSourceInput(w.db, w.relay, InputOf(step))
  {
    RoutableMayBeIngested(w, step.route, step.event, step.verified, step.now);
  }

  lemma ReadMessageKeepsInv(w: World, step: Step)
    requires Sound(w) && step.ReadMessage? && Enabled(w, step)
    ensures Inv(Next(w, step))
  {
    ReadInputIsOk(w, step);
    IngestStepKeepsInv(w, InputOf(step), step.first, Next(w, step));
  }

  lemma IngestStepKeepsInv(w: World, input: IngestInput, first: Uuid, w': World)
    requires Sound(w) && IsSourceInput(w.db, w.relay, input) && FreshIds(w.db, input.messageId, first)
    requires var out := Ingest(w.db, input, first);
             w' == w.(db := out.db,
                      settled := if out.result.Created? then w.settled + out.result.deliveryIds else w.settled)
    ensures Inv(w')
  {
    IngestKeeps(w.db, w.relay, input, first);
    IngestAnswersOnce(w.db, w.relay, input, first);
    IngestKeepsClaims(w.db, input, first);
    ClaimsStay(w.db, w'.db, w.relay, w.relay);
    OthersStay(w, w', {});
    PostsStay(w.db, w'.db, w.pending, w.handed);
    SessionsStay(w, w');
    SettledStays(w.db, w'.db, w.settled);
  }

  lemma IngestKeepsClaims(db: Db, input: IngestInput, first: Uuid)
    requires FreshIds(db, input.messageId, first)
    ensures var db' := Ingest(db, input, first).db;
            db'.notices == db.notices && db'.commands == db.commands && db'.hints == db.hints
  {
  }

  /** A claim on a person's event keeps the invariant, and is announced only if it was won. */
  lemma HeardClaimKeepsInv(w: World, db': Db, cause: Cause, claimed: bool)
    requires Inv(w) && (cause.Bounce? || cause.Answer?) && IsHeard(w.db, w.relay, (cause.at, cause.event))
    requires db' == if cause.Bounce? then ClaimNotice(w.db, (cause.at, cause.event)).db
                    else ClaimCommand(w.db, (cause.at, cause.event)).db
    requires claimed <==> !IsClaimed(w.db, cause)
    ensures Inv(w.(db := db', pending := if claimed then w.pending + {cause} else w.pending))
  {
    var w' := w.(db := db', pending := if claimed then w.pending + {cause} else w.pending);
    ClaimKeeps(w.db, db', w.relay);
    forall key | key in db'.notices || key in db'.commands ensures IsHeard(db', w.relay, key) {
      HeardStays(w.db, db', w.relay, w.relay, key);
    }
    forall h | h in db'.hints ensures exists d :: IsSender(db', h.0, h.1, d) {
      SenderStays(w.db, db', h.0, h.1);
    }
    if claimed {
      NewClaimKeepsPosts(w.db, db', w.pending, w.handed, cause);
    } else {
      PostsStay(w.db, db', w.pending, w.handed);
    }
    ClaimStepKeepsInv(w, db', w'.pending, {}, w.workers);
  }

  lemma ReadIsHeard(w: World, route: Route, event: Event)
    requires Inv(w) && (route, event) in w.received && event.pubkey.HumanKey?
    ensures IsHeard(w.db, w.relay, (route.endpoint, IdOf(event)))
  {
    assert ReceiptOk(w.db.registry, w.relay, (route, event));
  }

  lemma ReadUnroutableKeepsInv(w: World, step: Step)
    requires Inv(w) && step.ReadUnroutable? && Enabled(w, step)
    ensures Inv(Next(w, step))
  {
    if step.event.pubkey.BridgeKey? {
      BridgeEventIsReadIff(w, step.route, step.event, step.verified, step.now);
      assert false;
    }
    ReadIsHeard(w, step.route, step.event);
    var key := (step.route.endpoint, IdOf(step.event));
    HeardClaimKeepsInv(w, ClaimNotice(w.db, key).db, Bounce(key.0, key.1), key !in w.db.notices);
  }

  lemma ReadCommandKeepsInv(w: World, step: Step)
    requires Inv(w) && step.ReadCommand? && Enabled(w, step)
    ensures Inv(Next(w, step))
  {
    if step.event.pubkey.BridgeKey? {
      BridgeEventIsReadIff(w, step.route, step.event, true, 0);
      assert false;
    }
    ReadIsHeard(w, step.route, step.event);
    var key := (step.route.endpoint, IdOf(step.event));
    HeardClaimKeepsInv(w, ClaimCommand(w.db, key).db, Answer(key.0, key.1), key !in w.db.commands);
  }

  // ---------------------------------------------------------------- the other steps

  lemma NoticePostKeeps(w: World, cause: Cause, post: Post, stored: bool)
    requires Inv(w) && cause in w.pending && !cause.Mirror?
    requires post.cause == cause && post.event.pubkey == BridgeKey(post.community) && IsNotice(post.event)
    ensures var w' := HandOver(w.(pending := w.pending - {cause}), post, stored);
            PostsOk(w'.db, w'.pending, w'.handed) && RelayOk(w'.relay, w'.handed)
  {
    var w' := HandOver(w.(pending := w.pending - {cause}), post, stored);
    forall p | p in w.handed ensures PostOk(w.db, w'.pending, p) && p.cause != cause {
      assert PostOk(w.db, w.pending, p);
    }
    assert post in w'.handed;
    RelayStays(w.relay, w.handed, w'.relay, w'.handed);
  }

  lemma AnnounceKeepsInv(w: World, step: Step)
    requires Inv(w) && step.Announce? && Enabled(w, step)
    ensures Inv(Next(w, step))
  {
    var w' := Next(w, step);
    var community := w.db.registry.endpoints[step.cause.at].community;
    var post := Post(step.cause, community, NoticeEvent(community, step.notice, step.now));
    assert w' == HandOver(w.(pending := w.pending - {step.cause}), post, step.stored);
    NoticePostKeeps(w, step.cause, post, step.stored);
    RelayStepKeepsInv(w, w', {});
  }

  /** People publish their own events anywhere, and copy a bridge's events to any relay. */
  lemma PostingKeepsInv(w: World, step: Step)
    requires Inv(w) && (step.HumanPost? || step.Copy?) && Enabled(w, step)
    ensures Inv(Next(w, step))
  {
    var w' := Next(w, step);
    RelayStays(w.relay, w.handed, w'.relay, w'.handed);
    RelayStepKeepsInv(w, w', {});
  }

  lemma ReceiveKeepsInv(w: World, step: Step)
    requires Inv(w) && step.Receive? && Enabled(w, step)
    ensures Inv(Next(w, step))
  {
    var w' := Next(w, step);
    RouteOfIsOk(w, step.community, step.event);
    forall receipt | receipt in w'.received ensures ReceiptOk(w.db.registry, w.relay, receipt) {
      assert receipt in w.received ==> ReceiptOk(w.db.registry, w.relay, receipt);
    }
  }

  lemma WorkersStepKeepsInv(w: World, workers: map<nat, Worker>, moved: set<nat>)
    requires Inv(w) && Moves(w.workers, w.db, w.relay, workers, moved)
    ensures Inv(w.(workers := workers))
  {
    RelayStepKeepsInv(w, w.(workers := workers), moved);
  }

  lemma BeginKeepsInv(w: World, step: Step)
    requires Inv(w) && step.Begin? && Enabled(w, step)
    ensures Inv(Next(w, step))
  {
    assert IsQueued(w.db, step.delivery);
    var j :| j in w.db.jobs && w.db.jobs[j] == step.delivery;
    var worker := Worker(step.delivery, step.retryCount, Starting);
    OneMoves(w.workers, w.db, w.relay, step.worker, worker);
    WorkersStepKeepsInv(w, w.workers[step.worker := worker], {step.worker});
  }

  lemma ChangeKeepsSettled(w: World, registry: Registry, cursors: map<EndpointId, int>)
    requires SettledOk(w.db, w.settled) && KeepsRows(w.db.registry.endpoints, registry.endpoints)
    ensures SettledOk(w.db.(registry := registry, cursors := cursors),
                      set d | d in w.settled && Untouched(w.db, registry, d))
  {
  }

  lemma ChangeKeepsInv(w: World, step: Step)
    requires Inv(w) && step.Change? && Enabled(w, step)
    ensures Inv(Next(w, step))
  {
    var w' := Next(w, step);
    ApplyKeepsRows(w.db.registry, step.op);
    NewRegistryStepKeepsInv(w, w'.db.registry, w'.db.cursors, w'.settled);
  }

  lemma NewRegistryStepKeepsInv(w: World, registry: Registry, cursors: map<EndpointId, int>, settled: set<Uuid>)
    requires Inv(w) && KeepsRows(w.db.registry.endpoints, registry.endpoints)
    requires settled == set d | d in w.settled && Untouched(w.db, registry, d)
    ensures Inv(w.(db := w.db.(registry := registry, cursors := cursors), settled := settled))
  {
    var w' := w.(db := w.db.(registry := registry, cursors := cursors), settled := settled);
    NewRegistryKeeps(w.db, w.relay, registry, cursors);
    ClaimsStay(w.db, w'.db, w.relay, w.relay);
    OthersStay(w, w', {});
    PostsStay(w.db, w'.db, w.pending, w.handed);
    SessionsStay(w, w');
    ReceiptsStay(w.db.registry, registry, w.relay, w.relay, w.received);
    ChangeKeepsSettled(w, registry, cursors);
  }

  lemma WorkKeepsRegistry(w: World, id: nat, o: Oracle)
    requires id in w.workers
    ensures Work(w, id, o).db.registry == w.db.registry
  {
    if IsTransactional(w.workers[id].phase) {
      WorkIsTransaction(w, id, o);
    }
  }

  /** Only hub operations write endpoints. */
  lemma OnlyChangeWritesRegistry(w: World, step: Step)
    requires Enabled(w, step)
    ensures Next(w, step).db.registry == if step.Change? then Apply(w.db.registry, step.op) else w.db.registry
  {
    if step.Proceed? {
      WorkKeepsRegistry(w, step.worker, step.oracle);
    }
  }

  lemma NextKeepsHub(w: World, step: Step)
    requires HubInv(w.db.registry) && Enabled(w, step)
    ensures HubInv(Next(w, step).db.registry)
  {
    OnlyChangeWritesRegistry(w, step);
    if step.Change? {
      ApplyKeepsInv(w.db.registry, step.op);
    }
  }

  lemma SessionStepKeepsInv(w: World, step: Step)
    requires Inv(w) && (step.Connect? || step.Disconnect? || step.Crash?) && Enabled(w, step)
    ensures Inv(Next(w, step))
  {
  }

  lemma HandlingKeepsInv(w: World, step: Step)
    requires Inv(w) && Enabled(w, step) && (step.ReadUnroutable? || step.ReadCommand? || step.Announce? || step.Change?)
    ensures Inv(Next(w, step))
  {
    if step.ReadUnroutable? {
      ReadUnroutableKeepsInv(w, step);
    } else if step.ReadCommand? {
      ReadCommandKeepsInv(w, step);
    } else if step.Announce? {
      AnnounceKeepsInv(w, step);
    } else {
      ChangeKeepsInv(w, step);
    }
  }

  lemma OutsideKeepsInv(w: World, step: Step)
    requires Inv(w) && Enabled(w, step)
    requires step.HumanPost? || step.Copy? || step.Connect? || step.Disconnect? || step.Receive? || step.Crash?
    ensures Inv(Next(w, step))
  {
    if step.HumanPost? || step.Copy? {
      PostingKeepsInv(w, step);
    } else if step.Receive? {
      ReceiveKeepsInv(w, step);
    } else {
      SessionStepKeepsInv(w, step);
    }
  }

  lemma NextKeepsInv(w: World, step: Step)
    requires Inv(w) && Enabled(w, step) && !step.ReadMessage?
    ensures Inv(Next(w, step))
  {
    if step.Begin? {
      BeginKeepsInv(w, step);
    } else if step.Proceed? {
      ProceedKeepsInv(w, step);
    } else if step.ReadUnroutable? || step.ReadCommand? || step.Announce? || step.Change? {
      HandlingKeepsInv(w, step);
    } else {
      OutsideKeepsInv(w, step);
    }
  }

  lemma ProceedKeepsInv(w: World, step: Step)
    requires Inv(w) && step.Proceed? && Enabled(w, step)
    ensures Inv(Next(w, step))
  {
    WorkKeepsInv(w, step.worker, step.oracle);
  }

  /** The invariant is inductive: every enabled step keeps it. */
  lemma NextKeepsSound(w: World, step: Step)
    requires Sound(w) && Enabled(w, step)
    ensures Sound(Next(w, step))
  {
    NextKeepsHub(w, step);
    if step.ReadMessage? {
      ReadMessageKeepsInv(w, step);
    } else {
      NextKeepsInv(w, step);
    }
  }

  lemma InitialIsSound(handles: map<CommunityId, string>, hosts: map<CommunityId, string>)
    ensures Sound(Initial(handles, hosts))
  {
  }

  /** So it holds in every world of every run. */
  lemma {:induction false} EveryWorldIsSound(worlds: seq<World>, steps: seq<Step>, n: nat)
    requires IsRun(worlds, steps) && StartsEmpty(worlds) && n < |worlds|
    ensures Sound(worlds[n])
  {
    if n == 0 {
      var handles, hosts :| worlds[0] == Initial(handles, hosts);
      InitialIsSound(handles, hosts);
    } else {
      EveryWorldIsSound(worlds, steps, n - 1);
      assert IsStep(worlds, steps, n - 1);
      NextKeepsSound(worlds[n - 1], steps[n - 1]);
    }
  }

  /** Any sequence of steps keeps the invariant. */
  lemma {:induction false} TakenKeepsSound(w: World, steps: seq<Step>)
    requires Sound(w) && Taken(w, steps).Some?
    ensures Sound(Taken(w, steps).value)
  {
    if steps != [] {
      var init := steps[..|steps| - 1];
      TakenKeepsSound(w, init);
      NextKeepsSound(Taken(w, init).value, steps[|steps| - 1]);
    }
  }
}
