/**
 What is stored and published, word for word: every message is what its source event says,
 and every projection is what its message says, in the channel of its destination.
 */
module NetworkContent {
  import opened Wrappers
  import opened Nostr
  import opened Bridge
  import opened Events
  import opened Hub
  import opened Routing
  import opened Tables
  import opened Network
  import opened NetworkInvariant
  import opened NetworkSteps
  import opened NetworkProof

  // ---------------------------------------------------------------- messages

  /** The parent is the one that the event's tags name, and the body what its text says on this kind of channel. */
  ghost predicate Tells(r: Registry, m: Message) {
    && m.source in r.endpoints
    && Answers(m.event, m.parentEvent)
    && IsBody(m.event, r.endpoints[m.source].dedicatedTo.Some?, m.body)
  }

  ghost predicate MessagesTell(db: Db) {
    forall id | id in db.messages :: Tells(db.registry, db.messages[id])
  }

  lemma MessagesTellOn(db: Db, db': Db)
    requires MessagesTell(db) && db'.messages == db.messages
    requires KeepsRows(db.registry.endpoints, db'.registry.endpoints)
    ensures MessagesTell(db')
  {
    forall id | id in db'.messages ensures Tells(db'.registry, db'.messages[id]) {
      assert Tells(db.registry, db.messages[id]);
    }
  }

  /** What ingest makes of an input: nothing, or one message and one unsigned delivery with its ids. */
  ghost predicate IsIngested(db: Db, input: IngestInput, first: Uuid, db': Db) {
    && db'.registry == db.registry && db'.handles == db.handles && db'.hosts == db.hosts
    && (|| (db'.messages == db.messages && db'.deliveries == db.deliveries)
        || (&& db'.messages == db.messages[input.messageId :=
                                 Message(input.hub, input.source, input.event, input.parentEvent, input.parentMessage,
                                         input.body, input.actorName, input.actorDigits)]
            && exists to :: db'.deliveries == db.deliveries[first := NewDelivery(input.messageId, to)]))
  }

  lemma IngestIsIngested(db: Db, input: IngestInput, first: Uuid)
    requires HubInv(db.registry) && FreshIds(db, input.messageId, first)
    requires input.source in db.registry.endpoints && input.destination.Some?
    ensures IsIngested(db, input, first, Ingest(db, input, first).db)
  {
    var to := IngestCases(db, input, first);
  }

  /** What a step reads is what its event says. */
  lemma InputTells(w: World, step: Step)
    requires Inv(w) && step.ReadMessage? && Enabled(w, step)
    ensures var input := InputOf(step);
            && input.source in w.db.registry.endpoints && input.destination.Some?
            && Answers(input.event, input.parentEvent)
            && IsBody(input.event, w.db.registry.endpoints[input.source].dedicatedTo.Some?, input.body)
  {
    assert ReceiptOk(w.db.registry, w.relay, (step.route, step.event));
    RoutedIff(step.event, step.route, step.verified, step.now);
  }

  lemma ReadTells(w: World, step: Step)
    requires Sound(w) && MessagesTell(w.db) && step.ReadMessage? && Enabled(w, step)
    ensures MessagesTell(Next(w, step).db)
  {
    InputTells(w, step);
    IngestIsIngested(w.db, InputOf(step), step.first);
    IngestedTells(w.db, InputOf(step), step.first, Next(w, step).db);
  }

  lemma IngestedTells(db: Db, input: IngestInput, first: Uuid, db': Db)
    requires MessagesTell(db) && IsIngested(db, input, first, db')
    requires input.source in db.registry.endpoints && Answers(input.event, input.parentEvent)
    requires IsBody(input.event, db.registry.endpoints[input.source].dedicatedTo.Some?, input.body)
    ensures MessagesTell(db')
  {
    forall id | id in db'.messages ensures Tells(db'.registry, db'.messages[id]) {
      assert id in db.messages ==> Tells(db.registry, db.messages[id]);
    }
  }

  /** Only reading writes messages, and nothing writes handles. */
  lemma OthersKeepMessages(w: World, step: Step)
    requires Enabled(w, step) && !step.ReadMessage?
    ensures var db' := Next(w, step).db;
            db'.messages == w.db.messages && db'.handles == w.db.handles && db'.hosts == w.db.hosts
  {
    if step.Proceed? {
      WorkKeepsMessages(w, step.worker, step.oracle);
    }
  }

  lemma WorkKeepsMessages(w: World, id: nat, o: Oracle)
    requires id in w.workers
    ensures var db' := Work(w, id, o).db;
            db'.messages == w.db.messages && db'.handles == w.db.handles && db'.hosts == w.db.hosts
  {
    if IsTransactional(w.workers[id].phase) {
      WorkIsTransaction(w, id, o);
    }
  }

  lemma RowsAreKept(w: World, step: Step)
    requires Enabled(w, step)
    ensures KeepsRows(w.db.registry.endpoints, Next(w, step).db.registry.endpoints)
  {
    OnlyChangeWritesRegistry(w, step);
    if step.Change? {
      ApplyKeepsRows(w.db.registry, step.op);
    }
  }

  lemma NextTells(w: World, step: Step)
    requires Sound(w) && MessagesTell(w.db) && Enabled(w, step)
    ensures MessagesTell(Next(w, step).db)
  {
    if step.ReadMessage? {
      ReadTells(w, step);
    } else {
      OthersKeepMessages(w, step);
      RowsAreKept(w, step);
      MessagesTellOn(w.db, Next(w, step).db);
    }
  }

  /** In every world, every stored message has the parent and the body that its own event spells out. */
  lemma {:induction false} EveryMessageTells(worlds: seq<World>, steps: seq<Step>, n: nat)
    requires IsRun(worlds, steps) && StartsEmpty(worlds) && n < |worlds|
    ensures MessagesTell(worlds[n].db)
  {
    if n > 0 {
      EveryMessageTells(worlds, steps, n - 1);
      EveryWorldIsSound(worlds, steps, n - 1);
      assert IsStep(worlds, steps, n - 1);
      NextTells(worlds[n - 1], steps[n - 1]);
    }
  }

  // ---------------------------------------------------------------- projections

  /** A community goes by its handle, and without one by its host. */
  predicate GoesBy(db: Db, community: CommunityId, name: string) {
    if community in db.handles then name == db.handles[community]
    else if community in db.hosts then name == db.hosts[community]
    else name == ""
  }

  /** The destination's channel cannot have moved since the message was ingested. */
  predicate IsFixed(db: Db, settled: set<Uuid>, d: Uuid)
    requires Joins(db, d)
  {
    db.registry.endpoints[db.deliveries[d].destination].dedicatedTo.Some? || d in settled
  }

  /** The event is the row's message, told under its author's and its community's name in the row's channel. */
  ghost predicate Says(db: Db, settled: set<Uuid>, d: Uuid, e: Event)
    requires Joins(db, d)
  {
    var row := db.deliveries[d];
    var m := db.messages[row.message];
    var from := db.registry.endpoints[m.source].community;
    && e.kind == 9
    && (IsFixed(db, settled, d) ==>
          OnlyValue(e.tags, "h", Field.Text(db.registry.endpoints[row.destination].localChannel)))
    && NamesOrigin(e.tags, row.message, from, IdOf(m.event), m.event.pubkey)
    && exists name :: GoesBy(db, from, name) && IsMirrorText(e.content, name, m.actorName, m.actorDigits, m.body)
  }

  ghost predicate RowSays(db: Db, settled: set<Uuid>, d: Uuid) {
    Joins(db, d) && (db.deliveries[d].signed.Some? ==> Says(db, settled, d, db.deliveries[d].signed.value))
  }

  /** A context that a projection may still be made from. */
  ghost predicate ContextFits(db: Db, settled: set<Uuid>, d: Uuid, ctx: Context) {
    && Joins(db, d)
    && (IsFixed(db, settled, d) ==>
          ctx.destinationChannel == db.registry.endpoints[db.deliveries[d].destination].localChannel)
    && GoesBy(db, db.registry.endpoints[SourceOf(db, d)].community, ctx.sourceSlug)
  }

  ghost predicate WorkerSays(db: Db, settled: set<Uuid>, worker: Worker) {
    match worker.phase
    case Marking(ctx, _) => ContextFits(db, settled, worker.delivery, ctx)
    case Projecting(ctx, _) => ContextFits(db, settled, worker.delivery, ctx)
    case Persisting(_, event) => Joins(db, worker.delivery) && Says(db, settled, worker.delivery, event)
    case _ => true
  }

  ghost predicate RowsSay(db: Db, settled: set<Uuid>) {
    forall d | d in db.deliveries :: RowSays(db, settled, d)
  }

  ghost predicate WorkersSay(db: Db, settled: set<Uuid>, workers: map<nat, Worker>) {
    forall id | id in workers :: WorkerSays(db, settled, workers[id])
  }

  ghost predicate ContentOk(w: World) {
    RowsSay(w.db, w.settled) && WorkersSay(w.db, w.settled, w.workers)
  }

  // ---------------------------------------------------------------- frames

  /** Delivery `d` reads the same: its rows are there still, and its channel is where it was if it is to be. */
  ghost predicate ReadsTheSame(db: Db, settled: set<Uuid>, db': Db, settled': set<Uuid>, d: Uuid) {
    && Joins(db, d) && Joins(db', d)
    && db'.deliveries[d].message == db.deliveries[d].message
    && db'.deliveries[d].destination == db.deliveries[d].destination
    && db'.messages[db.deliveries[d].message] == db.messages[db.deliveries[d].message]
    && db'.handles == db.handles && db'.hosts == db.hosts
    && KeepsRows(db.registry.endpoints, db'.registry.endpoints)
    && (d in settled' ==> d in settled && db'.registry.endpoints[db.deliveries[d].destination].localChannel
                                          == db.registry.endpoints[db.deliveries[d].destination].localChannel)
  }

  lemma SaysOn(db: Db, settled: set<Uuid>, db': Db, settled': set<Uuid>, d: Uuid, e: Event)
    requires ReadsTheSame(db, settled, db', settled', d) && Says(db, settled, d, e)
    ensures Says(db', settled', d, e)
  {
    var m := db.messages[db.deliveries[d].message];
    var from := db.registry.endpoints[m.source].community;
    var name :| GoesBy(db, from, name) && IsMirrorText(e.content, name, m.actorName, m.actorDigits, m.body);
    assert GoesBy(db', from, name);
  }

  lemma WorkerSaysOn(db: Db, settled: set<Uuid>, db': Db, settled': set<Uuid>, worker: Worker)
    requires WorkerSays(db, settled, worker)
    requires worker.delivery in db.deliveries ==> ReadsTheSame(db, settled, db', settled', worker.delivery)
    ensures WorkerSays(db', settled', worker)
  {
    if worker.phase.Persisting? {
      SaysOn(db, settled, db', settled', worker.delivery, worker.phase.event);
    }
  }

  /** Rows that read the same, keep their events or get new ones that say the right thing. */
  lemma RowSaysOn(db: Db, settled: set<Uuid>, db': Db, settled': set<Uuid>, d: Uuid)
    requires RowSays(db, settled, d) && ReadsTheSame(db, settled, db', settled', d)
    requires db'.deliveries[d].signed == db.deliveries[d].signed
    ensures RowSays(db', settled', d)
  {
    if db.deliveries[d].signed.Some? {
      SaysOn(db, settled, db', settled', d, db.deliveries[d].signed.value);
    }
  }

  /** A step that writes no event and moves no run. */
  lemma QuietKeepsContent(w: World, w': World)
    requires ContentOk(w)
    requires forall d | d in w.db.deliveries ::
               d in w'.db.deliveries && w'.db.deliveries[d].signed == w.db.deliveries[d].signed
               && ReadsTheSame(w.db, w.settled, w'.db, w'.settled, d)
    requires forall d | d in w'.db.deliveries && d !in w.db.deliveries ::
               Joins(w'.db, d) && w'.db.deliveries[d].signed.None?
    requires forall id | id in w'.workers :: (id in w.workers && w'.workers[id] == w.workers[id])
                                             || w'.workers[id].phase.Starting?
    ensures ContentOk(w')
  {
    forall d | d in w'.db.deliveries ensures RowSays(w'.db, w'.settled, d) {
      if d in w.db.deliveries {
        assert RowSays(w.db, w.settled, d);
        RowSaysOn(w.db, w.settled, w'.db, w'.settled, d);
      }
    }
    forall id | id in w'.workers ensures WorkerSays(w'.db, w'.settled, w'.workers[id]) {
      if id in w.workers && w'.workers[id] == w.workers[id] {
        assert WorkerSays(w.db, w.settled, w.workers[id]);
        WorkerSaysOn(w.db, w.settled, w'.db, w'.settled, w.workers[id]);
      }
    }
  }

  // ---------------------------------------------------------------- every step

  /** Steps that only touch relays, sessions, claims and which runs there are. */
  lemma OutsideKeepsContent(w: World, step: Step)
    requires Inv(w) && ContentOk(w) && Enabled(w, step) && !step.ReadMessage? && !step.Proceed? && !step.Change?
    ensures ContentOk(Next(w, step))
  {
    OutsideKeepsRows(w, step);
    JoinsAll(w);
    SameRowsKeepContent(w, Next(w, step));
  }

  lemma SameRowsKeepContent(w: World, w': World)
    requires ContentOk(w) && forall d | d in w.db.deliveries :: Joins(w.db, d)
    requires w'.db.deliveries == w.db.deliveries && w'.db.messages == w.db.messages
    requires w'.db.registry == w.db.registry && w'.db.handles == w.db.handles && w'.db.hosts == w.db.hosts
    requires w'.settled == w.settled
    requires forall id | id in w'.workers :: (id in w.workers && w'.workers[id] == w.workers[id])
                                             || w'.workers[id].phase.Starting?
    ensures ContentOk(w')
  {
    QuietKeepsContent(w, w');
  }

  lemma OutsideKeepsRows(w: World, step: Step)
    requires Enabled(w, step) && !step.ReadMessage? && !step.Proceed? && !step.Change?
    ensures var w' := Next(w, step);
            && w'.db.deliveries == w.db.deliveries && w'.db.messages == w.db.messages
            && w'.db.registry == w.db.registry && w'.db.handles == w.db.handles && w'.db.hosts == w.db.hosts
            && w'.settled == w.settled
            && forall id | id in w'.workers :: (id in w.workers && w'.workers[id] == w.workers[id])
                                               || w'.workers[id].phase.Starting?
  {
  }

  lemma JoinsAll(w: World)
    requires Inv(w)
    ensures forall d | d in w.db.deliveries :: Joins(w.db, d)
  {
    forall d | d in w.db.deliveries ensures Joins(w.db, d) {
      assert DeliveryOk(w.db, w.relay, d);
    }
  }

  lemma ChangeKeepsContent(w: World, step: Step)
    requires Inv(w) && ContentOk(w) && step.Change? && Enabled(w, step)
    ensures ContentOk(Next(w, step))
  {
    var w' := Next(w, step);
    JoinsAll(w);
    RowsAreKept(w, step);
    assert w' == Rewritten(w, Changed(w.db, step.op, step.now));
    RewrittenReads(w, Changed(w.db, step.op, step.now));
    QuietKeepsContent(w, w');
  }

  lemma RewrittenReads(w: World, db': Db)
    requires KeepsRows(w.db.registry.endpoints, db'.registry.endpoints)
    requires db' == w.db.(registry := db'.registry, cursors := db'.cursors)
    ensures forall d | Joins(w.db, d) :: ReadsTheSame(w.db, w.settled, db', Rewritten(w, db').settled, d)
  {
  }

  lemma ReadKeepsContent(w: World, step: Step)
    requires Sound(w) && ContentOk(w) && step.ReadMessage? && Enabled(w, step)
    ensures ContentOk(Next(w, step))
  {
    var input := InputOf(step);
    ReadInputIsOk(w, step);
    IngestIsIngested(w.db, input, step.first);
    IngestAnswersOnce(w.db, w.relay, input, step.first);
    JoinsAll(w);
    assert Next(w, step) == Ingested(w, input, step.first);
    IngestedKeepsContent(w, input, step.first);
  }

  /** Old deliveries read the same after ingest, and its new ones are unsigned. */
  lemma IngestedReads(db: Db, settled: set<Uuid>, input: IngestInput, first: Uuid, db': Db, made: set<Uuid>)
    requires IsIngested(db, input, first, db') && input.messageId !in db.messages && first !in db.deliveries
    requires forall d | d in made :: d !in db.deliveries
    ensures forall d | Joins(db, d) ::
              ReadsTheSame(db, settled, db', settled + made, d) && db'.deliveries[d].signed == db.deliveries[d].signed
    ensures forall d | d in db'.deliveries && d !in db.deliveries :: d == first && db'.deliveries[d].signed.None?
  {
  }

  lemma IngestedKeepsContent(w: World, input: IngestInput, first: Uuid)
    requires ContentOk(w) && FreshIds(w.db, input.messageId, first)
    requires forall d | d in w.db.deliveries :: Joins(w.db, d)
    requires IsIngested(w.db, input, first, Ingest(w.db, input, first).db)
    requires AnswersOnce(w.db, input, first, Ingest(w.db, input, first))
    ensures ContentOk(Ingested(w, input, first))
  {
    var w', result := Ingested(w, input, first), Ingest(w.db, input, first).result;
    IngestedReads(w.db, w.settled, input, first, w'.db, if result.Created? then result.deliveryIds else {});
    assert w'.settled == w.settled + if result.Created? then result.deliveryIds else {};
    QuietKeepsContent(w, w');
  }

  // ---------------------------------------------------------------- one call of a run

  /** A run's transaction writes its own row only, and an event into it only when it stores one. */
  ghost predicate WritesOwnRow(db: Db, db': Db, worker: Worker) {
    && db'.deliveries.Keys == db.deliveries.Keys
    && forall d | d in db.deliveries ::
         && db'.deliveries[d].message == db.deliveries[d].message
         && db'.deliveries[d].destination == db.deliveries[d].destination
         && (|| db'.deliveries[d].signed == db.deliveries[d].signed
             || (d == worker.delivery && worker.phase.Persisting?
                 && db'.deliveries[d].signed == Some(worker.phase.event)))
  }

  lemma TransactionWritesOwn(db: Db, worker: Worker)
    ensures WritesOwnRow(db, TransactionOf(db, worker), worker)
  {
    if worker.phase.Completing? {
      CompletingWritesOwn(db, worker, worker.phase.event);
    } else if worker.phase.Persisting? {
      PersistingWritesOwn(db, worker);
    } else {
      RestatingWritesOwn(db, worker);
    }
  }

  lemma OwnRowIsWritten(db: Db, worker: Worker, row: Delivery)
    requires worker.delivery in db.deliveries
    requires var was := db.deliveries[worker.delivery];
             && row.message == was.message && row.destination == was.destination
             && (|| row.signed == was.signed
                 || (worker.phase.Persisting? && row.signed == Some(worker.phase.event)))
    ensures WritesOwnRow(db, SetDelivery(db, worker.delivery, row), worker)
  {
  }

  lemma NoRowIsWritten(db: Db, worker: Worker)
    ensures WritesOwnRow(db, db, worker)
  {
  }

  lemma PersistingWritesOwn(db: Db, worker: Worker)
    requires worker.phase.Persisting?
    ensures WritesOwnRow(db, TransactionOf(db, worker), worker)
  {
    var db' := Persist(db, worker.delivery, worker.phase.event).db;
    NoRowIsWritten(db, worker);
    if db' != db {
      OwnRowIsWritten(db, worker, db'.deliveries[worker.delivery]);
    }
  }

  lemma RestatingWritesOwn(db: Db, worker: Worker)
    requires !worker.phase.Completing? && !worker.phase.Persisting?
    ensures WritesOwnRow(db, TransactionOf(db, worker), worker)
  {
    var db' := TransactionOf(db, worker);
    NoRowIsWritten(db, worker);
    if db' != db {
      OwnRowIsWritten(db, worker, db'.deliveries[worker.delivery]);
    }
  }

  lemma CompletingWritesOwn(db: Db, worker: Worker, event: Event)
    ensures WritesOwnRow(db, Complete(db, worker.delivery, event).db, worker)
  {
  }

  lemma TransactionKeepsContent(w: World, id: nat, o: Oracle)
    requires Inv(w) && ContentOk(w) && id in w.workers && IsTransactional(w.workers[id].phase)
    ensures ContentOk(Work(w, id, o))
  {
    var worker := w.workers[id];
    WorkIsTransaction(w, id, o);
    TransactionWritesOwn(w.db, worker);
    JoinsAll(w);
    TransactionReads(w.db, w.settled, worker);
    TransactionRowsSay(w.db, w.settled, worker);
    TransactionWorkersSay(w, id);
  }

  lemma TransactionReads(db: Db, settled: set<Uuid>, worker: Worker)
    requires WritesOwnRow(db, TransactionOf(db, worker), worker)
    ensures forall d | Joins(db, d) :: ReadsTheSame(db, settled, TransactionOf(db, worker), settled, d)
  {
  }

  lemma TransactionRowsSay(db: Db, settled: set<Uuid>, worker: Worker)
    requires RowsSay(db, settled) && WorkerSays(db, settled, worker)
    requires WritesOwnRow(db, TransactionOf(db, worker), worker)
    requires forall d | Joins(db, d) :: ReadsTheSame(db, settled, TransactionOf(db, worker), settled, d)
    ensures RowsSay(TransactionOf(db, worker), settled)
  {
    var db' := TransactionOf(db, worker);
    forall d | d in db'.deliveries ensures RowSays(db', settled, d) {
      assert RowSays(db, settled, d) && ReadsTheSame(db, settled, db', settled, d);
      if db'.deliveries[d].signed == db.deliveries[d].signed {
        RowSaysOn(db, settled, db', settled, d);
      } else {
        SaysOn(db, settled, db', settled, d, worker.phase.event);
      }
    }
  }

  lemma TransactionWorkersSay(w: World, id: nat)
    requires WorkersSay(w.db, w.settled, w.workers) && id in w.workers && IsTransactional(w.workers[id].phase)
    requires forall d | Joins(w.db, d) ::
               ReadsTheSame(w.db, w.settled, TransactionOf(w.db, w.workers[id]), w.settled, d)
    requires forall d | d in w.db.deliveries :: Joins(w.db, d)
    ensures WorkersSay(TransactionOf(w.db, w.workers[id]), w.settled,
                       w.workers[id := w.workers[id].(phase := PhaseAfter(w.db, w.workers[id]))])
  {
    var db' := TransactionOf(w.db, w.workers[id]);
    var workers := w.workers[id := w.workers[id].(phase := PhaseAfter(w.db, w.workers[id]))];
    forall x | x in workers ensures WorkerSays(db', w.settled, workers[x]) {
      assert WorkerSays(w.db, w.settled, w.workers[x]);
      WorkerSaysOn(w.db, w.settled, db', w.settled, w.workers[x]);
      if x == id {
        PhaseAfterSays(w.db, db', w.settled, w.workers[id]);
      }
    }
  }

  lemma PhaseAfterSays(db: Db, db': Db, settled: set<Uuid>, worker: Worker)
    requires IsTransactional(worker.phase) && WorkerSays(db', settled, worker)
    ensures WorkerSays(db', settled, worker.(phase := PhaseAfter(db, worker)))
  {
  }

  /** A call that writes no table, and leaves its run where it may be. */
  lemma MovedKeepsContent(w: World, id: nat, phase: Phase, w': World)
    requires ContentOk(w) && id in w.workers && WorkerSays(w.db, w.settled, w.workers[id].(phase := phase))
    requires forall d | d in w.db.deliveries :: Joins(w.db, d)
    requires w'.db.deliveries == w.db.deliveries && w'.db.messages == w.db.messages
    requires w'.db.registry == w.db.registry && w'.db.handles == w.db.handles && w'.db.hosts == w.db.hosts
    requires w'.settled == w.settled && w'.workers == w.workers[id := w.workers[id].(phase := phase)]
    ensures ContentOk(w')
  {
    assert forall d | Joins(w.db, d) :: ReadsTheSame(w.db, w.settled, w'.db, w'.settled, d);
    forall d | d in w'.db.deliveries ensures RowSays(w'.db, w'.settled, d) {
      assert RowSays(w.db, w.settled, d);
      RowSaysOn(w.db, w.settled, w'.db, w'.settled, d);
    }
    forall x | x in w'.workers ensures WorkerSays(w'.db, w'.settled, w'.workers[x]) {
      assert x != id ==> WorkerSays(w.db, w.settled, w.workers[x]);
      WorkerSaysOn(w.db, w.settled, w'.db, w'.settled, w'.workers[x]);
    }
  }

  /** A run decides on the context that it just read. */
  lemma DecidedSays(w: World, d: Uuid, worker: Worker)
    requires worker.delivery == d
    ensures WorkerSays(w.db, w.settled, worker.(phase := Decide(w, GetContext(w.db, d))))
  {
    if Joins(w.db, d) {
      assert ContextFits(w.db, w.settled, d, ReadContext(w.db, d));
    }
  }

  lemma StartingKeepsContent(w: World, id: nat, o: Oracle)
    requires Inv(w) && ContentOk(w) && id in w.workers && w.workers[id].phase.Starting?
    ensures ContentOk(Work(w, id, o))
  {
    var d := w.workers[id].delivery;
    JoinsAll(w);
    DecidedSays(w, d, w.workers[id]);
    MovedKeepsContent(w, id, Decide(w, GetContext(w.db, d)), Work(w, id, o));
  }

  /** What a run signs says the right thing. */
  lemma ProjectSays(db: Db, settled: set<Uuid>, d: Uuid, ctx: Context, now: int)
    requires ContextOk(db, d, ctx) && ContextFits(db, settled, d, ctx)
    ensures Says(db, settled, d, Project(ctx, now))
  {
    var input := ProjectionInput(ctx.message.body, ctx.destinationChannel, ctx.localParent, ctx.messageId,
                                 ctx.message.event.pubkey, ctx.message.actorDigits, ctx.message.actorName,
                                 ctx.sourceCommunity, ctx.sourceSlug, IdOf(ctx.message.event));
    ProjectionSays(input, BridgeKey(ctx.destinationCommunity), now);
    assert Project(ctx, now) == CreateProjection(input, BridgeKey(ctx.destinationCommunity), now);
  }

  /** The event of a context is the row's. */
  lemma StoredSays(db: Db, settled: set<Uuid>, d: Uuid, ctx: Context)
    requires RowSays(db, settled, d) && ContextOk(db, d, ctx) && ctx.signed.Some?
    ensures Says(db, settled, d, ctx.signed.value)
  {
  }

  lemma ProjectingKeepsContent(w: World, id: nat, o: Oracle)
    requires Inv(w) && ContentOk(w) && id in w.workers && w.workers[id].phase.Projecting?
    ensures ContentOk(Work(w, id, o))
  {
    var worker := w.workers[id];
    var ctx := worker.phase.ctx;
    JoinsAll(w);
    assert WorkerOk(w.db, w.relay, worker) && WorkerSays(w.db, w.settled, worker);
    AfterProjectingSays(w.db, w.relay, w, worker, o.now);
    WorkIsProjecting(w, id, o);
    MovedKeepsContent(w, id, AfterProjecting(w, worker, o.now), SetPhase(w, id, AfterProjecting(w, worker, o.now)));
  }

  lemma AfterProjectingSays(db: Db, relay: Relay, w: World, worker: Worker, now: int)
    requires RowsSay(db, w.settled) && worker.phase.Projecting?
    requires WorkerOk(db, relay, worker) && WorkerSays(db, w.settled, worker)
    ensures WorkerSays(db, w.settled, worker.(phase := AfterProjecting(w, worker, now)))
  {
    var ctx := worker.phase.ctx;
    if ctx.signed.Some? {
      assert RowSays(db, w.settled, worker.delivery);
      StoredSays(db, w.settled, worker.delivery, ctx);
    } else {
      ProjectSays(db, w.settled, worker.delivery, ctx, now);
    }
  }

  /** Where a run goes that is to sign. */
  function AfterProjecting(w: World, worker: Worker, now: int): Phase
    requires worker.phase.Projecting?
  {
    var ctx := worker.phase.ctx;
    if ctx.signed.Some? then Persisting(ctx, ctx.signed.value)
    else if SessionIsLive(w, ctx.destinationCommunity, worker.phase.session) then Persisting(ctx, Project(ctx, now))
    else Threw(KeyWiped)
  }

  lemma WorkIsProjecting(w: World, id: nat, o: Oracle)
    requires id in w.workers && w.workers[id].phase.Projecting?
    ensures Work(w, id, o) == SetPhase(w, id, AfterProjecting(w, w.workers[id], o.now))
  {
  }

  lemma PublishingKeepsContent(w: World, id: nat, o: Oracle)
    requires Inv(w) && ContentOk(w) && id in w.workers && w.workers[id].phase.Publishing?
    ensures ContentOk(Work(w, id, o))
  {
    JoinsAll(w);
    WorkIsPublishing(w, id, o);
    MovedKeepsContent(w, id, Published(w, id, o).workers[id].phase, Published(w, id, o));
  }

  lemma HintingKeepsContent(w: World, id: nat, o: Oracle)
    requires Inv(w) && ContentOk(w) && id in w.workers && w.workers[id].phase.Hinting?
    ensures ContentOk(Work(w, id, o))
  {
    JoinsAll(w);
    WorkIsHinting(w, id, o);
    MovedKeepsContent(w, id, Returned, Work(w, id, o));
  }

  lemma WorkKeepsContent(w: World, id: nat, o: Oracle)
    requires Inv(w) && ContentOk(w) && id in w.workers
    ensures ContentOk(Work(w, id, o))
  {
    if IsTransactional(w.workers[id].phase) {
      TransactionKeepsContent(w, id, o);
    } else if w.workers[id].phase.Starting? {
      StartingKeepsContent(w, id, o);
    } else if w.workers[id].phase.Projecting? {
      ProjectingKeepsContent(w, id, o);
    } else if w.workers[id].phase.Publishing? {
      PublishingKeepsContent(w, id, o);
    } else if w.workers[id].phase.Hinting? {
      HintingKeepsContent(w, id, o);
    } else {
      EndedStays(w, id, o);
    }
  }

  lemma EndedStays(w: World, id: nat, o: Oracle)
    requires id in w.workers && (w.workers[id].phase.Returned? || w.workers[id].phase.Threw?)
    ensures Work(w, id, o) == w
  {
  }

  lemma ProceedKeepsContent(w: World, step: Step)
    requires Inv(w) && ContentOk(w) && step.Proceed? && Enabled(w, step)
    ensures ContentOk(Next(w, step))
  {
    WorkKeepsContent(w, step.worker, step.oracle);
  }

  lemma NextKeepsContent(w: World, step: Step)
    requires Sound(w) && ContentOk(w) && Enabled(w, step)
    ensures ContentOk(Next(w, step))
  {
    if step.ReadMessage? {
      ReadKeepsContent(w, step);
    } else if step.Proceed? {
      ProceedKeepsContent(w, step);
    } else if step.Change? {
      ChangeKeepsContent(w, step);
    } else {
      OutsideKeepsContent(w, step);
    }
  }

  lemma {:induction false} EveryContentIsOk(worlds: seq<World>, steps: seq<Step>, n: nat)
    requires IsRun(worlds, steps) && StartsEmpty(worlds) && n < |worlds|
    ensures ContentOk(worlds[n])
  {
    if n > 0 {
      EveryContentIsOk(worlds, steps, n - 1);
      EveryWorldIsSound(worlds, steps, n - 1);
      assert IsStep(worlds, steps, n - 1);
      NextKeepsContent(worlds[n - 1], steps[n - 1]);
    }
  }

  /**
   In every world of every run, each persisted projection is its row's message word for word,
   under the name of its author and of their community, and names the channel of its
   destination row, which has not moved if it is dedicated or was not rewritten since ingest.
   */
  lemma EveryProjectionSays(worlds: seq<World>, steps: seq<Step>, n: nat, d: Uuid)
    requires IsRun(worlds, steps) && StartsEmpty(worlds) && n < |worlds|
    requires d in worlds[n].db.deliveries && worlds[n].db.deliveries[d].signed.Some?
    ensures Joins(worlds[n].db, d)
    ensures Says(worlds[n].db, worlds[n].settled, d, worlds[n].db.deliveries[d].signed.value)
  {
    EveryContentIsOk(worlds, steps, n);
    assert RowSays(worlds[n].db, worlds[n].settled, d);
  }

  // ---------------------------------------------------------------- hints

  /** Only inboxes are hinted at. */
  ghost predicate HintsFit(db: Db) {
    forall h | h in db.hints :: h.0 in db.registry.endpoints && db.registry.endpoints[h.0].dedicatedTo == None
  }

  /** A run that delivered to an inbox leaves the hint for its sender claimed, and owes it exactly if it was not. */
  lemma HintIsClaimed(w: World, id: nat, o: Oracle)
    requires id in w.workers && w.workers[id].phase.Hinting?
    ensures var w', ctx := Work(w, id, o), w.workers[id].phase.ctx;
            var claim := (ctx.destination, ctx.sourceCommunity);
            var inbox := ctx.destination in w.db.registry.endpoints
                         && w.db.registry.endpoints[ctx.destination].dedicatedTo == None;
            && w'.db.hints == (if inbox then w.db.hints + {claim} else w.db.hints)
            && w'.pending == (if inbox && claim !in w.db.hints then w.pending + {Hint(claim.0, claim.1)} else w.pending)
  {
    WorkIsHinting(w, id, o);
  }

  lemma WorkKeepsHints(w: World, id: nat, o: Oracle)
    requires id in w.workers && HintsFit(w.db)
    ensures HintsFit(Work(w, id, o).db)
  {
    WorkKeepsRegistry(w, id, o);
    if w.workers[id].phase.Hinting? {
      HintIsClaimed(w, id, o);
    } else if IsTransactional(w.workers[id].phase) {
      WorkIsTransaction(w, id, o);
    }
  }

  lemma OthersKeepHints(w: World, step: Step)
    requires Enabled(w, step) && !step.Proceed?
    ensures Next(w, step).db.hints == w.db.hints
  {
  }

  lemma NextKeepsHints(w: World, step: Step)
    requires HintsFit(w.db) && Enabled(w, step)
    ensures HintsFit(Next(w, step).db)
  {
    RowsAreKept(w, step);
    if step.Proceed? {
      WorkKeepsHints(w, step.worker, step.oracle);
    } else {
      OthersKeepHints(w, step);
      HintsFitOn(w.db, Next(w, step).db);
    }
  }

  lemma HintsFitOn(db: Db, db': Db)
    requires HintsFit(db) && db'.hints == db.hints && KeepsRows(db.registry.endpoints, db'.registry.endpoints)
    ensures HintsFit(db')
  {
    forall h | h in db'.hints
      ensures h.0 in db'.registry.endpoints && db'.registry.endpoints[h.0].dedicatedTo == None
    {
      assert h in db.hints;
      RowIsKept(db.registry.endpoints, db'.registry.endpoints, h.0);
    }
  }

  lemma RowIsKept(eps: Endpoints, eps': Endpoints, id: EndpointId)
    requires KeepsRows(eps, eps') && id in eps
    ensures id in eps' && eps'[id].dedicatedTo == eps[id].dedicatedTo
  {
  }

  /** In every world of every run, only inboxes have been hinted at: a bound channel has nobody to tell. */
  lemma {:induction false} OnlyInboxesAreHinted(worlds: seq<World>, steps: seq<Step>, n: nat)
    requires IsRun(worlds, steps) && StartsEmpty(worlds) && n < |worlds|
    ensures HintsFit(worlds[n].db)
  {
    if n > 0 {
      OnlyInboxesAreHinted(worlds, steps, n - 1);
      assert IsStep(worlds, steps, n - 1);
      NextKeepsHints(worlds[n - 1], steps[n - 1]);
    }
  }
}
