/**
 Worker progress. When no two runs of one delivery overlap, the row's state and the
 run's position determine each other, so a run that ends has settled its delivery;
 and a delivery is cancelled only if one of its endpoints was rewritten.
 */
module NetworkSerial {
  import opened Wrappers
  import opened Nostr
  import opened Bridge
  import opened Hub
  import opened Routing
  import opened Tables
  import opened Network
  import opened NetworkInvariant
  import opened NetworkSteps
  import opened NetworkProof
  import opened NetworkTheorems

  predicate IsActive(worker: Worker) {
    !worker.phase.Returned? && !worker.phase.Threw?
  }

  /** The queue starts no run of a delivery while another one is under way. */
  predicate IsSerialStep(w: World, step: Step) {
    step.Begin? ==>
      forall id | id in w.workers && IsActive(w.workers[id]) :: w.workers[id].delivery != step.delivery
  }

  ghost predicate IsSerialRun(worlds: seq<World>, steps: seq<Step>) {
    && IsRun(worlds, steps)
    && forall n | 0 <= n < |steps| :: IsSerialStep(worlds[n], steps[n])
  }

  // ---------------------------------------------------------------- every run ends

  /** The number of calls a run still has before it, at most. */
  function CallsLeft(phase: Phase): nat {
    match phase
    case Starting => 8
    case Marking(_, _) => 7
    case Projecting(_, _) => 6
    case Persisting(_, _) => 5
    case Checking(_, _) => 4
    case Publishing(_, _) => 3
    case Completing(_, _) => 2
    case Hinting(_) => 1
    case Cancelling => 1
    case Retrying(_) => 1
    case Returned => 0
    case Threw(_) => 0
  }

  /** Each call brings a run closer to its end, under any interleaving. */
  lemma CallsLeftFalls(w: World, id: nat, o: Oracle)
    requires id in w.workers && IsActive(w.workers[id])
    ensures id in Work(w, id, o).workers && CallsLeft(Work(w, id, o).workers[id].phase) < CallsLeft(w.workers[id].phase)
  {
    if IsTransactional(w.workers[id].phase) {
      WorkIsTransaction(w, id, o);
    }
  }

  // ---------------------------------------------------------------- the serial invariant

  predicate PhaseFits(worker: Worker, state: DeliveryState) {
    match worker.phase
    case Starting => true
    case Cancelling => !IsTerminal(state)
    case Retrying(_) => !IsTerminal(state)
    case Marking(_, _) => !IsTerminal(state)
    case Hinting(_) => state == Delivered
    case Returned => IsTerminal(state)
    case Threw(fault) => !IsLastAttempt(worker) || fault == KeyWiped
    case _ => state == Delivering
  }

  predicate WorkerFits(db: Db, worker: Worker) {
    worker.delivery in db.deliveries && PhaseFits(worker, db.deliveries[worker.delivery].state)
  }

  ghost predicate OnePerDelivery(workers: map<nat, Worker>) {
    forall a, b | a in workers && b in workers && IsActive(workers[a]) && IsActive(workers[b])
                  && workers[a].delivery == workers[b].delivery :: a == b
  }

  /** A delivery whose endpoints were never rewritten is not cancelled, nor about to be. */
  ghost predicate SettledLives(db: Db, workers: map<nat, Worker>, settled: set<Uuid>) {
    forall d | d in settled ::
      && d in db.deliveries && db.deliveries[d].state != Cancelled
      && forall id | id in workers && workers[id].delivery == d :: !workers[id].phase.Cancelling?
  }

  ghost predicate WorkersFit(db: Db, workers: map<nat, Worker>) {
    forall id | id in workers :: WorkerFits(db, workers[id])
  }

  ghost predicate SerialOk(w: World) {
    WorkersFit(w.db, w.workers) && OnePerDelivery(w.workers) && SettledLives(w.db, w.workers, w.settled)
  }

  // ---------------------------------------------------------------- one transaction

  lemma StartsUnlessTerminal(state: DeliveryState)
    ensures state in {Queued, Retry, Delivering} <==> !IsTerminal(state)
  {
    match state
    case Queued =>
    case Delivering =>
    case Retry =>
    case Delivered =>
    case Failed =>
    case Cancelled =>
  }

  lemma MarkingFits(db: Db, worker: Worker)
    requires WorkerFits(db, worker) && (worker.phase.Marking? || worker.phase.Retrying? || worker.phase.Cancelling?)
    ensures WorkerFits(TransactionOf(db, worker), worker.(phase := PhaseAfter(db, worker)))
  {
    StartsUnlessTerminal(db.deliveries[worker.delivery].state);
  }

  lemma PersistingFits(db: Db, worker: Worker)
    requires WorkerFits(db, worker) && (worker.phase.Persisting? || worker.phase.Checking?)
    ensures WorkerFits(TransactionOf(db, worker), worker.(phase := PhaseAfter(db, worker)))
  {
  }

  lemma CompletingFits(db: Db, relay: Relay, worker: Worker)
    requires RowsOk(db, relay) && WorkerOk(db, relay, worker) && WorkerFits(db, worker) && worker.phase.Completing?
    ensures WorkerFits(TransactionOf(db, worker), worker.(phase := PhaseAfter(db, worker)))
  {
    CompleteKeeps(db, relay, worker.delivery, worker.phase.event);
  }

  lemma TransactionFits(db: Db, relay: Relay, worker: Worker)
    requires RowsOk(db, relay) && WorkerOk(db, relay, worker) && WorkerFits(db, worker) && IsTransactional(worker.phase)
    ensures WorkerFits(TransactionOf(db, worker), worker.(phase := PhaseAfter(db, worker)))
  {
    match worker.phase
    case Completing(_, _) => CompletingFits(db, relay, worker);
    case Persisting(_, _) => PersistingFits(db, worker);
    case Checking(_, _) => PersistingFits(db, worker);
    case _ => MarkingFits(db, worker);
  }

  /** Only the run's own row is written, and no terminal row at all. */
  lemma TransactionIsLocal(db: Db, worker: Worker, d: Uuid)
    requires WorkerFits(db, worker) && d in db.deliveries
    requires d != worker.delivery || IsTerminal(db.deliveries[d].state)
    ensures HasState(TransactionOf(db, worker), d, db.deliveries[d].state)
  {
    if d != worker.delivery {
      OtherRowStays(db, worker, d);
    }
  }

  lemma TransactionKeepsSettled(db: Db, relay: Relay, worker: Worker, settled: set<Uuid>)
    requires WorkerFits(db, worker) && IsTransactional(worker.phase)
    requires worker.delivery in settled ==> !worker.phase.Cancelling?
    requires RowsOk(db, relay) && WorkerOk(db, relay, worker)
    requires forall d | d in settled :: d in db.deliveries && db.deliveries[d].state != Cancelled
    ensures forall d | d in settled :: d in TransactionOf(db, worker).deliveries
                                       && TransactionOf(db, worker).deliveries[d].state != Cancelled
  {
    forall d | d in settled
      ensures d in TransactionOf(db, worker).deliveries && TransactionOf(db, worker).deliveries[d].state != Cancelled
    {
      if d != worker.delivery {
        OtherRowStays(db, worker, d);
      } else {
        OwnRowIsNotCancelled(db, relay, worker);
      }
    }
  }

  lemma OwnRowIsNotCancelled(db: Db, relay: Relay, worker: Worker)
    requires RowsOk(db, relay) && WorkerOk(db, relay, worker) && WorkerFits(db, worker)
    requires IsTransactional(worker.phase) && !worker.phase.Cancelling?
    ensures worker.delivery in TransactionOf(db, worker).deliveries
    ensures TransactionOf(db, worker).deliveries[worker.delivery].state != Cancelled
  {
    TransactionFits(db, relay, worker);
  }

  /** Neither route check fails while the two endpoints are as ingest saw them. */
  lemma SettledIsNotCancelled(db: Db, worker: Worker, settled: set<Uuid>)
    requires SettledOk(db, settled) && worker.delivery in settled && WorkerFits(db, worker)
    requires IsTransactional(worker.phase)
    ensures !PhaseAfter(db, worker).Cancelling? || worker.phase.Cancelling?
  {
  }

  // ---------------------------------------------------------------- one call of a run

  /** A call that leaves the run in a fitting phase and other rows alone. */
  lemma CallKeepsSerial(w: World, w': World, id: nat)
    requires SerialOk(w) && id in w.workers && IsActive(w.workers[id])
    requires id in w'.workers && w'.workers == w.workers[id := w'.workers[id]] && w'.settled == w.settled
    requires w'.workers[id].delivery == w.workers[id].delivery && WorkerFits(w'.db, w'.workers[id])
    requires forall d | d in w.db.deliveries && (d != w.workers[id].delivery || IsTerminal(w.db.deliveries[d].state)) ::
               HasState(w'.db, d, w.db.deliveries[d].state)
    requires forall d | d in w.settled :: d in w'.db.deliveries && w'.db.deliveries[d].state != Cancelled
    requires w.workers[id].delivery in w.settled ==> !w'.workers[id].phase.Cancelling?
    ensures SerialOk(w')
  {
    forall x | x in w'.workers ensures WorkerFits(w'.db, w'.workers[x]) {
      if x != id {
        assert WorkerFits(w.db, w.workers[x]);
      }
    }
  }

  lemma TransactionKeepsSerial(w: World, id: nat, o: Oracle)
    requires Inv(w) && SerialOk(w) && id in w.workers && IsTransactional(w.workers[id].phase)
    ensures SerialOk(Work(w, id, o))
  {
    var worker := w.workers[id];
    WorkIsTransaction(w, id, o);
    TransactionFits(w.db, w.relay, worker);
    forall d | d in w.db.deliveries && (d != worker.delivery || IsTerminal(w.db.deliveries[d].state))
      ensures HasState(TransactionOf(w.db, worker), d, w.db.deliveries[d].state)
    {
      TransactionIsLocal(w.db, worker, d);
    }
    TransactionKeepsSettled(w.db, w.relay, worker, w.settled);
    if worker.delivery in w.settled {
      SettledIsNotCancelled(w.db, worker, w.settled);
    }
    CallKeepsSerial(w, Work(w, id, o), id);
  }

  lemma StartingFits(w: World, id: nat)
    requires Inv(w) && id in w.workers
    ensures var worker := w.workers[id];
            var phase := Decide(w, GetContext(w.db, worker.delivery));
            && WorkerFits(w.db, worker.(phase := phase))
            && (worker.delivery in w.settled ==> !phase.Cancelling?)
  {
    assert WorkerOk(w.db, w.relay, w.workers[id]);
    assert DeliveryOk(w.db, w.relay, w.workers[id].delivery);
  }

  lemma LocalCallKeepsSerial(w: World, id: nat, o: Oracle)
    requires SerialOk(w) && id in w.workers && IsActive(w.workers[id])
    requires !IsTransactional(w.workers[id].phase) && !w.workers[id].phase.Starting?
    ensures SerialOk(Work(w, id, o))
  {
    assert WorkerFits(w.db, w.workers[id]);
    CallKeepsSerial(w, Work(w, id, o), id);
  }

  lemma StartingKeepsSerial(w: World, id: nat, o: Oracle)
    requires Inv(w) && SerialOk(w) && id in w.workers && w.workers[id].phase.Starting?
    ensures SerialOk(Work(w, id, o))
  {
    StartingFits(w, id);
    CallKeepsSerial(w, Work(w, id, o), id);
  }

  lemma WorkKeepsSerial(w: World, id: nat, o: Oracle)
    requires Inv(w) && SerialOk(w) && id in w.workers
    ensures SerialOk(Work(w, id, o))
  {
    if IsTransactional(w.workers[id].phase) {
      TransactionKeepsSerial(w, id, o);
    } else if w.workers[id].phase.Starting? {
      StartingKeepsSerial(w, id, o);
    } else if IsActive(w.workers[id]) {
      LocalCallKeepsSerial(w, id, o);
    } else {
      IdleStays(w, id, o);
    }
  }

  lemma IdleStays(w: World, id: nat, o: Oracle)
    requires id in w.workers && !IsActive(w.workers[id])
    ensures Work(w, id, o) == w
  {
  }

  // ---------------------------------------------------------------- every step

  lemma NewRowsKeepSerial(w: World, w': World, made: set<Uuid>)
    requires SerialOk(w) && w'.workers == w.workers && w'.settled == w.settled + made
    requires forall d | d in w.db.deliveries :: d in w'.db.deliveries && w'.db.deliveries[d] == w.db.deliveries[d]
    requires forall d | d in made ::
               d !in w.db.deliveries && d in w'.db.deliveries && w'.db.deliveries[d].state == Queued
    ensures SerialOk(w')
  {
    forall id | id in w.workers ensures WorkerFits(w'.db, w.workers[id]) {
      assert WorkerFits(w.db, w.workers[id]);
    }
  }

  lemma IngestMakesNewRows(db: Db, relay: Relay, input: IngestInput, first: Uuid)
    requires TablesOk(db, relay) && IsSourceInput(db, relay, input) && FreshIds(db, input.messageId, first)
    ensures var out := Ingest(db, input, first);
            && (forall d | d in db.deliveries :: d in out.db.deliveries && out.db.deliveries[d] == db.deliveries[d])
            && (out.result.Created? ==>
                  forall d | d in out.result.deliveryIds :: d !in db.deliveries && HasState(out.db, d, Queued))
  {
    IngestAnswersOnce(db, relay, input, first);
    forall d | d in db.deliveries
      ensures d in Ingest(db, input, first).db.deliveries
      ensures Ingest(db, input, first).db.deliveries[d] == db.deliveries[d]
    {
      IngestKeepsRows(db, input, first, d);
    }
  }

  lemma IngestKeepsSerial(w: World, input: IngestInput, first: Uuid, w': World)
    requires TablesOk(w.db, w.relay) && SerialOk(w) && IsSourceInput(w.db, w.relay, input)
    requires FreshIds(w.db, input.messageId, first)
    requires var out := Ingest(w.db, input, first);
             w' == w.(db := out.db,
                      settled := if out.result.Created? then w.settled + out.result.deliveryIds else w.settled)
    ensures SerialOk(w')
  {
    IngestMakesNewRows(w.db, w.relay, input, first);
    var result := Ingest(w.db, input, first).result;
    NewRowsKeepSerial(w, w', if result.Created? then result.deliveryIds else {});
  }

  lemma ReadKeepsSerial(w: World, step: Step)
    requires Sound(w) && SerialOk(w) && step.ReadMessage? && Enabled(w, step)
    ensures SerialOk(Next(w, step))
  {
    ReadInputIsOk(w, step);
    IngestKeepsSerial(w, InputOf(step), step.first, Next(w, step));
  }

  lemma BeginKeepsSerial(w: World, step: Step)
    requires JobsMatch(w.db) && SerialOk(w) && step.Begin? && Enabled(w, step) && IsSerialStep(w, step)
    ensures SerialOk(Next(w, step))
  {
    assert IsQueued(w.db, step.delivery);
    var j :| j in w.db.jobs && w.db.jobs[j] == step.delivery;
  }

  lemma NextKeepsSerial(w: World, step: Step)
    requires Sound(w) && SerialOk(w) && Enabled(w, step) && IsSerialStep(w, step)
    ensures SerialOk(Next(w, step))
  {
    if step.ReadMessage? {
      ReadKeepsSerial(w, step);
    } else if step.Begin? {
      BeginKeepsSerial(w, step);
    } else if step.Proceed? {
      ProceedKeepsSerial(w, step);
    } else {
      OthersKeepSerial(w, step);
    }
  }

  lemma ProceedKeepsSerial(w: World, step: Step)
    requires Inv(w) && SerialOk(w) && step.Proceed? && Enabled(w, step)
    ensures SerialOk(Next(w, step))
  {
    WorkKeepsSerial(w, step.worker, step.oracle);
  }

  lemma OthersTouchNoRun(w: World, step: Step)
    requires Enabled(w, step) && !step.ReadMessage? && !step.Begin? && !step.Proceed?
    ensures var w' := Next(w, step);
            && w'.db.deliveries == w.db.deliveries && w'.settled <= w.settled
            && forall id | id in w'.workers :: id in w.workers && w'.workers[id] == w.workers[id]
  {
  }

  lemma OthersKeepSerial(w: World, step: Step)
    requires SerialOk(w) && Enabled(w, step) && !step.ReadMessage? && !step.Begin? && !step.Proceed?
    ensures SerialOk(Next(w, step))
  {
    OthersTouchNoRun(w, step);
    QuietKeepsSerial(w, Next(w, step));
  }

  /** A step that begins no run, rewrites no delivery and settles none. */
  lemma QuietKeepsSerial(w: World, w': World)
    requires SerialOk(w) && w'.db.deliveries == w.db.deliveries && w'.settled <= w.settled
    requires forall id | id in w'.workers :: id in w.workers && w'.workers[id] == w.workers[id]
    ensures SerialOk(w')
  {
    forall id | id in w'.workers ensures WorkerFits(w'.db, w'.workers[id]) {
      assert WorkerFits(w.db, w.workers[id]);
    }
  }

  lemma RunKeepsSerial(worlds: seq<World>, steps: seq<Step>, n: nat)
    requires IsSerialRun(worlds, steps) && StartsEmpty(worlds) && n < |steps| && SerialOk(worlds[n])
    ensures SerialOk(worlds[n + 1])
  {
    EveryWorldIsSound(worlds, steps, n);
    assert IsStep(worlds, steps, n);
    NextKeepsSerial(worlds[n], steps[n]);
  }

  lemma StartIsSerial(worlds: seq<World>)
    requires StartsEmpty(worlds)
    ensures SerialOk(worlds[0])
  {
  }

  lemma {:induction false} EveryWorldIsSerial(worlds: seq<World>, steps: seq<Step>, n: nat)
    requires IsSerialRun(worlds, steps) && StartsEmpty(worlds) && n < |worlds|
    ensures SerialOk(worlds[n])
  {
    if n == 0 {
      StartIsSerial(worlds);
    } else {
      EveryWorldIsSerial(worlds, steps, n - 1);
      RunKeepsSerial(worlds, steps, n - 1);
    }
  }

  lemma RunsAlwaysFit(worlds: seq<World>, steps: seq<Step>, n: nat)
    requires IsSerialRun(worlds, steps) && StartsEmpty(worlds) && n < |worlds|
    ensures WorkersFit(worlds[n].db, worlds[n].workers)
  {
    EveryWorldIsSerial(worlds, steps, n);
  }

  // ---------------------------------------------------------------- worker progress

  /** A serial run that returns has left its delivery delivered, failed or cancelled, for good. */
  lemma ReturnedMeansSettled(worlds: seq<World>, steps: seq<Step>, n: nat, id: nat)
    requires IsSerialRun(worlds, steps) && StartsEmpty(worlds) && n < |worlds|
    requires id in worlds[n].workers && worlds[n].workers[id].phase.Returned?
    ensures worlds[n].workers[id].delivery in worlds[n].db.deliveries
    ensures IsTerminal(worlds[n].db.deliveries[worlds[n].workers[id].delivery].state)
  {
    RunsAlwaysFit(worlds, steps, n);
    assert WorkerFits(worlds[n].db, worlds[n].workers[id]);
  }

  predicate MustThrow(w: World, worker: Worker) {
    || (worker.phase.Retrying? && !IsLastAttempt(worker))
    || (&& worker.phase.Projecting? && worker.phase.ctx.signed.None?
        && !SessionIsLive(w, worker.phase.ctx.destinationCommunity, worker.phase.session))
  }

  /**
   Exactly when a call throws: a retry was noted and tries remain, or the session whose
   key the run was to sign with has been closed in the meantime.
   */
  lemma ThrowsIff(w: World, id: nat, o: Oracle)
    requires Inv(w) && SerialOk(w) && id in w.workers && IsActive(w.workers[id])
    ensures id in Work(w, id, o).workers
    ensures Work(w, id, o).workers[id].phase.Threw? <==> MustThrow(w, w.workers[id])
  {
    var worker := w.workers[id];
    assert WorkerFits(w.db, worker);
    if IsTransactional(worker.phase) {
      WorkIsTransaction(w, id, o);
      TransactionThrowsIff(w.db, w.relay, worker);
    } else {
      LocalThrowsIff(w, id, o);
    }
  }

  lemma LocalThrowsIff(w: World, id: nat, o: Oracle)
    requires id in w.workers && IsActive(w.workers[id]) && !IsTransactional(w.workers[id].phase)
    ensures id in Work(w, id, o).workers
    ensures Work(w, id, o).workers[id].phase.Threw? <==> MustThrow(w, w.workers[id])
  {
  }

  lemma TransactionThrowsIff(db: Db, relay: Relay, worker: Worker)
    requires RowsOk(db, relay) && WorkerOk(db, relay, worker) && WorkerFits(db, worker) && IsTransactional(worker.phase)
    ensures PhaseAfter(db, worker).Threw? <==> worker.phase.Retrying? && !IsLastAttempt(worker)
  {
    if worker.phase.Completing? {
      CompleteKeeps(db, relay, worker.delivery, worker.phase.event);
    }
  }

  /** The last run never throws, unless its session was closed before it could sign. */
  lemma LastRunReturns(worlds: seq<World>, steps: seq<Step>, n: nat, id: nat)
    requires IsSerialRun(worlds, steps) && StartsEmpty(worlds) && n < |worlds|
    requires id in worlds[n].workers && IsLastAttempt(worlds[n].workers[id]) && !IsActive(worlds[n].workers[id])
    ensures worlds[n].workers[id].phase == Threw(KeyWiped) || worlds[n].workers[id].phase == Returned
  {
    RunsAlwaysFit(worlds, steps, n);
    assert WorkerFits(worlds[n].db, worlds[n].workers[id]);
  }

  /** In serial runs `failed` is final as well: no step leaves a terminal state. */
  lemma TerminalStatesStay(w: World, step: Step, d: Uuid, state: DeliveryState)
    requires Sound(w) && SerialOk(w) && Enabled(w, step) && HasState(w.db, d, state) && IsTerminal(state)
    ensures HasState(Next(w, step).db, d, state)
  {
    if step.ReadMessage? {
      ReadKeepsRow(w, step, d);
    } else if step.Proceed? {
      WorkKeepsTerminal(w, step.worker, step.oracle, d, state);
    } else {
      OthersKeepDeliveries(w, step);
    }
  }

  lemma WorkKeepsTerminal(w: World, id: nat, o: Oracle, d: Uuid, state: DeliveryState)
    requires SerialOk(w) && id in w.workers && HasState(w.db, d, state) && IsTerminal(state)
    ensures HasState(Work(w, id, o).db, d, state)
  {
    if IsTransactional(w.workers[id].phase) {
      WorkIsTransaction(w, id, o);
      assert WorkerFits(w.db, w.workers[id]);
      TransactionIsLocal(w.db, w.workers[id], d);
    }
  }

  // ---------------------------------------------------------------- ingest implies deliverable

  /** A delivery is cancelled only after one of its two endpoints was rewritten. */
  lemma CancelledMeansRewritten(worlds: seq<World>, steps: seq<Step>, n: nat, d: Uuid)
    requires IsSerialRun(worlds, steps) && StartsEmpty(worlds) && n < |worlds|
    requires HasState(worlds[n].db, d, Cancelled)
    ensures d !in worlds[n].settled
  {
    EveryWorldIsSerial(worlds, steps, n);
  }

  lemma SettledPhaseAfter(db: Db, worker: Worker, settled: set<Uuid>)
    requires SettledOk(db, settled) && worker.delivery in settled && IsTransactional(worker.phase)
    ensures worker.delivery in db.deliveries
    ensures PhaseAfter(db, worker).Cancelling?
       <==> worker.phase.Checking? && db.deliveries[worker.delivery].state != Delivering
  {
  }

  lemma SettledDecision(w: World, id: nat)
    requires SettledOk(w.db, w.settled) && id in w.workers && w.workers[id].delivery in w.settled
    ensures !Decide(w, GetContext(w.db, w.workers[id].delivery)).Cancelling?
  {
  }

  /**
   Under any interleaving, a run turns to cancelling a delivery whose endpoints nobody
   rewrote exactly when its second check finds that another run moved the row out of
   `delivering`.
   */
  lemma SettledIsCancelledIff(w: World, id: nat, o: Oracle)
    requires SettledOk(w.db, w.settled) && id in w.workers && w.workers[id].delivery in w.settled
    ensures w.workers[id].delivery in w.db.deliveries && id in Work(w, id, o).workers
    ensures Work(w, id, o).workers[id].phase.Cancelling?
       <==> w.workers[id].phase.Checking? && w.db.deliveries[w.workers[id].delivery].state != Delivering
  {
    SettledDecision(w, id);
    if IsTransactional(w.workers[id].phase) {
      WorkIsTransaction(w, id, o);
      SettledPhaseAfter(w.db, w.workers[id], w.settled);
    }
  }
}
