/**
 What a delivery row records of its own history: how often a run has started it, and the
 code of the last run that gave up on it.
 */
module NetworkRecords {
  import opened Wrappers
  import opened Nostr
  import opened Events
  import opened Hub
  import opened Routing
  import opened Tables
  import opened Network
  import opened NetworkInvariant
  import opened NetworkSteps
  import opened NetworkProof
  import opened NetworkTheorems
  import opened NetworkContent

  // ---------------------------------------------------------------- one transaction

  /** The run is about to start this row, which is still to be delivered. */
  predicate Starts(worker: Worker, d: Uuid, row: Delivery) {
    && worker.delivery == d && worker.phase.Marking?
    && (row.state == Queued || row.state == Retry || row.state == Delivering)
  }

  /** The run is about to give up on this row, which nobody delivered or cancelled meanwhile. */
  predicate Stops(worker: Worker, d: Uuid, row: Delivery) {
    worker.delivery == d && worker.phase.Retrying? && row.state != Delivered && row.state != Cancelled
  }

  /** A row before and after a transaction of the run. */
  predicate Records(worker: Worker, d: Uuid, row: Delivery, row': Delivery) {
    && row'.attempts == row.attempts + (if Starts(worker, d, row) then 1 else 0)
    && (if Starts(worker, d, row) then row'.state == Delivering && row'.error == row.error
        else if Stops(worker, d, row) then
          && row'.state == (if worker.retryCount >= 8 then Failed else Retry)
          && row'.error == Some(FirstOf(worker.phase.code, 80))
        else
          || (row'.state == row.state && row'.error == row.error)
          || (row'.state == Delivered && row'.error == None)
          || (row'.state == Cancelled && row'.error == Some("route_inactive")))
  }

  lemma CompletionRecord(db: Db, worker: Worker, event: Event)
    requires worker.delivery in db.deliveries && worker.phase.Completing?
    ensures var d, db' := worker.delivery, Complete(db, worker.delivery, event).db;
            d in db'.deliveries && Records(worker, d, db.deliveries[d], db'.deliveries[d])
  {
  }

  lemma SigningRecord(db: Db, worker: Worker, event: Event)
    requires worker.delivery in db.deliveries && worker.phase.Persisting?
    ensures var d, db' := worker.delivery, Persist(db, worker.delivery, event).db;
            d in db'.deliveries && Records(worker, d, db.deliveries[d], db'.deliveries[d])
  {
  }

  lemma StoppingRecord(db: Db, worker: Worker, code: string)
    requires worker.delivery in db.deliveries && worker.phase == Retrying(code)
    ensures var d, db' := worker.delivery, MarkRetry(db, worker.delivery, code, IsLastAttempt(worker));
            d in db'.deliveries && Records(worker, d, db.deliveries[d], db'.deliveries[d])
  {
  }

  lemma StartingRecord(db: Db, worker: Worker)
    requires worker.delivery in db.deliveries && worker.phase.Marking?
    ensures var d, db' := worker.delivery, MarkDelivering(db, worker.delivery);
            d in db'.deliveries && Records(worker, d, db.deliveries[d], db'.deliveries[d])
  {
  }

  lemma CancellingRecord(db: Db, worker: Worker)
    requires worker.delivery in db.deliveries && worker.phase.Cancelling?
    ensures var d, db' := worker.delivery, Cancel(db, worker.delivery);
            d in db'.deliveries && Records(worker, d, db.deliveries[d], db'.deliveries[d])
  {
  }

  lemma OwnRecord(db: Db, worker: Worker)
    requires worker.delivery in db.deliveries && IsTransactional(worker.phase)
    ensures var d, db' := worker.delivery, TransactionOf(db, worker);
            d in db'.deliveries && Records(worker, d, db.deliveries[d], db'.deliveries[d])
  {
    match worker.phase
    case Completing(_, event) => CompletionRecord(db, worker, event);
    case Persisting(_, event) => SigningRecord(db, worker, event);
    case Retrying(code) => StoppingRecord(db, worker, code);
    case Marking(_, _) => StartingRecord(db, worker);
    case Cancelling => CancellingRecord(db, worker);
    case Checking(_, _) =>
  }

  lemma OtherRecord(db: Db, worker: Worker, d: Uuid)
    requires d in db.deliveries && d != worker.delivery && IsTransactional(worker.phase)
    ensures var db' := TransactionOf(db, worker);
            d in db'.deliveries && db'.deliveries[d] == db.deliveries[d]
  {
    TransactionWritesOwn(db, worker);
  }

  // ---------------------------------------------------------------- one step

  predicate StartsIn(w: World, step: Step, d: Uuid) {
    step.Proceed? && step.worker in w.workers && d in w.db.deliveries
    && Starts(w.workers[step.worker], d, w.db.deliveries[d])
  }

  predicate StopsIn(w: World, step: Step, d: Uuid) {
    step.Proceed? && step.worker in w.workers && d in w.db.deliveries
    && Stops(w.workers[step.worker], d, w.db.deliveries[d])
  }

  /** A step that neither starts nor stops the row leaves it, or settles it. */
  predicate Passes(row: Delivery, row': Delivery) {
    && row'.attempts == row.attempts
    && (|| (row'.state == row.state && row'.error == row.error)
        || (row'.state == Delivered && row'.error == None)
        || (row'.state == Cancelled && row'.error == Some("route_inactive")))
  }

  lemma StepRecords(w: World, step: Step, d: Uuid)
    requires Enabled(w, step) && d in w.db.deliveries
    ensures d in Next(w, step).db.deliveries
    ensures var row, row' := w.db.deliveries[d], Next(w, step).db.deliveries[d];
            if step.Proceed? then Records(w.workers[step.worker], d, row, row') else row' == row
  {
    if step.ReadMessage? {
      ReadKeepsRow(w, step, d);
    } else if step.Proceed? {
      WorkRecords(w, step.worker, step.oracle, d);
    } else {
      OthersKeepDeliveries(w, step);
    }
  }

  lemma WorkRecords(w: World, id: nat, o: Oracle, d: Uuid)
    requires id in w.workers && d in w.db.deliveries
    ensures d in Work(w, id, o).db.deliveries
    ensures Records(w.workers[id], d, w.db.deliveries[d], Work(w, id, o).db.deliveries[d])
  {
    var worker := w.workers[id];
    if IsTransactional(worker.phase) {
      WorkIsTransaction(w, id, o);
      if worker.delivery == d {
        OwnRecord(w.db, worker);
      } else {
        OtherRecord(w.db, worker, d);
      }
    } else {
      CallKeepsDeliveries(w, id, o);
    }
  }

  lemma CallKeepsDeliveries(w: World, id: nat, o: Oracle)
    requires id in w.workers && !IsTransactional(w.workers[id].phase)
    ensures Work(w, id, o).db.deliveries == w.db.deliveries
  {
  }

  /** A new row is queued, and nobody has started it. */
  predicate IsNewRow(row: Delivery) {
    row.state == Queued && row.attempts == 0 && row.error == None
  }

  lemma NewRowIsQueued(w: World, step: Step, d: Uuid)
    requires Sound(w) && Enabled(w, step) && d !in w.db.deliveries && d in Next(w, step).db.deliveries
    ensures IsNewRow(Next(w, step).db.deliveries[d])
  {
    if step.ReadMessage? {
      ReadIsIngested(w, step);
      IngestedIsNew(w.db, InputOf(step), step.first, Next(w, step).db, d);
    } else if step.Proceed? {
      WorkAddsNoRow(w, step.worker, step.oracle, d);
    } else {
      OthersKeepDeliveries(w, step);
    }
  }

  /** What a step that reads a message makes of the tables. */
  lemma ReadIsIngested(w: World, step: Step)
    requires Sound(w) && step.ReadMessage? && Enabled(w, step)
    ensures IsIngested(w.db, InputOf(step), step.first, Next(w, step).db)
  {
    InputTells(w, step);
    IngestIsIngested(w.db, InputOf(step), step.first);
  }

  lemma IngestedIsNew(db: Db, input: IngestInput, first: Uuid, db': Db, d: Uuid)
    requires IsIngested(db, input, first, db') && d !in db.deliveries && d in db'.deliveries
    ensures IsNewRow(db'.deliveries[d])
  {
  }

  lemma WorkAddsNoRow(w: World, id: nat, o: Oracle, d: Uuid)
    requires id in w.workers && d !in w.db.deliveries
    ensures d !in Work(w, id, o).db.deliveries
  {
    if IsTransactional(w.workers[id].phase) {
      WorkIsTransaction(w, id, o);
      TransactionWritesOwn(w.db, w.workers[id]);
    } else {
      CallKeepsDeliveries(w, id, o);
    }
  }

  // ---------------------------------------------------------------- whole runs

  /** How many steps before world `n` started the row. */
  function StartsBefore(worlds: seq<World>, steps: seq<Step>, n: nat, d: Uuid): nat
    requires |worlds| == |steps| + 1 && n <= |steps|
  {
    if n == 0 then 0
    else StartsBefore(worlds, steps, n - 1, d) + if StartsIn(worlds[n - 1], steps[n - 1], d) then 1 else 0
  }

  /** The last step before world `n` that stopped the row. */
  predicate IsLastStop(worlds: seq<World>, steps: seq<Step>, n: nat, d: Uuid, i: nat)
    requires |worlds| == |steps| + 1 && n <= |steps|
  {
    i < n && StopsIn(worlds[i], steps[i], d) && forall j | i < j < n :: !StopsIn(worlds[j], steps[j], d)
  }

  predicate NeverStopped(worlds: seq<World>, steps: seq<Step>, n: nat, d: Uuid)
    requires |worlds| == |steps| + 1 && n <= |steps|
  {
    forall j | 0 <= j < n :: !StopsIn(worlds[j], steps[j], d)
  }

  /** The error is the last stop's code, cut to eighty characters, and absent exactly if nothing has stopped. */
  ghost predicate HasLastCode(worlds: seq<World>, steps: seq<Step>, n: nat, d: Uuid, error: Option<string>)
    requires |worlds| == |steps| + 1 && n <= |steps|
  {
    if NeverStopped(worlds, steps, n, d) then error == None
    else
      exists i: nat ::
        IsLastStop(worlds, steps, n, d, i) && error == Some(FirstOf(worlds[i].workers[steps[i].worker].phase.code, 80))
  }

  /** The last stop was a run's ninth or later for a failed row, and an earlier one for a row that waits for a retry. */
  ghost predicate StoppedAs(worlds: seq<World>, steps: seq<Step>, n: nat, d: Uuid, state: DeliveryState)
    requires |worlds| == |steps| + 1 && n <= |steps|
  {
    exists i: nat ::
      IsLastStop(worlds, steps, n, d, i)
      && state == if worlds[i].workers[steps[i].worker].retryCount >= 8 then Failed else Retry
  }

  /** A row as its history left it. */
  ghost predicate RecordIsTrue(worlds: seq<World>, steps: seq<Step>, n: nat, d: Uuid, row: Delivery)
    requires |worlds| == |steps| + 1 && n <= |steps|
  {
    && row.attempts == StartsBefore(worlds, steps, n, d)
    && match row.state
       case Delivered => row.error == None
       case Cancelled => row.error == Some("route_inactive")
       case Queued => row.error == None && row.attempts == 0 && NeverStopped(worlds, steps, n, d)
       case Delivering => row.attempts > 0 && HasLastCode(worlds, steps, n, d, row.error)
       case state => HasLastCode(worlds, steps, n, d, row.error) && StoppedAs(worlds, steps, n, d, state)
  }

  ghost predicate IsUntold(worlds: seq<World>, steps: seq<Step>, n: nat, d: Uuid)
    requires |worlds| == |steps| + 1 && n <= |steps|
  {
    NeverStopped(worlds, steps, n, d) && StartsBefore(worlds, steps, n, d) == 0
  }

  lemma OneMoreStop(worlds: seq<World>, steps: seq<Step>, n: nat, d: Uuid)
    requires |worlds| == |steps| + 1 && n < |steps|
    ensures StopsIn(worlds[n], steps[n], d) ==> IsLastStop(worlds, steps, n + 1, d, n)
    ensures !StopsIn(worlds[n], steps[n], d) ==>
              && (NeverStopped(worlds, steps, n + 1, d) <==> NeverStopped(worlds, steps, n, d))
              && forall i: nat | IsLastStop(worlds, steps, n, d, i) :: IsLastStop(worlds, steps, n + 1, d, i)
  {
  }

  /** A step that stops the row. */
  lemma StopIsRecorded(worlds: seq<World>, steps: seq<Step>, n: nat, d: Uuid, row: Delivery)
    requires |worlds| == |steps| + 1 && n < |steps| && StopsIn(worlds[n], steps[n], d)
    requires row.attempts == StartsBefore(worlds, steps, n, d)
    requires Records(worlds[n].workers[steps[n].worker], d, worlds[n].db.deliveries[d], row)
    requires row.attempts == worlds[n].db.deliveries[d].attempts
    ensures RecordIsTrue(worlds, steps, n + 1, d, row)
  {
    OneMoreStop(worlds, steps, n, d);
  }

  /** A step that starts it, or passes it by. */
  lemma RestIsRecorded(worlds: seq<World>, steps: seq<Step>, n: nat, d: Uuid, row: Delivery, row': Delivery)
    requires |worlds| == |steps| + 1 && n < |steps| && !StopsIn(worlds[n], steps[n], d)
    requires RecordIsTrue(worlds, steps, n, d, row)
    requires if StartsIn(worlds[n], steps[n], d)
             then row'.attempts == row.attempts + 1 && row'.state == Delivering && row'.error == row.error
                  && row.state in {Queued, Retry, Delivering}
             else Passes(row, row')
    ensures RecordIsTrue(worlds, steps, n + 1, d, row')
  {
    OneMoreStop(worlds, steps, n, d);
  }

  lemma StepIsRecorded(worlds: seq<World>, steps: seq<Step>, n: nat, d: Uuid)
    requires |worlds| == |steps| + 1 && n < |steps| && IsStep(worlds, steps, n)
    requires d in worlds[n].db.deliveries && RecordIsTrue(worlds, steps, n, d, worlds[n].db.deliveries[d])
    ensures d in worlds[n + 1].db.deliveries
    ensures RecordIsTrue(worlds, steps, n + 1, d, worlds[n + 1].db.deliveries[d])
  {
    StepRecords(worlds[n], steps[n], d);
    var row, row' := worlds[n].db.deliveries[d], worlds[n + 1].db.deliveries[d];
    if StopsIn(worlds[n], steps[n], d) {
      StopIsRecorded(worlds, steps, n, d, row');
    } else {
      RestIsRecorded(worlds, steps, n, d, row, row');
    }
  }

  lemma FirstIsRecorded(worlds: seq<World>, steps: seq<Step>, n: nat, d: Uuid)
    requires |worlds| == |steps| + 1 && n < |steps| && IsStep(worlds, steps, n) && Sound(worlds[n])
    requires d !in worlds[n].db.deliveries && IsUntold(worlds, steps, n, d)
    ensures IsUntold(worlds, steps, n + 1, d)
    ensures d in worlds[n + 1].db.deliveries ==>
              RecordIsTrue(worlds, steps, n + 1, d, worlds[n + 1].db.deliveries[d])
  {
    OneMoreStop(worlds, steps, n, d);
    if d in worlds[n + 1].db.deliveries {
      NewRowIsQueued(worlds[n], steps[n], d);
    }
  }

  /** The row is as its history left it, and before it is there nothing has touched it. */
  ghost predicate IsTold(worlds: seq<World>, steps: seq<Step>, n: nat, d: Uuid)
    requires |worlds| == |steps| + 1 && n <= |steps|
  {
    if d in worlds[n].db.deliveries then RecordIsTrue(worlds, steps, n, d, worlds[n].db.deliveries[d])
    else IsUntold(worlds, steps, n, d)
  }

  lemma StepTells(worlds: seq<World>, steps: seq<Step>, n: nat, d: Uuid)
    requires |worlds| == |steps| + 1 && n < |steps| && IsStep(worlds, steps, n) && Sound(worlds[n])
    requires IsTold(worlds, steps, n, d)
    ensures IsTold(worlds, steps, n + 1, d)
  {
    if d in worlds[n].db.deliveries {
      StepIsRecorded(worlds, steps, n, d);
    } else {
      FirstIsRecorded(worlds, steps, n, d);
    }
  }

  /**
   In every world of every run, a row has as many attempts as runs have started it, carries
   the code of the last run that gave up on it, and has failed exactly if that was a ninth
   or later run; a delivered row carries none, and a cancelled one its own.
   */
  lemma {:induction false} EveryRecordIsTrue(worlds: seq<World>, steps: seq<Step>, n: nat, d: Uuid)
    requires IsRun(worlds, steps) && StartsEmpty(worlds) && n < |worlds|
    ensures IsTold(worlds, steps, n, d)
  {
    if n > 0 {
      EveryRecordIsTrue(worlds, steps, n - 1, d);
      EveryWorldIsSound(worlds, steps, n - 1);
      StepTells(worlds, steps, n - 1, d);
    }
  }

  // ---------------------------------------------------------------- why a run gives up

  /** The row is to be delivered still, and both its endpoints and their lists let it pass. */
  predicate IsDue(db: Db, d: Uuid) {
    && Joins(db, d)
    && (db.deliveries[d].state == Queued || db.deliveries[d].state == Retry || db.deliveries[d].state == Delivering)
    && var from, to := db.registry.endpoints[SourceOf(db, d)], db.registry.endpoints[db.deliveries[d].destination];
       from.sends && to.receives && Lets(to, from.community) && Lets(from, to.community)
  }

  /** The message answers an event, but nothing at the destination mirrors that event yet. */
  ghost predicate LacksParent(db: Db, d: Uuid)
    requires Joins(db, d)
  {
    var m, at := db.messages[db.deliveries[d].message], db.deliveries[d].destination;
    && m.parentEvent.Some?
    && forall parent | (at, parent) in db.mappings ::
         if m.parentMessage.Some? then m.parentMessage.value != parent
         else (m.source, parent) !in db.mappings || db.mappings[(m.source, parent)] != m.parentEvent.value
  }

  lemma LacksParentIff(db: Db, d: Uuid)
    requires Joins(db, d)
    ensures var m, at := db.messages[db.deliveries[d].message], db.deliveries[d].destination;
            LacksParent(db, d) <==> m.parentEvent.Some? && LocalParent(db, m, at).None?
  {
    var m, at := db.messages[db.deliveries[d].message], db.deliveries[d].destination;
    if LocalParent(db, m, at).Some? {
      var local :| IsLocalParent(db, m, at, local);
      var parent :| IsParentMessage(db, m, parent) && (at, parent) in db.mappings && db.mappings[(at, parent)] == local;
    }
    if parent :| IsParentMessage(db, m, parent) && (at, parent) in db.mappings {
      assert IsLocalParent(db, m, at, db.mappings[(at, parent)]);
    }
  }

  lemma DueIff(db: Db, d: Uuid)
    requires Joins(db, d)
    ensures IsDue(db, d) <==> !IsTerminal(db.deliveries[d].state) && ReadContext(db, d).routeActive
  {
    RouteActiveIff(db.registry.endpoints[SourceOf(db, d)], db.registry.endpoints[db.deliveries[d].destination]);
  }

  /** Why the run gives up at this call, if it does, and with which code. */
  ghost predicate GivesUp(w: World, worker: Worker, o: Oracle, code: string) {
    var d := worker.delivery;
    match worker.phase
    case Starting =>
      && IsDue(w.db, d)
      && (if LacksParent(w.db, d) then code == "parent_mapping_missing"
          else && w.db.registry.endpoints[w.db.deliveries[d].destination].community !in w.sessions
               && code == "connector_unavailable")
    case Publishing(_, _) => !o.acked && !o.found && code == o.code
    case _ => false
  }

  /**
   A run gives up exactly if the row is due and its parent is not mirrored yet, or the
   destination has no session, or the relay neither acknowledges nor has the event.
   */
  lemma GivesUpIff(w: World, id: nat, o: Oracle, code: string)
    requires id in w.workers
    ensures Work(w, id, o).workers[id].phase == Retrying(code)
       <==> GivesUp(w, w.workers[id], o, code)
  {
    var d := w.workers[id].delivery;
    if w.workers[id].phase.Starting? && Joins(w.db, d) {
      LacksParentIff(w.db, d);
      DueIff(w.db, d);
    }
  }

  /** Why the run cancels at its next call: the row is open but not due, or no longer due and being delivered. */
  predicate CallsOff(w: World, worker: Worker) {
    var d := worker.delivery;
    match worker.phase
    case Starting =>
      && Joins(w.db, d) && !IsDue(w.db, d)
      && w.db.deliveries[d].state != Delivered && w.db.deliveries[d].state != Failed
      && w.db.deliveries[d].state != Cancelled
    case Checking(_, _) => !(IsDue(w.db, d) && w.db.deliveries[d].state == Delivering)
    case _ => false
  }

  /** And a run turns to cancelling exactly if an endpoint or a list is closed, or another run has moved the row on. */
  lemma CallsOffIff(w: World, id: nat, o: Oracle)
    requires id in w.workers
    ensures Work(w, id, o).workers[id].phase == Cancelling <==> CallsOff(w, w.workers[id])
  {
    var d := w.workers[id].delivery;
    if Joins(w.db, d) {
      DueIff(w.db, d);
    }
  }
}
