/**
 The scan lifecycle as a step system. One action is one database transaction, one
 locked registry operation, or one local move of a worker thread; every interleaving of the
 API, the pool workers, recovery and restarts is a sequence of actions.
 (backend/services/scan_manager.py, backend/services/scan_service.py)
 */
module ScanLifecycle {
  import opened Wrappers
  import opened ScanState

  type ScanId = nat
  type WorkerId = nat

  const RESTART_ERROR := "Backend restarted during scan."
  const INTERNAL_ERROR := "Scan worker encountered an internal error."

  /** What the agent run reports to the terminal mapping. */
  datatype Final = RunFinished | RunCancelled | RunFailed(error: string)

  /** Where a worker stands between two of its atomic steps. */
  datatype Pc =
    | Registered        // entry in the registry, not yet handed to the pool
    | Pending           // in the pool queue, or picked up but before its first transaction
    | Resolving         // claimed the scan; scope resolution
    | Discovering       // scan running; discovery pre-stage
    | Executing         // agent loop
    | Finishing(final: Final)
    | Failing           // an exception escaped; about to mark the scan failed
    | Leaving           // about to drop its registry entry
    | Left
    | Dropped           // the pool never ran it

  /**
   A worker thread with its own cancel event. The last four are history: it claimed the scan, an
   exception escaped its work, its settling transaction raised and was rolled back; and it was
   registered before the scan's row existed.
   */
  datatype Worker = Worker(
    scan: ScanId, epoch: nat, pc: Pc, cancel: bool, claimed: bool, raised: bool, lost: bool, early: bool)

  datatype EventKind =
    | ScanStarted
    | StatusChanged(from: Status, to: Status)
    | ScanCompleted
    | ScanFailed
    | ScanCancelled

  datatype Event = Event(scan: ScanId, kind: EventKind)

  datatype Sys = Sys(
    rows: map<ScanId, Scan>,
    log: seq<Event>,
    epoch: nat,                          // which ScanManager instance is current
    shuttingDown: bool,
    active: map<ScanId, WorkerId>,       // the current instance's registry
    workers: map<WorkerId, Worker>,
    signals: set<ScanId>,                // cancels committed whose request_cancel is still to come
    nextScan: nat,
    nextWorker: nat,
    now: Time)

  datatype Action =
    | Create(project: nat, liveProbe: bool)
    | Register(scan: ScanId)
    | Enqueue(worker: WorkerId)
    | Claim(worker: WorkerId, refusal: string)
    | Start(worker: WorkerId)
    | EndDiscovery(worker: WorkerId)
    | EndRun(worker: WorkerId, final: Final)
    | Finish(worker: WorkerId)
    | Raise(worker: WorkerId)
    | MarkFailed(worker: WorkerId)
    | SettlingRaises(worker: WorkerId)
    | Leave(worker: WorkerId)
    | CancelCommit(scan: ScanId)
    | Signal(scan: ScanId)
    | Recover(order: seq<ScanId>)
    | Shutdown(dropped: set<WorkerId>)
    | Restart(survivors: set<WorkerId>)
    | Tick

  const Init := Sys(map[], [], 0, false, map[], map[], {}, 0, 0, 0)

  // ----- steps -----------------------------------------------------------

  function EventsFor(id: ScanId, kinds: seq<EventKind>): (r: seq<Event>)
    ensures |r| == |kinds| && forall i :: 0 <= i < |r| ==> r[i] == Event(id, kinds[i])
  {
    seq(|kinds|, i requires 0 <= i < |kinds| => Event(id, kinds[i]))
  }

  function MoveRow(s: Sys, id: ScanId, target: Status, error: Option<string>, kinds: seq<EventKind>): Sys
    requires id in s.rows
  {
    s.(rows := s.rows[id := Moved(s.rows[id], target, error, s.now)], log := s.log + EventsFor(id, kinds))
  }

  function SetWorker(s: Sys, w: WorkerId, worker: Worker): Sys {
    s.(workers := s.workers[w := worker])
  }

  function GoTo(s: Sys, w: WorkerId, pc: Pc): Sys
    requires w in s.workers
  {
    SetWorker(s, w, s.workers[w].(pc := pc))
  }

  predicate ProjectBusy(s: Sys, project: nat) {
    exists id :: id in s.rows && s.rows[id].project == project && Active(s.rows[id].status)
  }

  function DoCreate(s: Sys, project: nat, liveProbe: bool): Sys {
    if ProjectBusy(s, project) then s   // unique index: SCAN_ALREADY_RUNNING
    else
      s.(rows := s.rows[s.nextScan := Scan(project, liveProbe, Queued, None, None, None, None)],
         nextScan := s.nextScan + 1)
  }

  function DoRegister(s: Sys, id: ScanId): Sys {
    if s.shuttingDown || id in s.active then s
    else
      s.(active := s.active[id := s.nextWorker],
         workers := s.workers[s.nextWorker := Worker(id, s.epoch, Registered, false, false, false, false, id !in s.rows)],
         nextWorker := s.nextWorker + 1)
  }

  /** Handing the entry to a pool that was shut down meanwhile raises: no worker ever runs. */
  function DoEnqueue(s: Sys, w: WorkerId): Sys
    requires w in s.workers
  {
    GoTo(s, w, if s.shuttingDown || s.workers[w].epoch != s.epoch then Dropped else Pending)
  }

  function DoClaim(s: Sys, w: WorkerId, refusal: string): Sys
    requires w in s.workers
  {
    var id := s.workers[w].scan;
    if id !in s.rows || s.rows[id].status != Queued then GoTo(s, w, Leaving)
    else if s.rows[id].liveProbe then
      GoTo(MoveRow(s, id, Failed, Some(refusal), [ScanFailed]), w, Leaving)
    else
      SetWorker(
        MoveRow(s, id, Initializing, None, [ScanStarted, StatusChanged(Queued, Initializing)]),
        w, s.workers[w].(pc := Resolving, claimed := true))
  }

  function DoStart(s: Sys, w: WorkerId): Sys
    requires w in s.workers
  {
    var id := s.workers[w].scan;
    if id !in s.rows || s.rows[id].status != Initializing then GoTo(s, w, Leaving)
    else GoTo(MoveRow(s, id, Running, None, [StatusChanged(Initializing, Running)]), w, Discovering)
  }

  /** The target `_finish_scan` picks for a row that is not yet terminal. */
  function FinishTarget(status: Status, final: Final): Status {
    if status == Cancelling then Cancelled
    else
      match final
      case RunFinished => Completed
      case RunCancelled => Cancelled
      case RunFailed(_) => Failed
  }

  function FinishError(status: Status, final: Final): Option<string> {
    if FinishTarget(status, final) == Failed && final.RunFailed? then Some(final.error) else None
  }

  function TerminalEvent(s: Status): EventKind {
    match s
    case Completed => ScanCompleted
    case Failed => ScanFailed
    case _ => ScanCancelled
  }

  function DoFinish(s: Sys, w: WorkerId): Sys
    requires w in s.workers && s.workers[w].pc.Finishing?
  {
    var id := s.workers[w].scan;
    var final := s.workers[w].pc.final;
    if id !in s.rows || Terminal(s.rows[id].status) then GoTo(s, w, Leaving)
    else
      var status := s.rows[id].status;
      var target := FinishTarget(status, final);
      if !CanTransition(status, target) then GoTo(s, w, Leaving)   // raised, caught, rolled back
      else
        GoTo(MoveRow(s, id, target, FinishError(status, final),
                     [StatusChanged(status, target), TerminalEvent(target)]), w, Leaving)
  }

  function DoMarkFailed(s: Sys, w: WorkerId): Sys
    requires w in s.workers
  {
    var id := s.workers[w].scan;
    if id !in s.rows || !CanTransition(s.rows[id].status, Failed) then GoTo(s, w, Leaving)
    else GoTo(MoveRow(s, id, Failed, Some(INTERNAL_ERROR), [ScanFailed]), w, Leaving)
  }

  /** Each instance pops from its own registry; only the current one is kept in the state. */
  function DoLeave(s: Sys, w: WorkerId): Sys
    requires w in s.workers
  {
    var s' := GoTo(s, w, Left);
    if s.workers[w].epoch == s.epoch then s'.(active := s.active - {s.workers[w].scan}) else s'
  }

  function DoCancelCommit(s: Sys, id: ScanId): Sys {
    if id !in s.rows then s
    else
      match s.rows[id].status
      case Queued => MoveRow(s, id, Cancelled, None, [])
      case Initializing => MoveRow(s, id, Cancelled, None, [])
      case Running => MoveRow(s, id, Cancelling, None, []).(signals := s.signals + {id})
      case _ => s                                        // SCAN_NOT_CANCELLABLE
  }

  function DoSignal(s: Sys, id: ScanId): Sys {
    if id !in s.signals then s
    else
      var s' := s.(signals := s.signals - {id});
      if id in s.active && s.active[id] in s.workers then
        var w := s.active[id];
        SetWorker(s', w, s.workers[w].(cancel := true))
      else s'
  }

  function RecoverOne(s: Sys, id: ScanId): Sys {
    if id !in s.rows then s
    else
      match s.rows[id].status
      case Cancelling => MoveRow(s, id, Cancelled, None, [StatusChanged(Cancelling, Cancelled)])
      case Initializing => MoveRow(s, id, Failed, Some(RESTART_ERROR), [ScanFailed])
      case Running => MoveRow(s, id, Failed, Some(RESTART_ERROR), [ScanFailed])
      case _ => s
  }

  function RecoverRows(s: Sys, order: seq<ScanId>): Sys {
    if order == [] then s else RecoverOne(RecoverRows(s, order[..|order| - 1]), order[|order| - 1])
  }

  /** `order` lists the rows the recovery query returns: every non-terminal one. */
  predicate CoversActive(s: Sys, order: seq<ScanId>) {
    forall id :: id in s.rows && Active(s.rows[id].status) ==> id in order
  }

  function DoShutdown(s: Sys, dropped: set<WorkerId>): Sys {
    s.(shuttingDown := true,
       workers := map w | w in s.workers ::
         if w in dropped && s.workers[w].pc == Pending then s.workers[w].(pc := Dropped) else s.workers[w])
  }

  /** The process (or its manager) is replaced; only the `survivors` among the threads go on. */
  function DoRestart(s: Sys, survivors: set<WorkerId>): Sys {
    s.(epoch := s.epoch + 1, shuttingDown := false, active := map[],
       workers := map w | w in s.workers && w in survivors :: s.workers[w])
  }

  predicate At(s: Sys, w: WorkerId, pc: Pc) {
    w in s.workers && s.workers[w].pc == pc
  }

  /** About to run the transaction that settles the row. */
  predicate IsSettling(pc: Pc) {
    pc.Finishing? || pc == Failing
  }

  /** One step; an action that is not enabled changes nothing. */
  function Do(s: Sys, a: Action): Sys {
    match a
    case Create(project, liveProbe) => DoCreate(s, project, liveProbe)
    case Register(id) => DoRegister(s, id)
    case Enqueue(w) => if At(s, w, Registered) then DoEnqueue(s, w) else s
    case Claim(w, refusal) => if At(s, w, Pending) then DoClaim(s, w, refusal) else s
    case Start(w) => if At(s, w, Resolving) then DoStart(s, w) else s
    case EndDiscovery(w) =>
      if At(s, w, Discovering) then
        GoTo(s, w, if s.workers[w].cancel then Finishing(RunCancelled) else Executing)
      else s
    case EndRun(w, final) =>
      // the agent loop reports "cancelled" only after observing the event set
      if At(s, w, Executing) && (final == RunCancelled ==> s.workers[w].cancel) then
        GoTo(s, w, Finishing(final))
      else s
    case Finish(w) => if w in s.workers && s.workers[w].pc.Finishing? then DoFinish(s, w) else s
    case Raise(w) =>
      if w in s.workers && s.workers[w].pc in {Pending, Resolving, Discovering, Executing} then
        SetWorker(s, w, s.workers[w].(pc := Failing, raised := true))
      else s
    case MarkFailed(w) => if At(s, w, Failing) then DoMarkFailed(s, w) else s
    case SettlingRaises(w) =>
      // an exception in the finishing or the failing transaction is logged; nothing was committed
      if w in s.workers && IsSettling(s.workers[w].pc) then
        SetWorker(s, w, s.workers[w].(pc := Leaving, lost := true))
      else s
    case Leave(w) => if At(s, w, Leaving) then DoLeave(s, w) else s
    case CancelCommit(id) => DoCancelCommit(s, id)
    case Signal(id) => DoSignal(s, id)
    case Recover(order) => if CoversActive(s, order) then RecoverRows(s, order) else s
    case Shutdown(dropped) => DoShutdown(s, dropped)
    case Restart(survivors) => DoRestart(s, survivors)
    case Tick => s.(now := s.now + 1)
  }

  function Run(s: Sys, actions: seq<Action>): Sys {
    if actions == [] then s else Do(Run(s, actions[..|actions| - 1]), actions[|actions| - 1])
  }

  /** The listed scans that are in one of the wanted statuses, in order. */
  function WithStatus(s: Sys, ids: seq<ScanId>, wanted: set<Status>): seq<ScanId> {
    if ids == [] then []
    else
      var last := ids[|ids| - 1];
      WithStatus(s, ids[..|ids| - 1], wanted)
      + if last in s.rows && s.rows[last].status in wanted then [last] else []
  }

  /** Submission: registered, then handed to the pool, when the registry takes it. */
  function Submitted(s: Sys, id: ScanId): Sys {
    if s.shuttingDown || id in s.active then s
    else Do(Do(s, Register(id)), Enqueue(s.nextWorker))
  }

  function SubmittedAll(s: Sys, ids: seq<ScanId>): Sys {
    if ids == [] then s else Submitted(SubmittedAll(s, ids[..|ids| - 1]), ids[|ids| - 1])
  }

  // ----- the invariant ---------------------------------------------------

  ghost predicate CancelAccepted(s: Sys, id: ScanId) {
    id in s.rows && s.rows[id].status in {Cancelling, Cancelled}
  }

  ghost predicate RowsOk(s: Sys) {
    && (forall id :: id in s.rows ==>
          id < s.nextScan
          && Fits(s.rows[id], s.now)
          && (s.rows[id].liveProbe ==> s.rows[id].status in {Queued, Failed, Cancelled}))
    && (forall i, j :: i in s.rows && j in s.rows && i != j && s.rows[i].project == s.rows[j].project ==>
          Terminal(s.rows[i].status) || Terminal(s.rows[j].status))
  }

  /** What the program counter of a worker says about the row of its scan. */
  ghost predicate WorkerOk(s: Sys, worker: Worker) {
    && (worker.cancel ==> CancelAccepted(s, worker.scan))
    && (worker.claimed ==>
          worker.scan in s.rows && s.rows[worker.scan].status != Queued && !s.rows[worker.scan].liveProbe)
    && (!worker.early ==> worker.scan in s.rows)
    && (worker.pc in {Registered, Pending} ==> !worker.claimed)
    && (worker.pc in {Leaving, Left} && !worker.claimed && !worker.lost && !worker.early ==>
          s.rows[worker.scan].status != Queued)
    && (worker.pc == Resolving ==>
          worker.claimed
          && (s.rows[worker.scan].status == Initializing || Terminal(s.rows[worker.scan].status)))
    && (worker.pc in {Discovering, Executing} || worker.pc.Finishing? ==>
          worker.claimed && s.rows[worker.scan].status != Initializing)
    && (worker.pc == Finishing(RunCancelled) ==> worker.cancel)
    && (worker.pc == Failing ==> worker.raised)
    && (worker.pc in {Leaving, Left} && worker.claimed ==>
          Terminal(s.rows[worker.scan].status)
          || (s.rows[worker.scan].status == Cancelling && worker.raised)
          || worker.lost)
  }

  ghost predicate WorkersOk(s: Sys) {
    && (forall w :: w in s.workers ==> w < s.nextWorker && s.workers[w].epoch <= s.epoch && WorkerOk(s, s.workers[w]))
    && (forall v, w :: v in s.workers && w in s.workers && v != w
                       && s.workers[v].claimed && s.workers[w].claimed ==>
                         s.workers[v].scan != s.workers[w].scan)
  }

  ghost predicate SignalsOk(s: Sys) {
    && (forall id :: id in s.signals ==> CancelAccepted(s, id))
    && (forall id :: id in s.active ==>
          s.active[id] in s.workers && s.workers[s.active[id]].scan == id)
  }

  predicate IsTerminalEvent(e: EventKind) {
    e in {ScanCompleted, ScanFailed, ScanCancelled}
  }

  ghost predicate EventOk(s: Sys, e: Event) {
    && e.scan in s.rows
    && (e.kind == ScanStarted ==> s.rows[e.scan].status != Queued && s.rows[e.scan].startedAt.Some?)
    && (e.kind.StatusChanged? ==> CanTransition(e.kind.from, e.kind.to))
    && (IsTerminalEvent(e.kind) ==>
          Terminal(s.rows[e.scan].status) && e.kind == TerminalEvent(s.rows[e.scan].status))
  }

  ghost predicate LogOk(s: Sys) {
    && (forall i :: 0 <= i < |s.log| ==> EventOk(s, s.log[i]))
    && (forall i, j :: 0 <= i < j < |s.log| && s.log[i].scan == s.log[j].scan ==>
          && !(IsTerminalEvent(s.log[i].kind) && IsTerminalEvent(s.log[j].kind))
          && !(s.log[i].kind == ScanStarted && s.log[j].kind == ScanStarted))
  }

  ghost predicate Inv(s: Sys) {
    RowsOk(s) && WorkersOk(s) && SignalsOk(s) && LogOk(s)
  }

  // ----- preservation ----------------------------------------------------

  /** Any legal move except into `Initializing` or `Running` keeps everything. */
  lemma {:induction false} MoveKeeps(s: Sys, id: ScanId, target: Status, error: Option<string>, kinds: seq<EventKind>)
    requires Inv(s) && id in s.rows && CanTransition(s.rows[id].status, target)
    requires target !in {Initializing, Running}
    requires target == Failed ==> error.Some?
    requires KindsOk(s.rows[id].status, target, kinds)
    ensures Inv(MoveRow(s, id, target, error, kinds))
  {
    var s' := MoveRow(s, id, target, error, kinds);
    MovedFits(s.rows[id], target, error, s.now, s.now);
    assert RowsOk(s');
    MoveKeepsWorkers(s, id, target, error, kinds);
    assert SignalsOk(s');
    MoveKeepsLog(s, id, target, error, kinds);
  }

  lemma {:induction false} MoveKeepsWorkers(
    s: Sys, id: ScanId, target: Status, error: Option<string>, kinds: seq<EventKind>)
    requires WorkersOk(s) && id in s.rows && CanTransition(s.rows[id].status, target)
    requires target !in {Initializing, Running}
    ensures WorkersOk(MoveRow(s, id, target, error, kinds))
  {
    var s' := MoveRow(s, id, target, error, kinds);
    forall w | w in s'.workers ensures WorkerOk(s', s'.workers[w]) {
      assert WorkerOk(s, s.workers[w]);
    }
  }

  /** The event lists a transaction may record with a move. */
  predicate KindsOk(status: Status, target: Status, kinds: seq<EventKind>) {
    && kinds in {[], [TerminalEvent(target)], [StatusChanged(status, target)],
                 [StatusChanged(status, target), TerminalEvent(target)],
                 [ScanStarted, StatusChanged(status, target)]}
    && (TerminalEvent(target) in kinds ==> Terminal(target))
    && (ScanStarted in kinds ==> status == Queued && target == Initializing)
  }

  lemma {:induction false} MoveKeepsEvents(s: Sys, id: ScanId, target: Status, error: Option<string>, kinds: seq<EventKind>)
    requires LogOk(s) && RowsOk(s) && id in s.rows && CanTransition(s.rows[id].status, target)
    requires KindsOk(s.rows[id].status, target, kinds)
    ensures var s' := MoveRow(s, id, target, error, kinds);
            forall i :: 0 <= i < |s'.log| ==> EventOk(s', s'.log[i])
  {
    var s' := MoveRow(s, id, target, error, kinds);
    forall i | 0 <= i < |s'.log| ensures EventOk(s', s'.log[i]) {
      if i < |s.log| {
        assert EventOk(s, s.log[i]);
      }
    }
  }

  lemma {:induction false} MoveKeepsLog(s: Sys, id: ScanId, target: Status, error: Option<string>, kinds: seq<EventKind>)
    requires LogOk(s) && RowsOk(s) && id in s.rows && CanTransition(s.rows[id].status, target)
    requires KindsOk(s.rows[id].status, target, kinds)
    ensures LogOk(MoveRow(s, id, target, error, kinds))
  {
    MoveKeepsEvents(s, id, target, error, kinds);
    var s' := MoveRow(s, id, target, error, kinds);
    forall i, j | 0 <= i < j < |s'.log| && s'.log[i].scan == s'.log[j].scan
      ensures !(IsTerminalEvent(s'.log[i].kind) && IsTerminalEvent(s'.log[j].kind))
      ensures !(s'.log[i].kind == ScanStarted && s'.log[j].kind == ScanStarted)
    {
      if i < |s.log| {
        assert EventOk(s, s.log[i]);
      }
    }
  }

  /** The log stays in order when no row of before changes. */
  lemma {:induction false} EventsKept(s: Sys, s': Sys)
    requires LogOk(s) && s'.log == s.log
    requires forall id :: id in s.rows ==> id in s'.rows && s'.rows[id] == s.rows[id]
    ensures LogOk(s')
  {
    forall i | 0 <= i < |s'.log| ensures EventOk(s', s'.log[i]) {
      assert EventOk(s, s.log[i]);
    }
  }

  /** A worker may move to any program counter that its row allows. */
  lemma {:induction false} SetWorkerKeeps(s: Sys, w: WorkerId, worker: Worker)
    requires Inv(s) && w in s.workers
    requires worker.scan == s.workers[w].scan && worker.epoch == s.workers[w].epoch
    requires worker.claimed == s.workers[w].claimed
    requires WorkerOk(s, worker)
    ensures Inv(SetWorker(s, w, worker))
  {
    var s' := SetWorker(s, w, worker);
    forall v | v in s'.workers ensures WorkerOk(s', s'.workers[v]) {
      assert v != w ==> WorkerOk(s, s.workers[v]);
    }
    EventsKept(s, s');
  }

  /** The two moves of a row that a worker makes on its way: it claims the scan, and it starts it. */
  ghost predicate Advances(s: Sys, w: WorkerId, target: Status, kinds: seq<EventKind>, worker: Worker) {
    && w in s.workers
    && worker.scan == s.workers[w].scan && worker.epoch == s.workers[w].epoch && worker.cancel == s.workers[w].cancel
    && worker.scan in s.rows && !s.rows[worker.scan].liveProbe && worker.claimed
    && (|| (s.rows[worker.scan].status == Queued && target == Initializing && worker.pc == Resolving
            && kinds == [ScanStarted, StatusChanged(Queued, Initializing)])
        || (s.rows[worker.scan].status == Initializing && target == Running && worker.pc == Discovering
            && s.workers[w].pc == Resolving && kinds == [StatusChanged(Initializing, Running)]))
  }

  /** Claim and start change the row and the claiming worker together. */
  lemma {:induction false} AdvanceKeeps(
      s: Sys, w: WorkerId, target: Status, kinds: seq<EventKind>, worker: Worker)
    requires Inv(s) && Advances(s, w, target, kinds, worker)
    ensures Inv(SetWorker(MoveRow(s, worker.scan, target, None, kinds), w, worker))
  {
    var id := worker.scan;
    var m := MoveRow(s, id, target, None, kinds);
    var s' := SetWorker(m, w, worker);
    AdvanceKeepsRows(s, w, target, kinds, worker);
    AdvanceKeepsWorkers(s, w, target, kinds, worker);
    assert SignalsOk(s');
    MoveKeepsLog(s, id, target, None, kinds);
    forall i | 0 <= i < |s'.log| ensures EventOk(s', s'.log[i]) {
      assert EventOk(m, m.log[i]);
    }
  }

  lemma {:induction false} AdvanceKeepsRows(
      s: Sys, w: WorkerId, target: Status, kinds: seq<EventKind>, worker: Worker)
    requires RowsOk(s) && Advances(s, w, target, kinds, worker)
    ensures RowsOk(SetWorker(MoveRow(s, worker.scan, target, None, kinds), w, worker))
  {
    MovedFits(s.rows[worker.scan], target, None, s.now, s.now);
  }

  lemma {:induction false} AdvanceKeepsWorkers(
      s: Sys, w: WorkerId, target: Status, kinds: seq<EventKind>, worker: Worker)
    requires WorkersOk(s) && Advances(s, w, target, kinds, worker)
    ensures WorkersOk(SetWorker(MoveRow(s, worker.scan, target, None, kinds), w, worker))
  {
    var s' := SetWorker(MoveRow(s, worker.scan, target, None, kinds), w, worker);
    forall v | v in s'.workers ensures WorkerOk(s', s'.workers[v]) {
      assert WorkerOk(s, s.workers[v]);
    }
  }

  lemma {:induction false} ClaimKeeps(s: Sys, w: WorkerId, refusal: string)
    requires Inv(s) && At(s, w, Pending)
    ensures Inv(DoClaim(s, w, refusal))
  {
    var id := s.workers[w].scan;
    assert WorkerOk(s, s.workers[w]);
    if id !in s.rows || s.rows[id].status != Queued {
      SetWorkerKeeps(s, w, s.workers[w].(pc := Leaving));
    } else if s.rows[id].liveProbe {
      MoveAndLeaveKeeps(s, w, Failed, Some(refusal), [ScanFailed]);
    } else {
      AdvanceKeeps(s, w, Initializing, [ScanStarted, StatusChanged(Queued, Initializing)],
                   s.workers[w].(pc := Resolving, claimed := true));
    }
  }

  lemma {:induction false} StartKeeps(s: Sys, w: WorkerId)
    requires Inv(s) && At(s, w, Resolving)
    ensures Inv(DoStart(s, w))
  {
    var id := s.workers[w].scan;
    assert WorkerOk(s, s.workers[w]);
    if id !in s.rows || s.rows[id].status != Initializing {
      SetWorkerKeeps(s, w, s.workers[w].(pc := Leaving));
    } else {
      AdvanceKeeps(s, w, Running, [StatusChanged(Initializing, Running)], s.workers[w].(pc := Discovering));
    }
  }

  /** A transaction that moves the row and then lets its worker leave. */
  lemma {:induction false} MoveAndLeaveKeeps(
      s: Sys, w: WorkerId, target: Status, error: Option<string>, kinds: seq<EventKind>)
    requires Inv(s) && w in s.workers && s.workers[w].scan in s.rows
    requires CanTransition(s.rows[s.workers[w].scan].status, target) && Terminal(target)
    requires target == Failed ==> error.Some?
    requires KindsOk(s.rows[s.workers[w].scan].status, target, kinds)
    ensures Inv(GoTo(MoveRow(s, s.workers[w].scan, target, error, kinds), w, Leaving))
  {
    var id := s.workers[w].scan;
    var m := MoveRow(s, id, target, error, kinds);
    MoveKeeps(s, id, target, error, kinds);
    assert WorkerOk(m, m.workers[w]);
    SetWorkerKeeps(m, w, m.workers[w].(pc := Leaving));
  }

  lemma {:induction false} FinishIsLegal(s: Sys, w: WorkerId)
    requires Inv(s) && w in s.workers && s.workers[w].pc.Finishing?
    ensures s.workers[w].scan in s.rows
    ensures var status := s.rows[s.workers[w].scan].status;
            !Terminal(status) ==> CanTransition(status, FinishTarget(status, s.workers[w].pc.final))
  {
    assert WorkerOk(s, s.workers[w]);
  }

  lemma {:induction false} FinishKeeps(s: Sys, w: WorkerId)
    requires Inv(s) && w in s.workers && s.workers[w].pc.Finishing?
    ensures Inv(DoFinish(s, w))
  {
    FinishIsLegal(s, w);
    var status := s.rows[s.workers[w].scan].status;
    var final := s.workers[w].pc.final;
    if Terminal(status) {
      assert WorkerOk(s, s.workers[w]);
      SetWorkerKeeps(s, w, s.workers[w].(pc := Leaving));
    } else {
      var target := FinishTarget(status, final);
      MoveAndLeaveKeeps(s, w, target, FinishError(status, final), [StatusChanged(status, target), TerminalEvent(target)]);
    }
  }

  lemma {:induction false} MarkFailedKeeps(s: Sys, w: WorkerId)
    requires Inv(s) && At(s, w, Failing)
    ensures Inv(DoMarkFailed(s, w))
  {
    var id := s.workers[w].scan;
    if id !in s.rows || !CanTransition(s.rows[id].status, Failed) {
      assert WorkerOk(s, s.workers[w]);
      SetWorkerKeeps(s, w, s.workers[w].(pc := Leaving));
    } else {
      MoveAndLeaveKeeps(s, w, Failed, Some(INTERNAL_ERROR), [ScanFailed]);
    }
  }

  lemma {:induction false} LeaveKeeps(s: Sys, w: WorkerId)
    requires Inv(s) && At(s, w, Leaving)
    ensures Inv(DoLeave(s, w))
  {
    assert WorkerOk(s, s.workers[w]);
    SetWorkerKeeps(s, w, s.workers[w].(pc := Left));
    RegistryKeeps(GoTo(s, w, Left), DoLeave(s, w));
  }

  /** States that differ only in registry, signals, flags and clock keep the rest of the invariant. */
  lemma {:induction false} RegistryKeeps(s: Sys, s': Sys)
    requires Inv(s)
    requires s'.rows == s.rows && s'.log == s.log && s'.nextScan == s.nextScan
    requires s'.now >= s.now && s'.epoch >= s.epoch && s'.nextWorker >= s.nextWorker
    requires s'.workers.Keys <= s.workers.Keys
    requires forall w :: w in s'.workers ==>
               s'.workers[w] == s.workers[w]
               || (s.workers[w].pc == Pending && s'.workers[w] == s.workers[w].(pc := Dropped))
    requires SignalsOk(s')
    ensures Inv(s')
  {
    RegistryKeepsWorkers(s, s');
    RowsKept(s, s');
    EventsKept(s, s');
  }

  lemma RowsKept(s: Sys, s': Sys)
    requires RowsOk(s) && s'.rows == s.rows && s'.nextScan == s.nextScan && s'.now >= s.now
    ensures RowsOk(s')
  {
  }

  lemma {:induction false} RegistryKeepsWorkers(s: Sys, s': Sys)
    requires WorkersOk(s) && s'.rows == s.rows && s'.epoch >= s.epoch && s'.nextWorker >= s.nextWorker
    requires s'.workers.Keys <= s.workers.Keys
    requires forall w :: w in s'.workers ==>
               s'.workers[w] == s.workers[w]
               || (s.workers[w].pc == Pending && s'.workers[w] == s.workers[w].(pc := Dropped))
    ensures WorkersOk(s')
  {
    forall w | w in s'.workers ensures WorkerOk(s', s'.workers[w]) {
      assert WorkerOk(s, s.workers[w]);
    }
  }

  /** A new row changes nothing for the workers there are. */
  lemma {:induction false} RowAddedKeepsWorkers(s: Sys, s': Sys)
    requires WorkersOk(s) && s'.workers == s.workers && s'.epoch == s.epoch && s'.nextWorker == s.nextWorker
    requires forall id :: id in s.rows ==> id in s'.rows && s'.rows[id] == s.rows[id]
    ensures WorkersOk(s')
  {
    forall w | w in s'.workers ensures WorkerOk(s', s'.workers[w]) {
      assert WorkerOk(s, s.workers[w]);
    }
  }

  lemma {:induction false} CreateKeeps(s: Sys, project: nat, liveProbe: bool)
    requires Inv(s)
    ensures Inv(DoCreate(s, project, liveProbe))
  {
    var s' := DoCreate(s, project, liveProbe);
    if !ProjectBusy(s, project) {
      assert s.nextScan !in s.rows;
      RowAddedKeepsWorkers(s, s');
      EventsKept(s, s');
    }
  }

  lemma {:induction false} RegisterKeeps(s: Sys, id: ScanId)
    requires Inv(s)
    ensures Inv(DoRegister(s, id))
  {
    var s' := DoRegister(s, id);
    if s' != s {
      assert s.nextWorker !in s.workers;
      forall w | w in s'.workers ensures WorkerOk(s', s'.workers[w]) {
        assert w in s.workers ==> WorkerOk(s, s.workers[w]);
      }
      EventsKept(s, s');
    }
  }

  lemma {:induction false} CancelCommitKeeps(s: Sys, id: ScanId)
    requires Inv(s)
    ensures Inv(DoCancelCommit(s, id))
  {
    if id in s.rows {
      match s.rows[id].status
      case Queued => MoveKeeps(s, id, Cancelled, None, []);
      case Initializing => MoveKeeps(s, id, Cancelled, None, []);
      case Running =>
        MoveKeeps(s, id, Cancelling, None, []);
        RegistryKeeps(MoveRow(s, id, Cancelling, None, []), DoCancelCommit(s, id));
      case _ =>
    }
  }

  lemma {:induction false} SignalKeeps(s: Sys, id: ScanId)
    requires Inv(s)
    ensures Inv(DoSignal(s, id))
  {
    if id in s.signals {
      var s' := s.(signals := s.signals - {id});
      RegistryKeeps(s, s');
      if id in s.active {
        var w := s.active[id];
        assert WorkerOk(s, s.workers[w]);
        SetWorkerKeeps(s', w, s.workers[w].(cancel := true));
      }
    }
  }

  lemma {:induction false} RecoverOneKeeps(s: Sys, id: ScanId)
    requires Inv(s)
    ensures Inv(RecoverOne(s, id))
  {
    if id in s.rows {
      match s.rows[id].status
      case Cancelling => MoveKeeps(s, id, Cancelled, None, [StatusChanged(Cancelling, Cancelled)]);
      case Initializing => MoveKeeps(s, id, Failed, Some(RESTART_ERROR), [ScanFailed]);
      case Running => MoveKeeps(s, id, Failed, Some(RESTART_ERROR), [ScanFailed]);
      case _ =>
    }
  }

  lemma {:induction false} RecoverKeeps(s: Sys, order: seq<ScanId>)
    requires Inv(s)
    ensures Inv(RecoverRows(s, order))
  {
    if order != [] {
      RecoverKeeps(s, order[..|order| - 1]);
      RecoverOneKeeps(RecoverRows(s, order[..|order| - 1]), order[|order| - 1]);
    }
  }

  /** Every action keeps the invariant. */
  lemma DoKeepsInv(s: Sys, a: Action)
    requires Inv(s)
    ensures Inv(Do(s, a))
  {
    if IsWorkerMove(a) {
      WorkerMoveKeeps(s, a);
    } else if a.Shutdown? || a.Restart? || a.Tick? {
      SystemKeeps(s, a);
    } else {
      RequestKeeps(s, a);
    }
  }

  lemma {:induction false} SystemKeeps(s: Sys, a: Action)
    requires Inv(s) && (a.Shutdown? || a.Restart? || a.Tick?)
    ensures Inv(Do(s, a))
  {
    match a
    case Shutdown(dropped) => ShutdownKeeps(s, dropped);
    case Restart(survivors) => RestartKeeps(s, survivors);
    case Tick => TickKeeps(s);
  }

  lemma {:induction false} RequestKeeps(s: Sys, a: Action)
    requires Inv(s) && (a.Create? || a.Register? || a.CancelCommit? || a.Signal? || a.Recover?)
    ensures Inv(Do(s, a))
  {
    match a
    case Create(project, liveProbe) => CreateKeeps(s, project, liveProbe);
    case Register(id) => RegisterKeeps(s, id);
    case CancelCommit(id) => CancelCommitKeeps(s, id);
    case Signal(id) => SignalKeeps(s, id);
    case Recover(order) => RecoverKeeps(s, order);
  }

  predicate IsWorkerMove(a: Action) {
    a.Claim? || a.Start? || a.Finish? || a.MarkFailed? || a.Leave? || IsLocalMove(a)
  }

  predicate IsLocalMove(a: Action) {
    a.Enqueue? || a.EndDiscovery? || a.EndRun? || a.Raise? || a.SettlingRaises?
  }

  lemma {:induction false} WorkerMoveKeeps(s: Sys, a: Action)
    requires Inv(s) && IsWorkerMove(a)
    ensures Inv(Do(s, a))
  {
    match a
    case Claim(w, refusal) => if At(s, w, Pending) { ClaimKeeps(s, w, refusal); }
    case Start(w) => if At(s, w, Resolving) { StartKeeps(s, w); }
    case Finish(w) => if w in s.workers && s.workers[w].pc.Finishing? { FinishKeeps(s, w); }
    case MarkFailed(w) => if At(s, w, Failing) { MarkFailedKeeps(s, w); }
    case Leave(w) => if At(s, w, Leaving) { LeaveKeeps(s, w); }
    case _ => LocalMoveKeeps(s, a);
  }

  lemma {:induction false} ShutdownKeeps(s: Sys, dropped: set<WorkerId>)
    requires Inv(s)
    ensures Inv(DoShutdown(s, dropped))
  {
    var s' := DoShutdown(s, dropped);
    assert s'.workers.Keys == s.workers.Keys;
    RegistryKeeps(s, s');
  }

  lemma {:induction false} TickKeeps(s: Sys)
    requires Inv(s)
    ensures Inv(s.(now := s.now + 1))
  {
    RegistryKeeps(s, s.(now := s.now + 1));
  }

  lemma {:induction false} RestartKeeps(s: Sys, survivors: set<WorkerId>)
    requires Inv(s)
    ensures Inv(DoRestart(s, survivors))
  {
    RegistryKeeps(s, DoRestart(s, survivors));
  }

  lemma {:induction false} LocalMoveKeeps(s: Sys, a: Action)
    requires Inv(s) && IsLocalMove(a)
    ensures Inv(Do(s, a))
  {
    if a.worker in s.workers && Do(s, a) != s {
      var w := a.worker;
      assert WorkerOk(s, s.workers[w]);
      SetWorkerKeeps(s, w, Do(s, a).workers[w]);
    }
  }

  /** The invariant holds after every run. */
  lemma {:induction false} RunKeepsInv(actions: seq<Action>)
    ensures Inv(Run(Init, actions))
  {
    if actions != [] {
      RunKeepsInv(actions[..|actions| - 1]);
      DoKeepsInv(Run(Init, actions[..|actions| - 1]), actions[|actions| - 1]);
    }
  }
}
