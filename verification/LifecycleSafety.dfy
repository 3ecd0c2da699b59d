/** What every run of the scan lifecycle guarantees. */
module LifecycleSafety {
  import opened Wrappers
  import opened ScanState
  import opened ScanLifecycle

  // ----- cancellation and the terminal mapping ---------------------------

  /** A worker's cancel event is set only once a cancellation of its scan was accepted. */
  lemma {:induction false} CancelEventMeansAccepted(actions: seq<Action>, w: WorkerId)
    requires w in Run(Init, actions).workers && Run(Init, actions).workers[w].cancel
    ensures CancelAccepted(Run(Init, actions), Run(Init, actions).workers[w].scan)
  {
    RunKeepsInv(actions);
    assert WorkerOk(Run(Init, actions), Run(Init, actions).workers[w]);
  }

  /**
   The terminal mapping never raises: whatever the agent reported, a row it finds
   non-terminal is running or cancelling and the chosen transition is legal. Its
   running -> cancelled branch, which the table would refuse, is unreachable.
   */
  lemma {:induction false} TerminalMappingIsLegal(actions: seq<Action>, w: WorkerId)
    requires w in Run(Init, actions).workers && Run(Init, actions).workers[w].pc.Finishing?
    ensures
      var s := Run(Init, actions);
      var id := s.workers[w].scan;
      var final := s.workers[w].pc.final;
      && id in s.rows
      && (!Terminal(s.rows[id].status) ==>
            && s.rows[id].status in {Running, Cancelling}
            && CanTransition(s.rows[id].status, FinishTarget(s.rows[id].status, final))
            && !(s.rows[id].status == Running && final == RunCancelled))
      && Terminal(Do(s, Finish(w)).rows[id].status)
  {
    RunKeepsInv(actions);
    assert WorkerOk(Run(Init, actions), Run(Init, actions).workers[w]);
  }

  // ----- history of one row ----------------------------------------------

  /** A row is written only by single legal transitions, and rows never disappear. */
  ghost predicate MovesLegally(s: Sys, s': Sys, id: ScanId) {
    id in s.rows ==>
      && id in s'.rows
      && s'.rows[id].project == s.rows[id].project
      && s'.rows[id].liveProbe == s.rows[id].liveProbe
      && (s'.rows[id] == s.rows[id] || CanTransition(s.rows[id].status, s'.rows[id].status))
  }

  lemma {:induction false} RecoverMovesLegally(s: Sys, order: seq<ScanId>, id: ScanId)
    ensures MovesLegally(s, RecoverRows(s, order), id)
    ensures id in s.rows && RecoverRows(s, order).rows[id] != s.rows[id] ==>
              Terminal(RecoverRows(s, order).rows[id].status)
  {
    if order != [] {
      RecoverMovesLegally(s, order[..|order| - 1], id);
    }
  }

  lemma {:induction false} StepMovesLegally(s: Sys, a: Action, id: ScanId)
    requires s.nextScan !in s.rows
    ensures MovesLegally(s, Do(s, a), id)
  {
    match a
    case Recover(order) => RecoverMovesLegally(s, order, id);
    case Claim(_, _) => WorkerStepMovesLegally(s, a, id);
    case Start(_) => WorkerStepMovesLegally(s, a, id);
    case Finish(_) => WorkerStepMovesLegally(s, a, id);
    case MarkFailed(_) => WorkerStepMovesLegally(s, a, id);
    case CancelCommit(_) =>
    case _ => if id in s.rows { OtherStepsKeepRows(s, a, id); }
  }

  lemma {:induction false} WorkerStepMovesLegally(s: Sys, a: Action, id: ScanId)
    requires a.Claim? || a.Start? || a.Finish? || a.MarkFailed?
    ensures MovesLegally(s, Do(s, a), id)
  {
  }

  lemma {:induction false} OtherStepsKeepRows(s: Sys, a: Action, id: ScanId)
    requires s.nextScan !in s.rows && id in s.rows
    requires !(a.Recover? || a.Claim? || a.Start? || a.Finish? || a.MarkFailed? || a.CancelCommit?)
    ensures id in Do(s, a).rows && Do(s, a).rows[id] == s.rows[id]
  {
  }

  /** Once terminal, a row keeps its status, timestamps and error for the rest of every run. */
  lemma {:induction false} TerminalAbsorbs(s: Sys, actions: seq<Action>, id: ScanId)
    requires Inv(s) && id in s.rows && Terminal(s.rows[id].status)
    ensures Inv(Run(s, actions))
    ensures id in Run(s, actions).rows && Run(s, actions).rows[id] == s.rows[id]
  {
    if actions != [] {
      var before := actions[..|actions| - 1];
      TerminalAbsorbs(s, before, id);
      DoKeepsInv(Run(s, before), actions[|actions| - 1]);
      StepMovesLegally(Run(s, before), actions[|actions| - 1], id);
      TerminalIffStuck(s.rows[id].status);
    }
  }

  /** An accepted cancellation wins: whatever the agent, an exception or a restart does, nothing else follows. */
  lemma {:induction false} CancelWins(s: Sys, actions: seq<Action>, id: ScanId)
    requires Inv(s) && id in s.rows && s.rows[id].status in {Cancelling, Cancelled}
    ensures Inv(Run(s, actions))
    ensures id in Run(s, actions).rows && Run(s, actions).rows[id].status in {Cancelling, Cancelled}
  {
    if actions != [] {
      var before := actions[..|actions| - 1];
      CancelWins(s, before, id);
      DoKeepsInv(Run(s, before), actions[|actions| - 1]);
      StepMovesLegally(Run(s, before), actions[|actions| - 1], id);
    }
  }

  /** How many steps of a run move the row into `initializing`. */
  ghost function Initializations(actions: seq<Action>, id: ScanId): nat {
    if actions == [] then 0
    else
      var s := Run(Init, actions[..|actions| - 1]);
      var s' := Run(Init, actions);
      Initializations(actions[..|actions| - 1], id)
      + if id in s'.rows && s'.rows[id].status == Initializing
           && (id !in s.rows || s.rows[id].status != Initializing) then 1 else 0
  }

  /** A scan starts at most once, however often it is submitted and however often the process restarts. */
  lemma {:induction false} InitializedAtMostOnce(actions: seq<Action>, id: ScanId)
    ensures Initializations(actions, id) <= 1
    ensures id !in Run(Init, actions).rows || Run(Init, actions).rows[id].status == Queued ==>
              Initializations(actions, id) == 0
  {
    if actions != [] {
      var before := actions[..|actions| - 1];
      InitializedAtMostOnce(before, id);
      RunKeepsInv(before);
      StepMovesLegally(Run(Init, before), actions[|actions| - 1], id);
      if id !in Run(Init, before).rows && id in Run(Init, actions).rows {
        NewRowsAreQueued(Run(Init, before), actions[|actions| - 1], id);
      }
    }
  }

  lemma {:induction false} NewRowsAreQueued(s: Sys, a: Action, id: ScanId)
    requires id !in s.rows && id in Do(s, a).rows
    ensures Do(s, a).rows[id].status == Queued
  {
    if a.Recover? {
      RecoverAddsNoRow(s, a.order);
    } else if a.Create? {
      assert id == s.nextScan;
    } else {
      OtherStepsAddNoRow(s, a);
    }
  }

  lemma {:induction false} OtherStepsAddNoRow(s: Sys, a: Action)
    requires !a.Recover? && !a.Create?
    ensures Do(s, a).rows.Keys <= s.rows.Keys
  {
    if a.Claim? || a.Start? || a.Finish? || a.MarkFailed? {
      WorkerStepsAddNoRow(s, a);
    }
  }

  lemma {:induction false} WorkerStepsAddNoRow(s: Sys, a: Action)
    requires a.Claim? || a.Start? || a.Finish? || a.MarkFailed?
    ensures Do(s, a).rows.Keys <= s.rows.Keys
  {
  }

  lemma {:induction false} RecoverAddsNoRow(s: Sys, order: seq<ScanId>)
    ensures RecoverRows(s, order).rows.Keys == s.rows.Keys
  {
    if order != [] {
      RecoverAddsNoRow(s, order[..|order| - 1]);
    }
  }

  /**
   What the database looks like after any run: one active scan per project, timestamps and
   error that fit the status, live_probe scans that never started.
   */
  lemma {:induction false} RowsAreConsistent(actions: seq<Action>, i: ScanId, j: ScanId)
    requires i in Run(Init, actions).rows && j in Run(Init, actions).rows
    ensures var s := Run(Init, actions);
            && Fits(s.rows[i], s.now)
            && (s.rows[i].liveProbe ==> s.rows[i].status in {Queued, Failed, Cancelled})
            && (i != j && s.rows[i].project == s.rows[j].project ==>
                  !(Active(s.rows[i].status) && Active(s.rows[j].status)))
  {
    RunKeepsInv(actions);
  }

  /**
   What the event log looks like after any run: at most one terminal event and at most one
   start per scan, the terminal event agrees with the row, and every recorded status change
   is one the table allows.
   */
  lemma {:induction false} LogIsConsistent(actions: seq<Action>, i: nat, j: nat)
    requires i < |Run(Init, actions).log| && j < |Run(Init, actions).log|
    ensures
      var s := Run(Init, actions);
      var e, f := s.log[i], s.log[j];
      && e.scan in s.rows
      && (IsTerminalEvent(e.kind) ==> Terminal(s.rows[e.scan].status) && e.kind == TerminalEvent(s.rows[e.scan].status))
      && (e.kind.StatusChanged? ==> CanTransition(e.kind.from, e.kind.to))
      && (i != j && e.scan == f.scan ==>
            && !(IsTerminalEvent(e.kind) && IsTerminalEvent(f.kind))
            && !(e.kind == ScanStarted && f.kind == ScanStarted))
  {
    RunKeepsInv(actions);
    assert EventOk(Run(Init, actions), Run(Init, actions).log[i]);
  }

  // ----- leaving and recovering ------------------------------------------

  /**
   A worker that claimed its scan leaves it terminal, except when an exception met a cancelling
   scan, or when the settling transaction itself raised. One that did not claim it does not leave
   it `queued`, except in that last case, or when it was registered before the scan existed.
   */
  lemma {:induction false} WorkerLeavesScanSettled(actions: seq<Action>, w: WorkerId)
    requires w in Run(Init, actions).workers && Run(Init, actions).workers[w].pc in {Leaving, Left}
    ensures
      var s := Run(Init, actions);
      var id := s.workers[w].scan;
      && (id in s.rows || s.workers[w].early)
      && (s.workers[w].claimed ==>
            && id in s.rows
            && (Terminal(s.rows[id].status)
                || (s.rows[id].status == Cancelling && s.workers[w].raised)
                || s.workers[w].lost))
      && (!s.workers[w].claimed && id in s.rows && s.rows[id].status == Queued ==>
            s.workers[w].lost || s.workers[w].early)
  {
    RunKeepsInv(actions);
    assert WorkerOk(Run(Init, actions), Run(Init, actions).workers[w]);
  }

  /** The step is the last one the worker takes for the row of its scan. */
  predicate Settles(s: Sys, w: WorkerId, a: Action) {
    && w in s.workers
    && (|| (a == Finish(w) && s.workers[w].pc.Finishing?)
        || (a == MarkFailed(w) && s.workers[w].pc == Failing)
        || (a == SettlingRaises(w) && IsSettling(s.workers[w].pc)))
  }

  /**
   After any run, the last step of a worker leaves the row of its scan unsettled exactly when the
   row was not settled yet, and the step was rolled back or met a cancelling row in the exception
   handler. Whether the worker had claimed the scan makes no difference.
   */
  lemma {:induction false} UnsettledIff(actions: seq<Action>, w: WorkerId, a: Action)
    requires Settles(Run(Init, actions), w, a)
    requires Run(Init, actions).workers[w].scan in Run(Init, actions).rows
    ensures
      var s := Run(Init, actions);
      var id := s.workers[w].scan;
      && id in Do(s, a).rows
      && (!Terminal(Do(s, a).rows[id].status) <==>
            !Terminal(s.rows[id].status)
            && (a.SettlingRaises? || (a.MarkFailed? && s.rows[id].status == Cancelling)))
  {
    RunKeepsInv(actions);
    assert WorkerOk(Run(Init, actions), Run(Init, actions).workers[w]);
    if a.Finish? {
      TerminalMappingIsLegal(actions, w);
    } else if a.MarkFailed? {
      ExceptionStrandsIffCancelling(actions, w);
    }
  }

  /** The exception handler fails to settle the scan exactly when a cancellation came first. */
  lemma {:induction false} ExceptionStrandsIffCancelling(actions: seq<Action>, w: WorkerId)
    requires At(Run(Init, actions), w, Failing)
    requires Run(Init, actions).workers[w].scan in Run(Init, actions).rows
    ensures
      var s := Run(Init, actions);
      var id := s.workers[w].scan;
      && id in Do(s, MarkFailed(w)).rows
      && (!Terminal(Do(s, MarkFailed(w)).rows[id].status) <==> s.rows[id].status == Cancelling)
  {
    RunKeepsInv(actions);
    assert WorkerOk(Run(Init, actions), Run(Init, actions).workers[w]);
  }

  /** There is a run in which that happens: the scan stays `cancelling` with no worker left. */
  lemma {:induction false} StrandedScanExists() returns (actions: seq<Action>)
    ensures
      var s := Run(Init, actions);
      0 in s.rows && s.rows[0].status == Cancelling && At(s, 0, Left) && 0 !in s.active
  {
    actions := RunToDiscovering();
    var s5 := Run(Init, actions);
    CancelThenRaiseStrands(s5);
    actions := Extended(actions, CancelCommit(0));
    actions := Extended(actions, Raise(0));
    actions := Extended(actions, MarkFailed(0));
    actions := Extended(actions, Leave(0));
  }

  /** Another run leaves the scan `running`: its finishing transaction raised. */
  lemma {:induction false} LostFinishExists() returns (actions: seq<Action>)
    ensures
      var s := Run(Init, actions);
      0 in s.rows && s.rows[0].status == Running && At(s, 0, Left) && 0 !in s.active
  {
    actions := RunToDiscovering();
    LoseFinish(Run(Init, actions));
    actions := Extended(actions, EndDiscovery(0));
    actions := Extended(actions, EndRun(0, RunFinished));
    actions := Extended(actions, SettlingRaises(0));
    actions := Extended(actions, Leave(0));
  }

  /**
   A third run leaves the scan `queued`, with no worker and no registry entry: both the claim and
   the exception handler's transaction raised.
   */
  lemma {:induction false} LostPickupExists() returns (actions: seq<Action>)
    ensures
      var s := Run(Init, actions);
      0 in s.rows && s.rows[0].status == Queued && At(s, 0, Left) && 0 !in s.active
  {
    actions := RunToPending();
    LosePickup(Run(Init, actions));
    actions := Extended(actions, Raise(0));
    actions := Extended(actions, SettlingRaises(0));
    actions := Extended(actions, Leave(0));
  }

  lemma {:induction false} LosePickup(s: Sys)
    requires At(s, 0, Pending) && s.workers[0].scan == 0 && s.workers[0].epoch == s.epoch
    ensures
      var s' := Do(Do(Do(s, Raise(0)), SettlingRaises(0)), Leave(0));
      s'.rows == s.rows && At(s', 0, Left) && 0 !in s'.active
  {
    LoseThenLeave(Do(s, Raise(0)));
  }

  lemma {:induction false} LoseFinish(s: Sys)
    requires 0 in s.rows && s.rows[0].status == Running
    requires s.workers == map[0 := Worker(0, 0, Discovering, false, true, false, false, false)] && s.epoch == 0
    ensures
      var s' := Do(Do(Do(Do(s, EndDiscovery(0)), EndRun(0, RunFinished)), SettlingRaises(0)), Leave(0));
      0 in s'.rows && s'.rows[0].status == Running && At(s', 0, Left) && 0 !in s'.active
  {
    var s1 := Do(s, EndDiscovery(0));
    assert s1 == GoTo(s, 0, Executing);
    var s2 := Do(s1, EndRun(0, RunFinished));
    assert s2 == GoTo(s1, 0, Finishing(RunFinished));
    LoseThenLeave(s2);
  }

  lemma {:induction false} LoseThenLeave(s: Sys)
    requires 0 in s.workers && IsSettling(s.workers[0].pc) && s.workers[0].scan == 0 && s.workers[0].epoch == s.epoch
    ensures
      var s' := Do(Do(s, SettlingRaises(0)), Leave(0));
      s'.rows == s.rows && At(s', 0, Left) && 0 !in s'.active
  {
    LeaveDrops(Do(s, SettlingRaises(0)));
  }

  lemma {:induction false} Extended(actions: seq<Action>, a: Action) returns (longer: seq<Action>)
    ensures Run(Init, longer) == Do(Run(Init, actions), a)
  {
    longer := actions + [a];
    assert longer[..|longer| - 1] == actions;
  }

  /** The scan is created, submitted, claimed and started. */
  lemma {:induction false} RunToDiscovering() returns (actions: seq<Action>)
    ensures
      var s := Run(Init, actions);
      && 0 in s.rows && s.rows[0].status == Running && !s.rows[0].liveProbe
      && s.workers == map[0 := Worker(0, 0, Discovering, false, true, false, false, false)] && s.epoch == 0
  {
    actions := RunToPending();
    actions := Extended(actions, Claim(0, ""));
    assert Run(Init, actions).workers == map[0 := Worker(0, 0, Resolving, false, true, false, false, false)];
    actions := Extended(actions, Start(0));
  }

  lemma {:induction false} RunToPending() returns (actions: seq<Action>)
    ensures
      var s := Run(Init, actions);
      && 0 in s.rows && s.rows[0].status == Queued && !s.rows[0].liveProbe
      && s.workers == map[0 := Worker(0, 0, Pending, false, false, false, false, false)] && s.epoch == 0
  {
    actions := Extended([], Create(0, false));
    actions := Extended(actions, Register(0));
    assert Run(Init, actions).workers == map[0 := Worker(0, 0, Registered, false, false, false, false, false)];
    actions := Extended(actions, Enqueue(0));
  }

  lemma {:induction false} CancelThenRaiseStrands(s: Sys)
    requires 0 in s.rows && s.rows[0].status == Running && !s.rows[0].liveProbe
    requires s.workers == map[0 := Worker(0, 0, Discovering, false, true, false, false, false)] && s.epoch == 0
    ensures
      var s' := Do(Do(Do(Do(s, CancelCommit(0)), Raise(0)), MarkFailed(0)), Leave(0));
      0 in s'.rows && s'.rows[0].status == Cancelling && At(s', 0, Left) && 0 !in s'.active
  {
    var s6 := Do(s, CancelCommit(0));
    assert s6.rows[0].status == Cancelling && s6.workers == s.workers;
    var s7 := Do(s6, Raise(0));
    assert s7.rows == s6.rows && At(s7, 0, Failing);
    MarkThenLeave(s7);
  }

  lemma {:induction false} MarkThenLeave(s: Sys)
    requires 0 in s.rows && s.rows[0].status == Cancelling
    requires At(s, 0, Failing) && s.workers[0].scan == 0 && s.workers[0].epoch == s.epoch
    ensures
      var s' := Do(Do(s, MarkFailed(0)), Leave(0));
      s'.rows == s.rows && At(s', 0, Left) && 0 !in s'.active
  {
    assert Do(s, MarkFailed(0)) == GoTo(s, 0, Leaving);
    LeaveDrops(GoTo(s, 0, Leaving));
  }

  lemma {:induction false} LeaveDrops(s: Sys)
    requires At(s, 0, Leaving) && s.workers[0].scan == 0 && s.workers[0].epoch == s.epoch
    ensures var s' := Do(s, Leave(0)); s'.rows == s.rows && At(s', 0, Left) && 0 !in s'.active
  {
  }

  /** The status recovery gives a row: interrupted work fails, accepted cancellations complete. */
  function RecoveredStatus(status: Status): Status {
    match status
    case Cancelling => Cancelled
    case Initializing => Failed
    case Running => Failed
    case _ => status
  }

  lemma {:induction false} RecoverRowsEffect(s: Sys, order: seq<ScanId>, id: ScanId)
    requires id in s.rows
    ensures id in RecoverRows(s, order).rows
    ensures RecoverRows(s, order).rows[id].status ==
            if id in order then RecoveredStatus(s.rows[id].status) else s.rows[id].status
    ensures RecoverRows(s, order).(rows := s.rows, log := s.log) == s
  {
    if order != [] {
      var last := order[|order| - 1];
      assert order == order[..|order| - 1] + [last];
      RecoverRowsEffect(s, order[..|order| - 1], id);
      RecoverAddsNoRow(s, order[..|order| - 1]);
      RecoverAddsNoRow(s, order);
    }
  }

  /** Recovery settles every interrupted row, and leaves queued and terminal ones alone. */
  lemma {:induction false} RecoverSettles(s: Sys, order: seq<ScanId>, id: ScanId)
    requires CoversActive(s, order) && id in s.rows
    ensures id in Do(s, Recover(order)).rows
    ensures Do(s, Recover(order)).rows[id].status == RecoveredStatus(s.rows[id].status)
  {
    RecoverRowsEffect(s, order, id);
  }

  /** A second recovery, in whatever order, changes no row and records no event. */
  lemma {:induction false} RecoverTwice(s: Sys, order: seq<ScanId>, again: seq<ScanId>)
    requires CoversActive(s, order)
    ensures Do(Do(s, Recover(order)), Recover(again)) == Do(s, Recover(order))
  {
    var s' := Do(s, Recover(order));
    RecoverAddsNoRow(s, order);
    forall id | id in s'.rows ensures s'.rows[id].status !in {Cancelling, Initializing, Running} {
      RecoverSettles(s, order, id);
    }
    RecoverIdle(s', again);
  }

  lemma {:induction false} RecoverIdle(s: Sys, order: seq<ScanId>)
    requires forall id :: id in s.rows ==> s.rows[id].status !in {Cancelling, Initializing, Running}
    ensures RecoverRows(s, order) == s
  {
    if order != [] {
      RecoverIdle(s, order[..|order| - 1]);
    }
  }

  lemma {:induction false} SubmittedAllRegisters(s: Sys, ids: seq<ScanId>)
    requires !s.shuttingDown
    ensures var s' := SubmittedAll(s, ids);
            && s'.rows == s.rows && s'.log == s.log && !s'.shuttingDown
            && s.active.Keys <= s'.active.Keys
            && forall id :: id in ids ==> id in s'.active
  {
    if ids != [] {
      SubmittedAllRegisters(s, ids[..|ids| - 1]);
      assert ids == ids[..|ids| - 1] + [ids[|ids| - 1]];
    }
  }

  lemma {:induction false} WithStatusFinds(s: Sys, ids: seq<ScanId>, wanted: set<Status>, id: ScanId)
    ensures id in WithStatus(s, ids, wanted) <==> id in ids && id in s.rows && s.rows[id].status in wanted
  {
    if ids != [] {
      WithStatusFinds(s, ids[..|ids| - 1], wanted, id);
      assert ids == ids[..|ids| - 1] + [ids[|ids| - 1]];
    }
  }

  /**
   After a crash at any point of any run, startup recovery leaves only terminal rows and
   queued rows that are registered for execution.
   */
  lemma {:induction false} CrashRecovery(actions: seq<Action>, order: seq<ScanId>, id: ScanId)
    requires CoversActive(Do(Run(Init, actions), Restart({})), order)
    requires id in Run(Init, actions).rows
    ensures
      var s := Do(Run(Init, actions), Restart({}));
      var s' := SubmittedAll(Do(s, Recover(order)), WithStatus(s, order, {Queued}));
      && id in s'.rows
      && (Terminal(s'.rows[id].status) || (s'.rows[id].status == Queued && id in s'.active))
  {
    var s := Do(Run(Init, actions), Restart({}));
    RecoverSettles(s, order, id);
    RecoverRowsEffect(s, order, id);
    SubmittedAllRegisters(Do(s, Recover(order)), WithStatus(s, order, {Queued}));
    WithStatusFinds(s, order, {Queued}, id);
  }
}
