/**
 What each database transaction of the lifecycle writes, field by field: the columns of the row,
 the events, and nothing else. The statements mention rows and events only, so they hold the
 step functions of `ScanLifecycle` to an independent account of the code.
 */
module LifecycleSteps {
  import opened Wrappers
  import opened ScanState
  import opened ScanLifecycle

  /** Nothing but rows, log and workers differs, and of the workers only where `w` stands. */
  ghost predicate OnlyWorkerMoves(s: Sys, s': Sys, w: WorkerId, pc: Pc)
    requires w in s.workers
  {
    s' == s.(rows := s'.rows, log := s'.log, workers := s.workers[w := s.workers[w].(pc := pc)])
  }

  // ----- the terminal mapping --------------------------------------------

  /**
   The terminal mapping on a row in any status. A requested cancellation wins over whatever the
   agent did; a finished run completes the scan; a failed run fails it with the run's own error.
   */
  lemma FinishMeans(s: Sys, w: WorkerId)
    requires w in s.workers && s.workers[w].pc.Finishing? && s.workers[w].scan in s.rows
    ensures var id, final, s' := s.workers[w].scan, s.workers[w].pc.final, Do(s, Finish(w));
            var row, status := s.rows[id], s.rows[id].status;
            && OnlyWorkerMoves(s, s', w, Leaving)
            && (status == Cancelling ==>
                  && s'.rows == s.rows[id := row.(status := Cancelled, cancelledAt := Some(s.now))]
                  && s'.log == s.log + [Event(id, StatusChanged(Cancelling, Cancelled)), Event(id, ScanCancelled)])
            && (status == Running && final == RunFinished ==>
                  && s'.rows == s.rows[id := row.(status := Completed, completedAt := Some(s.now))]
                  && s'.log == s.log + [Event(id, StatusChanged(Running, Completed)), Event(id, ScanCompleted)])
            && (status in {Queued, Initializing, Running} && final.RunFailed? ==>
                  && s'.rows == s.rows[id := row.(status := Failed, completedAt := Some(s.now), error := Some(final.error))]
                  && s'.log == s.log + [Event(id, StatusChanged(status, Failed)), Event(id, ScanFailed)])
            && (status in {Queued, Initializing} && final == RunCancelled ==>
                  && s'.rows == s.rows[id := row.(status := Cancelled, cancelledAt := Some(s.now))]
                  && s'.log == s.log + [Event(id, StatusChanged(status, Cancelled)), Event(id, ScanCancelled)])
            && (status in {Completed, Failed, Cancelled} || (status == Running && final == RunCancelled)
                || (status in {Queued, Initializing} && final == RunFinished) ==>
                  s'.rows == s.rows && s'.log == s.log)
  {
    var id, final, s' := s.workers[w].scan, s.workers[w].pc.final, Do(s, Finish(w));
    var status := s.rows[id].status;
    if status == Cancelling {
      assert EventsFor(id, [StatusChanged(Cancelling, Cancelled), ScanCancelled]) ==
             [Event(id, StatusChanged(Cancelling, Cancelled)), Event(id, ScanCancelled)];
    } else if final.RunFailed? {
      assert EventsFor(id, [StatusChanged(status, Failed), ScanFailed]) ==
             [Event(id, StatusChanged(status, Failed)), Event(id, ScanFailed)];
    } else if final == RunCancelled {
      assert EventsFor(id, [StatusChanged(status, Cancelled), ScanCancelled]) ==
             [Event(id, StatusChanged(status, Cancelled)), Event(id, ScanCancelled)];
    } else {
      assert EventsFor(id, [StatusChanged(status, Completed), ScanCompleted]) ==
             [Event(id, StatusChanged(status, Completed)), Event(id, ScanCompleted)];
    }
  }

  /** A worker that finishes a scan whose row is gone writes nothing. */
  lemma FinishWithoutRow(s: Sys, w: WorkerId)
    requires w in s.workers && s.workers[w].pc.Finishing? && s.workers[w].scan !in s.rows
    ensures Do(s, Finish(w)) == s.(workers := s.workers[w := s.workers[w].(pc := Leaving)])
  {
  }

  /**
   In every run, a finishing worker that still finds its row active settles it: cancelled exactly
   when it was cancelling, otherwise completed exactly when the agent run finished, and failed,
   with that error, exactly when the agent run failed.
   */
  lemma {:induction false} FinishSettles(actions: seq<Action>, w: WorkerId)
    requires var s := Run(Init, actions);
             && w in s.workers && s.workers[w].pc.Finishing?
             && s.workers[w].scan in s.rows && Active(s.rows[s.workers[w].scan].status)
    ensures var s := Run(Init, actions);
            var final, row := s.workers[w].pc.final, s.rows[s.workers[w].scan];
            var row' := Do(s, Finish(w)).rows[s.workers[w].scan];
            && (row'.status == Cancelled <==> row.status == Cancelling)
            && (row'.status == Completed <==> row.status == Running && final == RunFinished)
            && (row'.status == Failed <==> row.status == Running && final.RunFailed?)
            && row'.status in {Cancelled, Completed, Failed}
            && row'.startedAt == row.startedAt
            && row'.error == (if row'.status == Failed then Some(final.error) else None)
  {
    var s := Run(Init, actions);
    RunKeepsInv(actions);
    assert WorkerOk(s, s.workers[w]);
    FinishMeans(s, w);
  }

  /**
   In every run, a worker that reaches the end of discovery with its event set goes straight to the
   terminal mapping and leaves the scan cancelled; otherwise the agent loop begins.
   */
  lemma {:induction false} CancelSkipsTheLoop(actions: seq<Action>, w: WorkerId)
    requires At(Run(Init, actions), w, Discovering)
    ensures var s := Run(Init, actions);
            var s1 := Do(s, EndDiscovery(w));
            if s.workers[w].cancel then
              At(s1, w, Finishing(RunCancelled)) && s.workers[w].scan in s.rows
              && Do(s1, Finish(w)).rows[s.workers[w].scan].status == Cancelled
            else s1 == s.(workers := s.workers[w := s.workers[w].(pc := Executing)])
  {
    var s := Run(Init, actions);
    RunKeepsInv(actions);
    assert WorkerOk(s, s.workers[w]);
    if s.workers[w].cancel {
      FinishMeans(Do(s, EndDiscovery(w)), w);
    }
  }

  // ----- the other transactions ------------------------------------------

  /** The first transaction: a live scan is refused before it starts, any other queued scan is claimed. */
  lemma ClaimMeans(s: Sys, w: WorkerId, refusal: string)
    requires At(s, w, Pending)
    ensures var id, s' := s.workers[w].scan, Do(s, Claim(w, refusal));
            && (id in s.rows && s.rows[id].status == Queued && s.rows[id].liveProbe ==>
                  && OnlyWorkerMoves(s, s', w, Leaving)
                  && s'.rows == s.rows[id := s.rows[id].(status := Failed, completedAt := Some(s.now), error := Some(refusal))]
                  && s'.log == s.log + [Event(id, ScanFailed)])
            && (id in s.rows && s.rows[id].status == Queued && !s.rows[id].liveProbe ==>
                  && s' == s.(rows := s.rows[id := s.rows[id].(status := Initializing, startedAt := Some(s.now))],
                              log := s.log + [Event(id, ScanStarted), Event(id, StatusChanged(Queued, Initializing))],
                              workers := s.workers[w := s.workers[w].(pc := Resolving, claimed := true)]))
            && (id !in s.rows || s.rows[id].status != Queued ==>
                  s' == s.(workers := s.workers[w := s.workers[w].(pc := Leaving)]))
  {
    var id := s.workers[w].scan;
    assert EventsFor(id, [ScanFailed]) == [Event(id, ScanFailed)];
    assert EventsFor(id, [ScanStarted, StatusChanged(Queued, Initializing)]) ==
           [Event(id, ScanStarted), Event(id, StatusChanged(Queued, Initializing))];
  }

  /** The second transaction starts the run unless the scan was cancelled meanwhile. */
  lemma StartMeans(s: Sys, w: WorkerId)
    requires At(s, w, Resolving)
    ensures var id, s' := s.workers[w].scan, Do(s, Start(w));
            if id in s.rows && s.rows[id].status == Initializing then
              && OnlyWorkerMoves(s, s', w, Discovering)
              && s'.rows == s.rows[id := s.rows[id].(status := Running)]
              && s'.log == s.log + [Event(id, StatusChanged(Initializing, Running))]
            else s' == s.(workers := s.workers[w := s.workers[w].(pc := Leaving)])
  {
    var id := s.workers[w].scan;
    assert EventsFor(id, [StatusChanged(Initializing, Running)]) == [Event(id, StatusChanged(Initializing, Running))];
  }

  /** The exception handler fails any scan that is not terminal, except one being cancelled. */
  lemma MarkFailedMeans(s: Sys, w: WorkerId)
    requires At(s, w, Failing)
    ensures var id, s' := s.workers[w].scan, Do(s, MarkFailed(w));
            if id in s.rows && s.rows[id].status in {Queued, Initializing, Running} then
              && OnlyWorkerMoves(s, s', w, Leaving)
              && s'.rows == s.rows[id := s.rows[id].(status := Failed, completedAt := Some(s.now),
                                                     error := Some("Scan worker encountered an internal error."))]
              && s'.log == s.log + [Event(id, ScanFailed)]
            else s' == s.(workers := s.workers[w := s.workers[w].(pc := Leaving)])
  {
    var id := s.workers[w].scan;
    assert EventsFor(id, [ScanFailed]) == [Event(id, ScanFailed)];
  }

  /** A cancellation settles a scan that is not running yet, and asks a running one to stop. */
  lemma CancelMeans(s: Sys, id: ScanId)
    ensures var s' := Do(s, CancelCommit(id));
            if id !in s.rows then s' == s
            else
              match s.rows[id].status
              case Queued => s' == s.(rows := s.rows[id := s.rows[id].(status := Cancelled, cancelledAt := Some(s.now))])
              case Initializing =>
                s' == s.(rows := s.rows[id := s.rows[id].(status := Cancelled, cancelledAt := Some(s.now))])
              case Running =>
                s' == s.(rows := s.rows[id := s.rows[id].(status := Cancelling)], signals := s.signals + {id})
              case _ => s' == s
  {
    assert s.log + EventsFor(id, []) == s.log;
  }

  /** The signal reaches the worker in the current registry, and no other. */
  lemma SignalMeans(s: Sys, id: ScanId)
    requires id in s.signals && (id in s.active ==> s.active[id] in s.workers)
    ensures var s' := Do(s, Signal(id));
            && s' == s.(signals := s.signals - {id}, workers := s'.workers)
            && s'.workers.Keys == s.workers.Keys
            && forall w :: w in s.workers ==>
                 s'.workers[w] == if id in s.active && w == s.active[id] then s.workers[w].(cancel := true)
                                  else s.workers[w]
  {
  }

  /** A new scan is queued with nothing filled in; an active scan of the project keeps it out. */
  lemma CreateMeans(s: Sys, project: nat, liveProbe: bool)
    ensures var s' := Do(s, Create(project, liveProbe));
            if exists id :: id in s.rows && s.rows[id].project == project
                            && s.rows[id].status in {Queued, Initializing, Running, Cancelling} then
              s' == s
            else
              s' == s.(rows := s.rows[s.nextScan := Scan(project, liveProbe, Queued, None, None, None, None)],
                       nextScan := s.nextScan + 1)
  {
    if id :| id in s.rows && s.rows[id].project == project && Active(s.rows[id].status) {
      assert s.rows[id].status in {Queued, Initializing, Running, Cancelling};
    }
  }

  /** Submission registers a fresh, unclaimed worker; a second one for the same scan does nothing. */
  lemma SubmitMeans(s: Sys, id: ScanId)
    requires s.nextWorker !in s.workers
    ensures var s' := Submitted(s, id);
            if s.shuttingDown || id in s.active then s' == s
            else
              s' == s.(active := s.active[id := s.nextWorker], nextWorker := s.nextWorker + 1,
                       workers := s.workers[s.nextWorker :=
                         Worker(id, s.epoch, Pending, false, false, false, false, id !in s.rows)])
  {
    if !s.shuttingDown && id !in s.active {
      var r := Do(s, Register(id));
      assert r.workers[s.nextWorker := r.workers[s.nextWorker].(pc := Pending)] ==
             s.workers[s.nextWorker := r.workers[s.nextWorker].(pc := Pending)];
    }
  }

  /** A leaving worker drops the entry of its scan from the registry of its own instance. */
  lemma LeaveMeans(s: Sys, w: WorkerId)
    requires At(s, w, Leaving)
    ensures Do(s, Leave(w)) ==
            s.(workers := s.workers[w := s.workers[w].(pc := Left)],
               active := if s.workers[w].epoch == s.epoch then s.active - {s.workers[w].scan} else s.active)
  {
  }

  /** After a shutdown nothing is submitted; pending workers may be dropped, and rows and log stay. */
  lemma ShutdownMeans(s: Sys, dropped: set<WorkerId>, id: ScanId)
    ensures var s' := Do(s, Shutdown(dropped));
            && Submitted(s', id) == s'
            && s' == s.(shuttingDown := s'.shuttingDown, workers := s'.workers)
            && s'.workers.Keys == s.workers.Keys
            && forall w :: w in s.workers ==>
                 s'.workers[w] == if w in dropped && s.workers[w].pc == Pending then s.workers[w].(pc := Dropped)
                                  else s.workers[w]
  {
  }

  /** A restart empties the registry and takes submissions again; the surviving threads and all rows are as before. */
  lemma RestartMeans(s: Sys, survivors: set<WorkerId>, id: ScanId)
    ensures var s' := Do(s, Restart(survivors));
            && s' == s.(epoch := s.epoch + 1, shuttingDown := s'.shuttingDown, active := map[], workers := s'.workers)
            && id in Submitted(s', id).active
            && s'.workers.Keys == s.workers.Keys * survivors
            && forall w :: w in s'.workers ==> s'.workers[w] == s.workers[w]
  {
  }

  /** What recovery makes of one row and what it records for it. */
  lemma RecoverOneMeans(s: Sys, id: ScanId)
    requires id in s.rows
    ensures var s' := RecoverOne(s, id);
            match s.rows[id].status
            case Cancelling =>
              s' == s.(rows := s.rows[id := s.rows[id].(status := Cancelled, cancelledAt := Some(s.now))],
                       log := s.log + [Event(id, StatusChanged(Cancelling, Cancelled))])
            case Initializing =>
              s' == s.(rows := s.rows[id := s.rows[id].(status := Failed, completedAt := Some(s.now),
                                                        error := Some("Backend restarted during scan."))],
                       log := s.log + [Event(id, ScanFailed)])
            case Running =>
              s' == s.(rows := s.rows[id := s.rows[id].(status := Failed, completedAt := Some(s.now),
                                                        error := Some("Backend restarted during scan."))],
                       log := s.log + [Event(id, ScanFailed)])
            case _ => s' == s
  {
    assert EventsFor(id, [StatusChanged(Cancelling, Cancelled)]) == [Event(id, StatusChanged(Cancelling, Cancelled))];
    assert EventsFor(id, [ScanFailed]) == [Event(id, ScanFailed)];
  }

  /** Recovery over the whole list: each interrupted row is rewritten once, every other row stays. */
  lemma {:induction false} RecoverMeans(s: Sys, order: seq<ScanId>, id: ScanId)
    requires id in s.rows
    ensures id in RecoverRows(s, order).rows && RecoverRows(s, order).now == s.now
    ensures var row, row' := s.rows[id], RecoverRows(s, order).rows[id];
            row' ==
            if id !in order then row
            else if row.status == Cancelling then row.(status := Cancelled, cancelledAt := Some(s.now))
            else if row.status == Initializing || row.status == Running then
              row.(status := Failed, completedAt := Some(s.now), error := Some("Backend restarted during scan."))
            else row
  {
    if order != [] {
      var before, last := order[..|order| - 1], order[|order| - 1];
      assert order == before + [last];
      RecoverMeans(s, before, id);
      if last in RecoverRows(s, before).rows {
        RecoverOneMeans(RecoverRows(s, before), last);
      }
    }
  }

  // ----- where outcomes come from ----------------------------------------

  /** Every move of a worker into `Finishing` with an outcome other than cancelled is an `EndRun`. */
  lemma {:induction false} FinalsAreReported(actions: seq<Action>, w: WorkerId)
    requires w in Run(Init, actions).workers && Run(Init, actions).workers[w].pc.Finishing?
    requires Run(Init, actions).workers[w].pc.final != RunCancelled
    ensures EndRun(w, Run(Init, actions).workers[w].pc.final) in actions
  {
    if actions != [] {
      var before, last := actions[..|actions| - 1], actions[|actions| - 1];
      assert actions == before + [last];
      FinishingStays(Run(Init, before), last, w);
      if last != EndRun(w, Run(Init, actions).workers[w].pc.final) {
        FinalsAreReported(before, w);
      }
    }
  }

  lemma {:induction false} FinishingStays(s: Sys, a: Action, w: WorkerId)
    requires w in Do(s, a).workers && Do(s, a).workers[w].pc.Finishing? && Do(s, a).workers[w].pc.final != RunCancelled
    ensures a == EndRun(w, Do(s, a).workers[w].pc.final)
            || (w in s.workers && s.workers[w].pc == Do(s, a).workers[w].pc)
  {
    if a.Recover? {
      RecoverKeepsWorkers(s, a.order);
    } else if a.Signal? && a.scan in s.signals && a.scan in s.active && s.active[a.scan] in s.workers {
      assert w in s.workers;
    } else if IsWorkerMove(a) {
      WorkerFinishingStays(s, a, w);
    }
  }

  lemma {:induction false} WorkerFinishingStays(s: Sys, a: Action, w: WorkerId)
    requires IsWorkerMove(a)
    requires w in Do(s, a).workers && Do(s, a).workers[w].pc.Finishing? && Do(s, a).workers[w].pc.final != RunCancelled
    ensures a == EndRun(w, Do(s, a).workers[w].pc.final)
            || (w in s.workers && s.workers[w].pc == Do(s, a).workers[w].pc)
  {
    if !IsLocalMove(a) && Do(s, a) != s {
      TransactionMovesOne(s, a);
    }
  }

  /** A transaction moves its own worker, and never into `Finishing`. */
  lemma TransactionMovesOne(s: Sys, a: Action)
    requires IsWorkerMove(a) && !IsLocalMove(a) && Do(s, a) != s
    ensures a.worker in s.workers && a.worker in Do(s, a).workers && !Do(s, a).workers[a.worker].pc.Finishing?
    ensures Do(s, a).workers == s.workers[a.worker := Do(s, a).workers[a.worker]]
  {
    match a
    case Claim(w, refusal) => ClaimMeans(s, w, refusal);
    case Start(w) => StartMeans(s, w);
    case Finish(w) => if s.workers[w].scan in s.rows { FinishMeans(s, w); }
    case MarkFailed(w) => MarkFailedMeans(s, w);
    case Leave(w) => LeaveMeans(s, w);
  }

  lemma {:induction false} RecoverKeepsWorkers(s: Sys, order: seq<ScanId>)
    ensures RecoverRows(s, order).workers == s.workers
  {
    if order != [] {
      RecoverKeepsWorkers(s, order[..|order| - 1]);
    }
  }

  /** A step of a worker for this scan that finds it unsettled, with a reported outcome. */
  ghost predicate ReportedFor(actions: seq<Action>, id: ScanId, final: Final) {
    exists w, k :: 0 <= k < |actions| && FinishesAt(actions, k, w, id, final)
  }

  ghost predicate FinishesAt(actions: seq<Action>, k: nat, w: WorkerId, id: ScanId, final: Final)
    requires k < |actions|
  {
    var s := Run(Init, actions[..k]);
    && actions[k] == Finish(w) && At(s, w, Finishing(final)) && s.workers[w].scan == id
    && EndRun(w, final) in actions[..k]
  }

  /** Where the error text of a failed scan can come from. */
  ghost predicate ErrorHasSource(actions: seq<Action>, id: ScanId, error: string) {
    || error == "Backend restarted during scan."
    || error == "Scan worker encountered an internal error."
    || (exists w :: Claim(w, error) in actions)
    || ReportedFor(actions, id, RunFailed(error))
  }

  lemma EarlierReport(before: seq<Action>, last: Action, id: ScanId, final: Final)
    requires ReportedFor(before, id, final)
    ensures ReportedFor(before + [last], id, final)
  {
    var w, k :| 0 <= k < |before| && FinishesAt(before, k, w, id, final);
    assert (before + [last])[..k] == before[..k];
    assert FinishesAt(before + [last], k, w, id, final);
  }

  lemma LastReport(before: seq<Action>, w: WorkerId, id: ScanId, final: Final)
    requires At(Run(Init, before), w, Finishing(final)) && Run(Init, before).workers[w].scan == id
    requires final != RunCancelled
    ensures ReportedFor(before + [Finish(w)], id, final)
  {
    FinalsAreReported(before, w);
    var actions := before + [Finish(w)];
    assert actions[..|before|] == before;
    assert FinishesAt(actions, |before|, w, id, final);
  }

  /**
   Over every run, with restarts and any interleaving: a scan is completed only if a worker of
   its own finished with an agent run that reported `finished`, and a failed scan carries the
   error of such a run, of a refused live probe, of an internal error or of a restart.
   */
  lemma {:induction false} OutcomesHaveSources(actions: seq<Action>, id: ScanId)
    requires id in Run(Init, actions).rows
    ensures Run(Init, actions).rows[id].status == Completed ==> ReportedFor(actions, id, RunFinished)
    ensures Run(Init, actions).rows[id].status == Failed ==>
              && Run(Init, actions).rows[id].error.Some?
              && ErrorHasSource(actions, id, Run(Init, actions).rows[id].error.value)
  {
    var before, last := actions[..|actions| - 1], actions[|actions| - 1];
    var s, s' := Run(Init, before), Run(Init, actions);
    assert actions == before + [last];
    if id in s.rows && s'.rows[id] == s.rows[id] {
      OutcomesHaveSources(before, id);
      SourcesStay(before, last, id);
    } else {
      WriteHasSource(before, last, id);
    }
  }

  lemma {:induction false} SourcesStay(before: seq<Action>, last: Action, id: ScanId)
    ensures ReportedFor(before, id, RunFinished) ==> ReportedFor(before + [last], id, RunFinished)
    ensures forall e :: ErrorHasSource(before, id, e) ==> ErrorHasSource(before + [last], id, e)
  {
    if ReportedFor(before, id, RunFinished) {
      EarlierReport(before, last, id, RunFinished);
    }
    forall e | ErrorHasSource(before, id, e) ensures ErrorHasSource(before + [last], id, e) {
      if ReportedFor(before, id, RunFailed(e)) {
        EarlierReport(before, last, id, RunFailed(e));
      } else if w :| Claim(w, e) in before {
        assert Claim(w, e) in before + [last];
      }
    }
  }

  lemma {:induction false} WriteHasSource(before: seq<Action>, a: Action, id: ScanId)
    requires var s, s' := Run(Init, before), Do(Run(Init, before), a);
             id in s'.rows && (id !in s.rows || s'.rows[id] != s.rows[id])
    ensures var row' := Do(Run(Init, before), a).rows[id];
            && (row'.status == Completed ==> ReportedFor(before + [a], id, RunFinished))
            && (row'.status == Failed ==>
                  row'.error.Some? && ErrorHasSource(before + [a], id, row'.error.value))
  {
    var s := Run(Init, before);
    match a
    case Finish(w) => FinishHasSource(before, w, id);
    case Claim(w, refusal) =>
      assert Claim(w, refusal) in before + [a];
      ClaimWrites(s, w, refusal, id);
    case Recover(order) => RecoverWrites(s, order, id);
    case _ => OtherWrites(s, a, id);
  }

  lemma {:induction false} FinishHasSource(before: seq<Action>, w: WorkerId, id: ScanId)
    requires var s, s' := Run(Init, before), Do(Run(Init, before), Finish(w));
             id in s'.rows && (id !in s.rows || s'.rows[id] != s.rows[id])
    ensures var row' := Do(Run(Init, before), Finish(w)).rows[id];
            && (row'.status == Completed ==> ReportedFor(before + [Finish(w)], id, RunFinished))
            && (row'.status == Failed ==> row'.error.Some? && ReportedFor(before + [Finish(w)], id, RunFailed(row'.error.value)))
  {
    var s := Run(Init, before);
    if s.workers[w].scan in s.rows {
      FinishMeans(s, w);
      if s.workers[w].pc.final != RunCancelled {
        LastReport(before, w, s.workers[w].scan, s.workers[w].pc.final);
      }
    } else {
      FinishWithoutRow(s, w);
    }
  }

  lemma {:induction false} ClaimWrites(s: Sys, w: WorkerId, refusal: string, id: ScanId)
    requires var s' := Do(s, Claim(w, refusal)); id in s'.rows && (id !in s.rows || s'.rows[id] != s.rows[id])
    ensures var row' := Do(s, Claim(w, refusal)).rows[id];
            row'.status == Initializing || (row'.status == Failed && row'.error == Some(refusal))
  {
    ClaimMeans(s, w, refusal);
  }

  lemma {:induction false} OtherWrites(s: Sys, a: Action, id: ScanId)
    requires !(a.Finish? || a.Claim? || a.Recover?)
    requires id in Do(s, a).rows && (id !in s.rows || Do(s, a).rows[id] != s.rows[id])
    ensures var row' := Do(s, a).rows[id];
            || row'.status in {Queued, Running, Cancelling, Cancelled}
            || (row'.status == Failed && row'.error == Some("Scan worker encountered an internal error."))
  {
    match a
    case Start(w) => StartMeans(s, w);
    case MarkFailed(w) => MarkFailedMeans(s, w);
    case CancelCommit(i) => CancelMeans(s, i);
    case _ => RowsKeptOrNew(s, a, id);
  }

  lemma {:induction false} RecoverWrites(s: Sys, order: seq<ScanId>, id: ScanId)
    requires id in RecoverRows(s, order).rows
    requires id !in s.rows || RecoverRows(s, order).rows[id] != s.rows[id]
    ensures var row' := RecoverRows(s, order).rows[id];
            row'.status == Cancelled
            || (row'.status == Failed && row'.error == Some("Backend restarted during scan."))
  {
    RecoverKeepsKeys(s, order);
    RecoverMeans(s, order, id);
  }

  lemma {:induction false} RecoverKeepsKeys(s: Sys, order: seq<ScanId>)
    ensures RecoverRows(s, order).rows.Keys == s.rows.Keys
  {
    if order != [] {
      RecoverKeepsKeys(s, order[..|order| - 1]);
    }
  }

  lemma {:induction false} RowsKeptOrNew(s: Sys, a: Action, id: ScanId)
    requires !(a.Finish? || a.Claim? || a.Start? || a.MarkFailed? || a.CancelCommit? || a.Recover?)
    requires id in Do(s, a).rows && (id !in s.rows || Do(s, a).rows[id] != s.rows[id])
    ensures Do(s, a).rows[id].status == Queued
  {
  }
}
