/**
 The code that takes the lifecycle steps: the API's create and cancel, the ScanManager's
 registry operations, worker transactions and recovery. Every method changes the fields in
 place and is proved to take exactly one step of `ScanLifecycle` (submission takes two,
 recovery one and then a submission per queued scan).
 */
module ScanManagement {
  import opened Wrappers
  import opened ScanState
  import opened ScanLifecycle
  import opened LifecycleSteps

  /** Recovery's outcome counters. */
  datatype Outcomes = Outcomes(failed: nat, cancelled: nat, rescheduled: nat)

  lemma WithStatusStep(s: Sys, order: seq<ScanId>, i: nat, wanted: set<Status>)
    requires i < |order| && order[i] in s.rows
    ensures WithStatus(s, order[..i + 1], wanted) ==
            WithStatus(s, order[..i], wanted) + if s.rows[order[i]].status in wanted then [order[i]] else []
  {
    assert order[..i + 1][..i] == order[..i];
  }

  class ScanManager {
    var db: map<ScanId, Scan>
    var events: seq<Event>
    var epoch: nat
    var shuttingDown: bool
    var active: map<ScanId, WorkerId>
    var workers: map<WorkerId, Worker>
    var signals: set<ScanId>
    var nextScan: nat
    var nextWorker: nat
    var now: Time

    function State(): Sys
      reads this
    {
      Sys(db, events, epoch, shuttingDown, active, workers, signals, nextScan, nextWorker, now)
    }

    constructor ()
      ensures State() == Init
    {
      db, events, epoch, shuttingDown, active, workers := map[], [], 0, false, map[], map[];
      signals, nextScan, nextWorker, now := {}, 0, 0, 0;
    }

    /** record_event, for one or more lifecycle events of one scan. */
    method Record(id: ScanId, kinds: seq<EventKind>)
      modifies this`events
      ensures events == old(events) + EventsFor(id, kinds)
    {
      events := events + EventsFor(id, kinds);
    }

    /** POST /scans: inserts a queued row unless the unique index refuses it. */
    method CreateScan(project: nat, liveProbe: bool) returns (id: Option<ScanId>)
      modifies this
      ensures State() == Do(old(State()), Create(project, liveProbe))
      ensures id.None? <==> ProjectBusy(old(State()), project)
    {
      if exists i :: i in db && db[i].project == project && Active(db[i].status) {
        assert ProjectBusy(State(), project);
        return None;
      }
      id := Some(nextScan);
      db := db[nextScan := Scan(project, liveProbe, Queued, None, None, None, None)];
      nextScan := nextScan + 1;
    }

    method Submit(id: ScanId)
      modifies this
      ensures State() == Submitted(old(State()), id)
    {
      if shuttingDown || id in active {
        return;
      }
      var w := nextWorker;
      active := active[id := w];
      workers := workers[w := Worker(id, epoch, Registered, false, false, false, false, id !in db)];
      nextWorker := nextWorker + 1;
      workers := workers[w := workers[w].(pc := Pending)];
      assert workers == Submitted(old(State()), id).workers;
    }

    /** The commit half of cancel_scan. */
    method CancelScan(id: ScanId) returns (accepted: bool)
      modifies this
      ensures State() == Do(old(State()), CancelCommit(id))
      ensures accepted <==> id in old(db) && old(db)[id].status in {Queued, Initializing, Running}
      ensures accepted ==> CancelAccepted(State(), id)
    {
      if id !in db || db[id].status !in {Queued, Initializing, Running} {
        return false;
      }
      var scan := new LoadedScan(db[id]);
      if scan.row.status == Running {
        var _ := scan.ApplyTransition(Cancelling, None, now);
        signals := signals + {id};
      } else {
        var _ := scan.ApplyTransition(Cancelled, None, now);
      }
      db := db[id := scan.row];
      accepted := true;
    }

    /** The signalling half; cancel_scan calls it after committing `cancelling`. */
    method RequestCancel(id: ScanId) returns (signalled: bool)
      requires id in signals
      requires id in active ==> active[id] in workers
      modifies this
      ensures State() == Do(old(State()), Signal(id))
      ensures signalled <==> id in old(active)
      ensures signalled ==> workers[old(active)[id]].cancel
    {
      signals := signals - {id};
      if id !in active {
        return false;
      }
      workers := workers[active[id] := workers[active[id]].(cancel := true)];
      signalled := true;
    }

    /** First worker transaction; `refusal` is the audit text of a refused live probe. */
    method ClaimScan(w: WorkerId, refusal: string)
      requires At(State(), w, Pending)
      modifies this
      ensures State() == Do(old(State()), Claim(w, refusal))
    {
      var id := workers[w].scan;
      if id !in db || db[id].status != Queued {
        workers := workers[w := workers[w].(pc := Leaving)];
        return;
      }
      var scan := new LoadedScan(db[id]);
      if scan.row.liveProbe {
        var _ := scan.ApplyTransition(Failed, Some(refusal), now);
        Record(id, [ScanFailed]);
        workers := workers[w := workers[w].(pc := Leaving)];
      } else {
        var _ := scan.ApplyTransition(Initializing, None, now);
        Record(id, [ScanStarted, StatusChanged(Queued, Initializing)]);
        workers := workers[w := workers[w].(pc := Resolving, claimed := true)];
      }
      db := db[id := scan.row];
    }

    /** Second worker transaction: initializing -> running. */
    method StartScan(w: WorkerId)
      requires At(State(), w, Resolving)
      modifies this
      ensures State() == Do(old(State()), Start(w))
    {
      var id := workers[w].scan;
      if id !in db || db[id].status != Initializing {
        workers := workers[w := workers[w].(pc := Leaving)];
        return;
      }
      var scan := new LoadedScan(db[id]);
      var _ := scan.ApplyTransition(Running, None, now);
      Record(id, [StatusChanged(Initializing, Running)]);
      db := db[id := scan.row];
      workers := workers[w := workers[w].(pc := Discovering)];
    }

    /**
     Terminal mapping. A raised transition, or a `fault` of the database anywhere in the
     transaction, rolls it back and is only logged.
     */
    method FinishScan(w: WorkerId, fault: bool)
      requires w in workers && workers[w].pc.Finishing?
      modifies this
      ensures State() == Do(old(State()), if fault then SettlingRaises(w) else Finish(w))
      ensures fault || old(workers)[w].scan !in old(db) ==> db == old(db) && events == old(events)
      ensures var id, final := old(workers)[w].scan, old(workers)[w].pc.final;
              !fault && id in old(db) ==>
                var row := old(db)[id];
                && (row.status == Cancelling ==>
                      && db == old(db)[id := row.(status := Cancelled, cancelledAt := Some(now))]
                      && events == old(events) + [Event(id, StatusChanged(Cancelling, Cancelled)), Event(id, ScanCancelled)])
                && (row.status == Running && final == RunFinished ==>
                      && db == old(db)[id := row.(status := Completed, completedAt := Some(now))]
                      && events == old(events) + [Event(id, StatusChanged(Running, Completed)), Event(id, ScanCompleted)])
                && (row.status == Running && final.RunFailed? ==>
                      && db == old(db)[id := row.(status := Failed, completedAt := Some(now), error := Some(final.error))]
                      && events == old(events) + [Event(id, StatusChanged(Running, Failed)), Event(id, ScanFailed)])
                && (row.status in {Completed, Failed, Cancelled} ==> db == old(db) && events == old(events))
    {
      ghost var s := State();
      if workers[w].scan in db {
        FinishMeans(s, w);
      }
      var id := workers[w].scan;
      var final := workers[w].pc.final;
      workers := workers[w := workers[w].(pc := Leaving, lost := workers[w].lost || fault)];
      if id !in db || db[id].status in {Completed, Failed, Cancelled} {
        return;
      }
      SettleRow(id, final, fault);
    }

    /** The transaction once the row is loaded and found active; it commits unless something raised. */
    method SettleRow(id: ScanId, final: Final, fault: bool)
      requires id in db && Active(db[id].status)
      modifies this`db, this`events
      ensures var status := old(db)[id].status;
              var target := FinishTarget(status, final);
              if fault || !CanTransition(status, target) then db == old(db) && events == old(events)
              else
                && db == old(db)[id := Moved(old(db)[id], target, FinishError(status, final), now)]
                && events == old(events) + EventsFor(id, [StatusChanged(status, target), TerminalEvent(target)])
    {
      var scan := new LoadedScan(db[id]);
      var previous := scan.row.status;
      var raised := MapOutcome(scan, final);
      if raised || fault {
        return;
      }
      Record(id, [StatusChanged(previous, scan.row.status), TerminalEvent(scan.row.status)]);
      db := db[id := scan.row];
    }

    /** The branches of the terminal mapping, on the loaded row. */
    method MapOutcome(scan: LoadedScan, final: Final) returns (raised: bool)
      requires Active(scan.row.status)
      modifies scan
      ensures var status := old(scan.row.status);
              var target := FinishTarget(status, final);
              && (raised <==> !CanTransition(status, target))
              && scan.row == if raised then old(scan.row)
                             else Moved(old(scan.row), target, FinishError(status, final), now)
    {
      if scan.row.status == Cancelling {
        raised := scan.ApplyTransition(Cancelled, None, now);
      } else if final == RunFinished {
        raised := scan.ApplyTransition(Completed, None, now);
      } else if final == RunCancelled {
        raised := scan.ApplyTransition(Cancelled, None, now);
      } else {
        raised := scan.ApplyTransition(Failed, Some(final.error), now);
      }
    }

    /** The exception handler's transaction, with the same treatment of a fault. */
    method MarkScanFailed(w: WorkerId, fault: bool)
      requires At(State(), w, Failing)
      modifies this
      ensures State() == Do(old(State()), if fault then SettlingRaises(w) else MarkFailed(w))
    {
      var id := workers[w].scan;
      workers := workers[w := workers[w].(pc := Leaving, lost := workers[w].lost || fault)];
      if id !in db || db[id].status in {Completed, Failed, Cancelled} {
        return;
      }
      var scan := new LoadedScan(db[id]);
      var raised := scan.ApplyTransition(Failed, Some(INTERNAL_ERROR), now);
      if raised || fault {
        return;
      }
      Record(id, [ScanFailed]);
      db := db[id := scan.row];
    }

    /** The worker's `finally`: drop the registry entry of its scan. */
    method LeaveRegistry(w: WorkerId)
      requires At(State(), w, Leaving)
      modifies this
      ensures State() == Do(old(State()), Leave(w))
    {
      workers := workers[w := workers[w].(pc := Left)];
      if workers[w].epoch == epoch {
        active := active - {workers[w].scan};
      }
    }

    /** Recovery of one row of the query's result; tells what became of it. */
    method RecoverRow(id: ScanId) returns (was: Status)
      requires id in db && Active(db[id].status)
      modifies this
      ensures was == old(db)[id].status
      ensures State() == RecoverOne(old(State()), id)
    {
      was := db[id].status;
      var scan := new LoadedScan(db[id]);
      if was == Cancelling {
        var _ := scan.ApplyTransition(Cancelled, None, now);
        Record(id, [StatusChanged(Cancelling, Cancelled)]);
        db := db[id := scan.row];
      } else if was != Queued {
        var _ := scan.ApplyTransition(Failed, Some(RESTART_ERROR), now);
        Record(id, [ScanFailed]);
        db := db[id := scan.row];
      }
    }

    /** The recovery transaction: settles interrupted rows, collects the queued ones. */
    method SettleInterrupted(order: seq<ScanId>) returns (queued: seq<ScanId>, failed: nat, cancelled: nat)
      requires forall id :: id in order ==> id in db && Active(db[id].status)
      requires forall i, j :: 0 <= i < j < |order| ==> order[i] != order[j]
      modifies this
      ensures State() == RecoverRows(old(State()), order)
      ensures queued == WithStatus(old(State()), order, {Queued})
      ensures failed == |WithStatus(old(State()), order, {Initializing, Running})|
      ensures cancelled == |WithStatus(old(State()), order, {Cancelling})|
    {
      ghost var s0 := State();
      queued, failed, cancelled := [], 0, 0;
      for i := 0 to |order|
        invariant State() == RecoverRows(s0, order[..i])
        invariant forall k :: i <= k < |order| ==> order[k] in db && db[order[k]] == s0.rows[order[k]]
        invariant queued == WithStatus(s0, order[..i], {Queued})
        invariant failed == |WithStatus(s0, order[..i], {Initializing, Running})|
        invariant cancelled == |WithStatus(s0, order[..i], {Cancelling})|
      {
        assert order[..i + 1][..i] == order[..i];
        WithStatusStep(s0, order, i, {Queued});
        WithStatusStep(s0, order, i, {Initializing, Running});
        WithStatusStep(s0, order, i, {Cancelling});
        var was := RecoverRow(order[i]);
        if was == Queued {
          queued := queued + [order[i]];
        } else if was == Cancelling {
          cancelled := cancelled + 1;
        } else {
          failed := failed + 1;
        }
      }
      assert order[..|order|] == order;
    }

    /**
     Startup recovery. `order` is what the query returned: every non-terminal row, once.
     The interrupted rows are settled first, then the queued scans are submitted.
     */
    method RecoverScans(order: seq<ScanId>) returns (outcomes: Outcomes)
      requires CoversActive(State(), order)
      requires forall id :: id in order ==> id in db && Active(db[id].status)
      requires forall i, j :: 0 <= i < j < |order| ==> order[i] != order[j]
      modifies this
      ensures var s := old(State());
              var queued := WithStatus(s, order, {Queued});
              && State() == SubmittedAll(Do(s, Recover(order)), queued)
              && outcomes == Outcomes(|WithStatus(s, order, {Initializing, Running})|,
                                      |WithStatus(s, order, {Cancelling})|, |queued|)
    {
      var queued, failed, cancelled := SettleInterrupted(order);
      var rescheduled := SubmitQueued(queued);
      outcomes := Outcomes(failed, cancelled, rescheduled);
    }

    /** Registers the queued scans with the pool, one by one. */
    method SubmitQueued(queued: seq<ScanId>) returns (rescheduled: nat)
      modifies this
      ensures State() == SubmittedAll(old(State()), queued) && rescheduled == |queued|
    {
      ghost var s1 := State();
      rescheduled := 0;
      for i := 0 to |queued|
        invariant State() == SubmittedAll(s1, queued[..i]) && rescheduled == i
      {
        assert queued[..i + 1][..i] == queued[..i];
        Submit(queued[i]);
        rescheduled := rescheduled + 1;
      }
      assert queued[..|queued|] == queued;
    }
  }
}
