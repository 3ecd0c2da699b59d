/**
 The scan state machine: the transition table and the one operation that
 moves a scan row through it (backend/services/scan_state.py).
 */
module ScanState {
  import opened Wrappers

  datatype Status = Queued | Initializing | Running | Cancelling | Completed | Failed | Cancelled

  type Time = nat

  /** The columns of a scan row that the lifecycle reads or writes. */
  datatype Scan = Scan(
    project: nat,
    liveProbe: bool,
    status: Status,
    startedAt: Option<Time>,
    completedAt: Option<Time>,
    cancelledAt: Option<Time>,
    error: Option<string>)

  function ValidTransitions(s: Status): set<Status> {
    match s
    case Queued => {Initializing, Cancelled, Failed}
    case Initializing => {Running, Cancelled, Failed}
    case Running => {Completed, Failed, Cancelling}
    case Cancelling => {Cancelled}
    case Completed => {}
    case Failed => {}
    case Cancelled => {}
  }

  predicate CanTransition(current: Status, target: Status) {
    target in ValidTransitions(current)
  }

  /** The ten transitions there are. */
  lemma TableMeans(current: Status, target: Status)
    ensures CanTransition(current, target) <==>
              (current, target) in {
                (Queued, Initializing), (Queued, Cancelled), (Queued, Failed),
                (Initializing, Running), (Initializing, Cancelled), (Initializing, Failed),
                (Running, Completed), (Running, Failed), (Running, Cancelling),
                (Cancelling, Cancelled)}
  {
  }

  predicate Terminal(s: Status) {
    s == Completed || s == Failed || s == Cancelled
  }

  predicate Active(s: Status) {
    !Terminal(s)
  }

  /** The row after a legal transition to `target` at time `now`. */
  function Moved(scan: Scan, target: Status, error: Option<string>, now: Time): Scan {
    var moved := scan.(status := target);
    match target
    case Initializing => moved.(startedAt := Some(now))
    case Completed => moved.(completedAt := Some(now))
    case Failed => moved.(completedAt := Some(now), error := error)
    case Cancelled => moved.(cancelledAt := Some(now))
    case _ => moved
  }

  /** A scan object loaded into a session: `ApplyTransition` updates it in place. */
  class LoadedScan {
    var row: Scan

    constructor (row: Scan)
      ensures this.row == row
    {
      this.row := row;
    }

    /** Raises (and changes nothing) exactly on a transition the table does not list. */
    method ApplyTransition(target: Status, error: Option<string>, now: Time) returns (raised: bool)
      modifies this
      ensures raised <==> !CanTransition(old(row.status), target)
      ensures row == if raised then old(row) else Moved(old(row), target, error, now)
    {
      if !CanTransition(row.status, target) {
        return true;
      }
      row := row.(status := target);
      if target == Initializing {
        row := row.(startedAt := Some(now));
      } else if target == Completed || target == Failed {
        row := row.(completedAt := Some(now));
        if target == Failed {
          row := row.(error := error);
        }
      } else if target == Cancelled {
        row := row.(cancelledAt := Some(now));
      }
      raised := false;
    }
  }

  /** Timestamps and error text that a row of this status may carry, no later than `now`. */
  ghost predicate Fits(scan: Scan, now: Time) {
    && (scan.startedAt.Some? ==> scan.startedAt.value <= now)
    && (scan.completedAt.Some? ==>
          scan.completedAt.value <= now
          && (scan.startedAt.Some? ==> scan.startedAt.value <= scan.completedAt.value))
    && (scan.cancelledAt.Some? ==>
          scan.cancelledAt.value <= now
          && (scan.startedAt.Some? ==> scan.startedAt.value <= scan.cancelledAt.value))
    && (scan.completedAt.Some? <==> scan.status == Completed || scan.status == Failed)
    && (scan.cancelledAt.Some? <==> scan.status == Cancelled)
    && (scan.error.Some? <==> scan.status == Failed)
    && (scan.status == Queued ==> scan.startedAt.None?)
    && (scan.status in {Initializing, Running, Cancelling, Completed} ==> scan.startedAt.Some?)
  }

  /** Every legal transition keeps the row's timestamps and error consistent with its status. */
  lemma MovedFits(scan: Scan, target: Status, error: Option<string>, before: Time, now: Time)
    requires Fits(scan, before) && before <= now
    requires CanTransition(scan.status, target)
    requires target == Failed ==> error.Some?
    ensures Fits(Moved(scan, target, error, now), now)
  {
  }

  /** Progress of a status: every legal transition increases it, so no status is ever revisited. */
  function Rank(s: Status): nat {
    match s
    case Queued => 0
    case Initializing => 1
    case Running => 2
    case Cancelling => 3
    case _ => 4
  }

  lemma TransitionsProgress(current: Status, target: Status)
    requires CanTransition(current, target)
    ensures Rank(current) < Rank(target)
  {
  }

  /** Terminal statuses are exactly those the table lets nothing leave. */
  lemma TerminalIffStuck(s: Status)
    ensures Terminal(s) <==> ValidTransitions(s) == {}
  {
    match s
    case Queued => assert Initializing in ValidTransitions(s);
    case Initializing => assert Running in ValidTransitions(s);
    case Running => assert Completed in ValidTransitions(s);
    case Cancelling => assert Cancelled in ValidTransitions(s);
    case _ =>
  }
}
