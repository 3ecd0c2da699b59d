/** Replaying a scan's events page by page while more are appended (backend/services/event_service.py). */
module EventCursor {
  import opened Text

  /** A persisted event; `id` is the sequence number that orders all events. */
  datatype Event = Event(id: nat, scan: string, data: string)

  type Db = seq<Event>

  /** Ids start at one and become visible in increasing order. */
  predicate Increasing(db: Db) {
    (forall i :: 0 <= i < |db| ==> 1 <= db[i].id) && forall i, j :: 0 <= i < j < |db| ==> db[i].id < db[j].id
  }

  function Matching(scan: string, after: nat): Event -> seq<Event> {
    (e: Event) => if e.scan == scan && e.id > after then [e] else []
  }

  /** The scan's events, oldest first. */
  function OfScan(db: Db, scan: string): seq<Event> {
    Gather(db, Matching(scan, 0))
  }

  /** list_agent_events_for_scan: filter, order by id, limit. */
  function Page(db: Db, scan: string, after: nat, limit: nat): seq<Event> {
    CapTo(Gather(db, Matching(scan, after)), limit)
  }

  /** Exactly the events of the scan: none of another scan, and none left out. */
  lemma OfScanWithin(db: Db, scan: string, e: Event)
    requires Increasing(db)
    ensures e in OfScan(db, scan) <==> e in db && e.scan == scan
  {
    GatherIn(db, Matching(scan, 0), e);
  }

  lemma {:induction false} OfScanIncreasing(db: Db, scan: string)
    requires Increasing(db)
    ensures Increasing(OfScan(db, scan))
  {
    if db != [] {
      var front, last := db[..|db| - 1], db[|db| - 1];
      OfScanIncreasing(front, scan);
      var kept := OfScan(front, scan);
      forall i | 0 <= i < |kept| ensures 1 <= kept[i].id < last.id {
        OfScanWithin(front, scan, kept[i]);
        var j :| 0 <= j < |front| && front[j] == kept[i];
      }
    }
  }

  /** Events that are already there stay where they are when more are appended. */
  lemma OfScanGrows(db: Db, later: Db, scan: string)
    requires db <= later
    ensures OfScan(db, scan) <= OfScan(later, scan)
  {
    assert later[..|db|] == db;
    GatherGrows(later, |db|, Matching(scan, 0));
  }

  /** The id the client has seen last. */
  function Cursor(received: seq<Event>): nat {
    if received == [] then 0 else received[|received| - 1].id
  }

  /** Filtering by the cursor continues exactly where the received prefix ends. */
  lemma {:induction false} CursorContinues(db: Db, scan: string, n: nat)
    requires Increasing(db) && n <= |OfScan(db, scan)|
    ensures Gather(db, Matching(scan, Cursor(OfScan(db, scan)[..n]))) == OfScan(db, scan)[n..]
  {
    if db != [] {
      var front, last := db[..|db| - 1], db[|db| - 1];
      var all, before := OfScan(db, scan), OfScan(front, scan);
      OfScanIncreasing(front, scan);
      if n <= |before| {
        assert all[..n] == before[..n];
        CursorContinues(front, scan, n);
        assert Cursor(before[..n]) < last.id by {
          if n > 0 {
            var e := before[n - 1];
            OfScanWithin(front, scan, e);
            var j :| 0 <= j < |front| && front[j] == e;
          }
        }
        if last.scan == scan {
          assert all[n..] == before[n..] + [last];
        } else {
          assert all == before;
        }
      } else {
        assert all == before + [last] && n == |all|;
        assert Cursor(all[..n]) == last.id;
        NothingAfter(db, scan, last.id);
      }
    }
  }

  lemma {:induction false} NothingAfter(db: Db, scan: string, after: nat)
    requires forall i :: 0 <= i < |db| ==> db[i].id <= after
    ensures Gather(db, Matching(scan, after)) == []
  {
    if db != [] {
      NothingAfter(db[..|db| - 1], scan, after);
    }
  }

  /** The database as it stands at each request: it only grows, and stays in order. */
  predicate History(states: seq<Db>) {
    (forall i :: 0 <= i < |states| ==> Increasing(states[i]))
    && forall i :: 0 <= i < |states| - 1 ==> states[i] <= states[i + 1]
  }

  /** One page more: the received prefix grows, and a short page completes it. */
  lemma PageExtends(db: Db, scan: string, received: seq<Event>, limit: nat)
    requires Increasing(db) && received <= OfScan(db, scan)
    ensures var page := Page(db, scan, Cursor(received), limit);
            && received + page <= OfScan(db, scan)
            && (|page| < limit ==> received + page == OfScan(db, scan))
  {
    var all := OfScan(db, scan);
    CursorContinues(db, scan, |received|);
    assert received == all[..|received|];
    assert all == received + all[|received|..];
  }

  /** One request after the last event received. */
  method NextPage(db: Db, scan: string, received: seq<Event>, limit: nat) returns (longer: seq<Event>, short: bool)
    requires Increasing(db) && received <= OfScan(db, scan)
    ensures longer <= OfScan(db, scan) && (short ==> longer == OfScan(db, scan))
    ensures short || |longer| == |received| + limit
  {
    PageExtends(db, scan, received, limit);
    var page := Page(db, scan, Cursor(received), limit);
    longer, short := received + page, |page| < limit;
  }

  lemma PrefixOfGrown(a: seq<Event>, b: seq<Event>, c: seq<Event>)
    requires a <= b <= c
    ensures a <= c
  {
  }

  /**
   Requests pages until one is short or the history ends; `requests` counts them. What has been
   received is always a prefix of the scan's events, in order, and after a short page it is all
   of them: no loss, no duplicate, whatever was appended in between. More requests than there
   are events always meet a short page.
   */
  method Replay(states: seq<Db>, scan: string, limit: nat) returns (received: seq<Event>, finished: bool, requests: nat)
    requires History(states)
    ensures requests <= |states|
    ensures requests > 0 ==> received <= OfScan(states[requests - 1], scan)
    ensures finished ==> requests > 0 && received == OfScan(states[requests - 1], scan)
    ensures !finished ==> requests == |states|
    ensures limit >= 1 && states != [] && |states| > |OfScan(states[|states| - 1], scan)| ==> finished
  {
    received, finished, requests := [], false, 0;
    while requests < |states|
      invariant requests <= |states| && !finished
      invariant requests == 0 ==> received == []
      invariant requests > 0 ==> received <= OfScan(states[requests - 1], scan)
      invariant limit >= 1 ==> |received| >= requests
    {
      var db := states[requests];
      if requests > 0 {
        OfScanGrows(states[requests - 1], db, scan);
        PrefixOfGrown(received, OfScan(states[requests - 1], scan), OfScan(db, scan));
      }
      var short: bool;
      received, short := NextPage(db, scan, received, limit);
      requests := requests + 1;
      if short {
        finished := true;
        return;
      }
    }
  }
}
