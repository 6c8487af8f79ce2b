/** The two bounded logs in a resource's status. */
module StatusLog {
  import opened Store

  const TIMING_LIMIT: nat := 5
  const HISTORY_LIMIT: nat := 3
  const COMPLETED := "Completed"
  const SUCCESS := "The last reconciliation was completed successfully."

  datatype Entry = Entry(startTime: int, endTime: int, duration: string, phase: string)

  datatype Status = Status(phase: string, history: seq<string>, timing: seq<Entry>)

  /** One call of the recorder: what it logs and whether its two API calls succeed. */
  datatype Record = Record(entry: Entry, stamp: string, error: Option<string>, fetched: bool, stored: bool)

  predicate Successful(r: Record) {
    r.fetched && r.stored
  }

  function Truncated<T>(xs: seq<T>, n: nat): seq<T> {
    if |xs| > n then xs[..n] else xs
  }

  /** What the history gains: every error, and every success of a whole reconciliation. */
  function Messages(r: Record): seq<string> {
    if r.error.Some? then [r.stamp + " " + r.error.value]
    else if r.entry.phase == COMPLETED then [r.stamp + " " + SUCCESS]
    else []
  }

  /** The complete logs, newest first. */
  function AllTimings(records: seq<Record>): seq<Entry> {
    if records == [] then []
    else
      var last := records[|records| - 1];
      (if Successful(last) then [last.entry] else []) + AllTimings(records[..|records| - 1])
  }

  function AllMessages(records: seq<Record>): seq<string> {
    if records == [] then []
    else
      var last := records[|records| - 1];
      (if Successful(last) then Messages(last) else []) + AllMessages(records[..|records| - 1])
  }

  function Recorded(s: Status, r: Record): Status {
    if !Successful(r) then s
    else
      Status(r.entry.phase,
             if Messages(r) == [] then s.history else Truncated(Messages(r) + s.history, HISTORY_LIMIT),
             Truncated([r.entry] + s.timing, TIMING_LIMIT))
  }

  function RecordedAll(s: Status, records: seq<Record>): Status {
    if records == [] then s
    else Recorded(RecordedAll(s, records[..|records| - 1]), records[|records| - 1])
  }

  /** `x` in front of the old entries, cut off after `limit`. */
  predicate PutInFront<T(==)>(log: seq<T>, x: T, before: seq<T>, limit: nat) {
    log <= [x] + before && |log| == if |before| < limit then |before| + 1 else limit
  }

  class Instance {
    var status: Status

    constructor (status: Status)
      ensures this.status == status
    {
      this.status := status;
    }

    /** `recordOperationTimingAndStatus`. */
    method RecordOperationTimingAndStatus(r: Record)
      modifies this
      ensures status == Recorded(old(status), r)
      ensures !r.fetched || !r.stored ==> status == old(status)
      ensures r.fetched && r.stored ==> status.phase == r.entry.phase && PutInFront(status.timing, r.entry, old(status.timing), 5)
      ensures r.fetched && r.stored && r.error.Some? ==>
                PutInFront(status.history, r.stamp + " " + r.error.value, old(status.history), 3)
      ensures r.fetched && r.stored && r.error.None? && r.entry.phase == "Completed" ==>
                PutInFront(status.history, r.stamp + " " + "The last reconciliation was completed successfully.",
                           old(status.history), 3)
      ensures r.fetched && r.stored && r.error.None? && r.entry.phase != "Completed" ==> status.history == old(status.history)
    {
      if !r.fetched {
        return;
      }
      var latest := status;
      latest := latest.(phase := r.entry.phase);
      if r.error.Some? {
        var newHistory := [r.stamp + " " + r.error.value] + latest.history;
        if |newHistory| > HISTORY_LIMIT {
          newHistory := newHistory[..HISTORY_LIMIT];
        }
        latest := latest.(history := newHistory);
      } else if r.entry.phase == COMPLETED {
        var newHistory := [r.stamp + " " + SUCCESS] + latest.history;
        if |newHistory| > HISTORY_LIMIT {
          newHistory := newHistory[..HISTORY_LIMIT];
        }
        latest := latest.(history := newHistory);
      }
      var updatedTiming := [r.entry] + latest.timing;
      if |updatedTiming| > TIMING_LIMIT {
        updatedTiming := updatedTiming[..TIMING_LIMIT];
      }
      latest := latest.(timing := updatedTiming);
      if r.stored {
        status := latest;
      }
    }
  }

  lemma TruncatedAgain<T>(front: seq<T>, all: seq<T>, n: nat)
    ensures Truncated(front + Truncated(all, n), n) == Truncated(front + all, n)
  {
  }

  lemma {:induction false} TimingsAreNewest(s: Status, records: seq<Record>)
    requires |s.timing| <= 5
    ensures RecordedAll(s, records).timing == Truncated(AllTimings(records) + s.timing, 5)
  {
    hide Messages;
    if records == [] {
      assert AllTimings(records) + s.timing == s.timing;
    } else {
      var init, last := records[..|records| - 1], records[|records| - 1];
      TimingsAreNewest(s, init);
      var front := if Successful(last) then [last.entry] else [];
      TruncatedAgain(front, AllTimings(init) + s.timing, 5);
      assert AllTimings(records) + s.timing == front + (AllTimings(init) + s.timing);
    }
  }

  lemma {:induction false} HistoryIsNewest(s: Status, records: seq<Record>)
    requires |s.history| <= 3
    ensures RecordedAll(s, records).history == Truncated(AllMessages(records) + s.history, 3)
  {
    hide Messages;
    if records == [] {
      assert AllMessages(records) + s.history == s.history;
    } else {
      var init, last := records[..|records| - 1], records[|records| - 1];
      HistoryIsNewest(s, init);
      var front := if Successful(last) then Messages(last) else [];
      TruncatedAgain(front, AllMessages(init) + s.history, 3);
      assert AllMessages(records) + s.history == front + (AllMessages(init) + s.history);
    }
  }

  /** Over every run of records, failed ones included, the bounded logs are the newest entries of the
    complete logs, newest first. */
  lemma LogsAreNewest(s: Status, records: seq<Record>)
    requires |s.timing| <= 5 && |s.history| <= 3
    ensures var after := RecordedAll(s, records);
            && after.timing == Truncated(AllTimings(records) + s.timing, 5)
            && after.history == Truncated(AllMessages(records) + s.history, 3)
  {
    TimingsAreNewest(s, records);
    HistoryIsNewest(s, records);
  }

  /** After any run of records the phase is that of the newest one whose calls succeeded. */
  lemma {:induction false} PhaseIsNewest(s: Status, records: seq<Record>, i: nat)
    requires i < |records| && records[i].fetched && records[i].stored
    requires forall j :: i < j < |records| ==> !records[j].fetched || !records[j].stored
    ensures RecordedAll(s, records).phase == records[i].entry.phase
  {
    if i < |records| - 1 {
      PhaseIsNewest(s, records[..|records| - 1], i);
    }
  }

  /** Without such a record nothing changes. */
  lemma {:induction false} NothingRecorded(s: Status, records: seq<Record>)
    requires forall j :: 0 <= j < |records| ==> !records[j].fetched || !records[j].stored
    ensures RecordedAll(s, records) == s
  {
    if records != [] {
      NothingRecorded(s, records[..|records| - 1]);
    }
  }
}
