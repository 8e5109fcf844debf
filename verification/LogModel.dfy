/** Log entries and the queries of src/raft_log.rs on a log that starts at index 1. */
module LogModel {

  /** `data` stands for the payload; `index` is the 1-based log position. */
  datatype Entry = Entry(term: nat, index: nat, data: int)

  type Log = seq<Entry>

  /** RaftLog::term: zero at the dummy index 0 and past the end (src/raft_log.rs:140-158). */
  function TermAt(log: Log, i: nat): nat {
    if 1 <= i <= |log| then log[i - 1].term else 0
  }

  function LastTerm(log: Log): nat {
    TermAt(log, |log|)
  }

  /** is_up_to_date (src/raft_log.rs:442-444): a log ending in (`index`, `term`) is at least as new as `log`. */
  predicate UpToDate(log: Log, index: nat, term: nat) {
    term > LastTerm(log) || (term == LastTerm(log) && index >= |log|)
  }

  ghost predicate Sorted(log: Log) {
    forall a, b :: 0 <= a < b < |log| ==> log[a].term <= log[b].term
  }

  ghost predicate TermsUpTo(log: Log, t: int) {
    forall k :: 0 <= k < |log| ==> log[k].term <= t
  }
}
