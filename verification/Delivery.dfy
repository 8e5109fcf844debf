/** What the application is handed, in order: one stream of snapshots and committed entries. */
module DeliveryModel {
  import opened Options
  import opened LogModel
  import opened Numbers
  import opened AbstractLog

  datatype Delivery = Snapshot(index: nat) | Applied(entry: Entry)

  /**
   Where the application stands after `trace`, if the stream is gapless: an entry follows the position directly, and
   only a snapshot may skip ahead.
   */
  function Position(start: nat, trace: seq<Delivery>): Option<nat> {
    if trace == [] then Some(start)
    else
      var q := Position(start, trace[..|trace| - 1]);
      var d := trace[|trace| - 1];
      if q.None? then None
      else if d.Snapshot? then (if d.index >= q.value then Some(d.index) else None)
      else if d.entry.index == q.value + 1 then Some(d.entry.index) else None
  }

  function Each(es: seq<Entry>): seq<Delivery> {
    seq(|es|, k requires 0 <= k < |es| => Applied(es[k]))
  }

  lemma {:induction false} PositionAfter(start: nat, trace: seq<Delivery>, es: seq<Entry>, p: nat)
    requires Position(start, trace) == Some(p) && Consecutive(es, p + 1)
    ensures Position(start, trace + Each(es)) == Some(p + |es|)
    decreases |es|
  {
    if es == [] {
      assert trace + Each(es) == trace;
    } else {
      var n := |es| - 1;
      PositionAfter(start, trace, es[..n], p);
      assert (trace + Each(es))[..|trace| + n] == trace + Each(es[..n]);
    }
  }

  lemma PositionSnapshot(start: nat, trace: seq<Delivery>, p: nat, index: nat)
    requires Position(start, trace) == Some(p) && p <= index
    ensures Position(start, trace + [Snapshot(index)]) == Some(index)
  {
    assert (trace + [Snapshot(index)])[..|trace|] == trace;
  }

  /** Everything delivered is committed, and is what the log holds as far as the log still reaches back. */
  ghost predicate Truthful(trace: seq<Delivery>, log: AbsLog, committed: nat) {
    forall d | d in trace && d.Applied? ::
      && d.entry.index <= committed
      && (log.base < d.entry.index <= log.Last() ==> log.ents[d.entry.index - log.base - 1] == d.entry)
  }

  /** No index is delivered twice: in a gapless stream the entries' indexes increase. */
  lemma {:induction false} NoRepeats(start: nat, trace: seq<Delivery>, i: nat, j: nat)
    requires Position(start, trace).Some? && i < j < |trace| && trace[i].Applied? && trace[j].Applied?
    ensures trace[i].entry.index < trace[j].entry.index
    decreases |trace|
  {
    if j == |trace| - 1 {
      PositionBound(start, trace[..j], i);
    } else {
      NoRepeats(start, trace[..|trace| - 1], i, j);
    }
  }

  lemma {:induction false} PositionBound(start: nat, trace: seq<Delivery>, i: nat)
    requires Position(start, trace).Some? && i < |trace|
    ensures Position(start, trace).value >= (if trace[i].Applied? then trace[i].entry.index else trace[i].index)
    decreases |trace|
  {
    if i < |trace| - 1 {
      PositionBound(start, trace[..|trace| - 1], i);
    }
  }

  /** The delivery brings index `x`: as that entry, or under a snapshot. */
  predicate Reaches(d: Delivery, x: nat) {
    if d.Applied? then d.entry.index == x else x <= d.index
  }

  ghost predicate Brought(trace: seq<Delivery>, x: nat) {
    exists i :: 0 <= i < |trace| && Reaches(trace[i], x)
  }

  /** Every index between start and position was delivered as an entry or lies under a snapshot. */
  lemma {:induction false} NoGaps(start: nat, trace: seq<Delivery>, x: nat) returns (i: nat)
    requires Position(start, trace).Some? && start < x <= Position(start, trace).value
    ensures i < |trace| && Reaches(trace[i], x)
    decreases |trace|
  {
    var q := Position(start, trace[..|trace| - 1]);
    if x <= q.value {
      i := NoGaps(start, trace[..|trace| - 1], x);
    } else {
      i := |trace| - 1;
    }
  }

  // Runs ------------------------------------------------------------------------------------------

  /** The log with its commit index and pending snapshot, how far the application was handed things, and what. */
  datatype Flow = Flow(log: AbsLog, committed: nat, snap: Option<Snap>, since: nat, trace: seq<Delivery>)

  datatype Move =
    | Appends(es: seq<Entry>)
    | Commits(to: nat)
    | Restores(s: Snap)
    | Stabilises
    | HandsSnapshot
    | HandsEntries(n: nat)

  /** Where entries for the application start. */
  function From(f: Flow): nat {
    Max(f.since, f.log.base)
  }

  ghost predicate Allowed(f: Flow, m: Move) {
    match m
    case Appends(es) =>
      es != [] ==> Consecutive(es, es[0].index) && f.committed < es[0].index <= f.log.Last() + 1
    case Commits(to) => f.committed <= to <= f.log.Last()
    case Restores(s) => f.committed <= s.index
    case Stabilises => f.snap.Some? ==> f.since == f.snap.value.index
    case HandsSnapshot => f.snap.Some?
    case HandsEntries(n) => n > 0 && f.snap.None? && From(f) + n <= f.committed && f.committed <= f.log.Last()
  }

  ghost function After(f: Flow, m: Move): Flow
    requires Allowed(f, m)
  {
    match m
    case Appends(es) => f.(log := f.log.Replace(es))
    case Commits(to) => f.(committed := to)
    case Restores(s) => f.(log := OfSnap(s), committed := s.index, snap := Some(s))
    case Stabilises => f.(snap := None)
    case HandsSnapshot => f.(since := f.snap.value.index, trace := f.trace + [Snapshot(f.snap.value.index)])
    case HandsEntries(n) =>
      f.(since := From(f) + n, trace := f.trace + Each(f.log.Slice(From(f) + 1, From(f) + n + 1)))
  }

  /** The moves take `f` to `f'`. */
  ghost predicate Leads(f: Flow, moves: seq<Move>, f': Flow)
    decreases |moves|
  {
    if moves == [] then f' == f else Allowed(f, moves[0]) && Leads(After(f, moves[0]), moves[1..], f')
  }

  ghost predicate Becomes(f: Flow, m: Move, f': Flow) {
    Allowed(f, m) && f' == After(f, m)
  }

  lemma {:induction false} LeadsOn(f: Flow, moves: seq<Move>, mid: Flow, m: Move, f': Flow)
    requires Leads(f, moves, mid) && Becomes(mid, m, f')
    ensures Leads(f, moves + [m], f')
    decreases |moves|
  {
    hide Allowed, After;
    if moves == [] {
      assert (moves + [m])[1..] == [];
    } else {
      LeadsOn(After(f, moves[0]), moves[1..], mid, m, f');
      assert (moves + [m])[1..] == moves[1..] + [m];
    }
  }

  /** A node starts with nothing handed out and no pending snapshot. */
  ghost predicate Starts(f: Flow) {
    && f.trace == [] && f.snap.None? && f.log.WellFormed()
    && f.log.base <= f.committed <= f.log.Last() && f.since <= f.committed
  }

  /** The application stands at `since`, and no entry after that is out of the log's reach. */
  ghost predicate InStep(start: nat, f: Flow) {
    var at := Max(f.since, start);
    && Position(start, f.trace) == Some(at) && at <= f.committed
    && (if f.snap.Some? then at <= f.snap.value.index
        else f.log.base <= at && (f.since < start ==> f.log.base == start))
  }

  ghost predicate FlowOk(start: nat, f: Flow) {
    && f.log.WellFormed() && f.log.base <= f.committed <= f.log.Last()
    && (f.snap.Some? ==> f.log.base == f.snap.value.index)
    && Truthful(f.trace, f.log, f.committed) && InStep(start, f)
  }

  lemma LogMove(start: nat, f: Flow, m: Move)
    requires FlowOk(start, f) && Allowed(f, m) && (m.Appends? || m.Commits? || m.Restores? || m.Stabilises?)
    ensures FlowOk(start, After(f, m))
  {
    hide Position;
  }

  lemma SnapshotMove(start: nat, f: Flow)
    requires FlowOk(start, f) && Allowed(f, HandsSnapshot)
    ensures FlowOk(start, After(f, HandsSnapshot))
  {
    hide Position;
    PositionSnapshot(start, f.trace, Max(f.since, start), f.snap.value.index);
  }

  lemma EntriesMove(start: nat, f: Flow, n: nat)
    requires FlowOk(start, f) && Allowed(f, HandsEntries(n))
    ensures FlowOk(start, After(f, HandsEntries(n)))
  {
    hide Position, Truthful, Each;
    PositionAfter(start, f.trace, f.log.Slice(From(f) + 1, From(f) + n + 1), From(f));
    EntriesTruthful(f.trace, f.log, f.committed, From(f), n);
  }

  lemma EntriesTruthful(trace: seq<Delivery>, log: AbsLog, committed: nat, from: nat, n: nat)
    requires Truthful(trace, log, committed) && log.WellFormed() && log.base <= from && from + n <= log.Last()
    requires from + n <= committed
    ensures Truthful(trace + Each(log.Slice(from + 1, from + n + 1)), log, committed)
  {
  }

  /** Whatever happens in whatever order, the stream stays gapless, and what it holds is the log's and committed. */
  lemma {:induction false} AlwaysInStep(start: nat, f: Flow, moves: seq<Move>, f': Flow)
    requires FlowOk(start, f) && Leads(f, moves, f')
    ensures FlowOk(start, f')
    decreases |moves|
  {
    hide FlowOk, Allowed, After;
    if moves != [] {
      if moves[0].HandsSnapshot? {
        SnapshotMove(start, f);
      } else if moves[0].HandsEntries? {
        EntriesMove(start, f, moves[0].n);
      } else {
        LogMove(start, f, moves[0]);
      }
      AlwaysInStep(start, After(f, moves[0]), moves[1..], f');
    }
  }

  lemma StartsOk(f: Flow)
    requires Starts(f)
    ensures FlowOk(From(f), f)
  {
  }

  /**
   Over a whole run every entry reaches the application at most once and in order, and every index up to where the
   application stands was handed over as an entry or lies under a snapshot.
   */
  lemma DeliveredOnce(f: Flow, moves: seq<Move>, f': Flow)
    requires Starts(f) && Leads(f, moves, f')
    ensures forall i, j :: 0 <= i < j < |f'.trace| && f'.trace[i].Applied? && f'.trace[j].Applied? ==>
                             f'.trace[i].entry.index < f'.trace[j].entry.index
    ensures forall x :: From(f) < x <= Max(f'.since, From(f)) ==> Brought(f'.trace, x)
    ensures Truthful(f'.trace, f'.log, f'.committed)
  {
    StartsOk(f);
    AlwaysInStep(From(f), f, moves, f');
    hide Leads, Truthful, Position;
    forall i, j | 0 <= i < j < |f'.trace| && f'.trace[i].Applied? && f'.trace[j].Applied?
      ensures f'.trace[i].entry.index < f'.trace[j].entry.index
    {
      NoRepeats(From(f), f'.trace, i, j);
    }
    forall x | From(f) < x <= Max(f'.since, From(f))
      ensures Brought(f'.trace, x)
    {
      var i := NoGaps(From(f), f'.trace, x);
    }
  }

  /** What an append message does, as two moves. */
  function Kept(log: AbsLog, idx: nat, es: seq<Entry>): seq<Entry> {
    var c := log.Conflict(es);
    if idx < c <= idx + |es| then es[c - idx - 1..] else []
  }

  lemma AppendMoves(f: Flow, idx: nat, term: nat, commit: nat, es: seq<Entry>)
    requires f.log.base <= f.committed <= f.log.Last() && Consecutive(es, idx + 1)
    requires MaybeAppend(f.log, f.committed, idx, term, commit, es).Stored?
    ensures var m := MaybeAppend(f.log, f.committed, idx, term, commit, es);
            var mid := f.(log := m.log);
            && Becomes(f, Appends(Kept(f.log, idx, es)), mid)
            && Becomes(mid, Commits(m.committed), mid.(committed := m.committed)) && f.committed <= m.committed
  {
    hide AbsLog.Conflict, AbsLog.TermOf;
    var kept := Kept(f.log, idx, es);
    if kept == [] {
      assert f.log.Replace(kept) == f.log;
    } else {
      assert Consecutive(kept, kept[0].index);
    }
  }
}
