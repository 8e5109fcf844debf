/** What a node remembers about the Readies it has handed out: ReadyRecord in src/raw_node.rs. */
module ReadyRecords {
  import opened Options
  import opened LogModel
  import opened AbstractLog

  /** What a Ready handed out: its last entry's index and term, and its snapshot. */
  datatype ReadyRecord = ReadyRecord(number: nat, lastEntry: Option<(nat, nat)>, snapshot: Option<Snap>)

  function LastOf(es: seq<Entry>): Option<(nat, nat)> {
    if es == [] then None else Some((es[|es| - 1].index, es[|es| - 1].term))
  }

  /** What a new leader must not find among its records. */
  predicate Carries(r: ReadyRecord) {
    r.lastEntry.Some? || r.snapshot.Some?
  }

  /** A snapshot that was handed out is committed and lies below the unstable entries. */
  ghost predicate RecordsOk(records: seq<ReadyRecord>, committed: nat, offset: nat) {
    forall r | r in records && r.snapshot.Some? ::
      r.snapshot.value.index <= committed && r.snapshot.value.index < offset
  }

  /** The snapshot and the last entry after it that a run of records persists; 0 where there is none. */
  datatype Drained = Drained(snapIndex: nat, index: nat, term: nat)

  function Drain(records: seq<ReadyRecord>): Drained {
    if records == [] then Drained(0, 0, 0)
    else
      var d := Drain(records[..|records| - 1]);
      var r := records[|records| - 1];
      var d' := if r.snapshot.Some? then Drained(r.snapshot.value.index, 0, 0) else d;
      if r.lastEntry.Some? then d'.(index := r.lastEntry.value.0, term := r.lastEntry.value.1) else d'
  }

  /** How many of the records have a number up to `number`, from the front on. */
  function Front(records: seq<ReadyRecord>, number: nat): (n: nat)
    ensures n <= |records|
  {
    if records == [] || records[0].number > number then 0 else 1 + Front(records[1..], number)
  }

  lemma RecordsMore(records: seq<ReadyRecord>, committed: nat, offset: nat, offset': nat)
    requires RecordsOk(records, committed, offset) && offset <= offset'
    ensures RecordsOk(records, committed, offset')
  {
  }

  // What draining finds, by positions -------------------------------------------------------------

  /** The drained records are the longest run from the front whose numbers are at most `number`. */
  lemma {:induction false} FrontMeaning(records: seq<ReadyRecord>, number: nat)
    ensures var n := Front(records, number);
            && (forall k :: 0 <= k < n ==> records[k].number <= number)
            && (n < |records| ==> records[n].number > number)
  {
    if records != [] && records[0].number <= number {
      FrontMeaning(records[1..], number);
      assert forall k :: 0 < k < |records| ==> records[k] == records[1..][k - 1];
    }
  }

  ghost predicate LastSnapshot(rs: seq<ReadyRecord>, i: nat) {
    i < |rs| && rs[i].snapshot.Some? && forall j :: i < j < |rs| ==> rs[j].snapshot.None?
  }

  ghost predicate NoSnapshot(rs: seq<ReadyRecord>) {
    forall j :: 0 <= j < |rs| ==> rs[j].snapshot.None?
  }

  /** What counts begins with the last record that has a snapshot, or with the first record. */
  ghost predicate CountsFrom(rs: seq<ReadyRecord>, from: nat) {
    LastSnapshot(rs, from) || (from == 0 && NoSnapshot(rs))
  }

  ghost predicate LastEntries(rs: seq<ReadyRecord>, from: nat, i: nat) {
    from <= i < |rs| && rs[i].lastEntry.Some? && forall j :: i < j < |rs| ==> rs[j].lastEntry.None?
  }

  ghost predicate NoEntries(rs: seq<ReadyRecord>, from: nat) {
    forall j :: from <= j < |rs| ==> rs[j].lastEntry.None?
  }

  lemma {:induction false} SnapshotDrained(rs: seq<ReadyRecord>)
    ensures forall i: nat :: LastSnapshot(rs, i) ==> Drain(rs).snapIndex == rs[i].snapshot.value.index
    ensures NoSnapshot(rs) ==> Drain(rs).snapIndex == 0
  {
    if rs != [] {
      var n := |rs| - 1;
      SnapshotDrained(rs[..n]);
      forall i: nat | LastSnapshot(rs, i)
        ensures Drain(rs).snapIndex == rs[i].snapshot.value.index
      {
        if i < n {
          assert LastSnapshot(rs[..n], i);
        }
      }
      assert NoSnapshot(rs) ==> NoSnapshot(rs[..n]);
    }
  }

  lemma {:induction false} EntriesDrained(rs: seq<ReadyRecord>, from: nat)
    requires CountsFrom(rs, from)
    ensures forall i: nat :: LastEntries(rs, from, i) ==> Some((Drain(rs).index, Drain(rs).term)) == rs[i].lastEntry
    ensures NoEntries(rs, from) ==> Drain(rs).index == 0 && Drain(rs).term == 0
  {
    if rs != [] {
      var n := |rs| - 1;
      if from < n || rs[n].snapshot.None? {
        var before := rs[..n];
        assert CountsFrom(before, from);
        EntriesDrained(before, from);
        forall i: nat | LastEntries(rs, from, i)
          ensures Some((Drain(rs).index, Drain(rs).term)) == rs[i].lastEntry
        {
          if i < n {
            assert LastEntries(before, from, i);
          }
        }
        assert NoEntries(rs, from) ==> NoEntries(before, from);
      }
    }
  }
}
