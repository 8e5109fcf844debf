/** Storage, unstable entries and the log on top of them: src/storage.rs, src/log_unstable.rs, src/raft_log.rs. */
module TwoLayerLog {
  import opened Options
  import opened LogModel
  import opened Numbers
  import opened LogPages
  import opened AbstractLog

  datatype StorageError = Compacted | Unavailable | SnapshotOutOfDate

  datatype Result<T> = Ok(value: T) | Err(error: StorageError)

  /** The Storage contract, with the append and apply_snapshot of MemStorage. */
  class Storage {
    var base: nat
    var baseTerm: nat
    var ents: seq<Entry>
    const bytes: Sizes

    ghost predicate Valid()
      reads this
    {
      Consecutive(ents, base + 1)
    }

    constructor (bytes: Sizes)
      ensures Valid() && base == 0 && baseTerm == 0 && ents == [] && this.bytes == bytes
    {
      base, baseTerm, ents := 0, 0, [];
      this.bytes := bytes;
    }

    function LastIndex(): nat
      reads this
    {
      base + |ents|
    }

    function Term(idx: nat): (r: Result<nat>)
      reads this
      ensures base <= idx <= LastIndex() ==> r == Ok(AbsLog(base, baseTerm, ents).TermOf(idx))
    {
      if idx == base then Ok(baseTerm)
      else if idx < base + 1 then Err(Compacted)
      else if idx > LastIndex() then Err(Unavailable)
      else Ok(ents[idx - base - 1].term)
    }

    method Entries(low: nat, high: nat, max: Option<nat>) returns (r: Result<seq<Entry>>)
      requires low < high <= LastIndex() + 1
      ensures r == if low <= base then Err(Compacted)
                   else Ok(LimitSize(ents[low - base - 1..high - base - 1], max, bytes))
    {
      if low < base + 1 {
        return Err(Compacted);
      }
      var page := Limit(ents[low - base - 1..high - base - 1], max, bytes);
      return Ok(page);
    }

    /** Dies on a gap and on compacted entries. */
    method Append(es: seq<Entry>)
      requires Valid() && (es != [] ==> base < es[0].index <= LastIndex() + 1 && Consecutive(es, es[0].index))
      modifies this
      ensures Valid() && base == old(base) && baseTerm == old(baseTerm)
      ensures AbsLog(base, baseTerm, ents) == old(AbsLog(base, baseTerm, ents)).Replace(es)
    {
      if es == [] {
        return;
      }
      ents := ents[..es[0].index - base - 1] + es;
    }

    method ApplySnapshot(s: Snap) returns (r: Result<()>)
      modifies this
      requires Valid()
      ensures Valid()
      ensures r == if s.index < old(base) + 1 then Err(SnapshotOutOfDate) else Ok(())
      ensures r.Ok? ==> base == s.index && baseTerm == s.term && ents == []
      ensures r.Err? ==> base == old(base) && baseTerm == old(baseTerm) && ents == old(ents)
    {
      if base + 1 > s.index {
        return Err(SnapshotOutOfDate);
      }
      base, baseTerm, ents := s.index, s.term, [];
      return Ok(());
    }
  }

  /** What has not been handed to storage yet. */
  class Unstable {
    var snap: Option<Snap>
    var ents: seq<Entry>
    var size: nat
    var offset: nat
    const bytes: Sizes

    ghost predicate Valid()
      reads this
    {
      && Consecutive(ents, offset) && size == Sum(ents, bytes)
      && (snap.Some? ==> offset == snap.value.index + 1)
    }

    constructor (offset: nat, bytes: Sizes)
      ensures Valid() && snap == None && ents == [] && this.offset == offset && this.bytes == bytes
    {
      snap, ents, size := None, [], 0;
      this.offset, this.bytes := offset, bytes;
    }

    function MaybeFirstIndex(): Option<nat>
      reads this
    {
      if snap.Some? then Some(snap.value.index + 1) else None
    }

    function MaybeLastIndex(): Option<int>
      reads this
    {
      if ents != [] then Some(offset + |ents| - 1) else if snap.Some? then Some(snap.value.index) else None
    }

    function MaybeTerm(idx: nat): Option<nat>
      requires Valid()
      reads this
    {
      if idx < offset then
        if snap.Some? && idx == snap.value.index then Some(snap.value.term) else None
      else if MaybeLastIndex().None? || idx > MaybeLastIndex().value then None
      else Some(ents[idx - offset].term)
    }

    /** Dies unless the snapshot is gone and the last entry is the one that was made stable. */
    method StableEntries(index: nat, term: nat)
      requires Valid() && snap.None? && ents != [] && ents[|ents| - 1].index == index && ents[|ents| - 1].term == term
      modifies this
      ensures Valid() && snap.None? && ents == [] && offset == old(offset) + old(|ents|)
    {
      offset, ents, size := ents[|ents| - 1].index + 1, [], 0;
    }

    method StableSnap(index: nat)
      requires Valid() && snap.Some? && snap.value.index == index
      modifies this`snap
      ensures Valid() && snap.None?
    {
      snap := None;
    }

    method Restore(s: Snap)
      modifies this
      ensures Valid() && snap == Some(s) && ents == [] && offset == s.index + 1
    {
      ents, size, offset, snap := [], 0, s.index + 1, Some(s);
    }

    /** Dies on a gap. Truncating into a snapshot would lose its place, and nobody does it. */
    method TruncateAndAppend(es: seq<Entry>)
      requires Valid() && es != [] && Consecutive(es, es[0].index) && es[0].index <= offset + |ents|
      requires snap.Some? ==> offset <= es[0].index
      modifies this`ents, this`size, this`offset
      ensures Valid() && offset == (if es[0].index < old(offset) then es[0].index else old(offset))
      ensures ents == (if es[0].index < old(offset) then es else old(ents)[..es[0].index - offset] + es)
    {
      var after := es[0].index;
      if after == offset + |ents| {
        assert ents[..after - offset] == ents;
      } else if after <= offset {
        offset, ents, size := after, [], 0;
      } else {
        assert ents == ents[..after - offset] + ents[after - offset..];
        SumConcat(ents[..after - offset], ents[after - offset..], bytes);
        size := size - Sum(ents[after - offset..], bytes);
        ents := ents[..after - offset];
      }
      SumConcat(ents, es, bytes);
      ents, size := ents + es, size + Sum(es, bytes);
    }
  }

  class RaftLog {
    const store: Storage
    const unstable: Unstable
    var committed: nat
    var persisted: nat
    var applied: nat
    /** max_apply_unpersisted_log_limit */
    var limit: nat

    ghost predicate Layered()
      reads store, unstable
    {
      && store.Valid() && unstable.Valid() && store.bytes == unstable.bytes
      && (unstable.snap.None? ==>
            && store.base < unstable.offset <= store.LastIndex() + 1
            && (unstable.ents == [] ==> unstable.offset == store.LastIndex() + 1))
    }

    /** The log that the two layers stand for; what storage holds at or above the offset is stale. */
    ghost function View(): (v: AbsLog)
      requires Layered()
      reads store, unstable
      ensures v.WellFormed()
    {
      if unstable.snap.Some? then OfSnap(unstable.snap.value).(ents := unstable.ents)
      else AbsLog(store.base, store.baseTerm, store.ents[..unstable.offset - store.base - 1] + unstable.ents)
    }

    ghost predicate Valid()
      reads this, store, unstable
    {
      && Layered()
      && View().base <= committed <= View().Last() && applied <= committed && persisted < unstable.offset
      && (unstable.snap.Some? ==> persisted <= unstable.snap.value.index <= committed)
    }

    constructor (store: Storage)
      requires store.Valid()
      ensures Valid() && this.store == store && fresh(unstable) && unstable.snap.None?
      ensures View() == AbsLog(store.base, store.baseTerm, store.ents)
      ensures committed == applied == store.base && persisted == store.LastIndex() && limit == 0
    {
      var u := new Unstable(store.LastIndex() + 1, store.bytes);
      this.store, unstable := store, u;
      committed, persisted, applied, limit := store.base, store.LastIndex(), store.base, 0;
      new;
      assert store.ents[..|store.ents|] == store.ents;
    }

    // Queries -------------------------------------------------------------------------------------

    function FirstIndex(): (i: nat)
      requires Layered()
      reads store, unstable
      ensures i == View().base + 1
    {
      var m := unstable.MaybeFirstIndex();
      if m.Some? then m.value else store.base + 1
    }

    function LastIndex(): (i: nat)
      requires Layered()
      reads store, unstable
      ensures i == View().Last()
    {
      var m := unstable.MaybeLastIndex();
      if m.Some? then m.value else store.LastIndex()
    }

    /** The storage never fails where the log asks it. */
    function Term(idx: nat): (r: Result<nat>)
      requires Layered()
      reads store, unstable
      ensures r == Ok(View().TermOf(idx))
    {
      if idx < FirstIndex() - 1 || idx > LastIndex() then Ok(0)
      else
        var m := unstable.MaybeTerm(idx);
        if m.Some? then Ok(m.value) else store.Term(idx)
    }

    predicate MatchTerm(idx: nat, term: nat)
      requires Layered()
      reads store, unstable
      ensures MatchTerm(idx, term) <==> View().TermOf(idx) == term
    {
      Term(idx) == Ok(term)
    }

    /** find_conflict (src/raft_log.rs:200-216). */
    method FindConflict(es: seq<Entry>) returns (c: nat)
      requires Layered()
      ensures c == View().Conflict(es)
    {
      for i := 0 to |es|
        invariant View().Conflict(es) == View().Conflict(es[i..])
      {
        if !MatchTerm(es[i].index, es[i].term) {
          return es[i].index;
        }
        assert es[i..][1..] == es[i + 1..];
      }
      return 0;
    }

    /** find_conflict_by_term (src/raft_log.rs:227-253). */
    method FindConflictByTerm(index: nat, term: nat) returns (i: nat, t: Option<nat>)
      requires Layered() && (View().base == 0 ==> View().baseTerm == 0)
      ensures t.None? <==> index > View().Last()
      ensures t.None? ==> i == index
      ensures t.Some? ==> i == View().LastUpTo(index, term) && t.value == View().TermOf(i)
    {
      i := index;
      if index > LastIndex() {
        return i, None;
      }
      while Term(i).value > term
        invariant i <= index && View().LastUpTo(index, term) == View().LastUpTo(i, term)
        decreases i
      {
        i := i - 1;
      }
      t := Some(Term(i).value);
    }

    predicate IsUpToDate(lastIndex: nat, term: nat)
      requires Layered()
      reads store, unstable
      ensures IsUpToDate(lastIndex, term) <==>
                term > View().TermOf(View().Last())
                || (term == View().TermOf(View().Last()) && lastIndex >= View().Last())
    {
      var lastTerm := Term(LastIndex()).value;
      term > lastTerm || (term == lastTerm && lastIndex >= LastIndex())
    }

    // Appending and committing --------------------------------------------------------------------

    /** Everything but the bound on `persisted`, which maybe_append restores last. */
    ghost predicate AlmostValid()
      reads this, store, unstable
    {
      && Layered()
      && View().base <= committed <= View().Last() && applied <= committed
      && (unstable.snap.Some? ==> persisted <= unstable.snap.value.index <= committed)
    }

    /** append (src/raft_log.rs:382-403); dies when it would cut into what is committed, and on a gap. */
    method Append(es: seq<Entry>)
      requires AlmostValid()
      requires es != [] ==> Consecutive(es, es[0].index) && committed < es[0].index <= View().Last() + 1
      modifies unstable
      ensures AlmostValid() && View() == old(View()).Replace(es) && unstable.snap == old(unstable.snap)
      ensures unstable.offset
              == if es != [] && es[0].index < old(unstable.offset) then es[0].index else old(unstable.offset)
    {
      hide View, Layered, AbsLog.Replace;
      if es == [] {
        NoReplace(View());
        return;
      }
      SnapBase();
      ReplaceSize(View(), es);
      AppendUnstable(es);
    }

    lemma SnapBase()
      requires Layered()
      ensures unstable.snap.Some? ==> View().base == unstable.snap.value.index && unstable.offset == View().base + 1
      ensures View().base < unstable.offset <= View().Last() + 1
    {
    }

    /** Cuts and extends the unstable layer. */
    method AppendUnstable(es: seq<Entry>)
      requires Layered() && es != [] && Consecutive(es, es[0].index) && View().base < es[0].index <= View().Last() + 1
      modifies unstable
      ensures Layered() && View() == old(View()).Replace(es) && unstable.snap == old(unstable.snap)
      ensures unstable.offset == if es[0].index < old(unstable.offset) then es[0].index else old(unstable.offset)
    {
      hide AbsLog.Replace;
      ghost var was := View();
      if unstable.snap.Some? {
        SnapReplace(was, es);
      } else {
        LayersReplace(store.base, store.baseTerm, store.ents, unstable.offset, unstable.ents, es);
      }
      unstable.TruncateAndAppend(es);
      assert View() == was.Replace(es);
    }

    /** commit_to (src/raft_log.rs:304-318); dies past the end. */
    method CommitTo(c: nat)
      requires Valid() && c <= View().Last()
      modifies this`committed
      ensures Valid() && View() == old(View()) && committed == if c > old(committed) then c else old(committed)
    {
      if committed >= c {
        return;
      }
      committed := c;
    }

    /** maybe_commit (src/raft_log.rs:530-542); past the end only term 0 matches, and then it dies. */
    method MaybeCommit(index: nat, term: nat) returns (moved: bool, died: bool)
      requires Valid()
      modifies this`committed
      ensures Valid() && View() == old(View())
      ensures moved || died <==> old(committed) < index && View().TermOf(index) == term
      ensures died <==> old(committed) < index && View().Last() < index && term == 0
      ensures committed == if moved then index else old(committed)
    {
      if index > committed && MatchTerm(index, term) {
        died := TryCommit(index);
        return !died, died;
      }
      return false, false;
    }

    lemma ValidParts()
      requires Valid()
      ensures Layered() && committed <= View().Last()
    {
    }

    lemma ConflictPlace(es: seq<Entry>, idx: nat)
      requires Layered() && Consecutive(es, idx + 1)
      ensures var c := View().Conflict(es); c == 0 || idx < c <= idx + |es|
    {
      ConflictInside(View(), es, idx);
    }

    /** Replaces everything from the conflict on, and forgets that the replaced part was persisted. */
    method StoreFrom(conflict: nat, es: seq<Entry>)
      requires Valid() && es != [] && es[0].index == conflict && Consecutive(es, conflict)
      requires committed < conflict <= View().Last() + 1
      modifies this`persisted, unstable
      ensures Valid() && View() == old(View()).Replace(es) && unstable.snap == old(unstable.snap)
      ensures persisted == if old(persisted) > conflict - 1 then conflict - 1 else old(persisted)
      ensures unstable.offset >= Min(old(unstable.offset), conflict)
    {
      hide View, Layered, AbsLog.Replace;
      Append(es);
      if persisted > conflict - 1 {
        persisted := conflict - 1;
      }
    }

    /** maybe_append (src/raft_log.rs:267-297). */
    method MaybeAppend(idx: nat, term: nat, commit: nat, es: seq<Entry>) returns (r: Option<(nat, nat)>, died: bool)
      requires Valid() && Consecutive(es, idx + 1)
      modifies this, unstable
      ensures var m := AbstractLog.MaybeAppend(old(View()), old(committed), idx, term, commit, es);
              && (died <==> m.Broken?)
              && (m.Refused? ==> r.None? && Valid() && View() == old(View()) && committed == old(committed)
                                 && persisted == old(persisted))
              && (m.Stored? ==> Valid() && View() == m.log && committed == m.committed
                                && r == Some((m.conflict, m.last))
                                && persisted == if m.conflict > 0 && old(persisted) > m.conflict - 1
                                                then m.conflict - 1 else old(persisted))
      ensures !died ==> applied == old(applied) && limit == old(limit) && unstable.snap == old(unstable.snap)
      ensures !died ==> unstable.offset >= Min(old(unstable.offset), old(committed) + 1)
    {
      hide Valid, View, Layered, AbsLog.Conflict, AbsLog.Replace, AbsLog.TermOf;
      ValidParts();
      died := false;
      if !MatchTerm(idx, term) {
        return None, false;
      }
      var conflict := FindConflict(es);
      ConflictPlace(es, idx);
      if conflict != 0 && (conflict <= committed || conflict > LastIndex() + 1) {
        return None, true;
      }
      died := Accept(idx, commit, es, conflict);
      r := if died then None else Some((conflict, idx + |es|));
    }

    /** Stores what conflicts and commits; `died` is a commit index past the end. */
    method Accept(idx: nat, commit: nat, es: seq<Entry>, conflict: nat) returns (died: bool)
      requires Valid() && Consecutive(es, idx + 1)
      requires conflict == 0 || (idx < conflict <= idx + |es| && committed < conflict <= View().Last() + 1)
      modifies this`persisted, this`committed, unstable
      ensures var log' := if conflict == 0 then old(View()) else old(View()).Replace(es[conflict - idx - 1..]);
              var c := Min(commit, idx + |es|);
              && Valid() && View() == log' && unstable.snap == old(unstable.snap)
              && (died <==> old(committed) < c && log'.Last() < c)
              && (!died ==> committed == if c > old(committed) then c else old(committed))
              && persisted == (if conflict > 0 && old(persisted) > conflict - 1 then conflict - 1 else old(persisted))
      ensures unstable.offset >= Min(old(unstable.offset), old(committed) + 1)
    {
      hide Valid, View, Layered, AbsLog.Replace;
      if conflict != 0 {
        var rest := es[conflict - idx - 1..];
        assert rest[0].index == conflict;
        StoreFrom(conflict, rest);
      }
      var last := idx + |es|;
      died := TryCommit(if commit < last then commit else last);
    }

    /** commit_to, saying whether it died. */
    method TryCommit(c: nat) returns (died: bool)
      requires Valid()
      modifies this`committed
      ensures Valid() && View() == old(View())
      ensures died <==> old(committed) < c && View().Last() < c
      ensures committed == if c > old(committed) && !died then c else old(committed)
    {
      if committed < c && LastIndex() < c {
        return true;
      }
      CommitTo(c);
      return false;
    }

    /** restore (src/raft_log.rs:696-717); dies on a snapshot older than the commit index. */
    method Restore(s: Snap)
      requires Valid() && s.index >= committed
      modifies this`committed, this`persisted, unstable
      ensures Valid() && View() == OfSnap(s) && unstable.snap == Some(s) && committed == s.index
      ensures persisted == Min(old(persisted), old(committed))
    {
      if persisted > committed {
        persisted := committed;
      }
      committed := s.index;
      unstable.Restore(s);
    }

    method AppliedTo(idx: nat)
      requires Valid() && (idx == 0 || applied <= idx <= committed)
      modifies this`applied
      ensures Valid() && View() == old(View()) && applied == if idx == 0 then old(applied) else idx
    {
      if idx == 0 {
        return;
      }
      applied := idx;
    }

    // Handing over to storage ---------------------------------------------------------------------

    /** Storage has taken the snapshot, and entries after it only if there are unstable ones. */
    ghost predicate SnapStored()
      reads store, unstable
    {
      unstable.snap.Some? ==>
        && store.base == unstable.snap.value.index && store.baseTerm == unstable.snap.value.term
        && (unstable.ents == [] ==> store.ents == [])
    }

    /** Storage has taken the unstable entries, and nothing after them. */
    ghost predicate EntriesStored()
      reads store, unstable
    {
      && store.base < unstable.offset <= store.LastIndex() + 1
      && store.ents[unstable.offset - store.base - 1..] == unstable.ents
    }

    method StableSnap(index: nat)
      requires Valid() && unstable.snap.Some? && unstable.snap.value.index == index && SnapStored()
      modifies unstable`snap
      ensures Valid() && View() == old(View()) && unstable.snap.None?
    {
      ghost var was := View();
      unstable.StableSnap(index);
      assert store.ents[..0] + unstable.ents == unstable.ents;
      assert View() == was;
    }

    method StableEntries(index: nat, term: nat)
      requires Valid() && unstable.snap.None? && EntriesStored() && unstable.ents != []
      requires index == View().Last() && term == View().TermOf(index)
      modifies unstable
      ensures Valid() && View() == old(View()) && unstable.snap.None? && unstable.ents == []
      ensures unstable.offset == View().Last() + 1
    {
      ghost var was := View();
      ghost var cut := unstable.offset - store.base - 1;
      assert store.ents == store.ents[..cut] + store.ents[cut..];
      unstable.StableEntries(index, term);
      assert store.ents[..|store.ents|] + [] == was.ents;
    }

    /** From here on entries are, or will be, replaced by what is unstable. */
    function FirstUpdate(): nat
      reads unstable
    {
      if unstable.snap.Some? then unstable.snap.value.index else unstable.offset
    }

    /** maybe_persist (src/raft_log.rs:545-574): what counts as persisted is in storage and is the log's own. */
    method MaybePersist(index: nat, term: nat) returns (moved: bool)
      requires Valid()
      modifies this`persisted
      ensures Valid() && View() == old(View())
      ensures persisted == (if moved then index else old(persisted)) >= old(persisted)
      ensures moved <==> old(persisted) < index < FirstUpdate() && store.Term(index) == Ok(term)
      ensures moved && unstable.snap.None? ==> View().base <= index < unstable.offset && View().TermOf(index) == term
      ensures unstable.snap.None? && View().base <= index < unstable.offset && View().TermOf(index) == term ==>
                (moved <==> old(persisted) < index)
    {
      if index > persisted && index < FirstUpdate() && store.Term(index) == Ok(term) {
        persisted := index;
        return true;
      }
      return false;
    }

    /** maybe_persist_snap (src/raft_log.rs:577-604); dies if the index is not committed or not stored. */
    method MaybePersistSnap(index: nat) returns (moved: bool)
      requires Valid() && (index > persisted ==> index <= committed && index < unstable.offset)
      modifies this`persisted
      ensures Valid() && View() == old(View())
      ensures moved <==> index > old(persisted)
      ensures persisted == if moved then index else old(persisted)
    {
      if index > persisted {
        persisted := index;
        return true;
      }
      return false;
    }

    // Reading -------------------------------------------------------------------------------------

    /** The part of a slice that storage holds, and the part that is still unstable. */
    ghost function StorePart(low: nat, high: nat): seq<Entry>
      requires Layered() && View().base < low < high <= View().Last() + 1
      reads store, unstable
    {
      if low >= unstable.offset then []
      else store.ents[low - store.base - 1..Min(high, unstable.offset) - store.base - 1]
    }

    ghost function UnstablePart(low: nat, high: nat): seq<Entry>
      requires Layered() && View().base < low < high <= View().Last() + 1
      reads store, unstable
    {
      if high <= unstable.offset then []
      else if low > unstable.offset then unstable.ents[low - unstable.offset..high - unstable.offset]
      else unstable.ents[..high - unstable.offset]
    }

    lemma SliceParts(low: nat, high: nat)
      requires Layered() && View().base < low < high <= View().Last() + 1
      ensures View().Slice(low, high) == StorePart(low, high) + UnstablePart(low, high)
      ensures low < unstable.offset ==> View().base == store.base && unstable.offset <= store.LastIndex() + 1
      ensures high > unstable.offset ==> high <= unstable.offset + |unstable.ents|
    {
    }

    /** slice (src/raft_log.rs:646-693): the limited slice of the one log, whichever layers it comes from. */
    method Slice(low: nat, high: nat, max: Option<nat>) returns (r: Result<seq<Entry>>)
      requires Layered() && low <= high <= View().Last() + 1
      ensures low <= View().base ==> r == Err(Compacted)
      ensures low > View().base ==> r == Ok(LimitSize(View().Slice(low, high), max, store.bytes))
    {
      hide View, Layered, LimitSize;
      if low < FirstIndex() {
        return Err(Compacted);
      }
      var ents := [];
      if low == high {
        assert LimitSize([], max, store.bytes) == [];
        return Ok(ents);
      }
      var offset := unstable.offset;
      SliceParts(low, high);
      ghost var a, b := StorePart(low, high), UnstablePart(low, high);
      LimitConcat(a, b, max, store.bytes);
      if low < offset {
        var unstableHigh := if high < offset then high else offset;
        var got := store.Entries(low, unstableHigh, max);
        ents := got.value;
        if |ents| < unstableHigh - low {
          return Ok(ents);
        }
      }
      assert ents == a;
      if high > offset {
        var lo := if low > offset then low else offset;
        ents := ents + unstable.ents[lo - offset..high - offset];
      }
      assert ents == a + b;
      ents := Limit(ents, max, store.bytes);
      return Ok(ents);
    }

    /** entries (src/raft_log.rs:406-418). */
    method Entries(idx: nat, max: Option<nat>) returns (r: Result<seq<Entry>>)
      requires Layered()
      ensures idx > View().Last() ==> r == Ok([])
      ensures idx <= View().base && idx <= View().Last() ==> r == Err(Compacted)
      ensures View().base < idx <= View().Last() ==>
                r == Ok(LimitSize(View().Slice(idx, View().Last() + 1), max, store.bytes))
    {
      var last := LastIndex();
      if idx > last {
        return Ok([]);
      }
      r := Slice(idx, last + 1, max);
    }

    /** How far entries may be handed out for applying (src/raft_log.rs:465-470). */
    function Deliverable(): nat
      reads this
    {
      Min(committed, persisted + limit)
    }

    predicate HasNextEntriesSince(since: nat)
      requires Valid()
      reads this, store, unstable
      ensures HasNextEntriesSince(since) <==> Deliverable() > since && Deliverable() > View().base
    {
      var offset := if since + 1 > FirstIndex() then since + 1 else FirstIndex();
      Deliverable() + 1 > offset
    }

    /** next_entries_since (src/raft_log.rs:447-462). */
    method NextEntriesSince(since: nat, max: Option<nat>) returns (r: Option<seq<Entry>>)
      requires Valid()
      ensures r.Some? <==> HasNextEntriesSince(since)
      ensures var from := if since > View().base then since else View().base;
              r.Some? ==> r.value == LimitSize(View().Slice(from + 1, Deliverable() + 1), max, store.bytes)
    {
      hide View, Layered, LimitSize, Valid;
      ValidParts();
      var offset := if since + 1 > FirstIndex() then since + 1 else FirstIndex();
      var high := Deliverable() + 1;
      if high > offset {
        var got := Slice(offset, high, max);
        return Some(got.value);
      }
      return None;
    }

    /**
     scan (src/raft_log.rs:615-642): pages of at most `page` bytes go to `v` until it says stop. The pages put
     together are the slice, or the part of it up to and including the page that stopped the scan.
     */
    method Scan(lo: nat, hi: nat, page: nat, v: seq<Entry> -> bool) returns (r: Result<()>, pages: seq<seq<Entry>>)
      requires Layered() && hi <= View().Last() + 1
      ensures lo < hi && lo <= View().base ==> r.Err? && pages == []
      ensures lo >= hi ==> r.Ok? && pages == []
      ensures View().base < lo < hi ==>
                && r.Ok? && pages != [] && Flatten(pages) <= View().Slice(lo, hi)
                && (forall p | p in pages :: p != [])
                && (forall k :: 0 <= k < |pages| - 1 ==> v(pages[k]))
                && (v(pages[|pages| - 1]) ==> Flatten(pages) == View().Slice(lo, hi))
    {
      hide View, Layered, LimitSize, Flatten;
      FlattenLast([], []);
      pages, r := [], Ok(());
      var at := lo;
      ghost var inside := View().base < lo < hi;
      ghost var all := if inside then View().Slice(lo, hi) else [];
      while at < hi
        invariant inside || (at == lo && pages == [])
        invariant inside ==>
                    && lo <= at <= hi && (at > lo <==> pages != []) && Flatten(pages) == all[..at - lo]
                    && (forall p | p in pages :: p != []) && (forall k :: 0 <= k < |pages| ==> v(pages[k]))
        decreases hi - at
      {
        var got := Slice(at, hi, Some(page));
        if got.Err? {
          return Err(got.error), pages;
        }
        var ents := got.value;
        SliceTail(View(), lo, at, hi);
        LimitNonEmpty(all[at - lo..], Some(page), store.bytes);
        TakeMore(all, at - lo, ents);
        at := at + |ents|;
        FlattenLast(pages, ents);
        pages := pages + [ents];
        if !v(ents) {
          return Ok(()), pages;
        }
      }
    }
  }

  lemma {:induction false} ConflictInside(log: AbsLog, es: seq<Entry>, idx: nat)
    requires Consecutive(es, idx + 1)
    ensures var c := log.Conflict(es); c == 0 || idx < c <= idx + |es|
    decreases |es|
  {
    if es != [] {
      ConflictInside(log, es[1..], idx + 1);
    }
  }

  lemma NoReplace(v: AbsLog)
    ensures v.Replace([]) == v
  {
  }

  lemma SnapReplace(v: AbsLog, es: seq<Entry>)
    requires es != [] && v.base < es[0].index <= v.Last() + 1
    ensures v.Replace(es) == AbsLog(v.base, v.baseTerm, v.ents[..es[0].index - v.base - 1] + es)
  {
  }

  lemma ReplaceSize(v: AbsLog, es: seq<Entry>)
    requires es != [] && v.base < es[0].index <= v.Last() + 1
    ensures v.Replace(es).base == v.base && v.Replace(es).Last() == es[0].index - 1 + |es|
  {
  }

  /** Cutting the unstable layer, or below it, is cutting the one log. */
  lemma LayersReplace(base: nat, baseTerm: nat, st: seq<Entry>, offset: nat, u: seq<Entry>, es: seq<Entry>)
    requires base < offset <= base + |st| + 1 && es != [] && base < es[0].index <= offset + |u|
    ensures var cut := es[0].index;
            AbsLog(base, baseTerm, st[..offset - base - 1] + u).Replace(es)
            == if cut < offset then AbsLog(base, baseTerm, st[..cut - base - 1] + es)
               else AbsLog(base, baseTerm, st[..offset - base - 1] + (u[..cut - offset] + es))
  {
    var cut := es[0].index;
    TakeConcat(st[..offset - base - 1], u, cut - base - 1);
    if cut < offset {
      assert st[..offset - base - 1][..cut - base - 1] == st[..cut - base - 1];
    } else {
      assert u[..0] == [];
      assert st[..offset - base - 1] + (u[..cut - offset] + es) == st[..offset - base - 1] + u[..cut - offset] + es;
    }
  }

  lemma TakeConcat(a: seq<Entry>, b: seq<Entry>, k: nat)
    requires k <= |a| + |b|
    ensures (a + b)[..k] == if k <= |a| then a[..k] else a + b[..k - |a|]
  {
  }

  lemma SliceTail(v: AbsLog, lo: nat, at: nat, hi: nat)
    requires v.base < lo <= at <= hi <= v.Last() + 1
    ensures v.Slice(at, hi) == v.Slice(lo, hi)[at - lo..]
  {
  }

  lemma TakeMore(all: seq<Entry>, k: nat, more: seq<Entry>)
    requires k + |more| <= |all| && more == all[k..][..|more|]
    ensures all[..k] + more == all[..k + |more|]
  {
  }

  lemma LimitNonEmpty(ents: seq<Entry>, max: Option<nat>, bytes: Sizes)
    requires ents != []
    ensures var r := LimitSize(ents, max, bytes); r != [] && r == ents[..|r|]
  {
  }

  lemma FlattenLast(pages: seq<seq<Entry>>, p: seq<Entry>)
    ensures Flatten(pages + [p]) == Flatten(pages) + p && Flatten([]) == []
  {
    assert (pages + [p])[..|pages|] == pages;
  }
}
