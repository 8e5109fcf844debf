/** The one simple log that storage and the unstable entries stand for together. */
module AbstractLog {
  import opened LogModel
  import opened Numbers

  datatype Snap = Snap(index: nat, term: nat)

  ghost predicate Consecutive(ents: seq<Entry>, first: nat) {
    forall k :: 0 <= k < |ents| ==> ents[k].index == first + k
  }

  /** Everything up to `base` is inside a snapshot; only the term at `base` is still known. */
  datatype AbsLog = AbsLog(base: nat, baseTerm: nat, ents: seq<Entry>) {
    function Last(): nat {
      base + |ents|
    }

    ghost predicate WellFormed() {
      Consecutive(ents, base + 1)
    }

    /** The term at an index, 0 outside the log (src/raft_log.rs:140-158). */
    function TermOf(i: nat): nat {
      if i == base then baseTerm else if base < i <= Last() then ents[i - base - 1].term else 0
    }

    function Slice(lo: nat, hi: nat): seq<Entry>
      requires base < lo <= hi <= Last() + 1
    {
      ents[lo - base - 1..hi - base - 1]
    }

    /** Cuts the log before the first of `es` and puts `es` there. */
    function Replace(es: seq<Entry>): AbsLog {
      if es == [] || !(base < es[0].index <= Last() + 1) then this
      else this.(ents := ents[..es[0].index - base - 1] + es)
    }

    /** The first of `es` whose term differs from the log's; 0 if there is none. */
    function Conflict(es: seq<Entry>): nat {
      if es == [] then 0 else if TermOf(es[0].index) != es[0].term then es[0].index else Conflict(es[1..])
    }

    /** The largest index up to `i` whose term is at most `term`. */
    function LastUpTo(i: nat, term: nat): nat {
      if i == 0 || TermOf(i) <= term then i else LastUpTo(i - 1, term)
    }
  }

  datatype AppendResult = Refused | Broken | Stored(log: AbsLog, committed: nat, conflict: nat, last: nat)

  /** maybe_append on the one log: refused, fatal, or stored up to `last` and committed (src/raft_log.rs:267-297). */
  function MaybeAppend(log: AbsLog, committed: nat, idx: nat, term: nat, commit: nat, es: seq<Entry>): AppendResult {
    var last := idx + |es|;
    var c := log.Conflict(es);
    if log.TermOf(idx) != term then Refused
    else if c != 0 && (c <= committed || !(idx < c <= last && c <= log.Last() + 1)) then Broken
    else
      var log' := if c == 0 then log else log.Replace(es[c - idx - 1..]);
      var commit' := Min(commit, last);
      if committed >= commit' then Stored(log', committed, c, last)
      else if log'.Last() < commit' then Broken
      else Stored(log', commit', c, last)
  }

  function OfSnap(s: Snap): AbsLog {
    AbsLog(s.index, s.term, [])
  }

  // What these operations mean --------------------------------------------------------------------

  /** Putting entries in keeps everything before the first of them and has nothing after the last. */
  lemma ReplaceMeaning(log: AbsLog, es: seq<Entry>, i: nat)
    requires log.WellFormed() && es != [] && Consecutive(es, es[0].index) && log.base < es[0].index <= log.Last() + 1
    ensures var r := log.Replace(es);
            && r.base == log.base && r.baseTerm == log.baseTerm && r.WellFormed() && r.Last() == es[|es| - 1].index
            && (i < es[0].index ==> r.TermOf(i) == log.TermOf(i))
            && (log.base < i < es[0].index ==> r.ents[i - log.base - 1] == log.ents[i - log.base - 1])
            && (es[0].index <= i <= r.Last() ==>
                  r.ents[i - log.base - 1] == es[i - es[0].index] && r.TermOf(i) == es[i - es[0].index].term)
  {
  }

  /** Every one of the entries before position `j` has the term that the log has at its index. */
  ghost predicate AgreesBefore(log: AbsLog, es: seq<Entry>, j: nat) {
    j <= |es| && forall i :: 0 <= i < j ==> log.TermOf(es[i].index) == es[i].term
  }

  /** The conflict is the first entry whose term differs, and 0 if there is none. */
  lemma {:induction false} ConflictMeaning(log: AbsLog, es: seq<Entry>) returns (j: nat)
    requires forall i :: 0 <= i < |es| ==> es[i].index > 0
    ensures AgreesBefore(log, es, j) && (log.Conflict(es) == 0 <==> j == |es|)
    ensures j < |es| ==> log.Conflict(es) == es[j].index && log.TermOf(es[j].index) != es[j].term
  {
    if es == [] || log.TermOf(es[0].index) != es[0].term {
      j := 0;
    } else {
      var k := ConflictMeaning(log, es[1..]);
      j := k + 1;
      assert forall i :: 0 < i < |es| ==> es[i] == es[1..][i - 1];
    }
  }

  lemma {:induction false} LastUpToMeaning(log: AbsLog, i: nat, term: nat)
    requires log.TermOf(0) <= term
    ensures var k := log.LastUpTo(i, term);
            k <= i && log.TermOf(k) <= term && forall j :: k < j <= i ==> log.TermOf(j) > term
  {
    if i > 0 && log.TermOf(i) > term {
      LastUpToMeaning(log, i - 1, term);
    }
  }

  /**
   An append is refused exactly without its anchor. Stored, the log agrees with every one of its entries, keeps what
   was before the first difference, and is untouched if there is none; the commit index follows as far as it reaches.
   */
  lemma AppendMeaning(log: AbsLog, committed: nat, idx: nat, term: nat, commit: nat, es: seq<Entry>, i: nat)
    requires log.WellFormed() && Consecutive(es, idx + 1)
    ensures var m := MaybeAppend(log, committed, idx, term, commit, es);
            && (m.Refused? <==> log.TermOf(idx) != term)
            && (m.Stored? ==>
                  && m.last == idx + |es| && m.committed == (if Min(commit, m.last) > committed then Min(commit, m.last)
                                                             else committed)
                  && (m.conflict == 0 ==> m.log == log)
                  && (m.conflict > 0 && i < m.conflict ==> m.log.TermOf(i) == log.TermOf(i))
                  && (idx < i <= m.last && log.base <= idx ==> m.log.TermOf(i) == es[i - idx - 1].term))
  {
    hide AbsLog.TermOf, AbsLog.Replace, AbsLog.Conflict;
    var m := MaybeAppend(log, committed, idx, term, commit, es);
    if m.Stored? {
      StoredTerms(log, idx, es, i);
      if 0 < m.conflict <= log.base {
        NotReplaced(log, es[m.conflict - idx - 1..]);
      }
    }
  }

  lemma NotReplaced(log: AbsLog, es: seq<Entry>)
    requires es != [] && es[0].index <= log.base
    ensures log.Replace(es) == log
  {
  }

  /** Where the entries from the first difference on are put in, the log agrees with all of them. */
  lemma StoredTerms(log: AbsLog, idx: nat, es: seq<Entry>, i: nat)
    requires log.WellFormed() && Consecutive(es, idx + 1)
    ensures var c := log.Conflict(es);
            && (c == 0 && idx < i <= idx + |es| ==> log.TermOf(i) == es[i - idx - 1].term)
            && (c != 0 ==> idx < c <= idx + |es|)
            && (log.base < c <= log.Last() + 1 ==>
                  var r := log.Replace(es[c - idx - 1..]);
                  && (i < c ==> r.TermOf(i) == log.TermOf(i))
                  && (idx < i <= idx + |es| ==> r.TermOf(i) == es[i - idx - 1].term))
  {
    hide AbsLog.Conflict, AbsLog.Replace, AbsLog.TermOf;
    var j := ConflictMeaning(log, es);
    var c := log.Conflict(es);
    if c == 0 {
      assert idx < i <= idx + |es| ==> es[i - idx - 1].index == i;
    } else if log.base < c <= log.Last() + 1 {
      var rest := es[c - idx - 1..];
      ReplaceMeaning(log, rest, i);
      if idx < i <= idx + |es| {
        assert es[i - idx - 1].index == i;
        assert i >= c ==> rest[i - c] == es[i - idx - 1];
      }
    }
  }
}
