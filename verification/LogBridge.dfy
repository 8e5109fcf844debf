/** The log of the cluster model is the two-layer log's view when nothing has been compacted. */
module LogBridge {
  import opened LogModel
  import opened AbstractLog
  import N = RaftNode

  function Plain(log: Log): AbsLog {
    AbsLog(0, 0, log)
  }

  lemma {:induction false} PlainConflict(log: Log, es: seq<Entry>)
    ensures Plain(log).Conflict(es) == N.FindConflict(log, es)
  {
    if es != [] {
      PlainConflict(log, es[1..]);
    }
  }

  lemma {:induction false} PlainLastUpTo(log: Log, i: nat, term: nat)
    requires i <= |log|
    ensures Plain(log).LastUpTo(i, term) == N.LastUpTo(log, i, term)
  {
    if i > 0 {
      PlainLastUpTo(log, i - 1, term);
    }
  }

  /** A node of the cluster model appends exactly as the two-layer log does. */
  lemma PlainAppend(log: Log, committed: nat, idx: nat, term: nat, commit: nat, es: seq<Entry>)
    requires Consecutive(es, idx + 1)
    ensures var m := MaybeAppend(Plain(log), committed, idx, term, commit, es);
            var n := N.MaybeAppend(log, committed, idx, term, commit, es);
            && (m.Refused? <==> n.Refused?) && (m.Broken? <==> n.Broken?)
            && (m.Stored? ==> n.Stored? && m.log == Plain(n.log) && m.committed == n.committed
                              && m.conflict == n.conflict && m.last == n.last)
  {
    hide AbsLog.Conflict, AbsLog.Replace, N.FindConflict;
    PlainConflict(log, es);
    var c := N.FindConflict(log, es);
    if idx < c <= idx + |es| && c <= |log| + 1 {
      PlainReplace(log, es[c - idx - 1..], c);
    }
  }

  lemma PlainReplace(log: Log, es: seq<Entry>, c: nat)
    requires es != [] && es[0].index == c && 1 <= c <= |log| + 1
    ensures Plain(log).Replace(es) == Plain(log[..c - 1] + es)
  {
  }
}
