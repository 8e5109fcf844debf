/** Finding where two logs part: the reject/hint exchange between a leader and a follower. */
module Backtrack {
  import opened Options
  import opened Quorum
  import opened LogModel
  import opened Numbers
  import opened ProgressModel
  import opened RaftNode

  // find_conflict_by_term -------------------------------------------------------------------------

  /** The index found is the largest up to `index` whose term is at most `term`; index 0 has term 0. */
  lemma {:induction false} LastUpToMeaning(log: Log, index: nat, term: nat)
    requires index <= |log|
    ensures var i := LastUpTo(log, index, term);
            i <= index && TermAt(log, i) <= term && forall k :: i < k <= index ==> TermAt(log, k) > term
    decreases index
  {
    if TermAt(log, index) > term {
      LastUpToMeaning(log, index - 1, term);
    }
  }

  /** The loop of src/raft_log.rs:227-253; an index past the end comes back without a term. */
  method FindConflictByTerm(log: Log, index: nat, term: nat) returns (conflict: nat, t: Option<nat>)
    ensures conflict == LastUpTo(log, index, term)
    ensures t == if index > |log| then None else Some(TermAt(log, conflict))
  {
    conflict := index;
    if index > |log| {
      return index, None;
    }
    while TermAt(log, conflict) > term
      invariant conflict <= index
      invariant LastUpTo(log, index, term) == LastUpTo(log, conflict, term)
      decreases conflict
    {
      conflict := conflict - 1;
    }
    t := Some(TermAt(log, conflict));
  }

  // Where two logs agree --------------------------------------------------------------------------

  /** What every log of a run is (`ClusterTheorems.LogsWellFormed`). */
  ghost predicate WellFormed(log: Log) {
    Sorted(log) && forall k :: 0 <= k < |log| ==> log[k].term >= 1 && log[k].index == k + 1
  }

  /** What every two logs of a run satisfy (`ClusterTheorems.LogMatching`). */
  ghost predicate Matching(a: Log, b: Log) {
    forall k :: 1 <= k <= |a| && k <= |b| && TermAt(a, k) == TermAt(b, k) ==> a[..k] == b[..k]
  }

  ghost function AgreedUpTo(a: Log, b: Log, k: nat): (r: nat)
    requires k <= |a| && k <= |b|
    ensures r <= k && a[..r] == b[..r]
    ensures forall j :: r < j <= k ==> a[..j] != b[..j]
  {
    if a[..k] == b[..k] then k else AgreedUpTo(a, b, k - 1)
  }

  /** The largest index up to which the logs are the same. */
  ghost function Agreed(a: Log, b: Log): (r: nat)
    ensures r <= |a| && r <= |b| && a[..r] == b[..r]
    ensures forall j :: r < j <= |a| && j <= |b| ==> a[..j] != b[..j]
  {
    AgreedUpTo(a, b, Min(|a|, |b|))
  }

  lemma TermsAgree(a: Log, b: Log, k: nat)
    requires k <= Agreed(a, b)
    ensures TermAt(a, k) == TermAt(b, k)
  {
    if k > 0 {
      assert a[k - 1] == a[..Agreed(a, b)][k - 1] == b[..Agreed(a, b)][k - 1];
    }
  }

  /** An append anchored at an index of the leader's log is accepted exactly up to the largest agreed index. */
  lemma AcceptedIffAgreed(a: Log, b: Log, k: nat)
    requires WellFormed(a) && WellFormed(b) && Matching(a, b) && k <= |a|
    ensures TermAt(a, k) == TermAt(b, k) <==> k <= Agreed(a, b)
  {
    if k <= Agreed(a, b) {
      TermsAgree(a, b, k);
    }
  }

  lemma TermsGrow(a: Log, i: nat, j: nat)
    requires WellFormed(a) && i <= j <= |a|
    ensures TermAt(a, i) <= TermAt(a, j)
  {
  }

  /** The follower's hint and the leader's answer to it. */
  function HintOf(b: Log, prev: nat, term: nat): nat {
    LastUpTo(b, Min(prev, |b|), term)
  }

  function ProbeOf(a: Log, hint: nat, hintTerm: nat): nat {
    if hintTerm > 0 then LastUpTo(a, hint, hintTerm) else hint
  }

  lemma HintBounds(a: Log, b: Log, prev: nat)
    requires WellFormed(a) && WellFormed(b) && Matching(a, b) && Agreed(a, b) < prev <= |a|
    ensures var hint := HintOf(b, prev, TermAt(a, prev));
            Agreed(a, b) <= hint <= prev && hint <= |b| && TermAt(b, hint) <= TermAt(a, prev)
  {
    hide Matching;
    var g := Agreed(a, b);
    LastUpToMeaning(b, Min(prev, |b|), TermAt(a, prev));
    TermsAgree(a, b, g);
    TermsGrow(a, g, prev);
  }

  lemma ProbeBounds(a: Log, b: Log, hint: nat)
    requires WellFormed(a) && WellFormed(b) && Agreed(a, b) <= hint <= |a| && hint <= |b|
    ensures var probe := ProbeOf(a, hint, TermAt(b, hint));
            Agreed(a, b) <= probe <= hint && TermAt(a, probe) <= TermAt(b, hint)
  {
    var g := Agreed(a, b);
    TermsAgree(a, b, g);
    TermsGrow(b, g, hint);
    if TermAt(b, hint) > 0 {
      LastUpToMeaning(a, hint, TermAt(b, hint));
    }
  }

  /**
   A refused probe is followed by a strictly lower one that is not below the largest agreed index, and the exchange
   skips every entry of the refused probe's term: unless it has arrived, the leader's term at the new probe is lower.
   */
  lemma HintSkipsTerm(a: Log, b: Log, prev: nat)
    requires WellFormed(a) && WellFormed(b) && Matching(a, b) && Agreed(a, b) < prev <= |a|
    ensures var hint := HintOf(b, prev, TermAt(a, prev));
            var probe := ProbeOf(a, hint, TermAt(b, hint));
            && Agreed(a, b) <= probe < prev
            && (Agreed(a, b) < probe ==> TermAt(a, probe) < TermAt(a, prev))
  {
    hide Sorted, Matching, LastUpTo, Agreed;
    var g := Agreed(a, b);
    var hint := HintOf(b, prev, TermAt(a, prev));
    var probe := ProbeOf(a, hint, TermAt(b, hint));
    HintBounds(a, b, prev);
    ProbeBounds(a, b, hint);
    AcceptedIffAgreed(a, b, hint);
    TermsGrow(a, hint, prev);
    TermsGrow(a, probe, hint);
    if probe == prev {
      AcceptedIffAgreed(a, b, prev);
      assert false;
    }
  }

  // The exchange between two nodes ----------------------------------------------------------------

  /** A leader probes a follower of its term, from an index at or above the largest agreed one. */
  ghost predicate Probing(l: Node, f: Node) {
    && l.role == Leader && f.role == Follower && l.term == f.term && l.term >= 1 && l.id != f.id
    && WellFormed(l.log) && WellFormed(f.log) && Matching(l.log, f.log)
    && l.committed <= |l.log| && f.committed <= Agreed(l.log, f.log)
    && f.id in l.progress
    && var p := l.progress[f.id];
    && p.state == Probe && !p.paused && p.matched <= Agreed(l.log, f.log)
    && Agreed(l.log, f.log) < p.nextIdx <= |l.log| + 1
  }

  /** The leader sends an append, the follower steps it, and the leader steps the response. */
  ghost predicate Round(cfg: JointConfig, l: Node, f: Node, count: nat, m: Message, r: Message, l': Node, f': Node) {
    var d := SendAppend(l, f.id, true, count);
    && d.Done? && d.out == {m}
    && Step(cfg, f, m) == Done(f', {r})
    && var e := Step(cfg, d.node, r);
    e.Done? && e.node == l'
  }

  /** The append that a probing leader sends. */
  function Append(l: Node, f: Node, count: nat): Message
    requires f.id in l.progress && 1 <= l.progress[f.id].nextIdx <= |l.log| + 1
  {
    var prev := l.progress[f.id].nextIdx - 1;
    var n := Min(if count == 0 then 1 else count, |l.log| - prev);
    AppendMsg(l.id, f.id, l.term, prev, TermAt(l.log, prev), l.log[prev..prev + n], l.committed)
  }

  lemma Sends(l: Node, f: Node, count: nat)
    requires Probing(l, f)
    ensures var d := SendAppend(l, f.id, true, count);
            var p := l.progress[f.id];
            && d.Done? && d.out == {Append(l, f, count)}
            && (d.node == l || d.node == SetProgress(l, f.id, p.Pause()))
  {
    hide Matching, Sorted, Agreed, TermAt;
    var p := l.progress[f.id];
    var prev := p.nextIdx - 1;
    var due := if p.nextIdx > |l.log| then [] else l.log[prev..];
    DuePart(l.log, prev, Min(if count == 0 then 1 else count, |l.log| - prev));
    assert due == l.log[prev..];
  }

  lemma DuePart(log: Log, prev: nat, n: nat)
    requires prev + n <= |log|
    ensures |log[prev..]| == |log| - prev && log[prev..][..n] == log[prev..prev + n]
  {
  }

  lemma Refuses(cfg: JointConfig, l: Node, f: Node, m: Message)
    requires Probing(l, f) && m.AppendMsg? && m.from == l.id && m.term == l.term
    requires Agreed(l.log, f.log) < m.index <= |l.log| && m.logTerm == TermAt(l.log, m.index)
    ensures var hint := HintOf(f.log, m.index, m.logTerm);
            Step(cfg, f, m) == Done(f.(leaderId := l.id),
              {AppendResp(f.id, l.id, f.term, m.index, true, hint, TermAt(f.log, hint), f.committed)})
  {
    hide Matching, Sorted, Agreed, LastUpTo, FindConflict;
    AcceptedIffAgreed(l.log, f.log, m.index);
  }

  lemma LearnsHint(cfg: JointConfig, l: Node, f: Node, prev: nat, hint: nat, probe: nat, r: Message)
    requires l.role == Leader && l.term >= 1 && f.id in l.progress
    requires var p := l.progress[f.id]; p.state == Probe && p.nextIdx == prev + 1
    requires r == AppendResp(f.id, l.id, l.term, prev, true, hint, TermAt(f.log, hint), f.committed)
    requires probe == ProbeOf(l.log, hint, TermAt(f.log, hint)) && probe < prev
    ensures var d := Step(cfg, l, r);
            && d.Done? && d.node == SetProgress(l, f.id, d.node.progress[f.id]) && f.id in d.node.progress
            && var p, q := l.progress[f.id], d.node.progress[f.id];
            && q.state == Probe && !q.paused && q.matched == p.matched
            && q.nextIdx == if probe < p.matched then p.matched + 1 else probe + 1
  {
    hide LastUpTo, TermAt;
  }

  /** A refused round: the logs stay, and the next probe is lower, in a lower term, and not too low. */
  lemma RefusedRound(cfg: JointConfig, l: Node, f: Node, count: nat)
    returns (m: Message, r: Message, l': Node, f': Node)
    requires Probing(l, f) && Agreed(l.log, f.log) + 1 < l.progress[f.id].nextIdx
    ensures Round(cfg, l, f, count, m, r, l', f') && r.AppendResp? && r.reject
    ensures Probing(l', f') && l'.log == l.log && f'.log == f.log && f'.id == f.id && f'.committed == f.committed
    ensures var next, next' := l.progress[f.id].nextIdx, l'.progress[f.id].nextIdx;
            && next' < next
            && (Agreed(l.log, f.log) < next' - 1 ==> TermAt(l.log, next' - 1) < TermAt(l.log, next - 1))
  {
    hide Matching, Sorted, Agreed, LastUpTo, Step, SendAppend;
    var prev := l.progress[f.id].nextIdx - 1;
    m := Append(l, f, count);
    Sends(l, f, count);
    Refuses(cfg, l, f, m);
    HintSkipsTerm(l.log, f.log, prev);
    var hint := HintOf(f.log, prev, TermAt(l.log, prev));
    f' := f.(leaderId := l.id);
    r := AppendResp(f.id, l.id, f.term, prev, true, hint, TermAt(f.log, hint), f.committed);
    var sent := SendAppend(l, f.id, true, count).node;
    LearnsHint(cfg, sent, f, prev, hint, ProbeOf(l.log, hint, TermAt(f.log, hint)), r);
    l' := Step(cfg, sent, r).node;
  }

  lemma FirstConflict(a: Log, b: Log, n: nat)
    requires WellFormed(a) && WellFormed(b) && Matching(a, b) && Agreed(a, b) + n <= |a|
    ensures var g := Agreed(a, b);
            FindConflict(b, a[g..g + n]) == if n == 0 then 0 else g + 1
  {
    hide Matching, Sorted, Agreed;
    var g := Agreed(a, b);
    if n > 0 {
      assert a[g..g + n][0] == a[g];
      AcceptedIffAgreed(a, b, g + 1);
    }
  }

  lemma Stores(l: Node, f: Node, m: Message)
    requires Probing(l, f) && m.AppendMsg? && m.index == Agreed(l.log, f.log) && m.logTerm == TermAt(l.log, m.index)
    requires m.index + |m.entries| <= |l.log| && m.entries == l.log[m.index..m.index + |m.entries|]
    ensures var last := m.index + |m.entries|;
            var res := MaybeAppend(f.log, f.committed, m.index, m.logTerm, m.commit, m.entries);
            && res.Stored? && res.last == last && f.committed <= res.committed <= |res.log|
            && last <= |res.log| && res.log[..last] == l.log[..last]
  {
    hide Matching, Sorted, Agreed, FindConflict, MaybeAppend;
    FirstConflict(l.log, f.log, |m.entries|);
    TermsAgree(l.log, f.log, m.index);
    StoresLog(l.log, f.log, f.committed, m.index, m.logTerm, m.commit, m.entries);
  }

  lemma StoresLog(a: Log, b: Log, committed: nat, g: nat, term: nat, commit: nat, ents: Log)
    requires committed <= g <= |b| && g + |ents| <= |a| && a[..g] == b[..g] && ents == a[g..g + |ents|]
    requires TermAt(b, g) == term && FindConflict(b, ents) == if ents == [] then 0 else g + 1
    ensures var res := MaybeAppend(b, committed, g, term, commit, ents);
            && res.Stored? && res.last == g + |ents| && committed <= res.committed <= |res.log|
            && g + |ents| <= |res.log| && res.log[..g + |ents|] == a[..g + |ents|]
  {
    hide FindConflict, TermAt;
    if ents != [] {
      assert ents[0..] == ents && b[..g] + ents == a[..g + |ents|];
    }
  }

  /** The round at the largest agreed index: the follower stores what it is sent and then agrees with the leader. */
  lemma AcceptedRound(cfg: JointConfig, l: Node, f: Node, count: nat) returns (m: Message, r: Message, f': Node)
    requires Probing(l, f) && Agreed(l.log, f.log) + 1 == l.progress[f.id].nextIdx
    ensures SendAppend(l, f.id, true, count).Done? && SendAppend(l, f.id, true, count).out == {m}
    ensures Step(cfg, f, m) == Done(f', {r}) && m.AppendMsg? && r.AppendResp? && !r.reject
    ensures r.index == Agreed(l.log, f.log) + |m.entries| <= |f'.log| && r.index <= |l.log|
    ensures f'.log[..r.index] == l.log[..r.index] && f.committed <= f'.committed
  {
    hide Matching, Sorted, Agreed, LastUpTo, SendAppend, MaybeAppend;
    m := Append(l, f, count);
    Sends(l, f, count);
    Stores(l, f, m);
    f' := Step(cfg, f, m).node;
    r := AppendResp(f.id, l.id, f.term, m.index + |m.entries|, false, 0, 0, f'.committed);
  }

  // The whole exchange ----------------------------------------------------------------------------

  ghost predicate Exchanges(cfg: JointConfig, l: Node, f: Node, l': Node, f': Node) {
    exists count, m, r :: Round(cfg, l, f, count, m, r, l', f')
  }

  /** Any number of rounds, one after the other, with nothing in between. */
  ghost predicate Rounds(cfg: JointConfig, ls: seq<Node>, fs: seq<Node>) {
    && |ls| == |fs| > 0
    && forall k :: 0 <= k < |ls| - 1 ==> Exchanges(cfg, ls[k], fs[k], ls[k + 1], fs[k + 1])
  }

  /** The terms of the leader's entries after `lo` and up to `hi`. */
  ghost function TermsBetween(a: Log, lo: nat, hi: nat): set<nat>
    requires hi <= |a|
  {
    set i | lo < i <= hi :: TermAt(a, i)
  }

  lemma RoundUnique(cfg: JointConfig, l: Node, f: Node, count: nat, m: Message, r: Message, l': Node, f': Node,
                    m2: Message, r2: Message, l2: Node, f2: Node)
    requires Round(cfg, l, f, count, m, r, l', f') && Round(cfg, l, f, count, m2, r2, l2, f2)
    ensures m == m2 && r == r2 && l' == l2 && f' == f2
  {
    hide SendAppend, Step;
    assert m in SendAppend(l, f.id, true, count).out;
    assert r in Step(cfg, f, m).out;
  }

  lemma FewerTerms(a: Log, g: nat, hi: nat, lo: nat)
    requires WellFormed(a) && g <= lo < hi <= |a| && (g < lo ==> TermAt(a, lo) < TermAt(a, hi))
    ensures |TermsBetween(a, g, lo)| < |TermsBetween(a, g, hi)|
  {
    var x, y := TermsBetween(a, g, lo), TermsBetween(a, g, hi);
    assert TermAt(a, hi) in y;
    assert TermAt(a, hi) !in x by {
      if TermAt(a, hi) in x {
        var i :| g < i <= lo && TermAt(a, i) == TermAt(a, hi);
        TermsGrow(a, i, lo);
        assert false;
      }
    }
    assert x <= y - {TermAt(a, hi)};
    SubsetSize(x, y - {TermAt(a, hi)});
  }

  /**
   Probing ends at exactly the largest agreed index, after no more rounds than the leader has terms in the part
   where the logs differ, and without changing either log.
   */
  lemma {:induction false} ProbingEnds(cfg: JointConfig, ls: seq<Node>, fs: seq<Node>) returns (k: nat)
    requires Rounds(cfg, ls, fs) && Probing(ls[0], fs[0])
    requires var l, f := ls[0], fs[0];
             |ls| > |TermsBetween(l.log, Agreed(l.log, f.log), l.progress[f.id].nextIdx - 1)|
    ensures var l, f := ls[0], fs[0];
            && k <= |TermsBetween(l.log, Agreed(l.log, f.log), l.progress[f.id].nextIdx - 1)| && k < |ls|
            && ls[k].log == l.log && fs[k].log == f.log && Probing(ls[k], fs[k]) && fs[k].id == f.id
            && ls[k].progress[f.id].nextIdx == Agreed(l.log, f.log) + 1
    decreases |ls|
  {
    hide Round, Probing, Agreed, WellFormed;
    var l, f := ls[0], fs[0];
    var g := Agreed(l.log, f.log);
    ProbingParts(l, f);
    var prev := l.progress[f.id].nextIdx - 1;
    if prev == g {
      k := 0;
    } else {
      assert TermAt(l.log, prev) in TermsBetween(l.log, g, prev);
      assert Exchanges(cfg, ls[0], fs[0], ls[0 + 1], fs[0 + 1]);
      var count, m, r :| Round(cfg, l, f, count, m, r, ls[1], fs[1]);
      var m2, r2, l2, f2 := RefusedRound(cfg, l, f, count);
      RoundUnique(cfg, l, f, count, m, r, ls[1], fs[1], m2, r2, l2, f2);
      ProbingParts(l2, f2);
      FewerTerms(l.log, g, prev, l2.progress[f.id].nextIdx - 1);
      assert Rounds(cfg, ls[1..], fs[1..]) by {
        forall i | 0 <= i < |ls[1..]| - 1
          ensures Exchanges(cfg, ls[1..][i], fs[1..][i], ls[1..][i + 1], fs[1..][i + 1])
        {
          assert Exchanges(cfg, ls[i + 1], fs[i + 1], ls[i + 1 + 1], fs[i + 1 + 1]);
        }
      }
      var j := ProbingEnds(cfg, ls[1..], fs[1..]);
      k := j + 1;
    }
  }

  lemma ProbingParts(l: Node, f: Node)
    requires Probing(l, f)
    ensures f.id in l.progress && Agreed(l.log, f.log) < l.progress[f.id].nextIdx <= |l.log| + 1
    ensures WellFormed(l.log)
  {
  }
}
