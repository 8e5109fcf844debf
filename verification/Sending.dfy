/** How a leader fills a follower's window: maybe_send_append and send_append_aggressively in src/raft.rs. */
module Sending {
  import opened Options
  import opened Quorum
  import opened LogModel
  import opened Numbers
  import opened LogPages
  import opened RaftNode
  import opened Backtrack
  import M = ProgressModel
  import opened PeerProgress

  /** What a sender needs to know of its leader. Batching is off and the log reaches back to index 1. */
  datatype Sender = Sender(id: NodeId, term: nat, log: Log, committed: nat, max: Option<nat>, bytes: Sizes)

  /** The next entries for a peer, cut to the message size. */
  function Due(s: Sender, next: nat): (es: Log)
    requires 1 <= next
    ensures es == [] <==> next > |s.log|
    ensures next - 1 + |es| <= |s.log| || es == []
    ensures es != [] ==> es == s.log[next - 1..next - 1 + |es|]
  {
    if next > |s.log| then [] else LimitSize(s.log[next - 1..], s.max, s.bytes)
  }

  /** maybe_send_append (src/raft.rs:801-859) for a peer that did not ask for a snapshot. */
  method MaybeSendAppend(s: Sender, to: NodeId, pr: Progress, allowEmpty: bool) returns (m: Option<Message>)
    requires WellFormed(s.log)
    requires pr.Valid() && 1 <= pr.nextIdx && pr.pendingRequestSnapshot == M.INVALID_INDEX
    modifies pr, pr.ins
    ensures pr.Valid()
    ensures m.None? <==> old(pr.IsPaused()) || (!allowEmpty && old(pr.nextIdx) > |s.log|)
    ensures m.None? ==> pr.View() == old(pr.View())
    ensures m.Some? ==>
              var es := Due(s, old(pr.nextIdx));
              && m.value == AppendMsg(s.id, to, s.term, old(pr.nextIdx) - 1, TermAt(s.log, old(pr.nextIdx) - 1), es,
                                      s.committed)
              && pr.View() == if es == [] then old(pr.View())
                              else old(pr.View()).UpdateState(old(pr.nextIdx) - 1 + |es|)
  {
    if pr.IsPaused() {
      return None;
    }
    var es := Due(s, pr.nextIdx);
    if !allowEmpty && es == [] {
      return None;
    }
    var prev := pr.nextIdx - 1;
    m := Some(AppendMsg(s.id, to, s.term, prev, TermAt(s.log, prev), es, s.committed));
    if es != [] {
      pr.UpdateState(es[|es| - 1].index);
    }
  }

  /** Each message carries the log segment that starts where the one before it ended, anchored at the entry before. */
  ghost predicate Contiguous(s: Sender, to: NodeId, from: nat, ms: seq<Message>, end: nat)
    decreases |ms|
  {
    if ms == [] then from == end
    else
      var m := ms[|ms| - 1];
      && m.AppendMsg? && m.to == to && m.term == s.term && m.entries != [] && m.index + |m.entries| == end <= |s.log|
      && m.entries == s.log[m.index..end] && m.logTerm == TermAt(s.log, m.index)
      && Contiguous(s, to, from, ms[..|ms| - 1], m.index)
  }

  lemma ContiguousNext(s: Sender, to: NodeId, from: nat, ms: seq<Message>, end: nat, m: Message)
    requires Contiguous(s, to, from, ms, end)
    requires m.AppendMsg? && m.to == to && m.term == s.term && m.index == end && m.entries != []
    requires end + |m.entries| <= |s.log| && m.entries == s.log[end..end + |m.entries|]
    requires m.logTerm == TermAt(s.log, end)
    ensures Contiguous(s, to, from, ms + [m], end + |m.entries|)
  {
    assert (ms + [m])[..|ms|] == ms;
  }

  function Carried(ms: seq<Message>): Log {
    if ms == [] then []
    else Carried(ms[..|ms| - 1]) + (if ms[|ms| - 1].AppendMsg? then ms[|ms| - 1].entries else [])
  }

  /** Put together, the messages carry exactly the entries from the old next index to the new one. */
  lemma {:induction false} CarriesSegment(s: Sender, to: NodeId, from: nat, ms: seq<Message>, end: nat)
    requires Contiguous(s, to, from, ms, end)
    ensures from <= end && (ms != [] ==> end <= |s.log| && Carried(ms) == s.log[from..end])
    decreases |ms|
  {
    if ms != [] {
      var n := |ms| - 1;
      CarriesSegment(s, to, from, ms[..n], ms[n].index);
      assert s.log[from..end] == s.log[from..ms[n].index] + s.log[ms[n].index..end];
    }
  }

  /** What the messages of one burst did to a peer that replicates. */
  ghost predicate Filled(s: Sender, to: NodeId, before: M.Progress, ms: seq<Message>, after: M.Progress) {
    && after == before.(nextIdx := after.nextIdx, ins := after.ins) && 1 <= before.nextIdx && 1 <= after.nextIdx
    && Contiguous(s, to, before.nextIdx - 1, ms, after.nextIdx - 1)
    && |after.ins.items| == |before.ins.items| + |ms| && after.ins.cap == before.ins.cap
  }

  lemma FilledMore(s: Sender, to: NodeId, before: M.Progress, ms: seq<Message>, p: M.Progress, m: Message)
    requires WellFormed(s.log) && Filled(s, to, before, ms, p) && p.state == M.Replicate && p.nextIdx <= |s.log|
    requires var es := Due(s, p.nextIdx);
             m == AppendMsg(s.id, to, s.term, p.nextIdx - 1, TermAt(s.log, p.nextIdx - 1), es, s.committed)
    ensures Filled(s, to, before, ms + [m], p.UpdateState(p.nextIdx - 1 + |m.entries|))
  {
    hide Contiguous, Due, TermAt;
    ContiguousNext(s, to, before.nextIdx - 1, ms, p.nextIdx - 1, m);
  }

  /**
   send_append_aggressively (src/raft.rs:790-794). It ends. A replicating peer is sent consecutive segments until its
   window is full or the log is sent, and the window is never overfilled. A probed peer gets at most one message and
   is paused by it; a peer that waits for a snapshot gets none.
   */
  method SendAggressively(s: Sender, to: NodeId, pr: Progress) returns (ms: seq<Message>)
    requires WellFormed(s.log)
    requires pr.Valid() && 1 <= pr.nextIdx && pr.pendingRequestSnapshot == M.INVALID_INDEX
    modifies pr, pr.ins
    ensures pr.Valid()
    ensures pr.IsPaused() || pr.nextIdx > |s.log|
    ensures old(pr.state) == M.Replicate ==> Filled(s, to, old(pr.View()), ms, pr.View()) && pr.ins.count <= pr.ins.cap
    ensures old(pr.state) != M.Replicate ==>
              && |ms| == (if old(pr.IsPaused()) || old(pr.nextIdx) > |s.log| then 0 else 1)
              && pr.View() == if ms == [] then old(pr.View()) else old(pr.View()).Pause()
  {
    ms := [];
    while true
      invariant pr.Valid() && pr.state == old(pr.state) && 1 <= pr.nextIdx
      invariant pr.pendingRequestSnapshot == M.INVALID_INDEX
      invariant pr.state == M.Replicate ==> Filled(s, to, old(pr.View()), ms, pr.View())
      invariant pr.state != M.Replicate ==>
                  && |ms| <= 1 && (ms != [] ==> !old(pr.IsPaused()) && old(pr.nextIdx) <= |s.log|)
                  && pr.View() == if ms == [] then old(pr.View()) else old(pr.View()).Pause()
      decreases if pr.state == M.Replicate then |s.log| + 1 - pr.nextIdx else 1 - |ms|
    {
      ghost var before := pr.View();
      var m := MaybeSendAppend(s, to, pr, false);
      if m.None? {
        return;
      }
      if pr.state == M.Replicate {
        FilledMore(s, to, old(pr.View()), ms, before, m.value);
      }
      ms := ms + [m.value];
    }
  }

  /** What a sender sends is one of the sends of the cluster model. */
  lemma SendsAsModelled(n: Node, to: NodeId, max: Option<nat>, bytes: Sizes, allowEmpty: bool)
    requires n.role == Leader && to in n.progress && to != n.id && WellFormed(n.log)
    requires var p := n.progress[to]; !p.IsPaused() && p.nextIdx >= 1 && (allowEmpty || p.nextIdx <= |n.log|)
    ensures var s := Sender(n.id, n.term, n.log, n.committed, max, bytes);
            var p := n.progress[to];
            var es := Due(s, p.nextIdx);
            SendAppend(n, to, allowEmpty, |es|)
            == Done(if es == [] then n else SetProgress(n, to, p.UpdateState(p.nextIdx - 1 + |es|)),
                    {AppendMsg(n.id, to, n.term, p.nextIdx - 1, TermAt(n.log, p.nextIdx - 1), es, n.committed)})
  {
    var s := Sender(n.id, n.term, n.log, n.committed, max, bytes);
    var next := n.progress[to].nextIdx;
    var es := Due(s, next);
    hide LimitSize, Sorted;
    if es != [] {
      var due := n.log[next - 1..];
      assert due[..Min(|es|, |due|)] == es;
      assert es[|es| - 1].index == next - 1 + |es|;
    }
  }
}
