/** Steps of leaders: progress, commits, appends and sends. */
module ClusterLeader {
  import opened Options
  import opened Quorum
  import opened LogModel
  import opened Numbers
  import opened ReadOnlyModel
  import opened ProgressModel
  import opened CommittedIndex
  import opened RaftNode
  import opened Ledger
  import opened LedgerActions
  import opened Cluster
  import opened ClusterFrame
  import opened ClusterFollower
  import opened ClusterElection

  // Progress --------------------------------------------------------------------------------------

  /** A leader's bookkeeping about a peer may change freely within what the peer has acknowledged. */
  lemma PeersNode(ids: set<NodeId>, l: Ledger, asked: Asked, n: Node, n': Node)
    requires NodeOk(ids, l, asked, n) && n.role == Leader
    requires n' == n.(progress := n'.progress, groupCommit := n'.groupCommit)
    requires n'.progress.Keys == n.progress.Keys && forall j <- n'.progress :: PeerOk(l, n', j)
    ensures NodeOk(ids, l, asked, n')
  {
    hide Settled, PeerOk;
    QueueFrame(asked, n, n');
  }

  lemma QueueFrame(asked: Asked, n: Node, n': Node)
    requires QueueOk(asked, n) && n'.readOnly == n.readOnly && n'.term == n.term
    requires OwnCommitted(n) <= OwnCommitted(n')
    ensures QueueOk(asked, n')
  {
    hide ReadOnly.Valid, Nested, ReadOk;
    forall c <- n'.readOnly.pending
      ensures QueuedOk(asked, n', c)
    {
      assert QueuedOk(asked, n, c);
    }
    assert n'.readOnly.Valid();
  }

  lemma OnePeerNode(ids: set<NodeId>, l: Ledger, asked: Asked, n: Node, j: NodeId, p: Progress)
    requires NodeOk(ids, l, asked, n) && n.role == Leader && j in n.progress
    requires PeerOk(l, SetProgress(n, j, p), j)
    ensures NodeOk(ids, l, asked, SetProgress(n, j, p))
  {
    hide Settled;
    var n' := SetProgress(n, j, p);
    assert n'.progress.Keys == n.progress.Keys;
    forall x <- n'.progress
      ensures PeerOk(l, n', x)
    {
      assert PeerOk(l, n, x);
    }
    hide NodeOk;
    PeersNode(ids, l, asked, n, n');
  }

  lemma LeaderParts(ids: set<NodeId>, l: Ledger, asked: Asked, n: Node)
    requires NodeOk(ids, l, asked, n) && n.role == Leader
    ensures n.id in n.progress && n.progress.Keys == ids && n.id in ids && n.term >= 1
    ensures n.term in l.reign && l.reign[n.term] == Reign(n.id, n.log, OwnCommitted(n))
    ensures n.id in l.term && n.id in l.log && l.term[n.id] == n.term && l.log[n.id] == n.log
    ensures forall j <- n.progress :: PeerOk(l, n, j)
    ensures n.committed <= |n.log|
    ensures n.vote == n.id && n.id != INVALID_ID && (n.id, n.term) in l.vote && l.vote[(n.id, n.term)] == n.id
    ensures QueueOk(asked, n) && Settled(l, n.log, n.committed)
  {
    hide Settled, QueueOk;
  }

  // Committing ------------------------------------------------------------------------------------

  lemma MatchedQuorum(cfg: JointConfig, l: Ledger, n: Node, c: nat)
    requires c >= 1 && c <= JointIndex(cfg, n.groupCommit, MatchedIndexes(n)).0
    requires cfg.Ids() <= l.term.Keys
    requires forall j <- n.progress :: n.progress[j].matched <= Acked(l, j, n.term)
    ensures IsQuorum(cfg, AckedBy(l, n.term, c))
  {
    hide IsQuorum, JointIndex;
    var acks := MatchedIndexes(n);
    forall v | v in cfg.Ids() && AckOf(acks, v).index >= JointIndex(cfg, n.groupCommit, acks).0
      ensures v in AckedBy(l, n.term, c)
    {
    }
    JointIndexAcked(cfg, n.groupCommit, acks, AckedBy(l, n.term, c));
  }

  lemma MayCommitNow(cfg: JointConfig, ids: set<NodeId>, l: Ledger, asked: Asked, n: Node)
    requires Ready(cfg, ids, l, asked, n) && n.role == Leader
    requires var c := JointIndex(cfg, n.groupCommit, MatchedIndexes(n)).0;
             c > n.committed && TermAt(n.log, c) == n.term
    ensures MayCommit(cfg, l, n.term, JointIndex(cfg, n.groupCommit, MatchedIndexes(n)).0)
  {
    hide JointIndex, Inv, RecordOk, IsQuorum, NodeOk, QueueOk;
    LeaderParts(ids, l, asked, n);
    MatchedQuorum(cfg, l, n, JointIndex(cfg, n.groupCommit, MatchedIndexes(n)).0);
  }

  function WithCommit(n: Node, c: nat): Node
    requires n.id in n.progress
  {
    n.(committed := c, progress := n.progress[n.id := n.progress[n.id].UpdateCommitted(c)])
  }

  lemma ObserveLeaderCommit(ids: set<NodeId>, l: Ledger, asked: Asked, n: Node, c: nat)
    requires NodeOk(ids, l, asked, n) && n.role == Leader && n.id in n.progress
    requires 1 <= c && TermAt(n.log, c) == n.term && n.term in l.reign
    ensures Observe(l, n, WithCommit(n, c), {}) == Commit(l, n.term, c)
  {
    hide Settled, QueueOk;
    assert l.term[n.id := n.term] == l.term;
    assert l.log[n.id := n.log] == l.log;
    assert l.vote[(n.id, n.term) := n.vote] == l.vote;
    assert PeerOk(l, n, n.id);
  }

  lemma CommitPeers(l: Ledger, k: Ledger, n: Node, c: nat)
    requires n.id in n.progress && k.acked == l.acked
    requires forall j <- n.progress :: PeerOk(l, n, j)
    ensures forall j <- WithCommit(n, c).progress :: PeerOk(k, WithCommit(n, c), j)
  {
    forall j <- WithCommit(n, c).progress
      ensures PeerOk(k, WithCommit(n, c), j)
    {
      assert PeerOk(l, n, j);
    }
  }

  lemma LeaderCommitNode(ids: set<NodeId>, l: Ledger, asked: Asked, n: Node, c: nat)
    requires NodeOk(ids, l, asked, n) && n.role == Leader && n.id in n.progress && n.term in l.reign
    requires n.committed < c <= |n.log| && TermAt(n.log, c) == n.term && Grows(l, Commit(l, n.term, c))
    ensures NodeOk(ids, Commit(l, n.term, c), asked, WithCommit(n, c))
  {
    hide QueueOk, Grows, PeerOk;
    var k, n' := Commit(l, n.term, c), WithCommit(n, c);
    CommitPeers(l, k, n, c);
    QueueFrame(asked, n, n');
    assert n.term in k.reign && c <= k.reign[n.term].committed && Holds(k, n.term, c, n'.log);
    assert n'.progress.Keys == n.progress.Keys;
    var a := Acked(l, n.id, n.term);
    assert Holds(l, n.term, a, n.log) ==> Holds(k, n.term, a, n.log);
  }

  /** A leader commits only what a quorum acknowledged in its own term. */
  lemma MaybeCommitOk(cfg: JointConfig, ids: set<NodeId>, l: Ledger, asked: Asked, n: Node)
    requires Ready(cfg, ids, l, asked, n) && n.role == Leader
    ensures var d := MaybeCommit(cfg, n); d.Done? && StepOk(cfg, ids, l, asked, n, d.node, d.out)
  {
    hide NodeOk, Inv, RecordOk, JointIndex, Observe, Grows, QueueOk, PeerOk, OwnCommitted, WithCommit, Settled;
    LeaderParts(ids, l, asked, n);
    var c := JointIndex(cfg, n.groupCommit, MatchedIndexes(n)).0;
    if c > n.committed && TermAt(n.log, c) == n.term {
      MayCommitNow(cfg, ids, l, asked, n);
      CommitKeeps(cfg, l, n.term, c);
      LeaderCommitNode(ids, l, asked, n, c);
      ObserveLeaderCommit(ids, l, asked, n, c);
      assert MaybeCommit(cfg, n) == Done(WithCommit(n, c), {}) by { CommitShape(cfg, n, c); }
      assert WithCommit(n, c).id == n.id by { WithCommitId(n, c); }
    } else {
      QuietOk(cfg, ids, l, asked, n, n, {});
    }
  }

  lemma WithCommitId(n: Node, c: nat)
    requires n.id in n.progress
    ensures WithCommit(n, c).id == n.id
  {
  }

  lemma CommitShape(cfg: JointConfig, n: Node, c: nat)
    requires n.id in n.progress && c == JointIndex(cfg, n.groupCommit, MatchedIndexes(n)).0
    requires n.committed < c <= |n.log| && TermAt(n.log, c) == n.term
    ensures MaybeCommit(cfg, n) == Done(WithCommit(n, c), {})
  {
    hide JointIndex;
  }

  // Responses from followers ----------------------------------------------------------------------

  lemma UpdatePeer(l: Ledger, n: Node, j: NodeId, index: nat, commit: nat)
    requires j in n.progress && PeerOk(l, n, j) && index <= Acked(l, j, n.term)
    ensures var pr := n.progress[j].(recentActive := true).UpdateCommitted(commit);
            var (p, news) := pr.MaybeUpdate(index);
            PeerOk(l, SetProgress(n, j, p), j)
  {
  }

  lemma AfterUpdatePeer(l: Ledger, n: Node, j: NodeId, p: Progress, index: nat)
    requires j in n.progress && PeerOk(l, SetProgress(n, j, p), j)
    ensures PeerOk(l, SetProgress(n, j, AfterUpdate(p, index)), j)
  {
    var q := AfterUpdate(p, index);
    assert q.matched == p.matched && q.pendingRequestSnapshot == p.pendingRequestSnapshot && q.state != Snapshot;
    assert q.nextIdx == p.nextIdx || q.nextIdx == p.matched + 1;
  }

  lemma DecrPeer(l: Ledger, n: Node, j: NodeId, rejected: nat, hint: nat, commit: nat)
    requires j in n.progress && PeerOk(l, n, j)
    ensures var pr := n.progress[j].(recentActive := true).UpdateCommitted(commit);
            var (p, current) := pr.MaybeDecrTo(rejected, hint, INVALID_INDEX);
            PeerOk(l, SetProgress(n, j, p), j)
            && (p.state == Replicate ==> PeerOk(l, SetProgress(n, j, p.BecomeProbe()), j))
  {
  }

  lemma HandleAppendRespOk(cfg: JointConfig, ids: set<NodeId>, l: Ledger, asked: Asked, n: Node, m: Message)
    requires Ready(cfg, ids, l, asked, n) && MsgOk(ids, l, asked, m) && n.role == Leader
    requires m.AppendResp? && m.term == n.term
    ensures var d := HandleAppendResp(cfg, n, m); d.Done? && StepOk(cfg, ids, l, asked, n, d.node, d.out)
  {
    hide NodeOk, Inv, RecordOk, StepOk, MaybeCommit, PeerOk, QueueOk, LastUpTo, OwnCommitted, Settled;
    LeaderParts(ids, l, asked, n);
    if m.from in n.progress {
      var pr := n.progress[m.from].(recentActive := true).UpdateCommitted(m.commit);
      if m.reject {
        var probe := if m.logTerm > 0 then LastUpTo(n.log, m.rejectHint, m.logTerm) else m.rejectHint;
        var (p, current) := pr.MaybeDecrTo(m.index, probe, INVALID_INDEX);
        var q := if current && p.state == Replicate then p.BecomeProbe() else p;
        DecrPeer(l, n, m.from, m.index, probe, m.commit);
        OnePeerNode(ids, l, asked, n, m.from, q);
        QuietOk(cfg, ids, l, asked, n, SetProgress(n, m.from, q), {});
      } else {
        var (p, news) := pr.MaybeUpdate(m.index);
        UpdatePeer(l, n, m.from, m.index, m.commit);
        AfterUpdatePeer(l, n, m.from, p, m.index);
        var q := if news then AfterUpdate(p, m.index) else p;
        OnePeerNode(ids, l, asked, n, m.from, q);
        var r := SetProgress(n, m.from, q);
        if news {
          MaybeCommitOk(cfg, ids, l, asked, r);
          var d := MaybeCommit(cfg, r);
          SameStart(cfg, ids, l, asked, n, r, d.node, d.out);
        } else {
          QuietOk(cfg, ids, l, asked, n, r, {});
        }
      }
    } else {
      QuietOk(cfg, ids, l, asked, n, n, {});
    }
  }

  // Persisting its own entries --------------------------------------------------------------------

  /** The leader's own acknowledgement of its whole log. */
  lemma SelfAck(cfg: JointConfig, ids: set<NodeId>, l: Ledger, asked: Asked, n: Node, upTo: nat)
    requires Ready(cfg, ids, l, asked, n) && n.role == Leader && upTo <= |n.log|
    ensures MayAccept(l, n.id, n.term, upTo)
    ensures var k := Accept(l, n.id, n.term, upTo);
            && Inv(cfg, k) && Grows(l, k) && k.log == l.log && k.term == l.term && k.vote == l.vote
            && k.reign == l.reign && k.campaign == l.campaign && upTo <= Acked(k, n.id, n.term)
            && Acked(k, n.id, n.term) <= |n.log|
  {
    hide NodeOk, Inv, RecordOk, Grows, QueueOk, PeerOk, Settled;
    AckedWithin(ids, l, asked, n);
    LeaderParts(ids, l, asked, n);
    AcceptKeeps(cfg, l, n.id, n.term, upTo);
    assert n.log[..upTo] <= n.log;
    assert l.log[n.id := n.log] == l.log;
  }

  lemma AckedWithin(ids: set<NodeId>, l: Ledger, asked: Asked, n: Node)
    requires NodeOk(ids, l, asked, n)
    ensures Acked(l, n.id, n.term) <= |n.log|
  {
  }

  lemma SelfAckNode(ids: set<NodeId>, l: Ledger, asked: Asked, n: Node, k: Ledger)
    requires NodeOk(ids, l, asked, n) && n.role == Leader && Grows(l, k)
    requires k.log == l.log && k.term == l.term && k.vote == l.vote && k.reign == l.reign
    requires Acked(k, n.id, n.term) <= |n.log|
    ensures NodeOk(ids, k, asked, n)
  {
    hide QueueOk, Grows;
    SettledGrows(l, k, n.log, n.log, n.committed);
    assert Holds(k, n.term, Acked(k, n.id, n.term), n.log);
    forall j <- n.progress
      ensures PeerOk(k, n, j)
    {
      assert PeerOk(l, n, j);
      AckGrows(l, k, j, n.term);
    }
  }

  lemma AckGrows(l: Ledger, k: Ledger, j: NodeId, t: nat)
    requires Grows(l, k)
    ensures Acked(l, j, t) <= Acked(k, j, t)
  {
  }

  lemma SelfAckReady(cfg: JointConfig, ids: set<NodeId>, l: Ledger, asked: Asked, n: Node, upTo: nat)
    requires Ready(cfg, ids, l, asked, n) && n.role == Leader && upTo <= |n.log|
    ensures MayAccept(l, n.id, n.term, upTo)
    ensures var k := Accept(l, n.id, n.term, upTo);
            Ready(cfg, ids, k, asked, n) && Grows(l, k) && upTo <= Acked(k, n.id, n.term)
  {
    hide Inv, RecordOk, Grows, QueueOk, PeerOk, Settled;
    SelfAck(cfg, ids, l, asked, n, upTo);
    var k := Accept(l, n.id, n.term, upTo);
    SelfAckNode(ids, l, asked, n, k);
    KeepRecords(cfg, l, k, asked, asked);
  }

  /** Acknowledging part of its own log and then acting is one step. */
  lemma ObserveSelfAck(l: Ledger, n: Node, r: Node, n': Node, out: set<Message>, upTo: nat)
    requires MayAccept(l, n.id, n.term, upTo) && l.log[n.id] == n.log && l.reign[n.term].log == n.log
    requires r.id == n.id && r.term == n.term && r.log == n.log
    requires n'.role == Leader && n'.term == n.term && n.id in n'.progress && n'.progress[n.id].matched == upTo
    ensures Observe(Accept(l, n.id, n.term, upTo), r, n', out) == Observe(l, n, n', out)
  {
    var k := Accept(l, n.id, n.term, upTo);
    assert n.log[..upTo] <= n.log;
    assert k.log == l.log[n.id := n.log];
    assert k.log[n.id := n'.log] == l.log[n.id := n'.log];
  }

  lemma CommitKeepsMatched(cfg: JointConfig, n: Node)
    requires n.id in n.progress
    ensures var d := MaybeCommit(cfg, n);
            d.Done? ==> d.node.role == n.role && d.node.term == n.term && n.id in d.node.progress
                        && d.node.progress[n.id].matched == n.progress[n.id].matched
  {
    hide JointIndex;
  }

  lemma SelfPeer(l: Ledger, n: Node, upTo: nat)
    requires n.id in n.progress && PeerOk(l, n, n.id) && upTo <= Acked(l, n.id, n.term)
    ensures PeerOk(l, SetProgress(n, n.id, n.progress[n.id].MaybeUpdate(upTo).0), n.id)
  {
  }

  /** on_persist_entries: the leader counts itself, and may commit. */
  lemma PersistedOk(cfg: JointConfig, ids: set<NodeId>, l: Ledger, asked: Asked, n: Node, upTo: nat, ofTerm: nat)
    requires Ready(cfg, ids, l, asked, n)
    ensures var d := Persisted(cfg, n, upTo, ofTerm); d.Done? && StepOk(cfg, ids, l, asked, n, d.node, d.out)
  {
    hide NodeOk, Inv, RecordOk, StepOk, MaybeCommit, PeerOk, QueueOk, Observe, Grows, OwnCommitted, Settled, TermAt;
    if !IsNotice(n, upTo, ofTerm) {
      QuietOk(cfg, ids, l, asked, n, n, {});
      return;
    }
    if n.role != Leader {
      PersistedNode(ids, l, asked, n, upTo);
      QuietOk(cfg, ids, l, asked, n, n.(persisted := upTo), {});
    } else {
      LeaderParts(ids, l, asked, n);
      SelfAckReady(cfg, ids, l, asked, n, upTo);
      var k := Accept(l, n.id, n.term, upTo);
      var (p, news) := n.progress[n.id].MaybeUpdate(upTo);
      if news {
        LeaderParts(ids, k, asked, n);
        SelfPeer(k, n, upTo);
        OnePeerNode(ids, k, asked, n, n.id, p);
        PersistedNode(ids, k, asked, SetProgress(n, n.id, p), upTo);
        var r := SetProgress(n, n.id, p).(persisted := upTo);
        MaybeCommitOk(cfg, ids, k, asked, r);
        CommitKeepsMatched(cfg, r);
        var d := MaybeCommit(cfg, r);
        ObserveSelfAck(l, n, r, d.node, d.out, upTo);
        StepAfter(cfg, ids, l, k, asked, n, r, d.node, d.out);
      } else {
        OldSelfPeer(l, n, upTo);
        OnePeerNode(ids, l, asked, n, n.id, p);
        PersistedNode(ids, l, asked, SetProgress(n, n.id, p), upTo);
        QuietOk(cfg, ids, l, asked, n, SetProgress(n, n.id, p).(persisted := upTo), {});
      }
    }
  }

  lemma PersistedNode(ids: set<NodeId>, l: Ledger, asked: Asked, n: Node, upTo: nat)
    requires NodeOk(ids, l, asked, n) && upTo <= |n.log|
    ensures NodeOk(ids, l, asked, n.(persisted := upTo))
  {
    hide Settled, LeaderOk;
    if n.role == Leader {
      PersistedLeader(l, asked, n, upTo);
    }
  }

  lemma PersistedLeader(l: Ledger, asked: Asked, n: Node, upTo: nat)
    requires LeaderOk(l, asked, n)
    ensures LeaderOk(l, asked, n.(persisted := upTo))
  {
    hide QueueOk;
    var n' := n.(persisted := upTo);
    QueueFrame(asked, n, n');
    forall j <- n'.progress
      ensures PeerOk(l, n', j)
    {
      assert PeerOk(l, n, j);
    }
  }

  lemma OldSelfPeer(l: Ledger, n: Node, upTo: nat)
    requires n.id in n.progress && PeerOk(l, n, n.id) && n.progress[n.id].matched >= upTo
    ensures PeerOk(l, SetProgress(n, n.id, n.progress[n.id].MaybeUpdate(upTo).0), n.id)
  {
  }

  lemma StepAfter(cfg: JointConfig, ids: set<NodeId>, l: Ledger, k: Ledger, asked: Asked, n: Node, r: Node,
                  n': Node, out: set<Message>)
    requires Grows(l, k) && r.id == n.id && StepOk(cfg, ids, k, asked, r, n', out)
    requires Observe(k, r, n', out) == Observe(l, n, n', out)
    ensures StepOk(cfg, ids, l, asked, n, n', out)
  {
    hide NodeOk, Inv, Grows, MsgOk, Observe;
    GrowsTransitive(l, k, Observe(l, n, n', out));
  }

  // Proposing -------------------------------------------------------------------------------------

  lemma ObserveAppend(l: Ledger, n: Node, data: seq<int>)
    requires n.id in l.term && l.term[n.id] == n.term && n.role == Leader && n.committed <= |n.log|
    requires n.term in l.reign && l.reign[n.term] == Reign(n.id, n.log, OwnCommitted(n))
    requires n.vote == n.id && n.id != INVALID_ID && (n.id, n.term) in l.vote && l.vote[(n.id, n.term)] == n.id
    requires n.id in n.progress && n.progress[n.id].matched <= Acked(l, n.id, n.term)
    ensures Observe(l, n, AppendEntries(n, data), {}) == Append(l, n.term, NewEntries(n.term, |n.log|, data))
  {
    assert l.term[n.id := n.term] == l.term;
    assert l.vote[(n.id, n.term) := n.id] == l.vote;
    assert OwnCommitted(AppendEntries(n, data)) == OwnCommitted(n);
  }

  lemma AppendNode(ids: set<NodeId>, l: Ledger, asked: Asked, n: Node, data: seq<int>)
    requires NodeOk(ids, l, asked, n) && n.role == Leader
    requires n.term in l.reign && Grows(l, Append(l, n.term, NewEntries(n.term, |n.log|, data)))
    ensures NodeOk(ids, Append(l, n.term, NewEntries(n.term, |n.log|, data)), asked, AppendEntries(n, data))
  {
    hide Grows, Settled;
    var k, n' := Append(l, n.term, NewEntries(n.term, |n.log|, data)), AppendEntries(n, data);
    assert n.log <= n'.log;
    SettledGrows(l, k, n.log, n'.log, n.committed);
    assert OwnCommitted(n') == OwnCommitted(n);
    var a := Acked(l, n.id, n.term);
    assert Holds(k, n.term, a, n'.log);
    forall j <- n'.progress
      ensures PeerOk(k, n', j)
    {
      assert PeerOk(l, n, j);
    }
    QueueFrame(asked, n, n');
  }

  lemma ProposeOk(cfg: JointConfig, ids: set<NodeId>, l: Ledger, asked: Asked, n: Node, data: seq<int>)
    requires Ready(cfg, ids, l, asked, n)
    ensures var d := Propose(n, data);
            && (d.Fatal? <==> n.role == Leader && data == [])
            && (d.Done? ==> StepOk(cfg, ids, l, asked, n, d.node, d.out))
  {
    hide NodeOk, Inv, RecordOk, PeerOk, QueueOk, Observe, Grows, OwnCommitted, Settled;
    if n.role != Leader {
      QuietOk(cfg, ids, l, asked, n, n, {});
    } else if data != [] {
      LeaderParts(ids, l, asked, n);
      var es := NewEntries(n.term, |n.log|, data);
      assert MayAppend(l, n.term, es);
      AppendKeeps(cfg, l, n.term, es);
      AppendNode(ids, l, asked, n, data);
      assert n.progress[n.id].matched <= Acked(l, n.id, n.term) by { PeerMatched(l, n, n.id); }
      ObserveAppend(l, n, data);
    }
  }

  lemma PeerMatched(l: Ledger, n: Node, j: NodeId)
    requires j in n.progress && PeerOk(l, n, j)
    ensures n.progress[j].matched <= Acked(l, j, n.term)
  {
  }

  // Sending ---------------------------------------------------------------------------------------

  lemma SentAnchor(l: Ledger, n: Node, to: NodeId, count: nat)
    requires to in n.progress && PeerOk(l, n, to) && LeaderLog(l, n.term) == n.log
    requires count <= |n.log| && (count > 0 ==> n.progress[to].nextIdx - 1 + count <= |n.log|)
    ensures n.progress[to].nextIdx >= 1
    ensures var i := n.progress[to].nextIdx - 1;
            var ents := if count == 0 then [] else n.log[i..i + count];
            AnchorOk(l, AppendMsg(n.id, to, n.term, i, TermAt(n.log, i), ents, n.committed))
  {
    var i := n.progress[to].nextIdx - 1;
    if count == 0 && i <= |n.log| {
      assert n.log[i..i] == [];
    }
  }

  lemma SentPeer(l: Ledger, n: Node, to: NodeId, last: nat)
    requires to in n.progress && PeerOk(l, n, to) && last <= |n.log|
    requires n.progress[to].state != Snapshot
    ensures PeerOk(l, SetProgress(n, to, n.progress[to].UpdateState(last)), to)
  {
  }

  /** What is due to a peer: the message carries the log from the peer's next index on. */
  function Due(n: Node, to: NodeId, count: nat): nat
    requires to in n.progress
  {
    var next := n.progress[to].nextIdx;
    if next > |n.log| || next == 0 then 0 else Min(if count == 0 then 1 else count, |n.log| + 1 - next)
  }

  lemma SendShape(n: Node, to: NodeId, allowEmpty: bool, count: nat)
    requires n.role == Leader && to in n.progress && to != n.id
    requires n.progress[to].nextIdx >= 1 && n.progress[to].state != Snapshot
    requires forall k :: 0 <= k < |n.log| ==> n.log[k].index == k + 1
    ensures var pr, c := n.progress[to], Due(n, to, count);
            var i := pr.nextIdx - 1;
            var ents := if c == 0 then [] else n.log[i..i + c];
            SendAppend(n, to, allowEmpty, count) ==
              if pr.IsPaused() || (c == 0 && !allowEmpty) then Done(n, {})
              else Done(if c == 0 then n else SetProgress(n, to, pr.UpdateState(i + c)),
                        {AppendMsg(n.id, to, n.term, i, TermAt(n.log, i), ents, n.committed)})
  {
    var pr, c := n.progress[to], Due(n, to, count);
    if pr.nextIdx <= |n.log| {
      var i := pr.nextIdx - 1;
      assert n.log[i..][..c] == n.log[i..i + c];
    }
  }

  lemma SendAppendOk(cfg: JointConfig, ids: set<NodeId>, l: Ledger, asked: Asked, n: Node, to: NodeId,
                     allowEmpty: bool, count: nat)
    requires Ready(cfg, ids, l, asked, n)
    ensures var d := SendAppend(n, to, allowEmpty, count); d.Done? && StepOk(cfg, ids, l, asked, n, d.node, d.out)
  {
    hide NodeOk, Inv, RecordOk, StepOk, PeerOk, QueueOk, OwnCommitted, Settled, AnchorOk, SendAppend, Traced;
    if n.role != Leader || to !in n.progress || to == n.id {
      SendNothing(n, to, allowEmpty, count);
      QuietOk(cfg, ids, l, asked, n, n, {});
    } else {
      LeaderParts(ids, l, asked, n);
      LogTraced(cfg, ids, l, asked, n);
      assert forall k :: 0 <= k < |n.log| ==> n.log[k].index == k + 1 by { TracedIndexes(l, n.log); }
      var pr, c := n.progress[to], Due(n, to, count);
      assert pr.nextIdx >= 1 && pr.state != Snapshot by { PeerParts(l, n, to); }
      SendShape(n, to, allowEmpty, count);
      if !pr.IsPaused() && (c > 0 || allowEmpty) {
        SendOneOk(cfg, ids, l, asked, n, to, c);
      } else {
        QuietOk(cfg, ids, l, asked, n, n, {});
      }
    }
  }

  lemma SendOneOk(cfg: JointConfig, ids: set<NodeId>, l: Ledger, asked: Asked, n: Node, to: NodeId, c: nat)
    requires Ready(cfg, ids, l, asked, n) && n.role == Leader && to in n.progress && to != n.id
    requires n.progress[to].nextIdx >= 1 && n.progress[to].state != Snapshot
    requires c == 0 || n.progress[to].nextIdx - 1 + c <= |n.log|
    ensures var pr := n.progress[to];
            var i := pr.nextIdx - 1;
            var ents := if c == 0 then [] else n.log[i..i + c];
            var m := AppendMsg(n.id, to, n.term, i, TermAt(n.log, i), ents, n.committed);
            StepOk(cfg, ids, l, asked, n, if c == 0 then n else SetProgress(n, to, pr.UpdateState(i + c)), {m})
  {
    hide NodeOk, Inv, RecordOk, StepOk, PeerOk, QueueOk, OwnCommitted, Settled, AnchorOk, Traced;
    LeaderParts(ids, l, asked, n);
    var pr := n.progress[to];
    var i := pr.nextIdx - 1;
    SentAnchor(l, n, to, c);
    var m := AppendMsg(n.id, to, n.term, i, TermAt(n.log, i), if c == 0 then [] else n.log[i..i + c], n.committed);
    if c > 0 {
      SentPeer(l, n, to, i + c);
      OnePeerNode(ids, l, asked, n, to, pr.UpdateState(i + c));
    }
    QuietOk(cfg, ids, l, asked, n, if c == 0 then n else SetProgress(n, to, pr.UpdateState(i + c)), {m});
  }

  lemma SendNothing(n: Node, to: NodeId, allowEmpty: bool, count: nat)
    requires n.role != Leader || to !in n.progress || to == n.id
    ensures SendAppend(n, to, allowEmpty, count) == Done(n, {})
  {
  }

  lemma TracedIndexes(l: Ledger, lg: Log)
    requires Traced(l, lg)
    ensures forall k :: 0 <= k < |lg| ==> lg[k].index == k + 1
  {
  }

  lemma PeerParts(l: Ledger, n: Node, j: NodeId)
    requires j in n.progress && PeerOk(l, n, j)
    ensures n.progress[j].nextIdx >= 1 && n.progress[j].state != Snapshot
  {
  }

  lemma HeartbeatSentOk(ids: set<NodeId>, l: Ledger, asked: Asked, n: Node, to: NodeId, ctx: Option<Ctx>)
    requires NodeOk(ids, l, asked, n) && n.role == Leader && to in n.progress && to != n.id
    requires ctx.Some? ==> ctx.value in n.readOnly.queue
    ensures MsgOk(ids, l, asked, Heartbeat(n.id, to, n.term, Min(n.progress[to].matched, n.committed), ctx))
  {
    hide Settled;
    assert PeerOk(l, n, to);
    SettledLess(l, n.log, n.committed, Min(n.progress[to].matched, n.committed));
    if ctx.Some? {
      assert QueuedOk(asked, n, ctx.value);
    }
  }

  lemma SendHeartbeatOk(cfg: JointConfig, ids: set<NodeId>, l: Ledger, asked: Asked, n: Node, to: NodeId,
                        ctx: Option<Ctx>)
    requires Ready(cfg, ids, l, asked, n)
    ensures var d := SendHeartbeat(n, to, ctx); d.Done? && StepOk(cfg, ids, l, asked, n, d.node, d.out)
  {
    hide NodeOk, Inv, RecordOk, StepOk, MsgOk;
    var d := SendHeartbeat(n, to, ctx);
    if d.out != {} {
      HeartbeatSentOk(ids, l, asked, n, to, ctx);
    }
    QuietOk(cfg, ids, l, asked, n, n, d.out);
  }

  /** Groups may change freely. */
  ghost predicate Regrouped(n: Node, r: Node) {
    && r == n.(groupCommit := r.groupCommit, progress := r.progress) && r.progress.Keys == n.progress.Keys
    && forall j <- n.progress :: r.progress[j] == n.progress[j].(group := r.progress[j].group)
  }

  lemma RegroupedNode(ids: set<NodeId>, l: Ledger, asked: Asked, n: Node, r: Node)
    requires NodeOk(ids, l, asked, n) && Regrouped(n, r)
    ensures NodeOk(ids, l, asked, r)
  {
    hide Settled, QueueOk, NodeOk;
    if n.role == Leader {
      LeaderParts(ids, l, asked, n);
      forall j <- r.progress
        ensures PeerOk(l, r, j)
      {
        assert PeerOk(l, n, j);
      }
      PeersNode(ids, l, asked, n, r);
    } else {
      RegroupFollower(ids, l, asked, n, r);
    }
  }

  lemma RegroupQuiet(cfg: JointConfig, ids: set<NodeId>, l: Ledger, asked: Asked, n: Node, r: Node)
    requires Ready(cfg, ids, l, asked, n) && Regrouped(n, r)
    ensures StepOk(cfg, ids, l, asked, n, r, {})
  {
    hide Inv, RecordOk, StepOk, QueueOk, Settled, NodeOk;
    RegroupedNode(ids, l, asked, n, r);
    assert n.role == Leader ==> n.id in n.progress by { if n.role == Leader { LeaderParts(ids, l, asked, n); } }
    QuietOk(cfg, ids, l, asked, n, r, {});
  }

  lemma RegroupCommits(cfg: JointConfig, ids: set<NodeId>, l: Ledger, asked: Asked, n: Node, r: Node)
    requires Ready(cfg, ids, l, asked, n) && Regrouped(n, r) && n.role == Leader
    ensures var d := MaybeCommit(cfg, r); d.Done? && StepOk(cfg, ids, l, asked, n, d.node, d.out)
  {
    hide Inv, RecordOk, StepOk, MaybeCommit, QueueOk, Settled, NodeOk;
    LeaderParts(ids, l, asked, n);
    RegroupedNode(ids, l, asked, n, r);
    MaybeCommitOk(cfg, ids, l, asked, r);
    var d := MaybeCommit(cfg, r);
    SameStart(cfg, ids, l, asked, n, r, d.node, d.out);
  }

  lemma {:induction false} AssignShape(progress: map<NodeId, Progress>, ids: seq<(NodeId, nat)>)
    ensures var ps := Assign(progress, ids);
            ps.Keys == progress.Keys && forall j <- progress :: ps[j] == progress[j].(group := ps[j].group)
    decreases |ids|
  {
    if ids != [] {
      AssignShape(progress, ids[..|ids| - 1]);
    }
  }

  lemma EnableGroupsOk(cfg: JointConfig, ids: set<NodeId>, l: Ledger, asked: Asked, n: Node, enable: bool)
    requires Ready(cfg, ids, l, asked, n)
    ensures var d := EnableGroups(cfg, n, enable); d.Done? && StepOk(cfg, ids, l, asked, n, d.node, d.out)
  {
    hide Ready, StepOk, MaybeCommit;
    var r := n.(groupCommit := enable);
    if n.role == Leader && !enable {
      RegroupCommits(cfg, ids, l, asked, n, r);
    } else {
      RegroupQuiet(cfg, ids, l, asked, n, r);
    }
  }

  lemma AssignGroupsOk(cfg: JointConfig, ids: set<NodeId>, l: Ledger, asked: Asked, n: Node, groups: seq<(NodeId, nat)>)
    requires Ready(cfg, ids, l, asked, n)
    ensures var d := AssignGroups(cfg, n, groups);
            && (d.Fatal? <==> ZeroGroup(groups))
            && (d.Done? ==> StepOk(cfg, ids, l, asked, n, d.node, d.out))
  {
    hide Ready, StepOk, MaybeCommit, ZeroGroup, Assign;
    var r := n.(progress := Assign(n.progress, groups));
    AssignShape(n.progress, groups);
    if n.role == Leader && n.groupCommit {
      RegroupCommits(cfg, ids, l, asked, n, r);
    } else {
      RegroupQuiet(cfg, ids, l, asked, n, r);
    }
  }

  lemma ClearGroupsOk(cfg: JointConfig, ids: set<NodeId>, l: Ledger, asked: Asked, n: Node)
    requires Ready(cfg, ids, l, asked, n)
    ensures StepOk(cfg, ids, l, asked, n, ClearGroups(n).node, {})
  {
    hide Ready, StepOk;
    RegroupQuiet(cfg, ids, l, asked, n, ClearGroups(n).node);
  }

  lemma ProbedPeer(l: Ledger, n: Node, j: NodeId)
    requires j in n.progress && PeerOk(l, n, j)
    ensures PeerOk(l, SetProgress(n, j, n.progress[j].BecomeProbe()), j)
  {
  }

  lemma UnreachableOk(cfg: JointConfig, ids: set<NodeId>, l: Ledger, asked: Asked, n: Node, peer: NodeId)
    requires Ready(cfg, ids, l, asked, n)
    ensures StepOk(cfg, ids, l, asked, n, Unreachable(n, peer).node, {})
  {
    hide NodeOk, Inv, RecordOk, StepOk, PeerOk, QueueOk, OwnCommitted, Settled;
    if n.role == Leader && peer in n.progress && n.progress[peer].state == Replicate {
      LeaderParts(ids, l, asked, n);
      ProbedPeer(l, n, peer);
      OnePeerNode(ids, l, asked, n, peer, n.progress[peer].BecomeProbe());
    }
    QuietOk(cfg, ids, l, asked, n, Unreachable(n, peer).node, {});
  }

  lemma ResizeOk(cfg: JointConfig, ids: set<NodeId>, l: Ledger, asked: Asked, n: Node, peer: NodeId, cap: nat)
    requires Ready(cfg, ids, l, asked, n)
    ensures StepOk(cfg, ids, l, asked, n, Resize(n, peer, cap).node, {})
  {
    hide NodeOk, Inv, RecordOk, StepOk, QueueOk, OwnCommitted, Settled;
    if peer in n.progress {
      var p := n.progress[peer].(ins := n.progress[peer].ins.SetCap(cap));
      if n.role == Leader {
        LeaderParts(ids, l, asked, n);
        assert PeerOk(l, n, peer);
        OnePeerNode(ids, l, asked, n, peer, p);
      } else {
        RegroupFollower(ids, l, asked, n, SetProgress(n, peer, p));
      }
    }
    QuietOk(cfg, ids, l, asked, n, Resize(n, peer, cap).node, {});
  }

  lemma RegroupFollower(ids: set<NodeId>, l: Ledger, asked: Asked, n: Node, r: Node)
    requires NodeOk(ids, l, asked, n) && n.role != Leader
    requires r == n.(groupCommit := r.groupCommit, progress := r.progress) && r.progress.Keys == n.progress.Keys
    ensures NodeOk(ids, l, asked, r)
  {
    hide Settled;
  }
}
