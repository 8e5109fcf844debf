/** Steps of leaders that serve reads, and why a released read is linearizable. */
module ClusterReads {
  import opened Quorum
  import opened LogModel
  import opened ReadOnlyModel
  import opened ProgressModel
  import opened RaftNode
  import opened Ledger
  import opened LedgerActions
  import opened Cluster
  import opened ClusterFrame
  import opened ClusterFollower
  import opened ClusterElection
  import opened ClusterLeader

  // Releasing -------------------------------------------------------------------------------------

  ghost predicate Servable(asked: Asked, n: Node, st: ReadStatus) {
    ReadOk(asked, st.ctx, st.index) && 1 <= st.index <= OwnCommitted(n)
  }

  lemma {:induction false} LocalReadsOk(asked: Asked, n: Node, sts: seq<ReadStatus>, r: ReadState)
    requires forall st | st in sts :: Servable(asked, n, st)
    requires r in LocalReads(n, sts)
    ensures ReadOk(asked, r.ctx, r.index)
  {
    if sts != [] {
      if IsLocal(n, sts[0]) && r == ReadState(sts[0].index, sts[0].ctx) {
        assert Servable(asked, n, sts[0]);
      } else {
        LocalReadsOk(asked, n, sts[1..], r);
      }
    }
  }

  /** A leader whose queue changes. */
  lemma QueueNode(ids: set<NodeId>, l: Ledger, asked: Asked, n: Node, n': Node)
    requires NodeOk(ids, l, asked, n) && n.role == Leader
    requires n' == n.(readOnly := n'.readOnly, readStates := n'.readStates)
    requires QueueOk(asked, n') && forall r | r in n'.readStates :: ReadOk(asked, r.ctx, r.index)
    ensures NodeOk(ids, l, asked, n')
  {
    hide Settled, QueueOk;
    forall j <- n'.progress
      ensures PeerOk(l, n', j)
    {
      assert PeerOk(l, n, j);
    }
  }

  lemma NodeReads(ids: set<NodeId>, l: Ledger, asked: Asked, n: Node)
    requires NodeOk(ids, l, asked, n)
    ensures forall r | r in n.readStates :: ReadOk(asked, r.ctx, r.index)
  {
  }

  lemma ReleaseReadsOk(cfg: JointConfig, ids: set<NodeId>, l: Ledger, asked: Asked, n: Node, ro: ReadOnly,
                       sts: seq<ReadStatus>)
    requires Ready(cfg, ids, l, asked, n) && n.role == Leader
    requires QueueOk(asked, n.(readOnly := ro))
    requires forall st | st in sts :: Servable(asked, n, st)
    ensures var d := ReleaseReads(n.(readOnly := ro), sts); d.Done? && StepOk(cfg, ids, l, asked, n, d.node, d.out)
  {
    hide NodeOk, Inv, RecordOk, StepOk, QueueOk, PeerOk, OwnCommitted, Settled, ReadOk;
    var r := n.(readOnly := ro);
    var d := ReleaseReads(r, sts);
    LeaderParts(ids, l, asked, n);
    NodeReads(ids, l, asked, n);
    forall x | x in d.node.readStates
      ensures ReadOk(asked, x.ctx, x.index)
    {
      if x !in n.readStates {
        assert forall st | st in sts :: Servable(asked, n, st) ==> Servable(asked, r, st) by { SameOwnCommitted(n, r); }
        LocalReadsOk(asked, r, sts, x);
      }
    }
    assert QueueOk(asked, d.node) by { QueueSame(asked, r, d.node); }
    QueueNode(ids, l, asked, n, d.node);
    forall m <- d.out
      ensures MsgOk(ids, l, asked, m)
    {
      var st :| st in sts && !IsLocal(r, st) && m == ReadResp(r, st);
      assert Servable(asked, n, st);
    }
    assert Silent(d.out);
    QuietOk(cfg, ids, l, asked, n, d.node, d.out);
  }

  lemma SameOwnCommitted(n: Node, r: Node)
    requires r.committed == n.committed && r.log == n.log && r.term == n.term
    ensures OwnCommitted(r) == OwnCommitted(n)
  {
  }

  lemma QueueSame(asked: Asked, n: Node, n': Node)
    requires QueueOk(asked, n) && n' == n.(readStates := n'.readStates)
    ensures QueueOk(asked, n')
  {
    QueueFrame(asked, n, n');
  }

  // Counting acknowledgements ---------------------------------------------------------------------

  lemma AckQueue(asked: Asked, n: Node, from: NodeId, ctx: Ctx)
    requires QueueOk(asked, n) && Loyal(asked, ctx, n.term, from)
    ensures QueueOk(asked, n.(readOnly := n.readOnly.RecvAck(from, ctx)))
  {
    n.readOnly.RecvAckValid(from, ctx);
    var n' := n.(readOnly := n.readOnly.RecvAck(from, ctx));
    forall c <- n'.readOnly.pending
      ensures QueuedOk(asked, n', c)
    {
      assert QueuedOk(asked, n, c);
    }
  }

  lemma AdvanceQueue(asked: Asked, n: Node, ctx: Ctx)
    requires QueueOk(asked, n)
    ensures QueueOk(asked, n.(readOnly := n.readOnly.Advance(ctx)))
  {
    n.readOnly.AdvanceValid(ctx);
    var n' := n.(readOnly := n.readOnly.Advance(ctx));
    forall c <- n'.readOnly.pending
      ensures QueuedOk(asked, n', c)
    {
      assert QueuedOk(asked, n, c);
    }
    var k := Position(n.readOnly.queue, ctx);
    if k < |n.readOnly.queue| && !asked.repeated {
      NestedTail(asked, n.term, n.readOnly.queue, k + 1);
    }
  }

  lemma NestedTail(asked: Asked, t: nat, q: seq<Ctx>, k: nat)
    requires Nested(asked, t, q) && k <= |q|
    ensures Nested(asked, t, q[k..])
  {
    if !asked.repeated {
      var q' := q[k..];
      forall a, b | 0 <= a < b < |q'|
        ensures Within(asked, t, q'[a], q'[b])
      {
        assert Within(asked, t, q[a + k], q[b + k]);
      }
    }
  }

  /**
   A quorum acknowledged `ctx`, and none of it had left the leader's term when the request arrived. So no quorum
   had moved on by then, for this request or any queued before it.
   */
  lemma ReleasedServable(cfg: JointConfig, l: Ledger, asked: Asked, n: Node, ctx: Ctx, st: ReadStatus)
    requires cfg.Ids() != {} && QueueOk(asked, n) && ctx in n.readOnly.pending
    requires IsQuorum(cfg, n.readOnly.pending[ctx].acks)
    requires forall c <- asked.at :: RecordOk(cfg, l, asked, c)
    requires st in n.readOnly.Released(ctx)
    ensures Servable(asked, n, st)
  {
    var ro := n.readOnly;
    var q, k, t := ro.queue, Position(ro.queue, ctx), n.term;
    var i :| 0 <= i <= k && st == ro.pending[q[i]];
    var c := q[i];
    assert QueuedOk(asked, n, ctx) && QueuedOk(asked, n, c);
    if !asked.repeated {
      assert i < k ==> Within(asked, t, q[i], q[k]);
      assert asked.at[(c, t)].above <= asked.at[(ctx, t)].above;
      assert RecordOk(cfg, l, asked, (c, t));
      if IsQuorum(cfg, asked.at[(c, t)].above) {
        QuorumGrows(cfg, asked.at[(c, t)].above, asked.at[(ctx, t)].above);
        var j := QuorumsMeet(cfg, ro.pending[ctx].acks, asked.at[(ctx, t)].above);
        assert false;
      }
      assert (st.ctx, t) in asked.at && Covered(asked.at[(st.ctx, t)], st.index);
    }
  }

  lemma CountReadAckOk(cfg: JointConfig, ids: set<NodeId>, l: Ledger, asked: Asked, n: Node, from: NodeId, ctx: Ctx)
    requires Ready(cfg, ids, l, asked, n) && n.role == Leader
    requires Loyal(asked, ctx, n.term, from)
    ensures var d := CountReadAck(cfg, n, from, ctx); d.Done? && StepOk(cfg, ids, l, asked, n, d.node, d.out)
  {
    hide NodeOk, Inv, RecordOk, StepOk, QueueOk, PeerOk, OwnCommitted, Settled, IsQuorum, ReleaseReads, Servable;
    LeaderParts(ids, l, asked, n);
    NodeReads(ids, l, asked, n);
    AckQueue(asked, n, from, ctx);
    var ro := n.readOnly.RecvAck(from, ctx);
    var r := n.(readOnly := ro);
    assert ro.Valid() by { QueueValid(asked, r); }
    if ctx !in ro.pending || !IsQuorum(cfg, ro.pending[ctx].acks) {
      QueueNode(ids, l, asked, n, r);
      QuietOk(cfg, ids, l, asked, n, r, {});
    } else {
      AdvanceQueue(asked, r, ctx);
      var sts := ro.Released(ctx);
      assert cfg.Ids() != {} by { InvShape(cfg, l); }
      forall st | st in sts
        ensures Servable(asked, n, st)
      {
        ReleasedServable(cfg, l, asked, r, ctx, st);
        assert Servable(asked, n, st) by { ServableSame(asked, n, r, st); }
      }
      ReleaseReadsOk(cfg, ids, l, asked, n, ro.Advance(ctx), sts);
    }
  }

  lemma ServableSame(asked: Asked, n: Node, r: Node, st: ReadStatus)
    requires r == n.(readOnly := r.readOnly) && Servable(asked, r, st)
    ensures Servable(asked, n, st)
  {
  }

  lemma QueueValid(asked: Asked, n: Node)
    requires QueueOk(asked, n)
    ensures n.readOnly.Valid()
  {
  }

  lemma InvShape(cfg: JointConfig, l: Ledger)
    requires Inv(cfg, l)
    ensures cfg.Ids() != {}
  {
  }

  lemma RespPeer(l: Ledger, n: Node, j: NodeId, commit: nat)
    requires j in n.progress && PeerOk(l, n, j)
    ensures var pr := n.progress[j].UpdateCommitted(commit).(recentActive := true).Resume();
            PeerOk(l, SetProgress(n, j, pr), j)
            && PeerOk(l, SetProgress(n, j, pr.(ins := pr.ins.FreeFirstOne())), j)
  {
  }

  lemma HandleHeartbeatRespOk(cfg: JointConfig, ids: set<NodeId>, l: Ledger, asked: Asked, n: Node, m: Message)
    requires Ready(cfg, ids, l, asked, n) && MsgOk(ids, l, asked, m) && n.role == Leader
    requires m.HeartbeatResp? && m.term == n.term
    ensures var d := HandleHeartbeatResp(cfg, n, m); d.Done? && StepOk(cfg, ids, l, asked, n, d.node, d.out)
  {
    hide NodeOk, Inv, RecordOk, StepOk, QueueOk, PeerOk, OwnCommitted, Settled, CountReadAck;
    LeaderParts(ids, l, asked, n);
    if m.from !in n.progress {
      QuietOk(cfg, ids, l, asked, n, n, {});
    } else {
      var pr := n.progress[m.from].UpdateCommitted(m.commit).(recentActive := true).Resume();
      var pr' := if pr.state == Replicate && pr.ins.Full() then pr.(ins := pr.ins.FreeFirstOne()) else pr;
      RespPeer(l, n, m.from, m.commit);
      OnePeerNode(ids, l, asked, n, m.from, pr');
      var r := SetProgress(n, m.from, pr');
      if m.ctx.None? {
        QuietOk(cfg, ids, l, asked, n, r, {});
      } else {
        CountReadAckOk(cfg, ids, l, asked, r, m.from, m.ctx.value);
        var d := CountReadAck(cfg, r, m.from, m.ctx.value);
        SameStart(cfg, ids, l, asked, n, r, d.node, d.out);
      }
    }
  }

  // Accepting a request ---------------------------------------------------------------------------

  /** If a later leader had committed anything, a quorum had moved past this leader's term. */
  lemma LaterCommitMeansMoved(cfg: JointConfig, l: Ledger, t: nat, t1: nat, above: set<NodeId>)
    requires Inv(cfg, l) && t < t1 && t1 in l.reign && l.reign[t1].committed > 0
    requires forall j | j in l.term && l.term[j] > t :: j in above
    ensures IsQuorum(cfg, above)
  {
    hide IsQuorum;
    var c := l.reign[t1].committed;
    assert Chosen(cfg, l, t1, c);
    forall j <- AckedBy(l, t1, c)
      ensures j in above
    {
      assert Acked(l, j, t1) > 0;
    }
    QuorumGrows(cfg, AckedBy(l, t1, c), above);
  }

  lemma ReignFacts(cfg: JointConfig, l: Ledger, t: nat)
    requires Inv(cfg, l) && t in l.reign && l.reign[t].committed > 0
    ensures var r := l.reign[t];
            r.committed <= |r.log| && r.log[r.committed - 1].term == t && Sorted(r.log)
  {
    assert Chosen(cfg, l, t, l.reign[t].committed) && GoodLog(l, l.reign[t].log, t);
  }

  /** What an earlier leader committed lies below anything a later leader commits from its own term. */
  lemma EarlierBelow(cfg: JointConfig, l: Ledger, s: nat, t: nat)
    requires Inv(cfg, l) && s < t && s in l.reign && t in l.reign
    requires l.reign[s].committed > 0 && l.reign[t].committed > 0
    ensures l.reign[s].committed < l.reign[t].committed
  {
    hide Inv;
    LaterLeaderHolds(cfg, l, s, t);
    ReignFacts(cfg, l, s);
    ReignFacts(cfg, l, t);
    var m, d := l.reign[s].committed, l.reign[t].log;
    assert d[m - 1] == d[..m][m - 1] == l.reign[s].log[m - 1];
  }

  /** Otherwise whatever any node has committed lies within what this leader has committed in its own term. */
  lemma CommittedWithin(cfg: JointConfig, l: Ledger, t: nat, lg: Log, c: nat)
    requires Inv(cfg, l) && t in l.reign && l.reign[t].committed > 0
    requires forall t1 | t1 in l.reign && t1 > t :: l.reign[t1].committed == 0
    requires Settled(l, lg, c)
    ensures c <= l.reign[t].committed
  {
    hide Inv;
    if c > 0 {
      var s :| s in l.reign && c <= l.reign[s].committed && Holds(l, s, c, lg);
      if s < t {
        EarlierBelow(cfg, l, s, t);
      }
    }
  }

  lemma NewRecordOk(cfg: JointConfig, s: Cluster, i: NodeId, ctx: Ctx)
    requires ClusterInv(cfg, s) && i in s.nodes && s.nodes[i].role == Leader
    requires CommitTerm(s.nodes[i]) == s.nodes[i].term
    ensures var asked := Recorded(cfg, s, s.nodes[i], ctx);
            forall c | c in asked.at && c !in s.asked.at :: RecordOk(cfg, s.ledger, asked, c)
  {
    hide IsQuorum, RecordOk, ClusterInv, NodeOk, Settled, Inv;
    var n, l := s.nodes[i], s.ledger;
    var above := AboveTerm(s.nodes, n.term);
    ClusterFacts(cfg, s);
    HistorySound(cfg, s);
    LeaderParts(s.nodes.Keys, l, s.asked, n);
    assert OwnCommitted(n) == n.committed > 0;
    forall j <- s.nodes
      ensures j in l.term && l.term[j] == s.nodes[j].term && Settled(l, s.nodes[j].log, s.nodes[j].committed)
    {
      NodeSettled(s.nodes.Keys, l, s.asked, s.nodes[j]);
    }
    if t1 :| t1 in l.reign && t1 > n.term && l.reign[t1].committed > 0 {
      LaterCommitMeansMoved(cfg, l, n.term, t1, above);
    } else {
      forall j <- s.nodes
        ensures s.nodes[j].committed <= n.committed
      {
        CommittedWithin(cfg, l, n.term, s.nodes[j].log, s.nodes[j].committed);
      }
    }
    RecordIntro(cfg, s, n, ctx);
  }

  lemma HistorySound(cfg: JointConfig, s: Cluster)
    requires ClusterInv(cfg, s)
    ensures Inv(cfg, s.ledger) && s.ledger.term.Keys == s.nodes.Keys
  {
  }

  lemma NodeSettled(ids: set<NodeId>, l: Ledger, asked: Asked, n: Node)
    requires NodeOk(ids, l, asked, n)
    ensures Settled(l, n.log, n.committed)
  {
  }

  lemma RecordIntro(cfg: JointConfig, s: Cluster, n: Node, ctx: Ctx)
    requires n.term in s.ledger.reign && n.committed <= s.ledger.reign[n.term].committed
    requires forall j <- s.nodes :: j in s.ledger.term && s.ledger.term[j] == s.nodes[j].term
    requires IsQuorum(cfg, AboveTerm(s.nodes, n.term)) || forall j <- s.nodes :: s.nodes[j].committed <= n.committed
    ensures var asked := Recorded(cfg, s, n, ctx);
            forall c | c in asked.at && c !in s.asked.at :: c == (ctx, n.term) && RecordOk(cfg, s.ledger, asked, c)
  {
    hide IsQuorum;
  }

  lemma NodeOkAsked(ids: set<NodeId>, l: Ledger, a: Asked, b: Asked, n: Node)
    requires AskedGrows(a, b) && NodeOk(ids, l, a, n)
    ensures NodeOk(ids, l, b, n)
  {
    hide Settled, PeerOk, QueueOk, ReadOk, AskedGrows;
    if n.role == Leader {
      QueueGrows(a, b, n);
    }
    forall r | r in n.readStates
      ensures ReadOk(b, r.ctx, r.index)
    {
      ReadOkGrows(a, b, r.ctx, r.index);
    }
  }

  lemma ClusterFacts(cfg: JointConfig, s: Cluster)
    requires ClusterInv(cfg, s)
    ensures s.ledger.term.Keys == s.nodes.Keys
    ensures forall j <- s.nodes :: s.nodes[j].id == j && s.ledger.term[j] == s.nodes[j].term
    ensures forall j <- s.nodes :: NodeOk(s.nodes.Keys, s.ledger, s.asked, s.nodes[j])
    ensures forall c <- s.asked.at :: RecordOk(cfg, s.ledger, s.asked, c)
  {
    hide MsgOk, RecordOk, Inv;
    forall j <- s.nodes
      ensures s.ledger.term[j] == s.nodes[j].term
    {
      NodeTerm(s.nodes.Keys, s.ledger, s.asked, s.nodes[j]);
    }
  }

  lemma RecordedGrows(cfg: JointConfig, s: Cluster, n: Node, ctx: Ctx)
    ensures AskedGrows(s.asked, Recorded(cfg, s, n, ctx))
  {
  }

  /** The new request goes to the end of the queue; the nodes that had moved on only grow in number. */
  lemma AddToQueue(cfg: JointConfig, s: Cluster, i: NodeId, ctx: Ctx, from: NodeId)
    requires ClusterInv(cfg, s) && i in s.nodes && s.nodes[i].role == Leader
    requires CommitTerm(s.nodes[i]) == s.nodes[i].term && !cfg.IsSingleton()
    ensures var n := s.nodes[i];
            QueueOk(Recorded(cfg, s, n, ctx), n.(readOnly := n.readOnly.AddRequest(n.committed, ctx, from, n.id)))
  {
    hide NodeOk, ClusterInv, RecordOk, QueuedOk, PeerOk, Settled, Nested, ReadOnly.Valid, ReadOnly.AddRequest, Recorded;
    var n := s.nodes[i];
    ClusterFacts(cfg, s);
    LeaderParts(s.nodes.Keys, s.ledger, s.asked, n);
    n.readOnly.AddRequestValid(n.committed, ctx, from, n.id);
    AddQueued(cfg, s, n, ctx, from);
    AddOrdered(cfg, s, n, ctx, from);
  }

  lemma AddQueued(cfg: JointConfig, s: Cluster, n: Node, ctx: Ctx, from: NodeId)
    requires QueueOk(s.asked, n) && CommitTerm(n) == n.term && !cfg.IsSingleton()
    requires n.term >= 1 && n.id in s.nodes && s.nodes[n.id] == n
    ensures var n' := n.(readOnly := n.readOnly.AddRequest(n.committed, ctx, from, n.id));
            forall c <- n'.readOnly.pending :: QueuedOk(Recorded(cfg, s, n, ctx), n', c)
  {
    var n' := n.(readOnly := n.readOnly.AddRequest(n.committed, ctx, from, n.id));
    forall c <- n'.readOnly.pending
      ensures QueuedOk(Recorded(cfg, s, n, ctx), n', c)
    {
      if c in n.readOnly.pending {
        assert QueuedOk(s.asked, n, c);
      }
    }
  }

  lemma AddOrdered(cfg: JointConfig, s: Cluster, n: Node, ctx: Ctx, from: NodeId)
    requires QueueOk(s.asked, n) && !cfg.IsSingleton()
    requires forall c <- s.asked.at :: RecordOk(cfg, s.ledger, s.asked, c)
    requires s.ledger.term.Keys == s.nodes.Keys
    requires forall j <- s.nodes :: s.ledger.term[j] == s.nodes[j].term
    ensures Nested(Recorded(cfg, s, n, ctx), n.term, n.readOnly.AddRequest(n.committed, ctx, from, n.id).queue)
  {
    hide IsQuorum;
    var q, q', t := n.readOnly.queue, n.readOnly.AddRequest(n.committed, ctx, from, n.id).queue, n.term;
    var asked := Recorded(cfg, s, n, ctx);
    if !asked.repeated {
      forall c | c in q
        ensures (c, t) in s.asked.at && c != ctx && asked.at[(c, t)] == s.asked.at[(c, t)]
        ensures asked.at[(c, t)].above <= asked.at[(ctx, t)].above
      {
        assert QueuedOk(s.asked, n, c);
        assert RecordOk(cfg, s.ledger, s.asked, (c, t));
      }
      assert ctx !in n.readOnly.pending;
      forall a, b | 0 <= a < b < |q'|
        ensures Within(asked, t, q'[a], q'[b])
      {
        assert q'[a] == q[a] && q[a] in q;
        if b < |q| {
          assert q'[b] == q[b] && q[b] in q && Within(s.asked, t, q[a], q[b]);
        } else {
          assert q'[b] == ctx;
        }
      }
    }
  }
}
