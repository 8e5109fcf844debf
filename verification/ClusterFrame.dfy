/** What a step leaves alone: old messages, other nodes, and the ledger when a node does nothing that it records. */
module ClusterFrame {
  import opened Quorum
  import opened LogModel
  import opened ReadOnlyModel
  import opened RaftNode
  import opened Ledger
  import opened LedgerActions
  import opened Cluster

  ghost predicate AskedGrows(a: Asked, b: Asked) {
    && (a.repeated ==> b.repeated)
    && forall c <- a.at :: c in b.at && a.at[c] == b.at[c]
  }

  /** The ledger after node `i` acted says the same as before about every other node. */
  ghost predicate OthersSame(l: Ledger, k: Ledger, i: NodeId) {
    && (forall j | j in l.term && j != i :: j in k.term && k.term[j] == l.term[j])
    && (forall j | j in l.log && j != i :: j in k.log && k.log[j] == l.log[j])
    && (forall j: NodeId, t: nat | j != i :: Acked(l, j, t) == Acked(k, j, t))
    && (forall j: NodeId, t: nat | j != i :: (j, t) in k.vote <==> (j, t) in l.vote)
    && (forall t <- k.reign :: (t in l.reign && k.reign[t] == l.reign[t]) || k.reign[t].leader == i)
  }

  /** Node `n.id` took a step that the ledger and the invariant can follow. */
  ghost predicate StepOk(cfg: JointConfig, ids: set<NodeId>, l: Ledger, asked: Asked,
                         n: Node, n': Node, out: set<Message>) {
    var k := Observe(l, n, n', out);
    && n'.id == n.id
    && Inv(cfg, k) && Grows(l, k)
    && NodeOk(ids, k, asked, n')
    && (forall m <- out :: MsgOk(ids, k, asked, m))
  }

  /** The situation in which a node acts. */
  ghost predicate Ready(cfg: JointConfig, ids: set<NodeId>, l: Ledger, asked: Asked, n: Node) {
    && Inv(cfg, l) && l.term.Keys == ids && cfg.Ids() <= ids && INVALID_ID !in ids
    && NodeOk(ids, l, asked, n)
    && (forall c <- asked.at :: RecordOk(cfg, l, asked, c))
  }

  // Growth of the ledger keeps what was said ------------------------------------------------------

  lemma SettledGrows(l: Ledger, k: Ledger, lg: Log, lg': Log, m: nat)
    requires Grows(l, k) && Settled(l, lg, m) && lg <= lg'
    ensures Settled(k, lg', m)
  {
    if m > 0 {
      var t :| t in l.reign && m <= l.reign[t].committed && Holds(l, t, m, lg);
      HoldsGrows(l, k, t, m, lg, lg');
      assert t in k.reign && m <= k.reign[t].committed && Holds(k, t, m, lg');
    }
  }

  lemma CommitInfoGrows(l: Ledger, k: Ledger, commit: nat, commitTerm: nat)
    requires Grows(l, k) && CommitInfoOk(l, commit, commitTerm)
    ensures CommitInfoOk(k, commit, commitTerm)
  {
    if commit > 0 {
      LeaderLogGrows(l, k, commitTerm);
      SettledGrows(l, k, LeaderLog(l, commitTerm), LeaderLog(k, commitTerm), commit);
    }
  }

  lemma AnchorGrows(l: Ledger, k: Ledger, m: Message)
    requires m.AppendMsg? && Grows(l, k) && AnchorOk(l, m)
    ensures AnchorOk(k, m)
  {
    LeaderLogGrows(l, k, m.term);
    var d, d' := LeaderLog(l, m.term), LeaderLog(k, m.term);
    if m.index + |m.entries| <= |d| {
      assert d[m.index..m.index + |m.entries|] == d'[m.index..m.index + |m.entries|];
    }
  }

  lemma MsgOkGrows(ids: set<NodeId>, l: Ledger, k: Ledger, a: Asked, b: Asked, m: Message)
    requires Grows(l, k) && AskedGrows(a, b) && MsgOk(ids, l, a, m)
    ensures MsgOk(ids, k, b, m)
  {
    match m
    case RequestVote(_, _, _, _, _, _, commit, commitTerm, _) => CommitInfoGrows(l, k, commit, commitTerm);
    case VoteResp(_, _, _, _, _, commit, commitTerm) => CommitInfoGrows(l, k, commit, commitTerm);
    case AppendMsg(_, _, term, _, _, _, commit) =>
      AnchorGrows(l, k, m);
      LeaderLogGrows(l, k, term);
      SettledGrows(l, k, LeaderLog(l, term), LeaderLog(k, term), commit);
    case Heartbeat(_, _, term, commit, _) =>
      LeaderLogGrows(l, k, term);
      SettledGrows(l, k, LeaderLog(l, term), LeaderLog(k, term), commit);
    case ReadIndexResp(_, _, _, index, req) => ReadOkGrows(a, b, req, index);
    case _ =>
  }

  lemma LeaderOkOther(l: Ledger, k: Ledger, a: Asked, b: Asked, n: Node, i: NodeId)
    requires Grows(l, k) && AskedGrows(a, b) && OthersSame(l, k, i) && n.id != i
    requires LeaderOk(l, a, n)
    ensures LeaderOk(k, b, n)
  {
    assert k.reign[n.term] == l.reign[n.term];
    forall j <- n.progress
      ensures PeerOk(k, n, j)
    {
      assert PeerOk(l, n, j);
      assert Acked(l, j, n.term) <= Acked(k, j, n.term);
    }
    QueueGrows(a, b, n);
  }

  lemma ReadOkGrows(a: Asked, b: Asked, ctx: Ctx, index: nat)
    requires AskedGrows(a, b) && ReadOk(a, ctx, index)
    ensures ReadOk(b, ctx, index)
  {
    if !a.repeated {
      var t: nat :| (ctx, t) in a.at && Covered(a.at[(ctx, t)], index);
      assert (ctx, t) in b.at && Covered(b.at[(ctx, t)], index);
    }
  }

  lemma QueueGrows(a: Asked, b: Asked, n: Node)
    requires AskedGrows(a, b) && QueueOk(a, n)
    ensures QueueOk(b, n)
  {
    hide ReadOnly.Valid;
    forall c <- n.readOnly.pending
      ensures QueuedOk(b, n, c)
    {
      assert QueuedOk(a, n, c);
    }
    NestedGrows(a, b, n.term, n.readOnly.queue);
    hide Nested;
  }

  lemma NestedGrows(a: Asked, b: Asked, t: nat, q: seq<Ctx>)
    requires AskedGrows(a, b) && Nested(a, t, q)
    ensures Nested(b, t, q)
  {
    if !b.repeated {
      forall x, y | 0 <= x < y < |q|
        ensures Within(b, t, q[x], q[y])
      {
        assert Within(a, t, q[x], q[y]);
      }
    }
  }

  lemma NodeOkOther(ids: set<NodeId>, l: Ledger, k: Ledger, a: Asked, b: Asked, n: Node, i: NodeId)
    requires Grows(l, k) && AskedGrows(a, b) && OthersSame(l, k, i) && n.id != i
    requires NodeOk(ids, l, a, n)
    ensures NodeOk(ids, k, b, n)
  {
    SettledGrows(l, k, n.log, n.log, n.committed);
    var m := Acked(l, n.id, n.term);
    if Holds(l, n.term, m, n.log) {
      HoldsGrows(l, k, n.term, m, n.log, n.log);
    }
    hide LeaderOk, ReadOk;
    if n.role == Leader {
      LeaderOkOther(l, k, a, b, n, i);
    }
    forall r | r in n.readStates
      ensures ReadOk(b, r.ctx, r.index)
    {
      ReadOkGrows(a, b, r.ctx, r.index);
    }
    if n.role == Candidate && n.term in k.reign {
      assert k.reign[n.term].leader != n.id;
    }
  }

  lemma RecordOkGrows(cfg: JointConfig, l: Ledger, k: Ledger, a: Asked, b: Asked, c: (Ctx, nat))
    requires Grows(l, k) && AskedGrows(a, b) && c in a.at && RecordOk(cfg, l, a, c)
    ensures RecordOk(cfg, k, b, c)
  {
  }

  lemma ObserveOthers(l: Ledger, n: Node, n': Node, out: set<Message>)
    ensures OthersSame(l, Observe(l, n, n', out), n.id)
  {
  }

  lemma KeepNodes(ids: set<NodeId>, nodes: map<NodeId, Node>, l: Ledger, k: Ledger, a: Asked, b: Asked,
                  i: NodeId, n': Node)
    requires Grows(l, k) && AskedGrows(a, b) && OthersSame(l, k, i) && i in nodes
    requires forall j <- nodes :: nodes[j].id == j && NodeOk(ids, l, a, nodes[j])
    requires n'.id == i && NodeOk(ids, k, b, n')
    ensures var nodes' := nodes[i := n'];
            forall j <- nodes' :: nodes'[j].id == j && NodeOk(ids, k, b, nodes'[j])
  {
    hide NodeOk, Grows, OthersSame;
    forall j | j in nodes && j != i
      ensures NodeOk(ids, k, b, nodes[j])
    {
      NodeOkOther(ids, l, k, a, b, nodes[j], i);
    }
  }

  lemma KeepMessages(ids: set<NodeId>, net: set<Message>, out: set<Message>, l: Ledger, k: Ledger, a: Asked, b: Asked)
    requires Grows(l, k) && AskedGrows(a, b)
    requires forall m <- net :: MsgOk(ids, l, a, m)
    requires forall m <- out :: MsgOk(ids, k, b, m)
    ensures forall m <- net + out :: MsgOk(ids, k, b, m)
  {
    hide MsgOk, Grows;
    forall m <- net
      ensures MsgOk(ids, k, b, m)
    {
      MsgOkGrows(ids, l, k, a, b, m);
    }
  }

  lemma KeepRecords(cfg: JointConfig, l: Ledger, k: Ledger, a: Asked, b: Asked)
    requires Grows(l, k) && AskedGrows(a, b)
    requires forall c <- a.at :: RecordOk(cfg, l, a, c)
    requires forall c | c in b.at && c !in a.at :: RecordOk(cfg, k, b, c)
    ensures forall c <- b.at :: RecordOk(cfg, k, b, c)
  {
    hide RecordOk, Grows;
    forall c <- a.at
      ensures RecordOk(cfg, k, b, c)
    {
      RecordOkGrows(cfg, l, k, a, b, c);
    }
  }

  lemma GrowsKeys(l: Ledger, k: Ledger)
    requires Grows(l, k)
    ensures l.term.Keys == k.term.Keys
  {
  }

  /** One node's good step keeps the whole cluster good. */
  lemma StepKeeps(cfg: JointConfig, s: Cluster, e: Event, n': Node, out: set<Message>, asked: Asked)
    requires ClusterInv(cfg, s) && Actor(e) in s.nodes
    requires AskedGrows(s.asked, asked)
    requires StepOk(cfg, s.nodes.Keys, s.ledger, asked, s.nodes[Actor(e)], n', out)
    requires forall c | c in asked.at && c !in s.asked.at ::
               RecordOk(cfg, Observe(s.ledger, s.nodes[Actor(e)], n', out), asked, c)
    ensures ClusterInv(cfg, After(cfg, s, e, n', out).(asked := asked))
  {
    hide NodeOk, MsgOk, RecordOk, Inv, Grows, OthersSame, Observe, AskedGrows, RecordRead;
    var i := Actor(e);
    var n, l := s.nodes[i], s.ledger;
    var k := Observe(l, n, n', out);
    ObserveOthers(l, n, n', out);
    GrowsKeys(l, k);
    KeepNodes(s.nodes.Keys, s.nodes, l, k, s.asked, asked, i, n');
    KeepMessages(s.nodes.Keys, s.net, out, l, k, s.asked, asked);
    KeepRecords(cfg, l, k, s.asked, asked);
    assert s.nodes[i := n'].Keys == s.nodes.Keys;
  }
}
