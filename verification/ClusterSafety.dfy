/** Every step of a cluster keeps it safe, and what follows for every run. */
module ClusterSafety {
  import opened Quorum
  import opened ReadOnlyModel
  import opened RaftNode
  import opened Ledger
  import opened LedgerActions
  import opened Cluster
  import opened ClusterFrame
  import opened ClusterFollower
  import opened ClusterElection
  import opened ClusterLeader
  import opened ClusterReads

  /** Only voters leave the follower role. */
  ghost predicate VotersLead(cfg: JointConfig, s: Cluster) {
    forall i <- s.nodes :: s.nodes[i].role != Follower ==> i in cfg.Ids()
  }

  ghost predicate AllContested(cfg: JointConfig, s: Cluster) {
    forall i <- s.nodes :: Contested(cfg, s.nodes[i])
  }

  ghost predicate Safe(cfg: JointConfig, s: Cluster) {
    ClusterInv(cfg, s) && VotersLead(cfg, s) && AllContested(cfg, s)
  }

  // One node's reaction to a message --------------------------------------------------------------

  lemma LeaderIdReady(cfg: JointConfig, ids: set<NodeId>, l: Ledger, asked: Asked, n: Node, leader: NodeId)
    requires Ready(cfg, ids, l, asked, n) && n.role == Follower
    ensures Ready(cfg, ids, l, asked, n.(leaderId := leader))
  {
    hide Inv, RecordOk, Settled;
  }

  lemma StepFollowerOk(cfg: JointConfig, ids: set<NodeId>, l: Ledger, asked: Asked, n: Node, m: Message)
    requires Ready(cfg, ids, l, asked, n) && MsgOk(ids, l, asked, m) && n.role == Follower
    requires m.to == n.id && !m.RequestVote? && (m.term == n.term || m.ReadIndex? || m.VoteResp?)
    ensures var d := StepFollower(n, m);
            d.Done? && d.node.vote == n.vote && d.node.term == n.term && StepOk(cfg, ids, l, asked, n, d.node, d.out)
  {
    hide Ready, StepOk, NodeOk, HandleAppend, HandleHeartbeat, CommitMatching;
    var r := n.(leaderId := m.from);
    LeaderIdReady(cfg, ids, l, asked, n, m.from);
    ReadyNode(cfg, ids, l, asked, n);
    if m.AppendMsg? {
      HandleAppendOk(cfg, ids, l, asked, r, m);
      SameStart(cfg, ids, l, asked, n, r, HandleAppend(r, m).node, HandleAppend(r, m).out);
    } else if m.Heartbeat? {
      HandleHeartbeatOk(cfg, ids, l, asked, r, m);
      SameStart(cfg, ids, l, asked, n, r, HandleHeartbeat(r, m).node, HandleHeartbeat(r, m).out);
    } else if m.ReadIndexResp? {
      HandleReadRespOk(cfg, ids, l, asked, n, m);
    } else {
      QuietOk(cfg, ids, l, asked, n, n, StepFollower(n, m).out);
    }
  }

  lemma ReadyNode(cfg: JointConfig, ids: set<NodeId>, l: Ledger, asked: Asked, n: Node)
    requires Ready(cfg, ids, l, asked, n)
    ensures NodeOk(ids, l, asked, n)
  {
  }

  /** A candidate that hears from the leader of its term follows it. */
  lemma CandidateFollows(cfg: JointConfig, ids: set<NodeId>, l: Ledger, asked: Asked, n: Node, m: Message)
    requires Ready(cfg, ids, l, asked, n) && MsgOk(ids, l, asked, m)
    requires m.to == n.id && m.term == n.term && (m.AppendMsg? || m.Heartbeat?)
    ensures var r := BecomeFollower(n, m.term, m.from);
            var d := if m.AppendMsg? then HandleAppend(r, m) else HandleHeartbeat(r, m);
            d.Done? && StepOk(cfg, ids, l, asked, n, d.node, d.out)
  {
    hide Ready, StepOk, NodeOk, HandleAppend, HandleHeartbeat, Grows, MsgOk;
    var k, r := Advance(l, n.id, n.term), BecomeFollower(n, m.term, m.from);
    FollowReady(cfg, ids, l, asked, n, n.term, m.from);
    MsgOkGrows(ids, l, k, asked, asked, m);
    if m.AppendMsg? {
      HandleAppendOk(cfg, ids, k, asked, r, m);
      FollowThen(cfg, ids, l, asked, n, n.term, m.from, HandleAppend(r, m).node, HandleAppend(r, m).out);
    } else {
      HandleHeartbeatOk(cfg, ids, k, asked, r, m);
      FollowThen(cfg, ids, l, asked, n, n.term, m.from, HandleHeartbeat(r, m).node, HandleHeartbeat(r, m).out);
    }
  }

  /** A candidate dies when a response makes it win before its whole log is known to be persisted. */
  predicate DiesWinning(cfg: JointConfig, n: Node, m: Message) {
    m.VoteResp? && !m.pre && m.term == n.term && n.role == Candidate && WinsTooEarly(cfg, n, m.from, !m.reject)
  }

  lemma StepCandidateOk(cfg: JointConfig, ids: set<NodeId>, l: Ledger, asked: Asked, n: Node, m: Message)
    requires Ready(cfg, ids, l, asked, n) && MsgOk(ids, l, asked, m)
    requires n.role == Candidate || n.role == PreCandidate
    requires m.to == n.id && !m.RequestVote? && (m.term == n.term || m.ReadIndex? || (m.VoteResp? && m.pre))
    requires Contested(cfg, n)
    ensures var d := StepCandidate(cfg, n, m);
            && (d.Fatal? <==> DiesWinning(cfg, n, m))
            && (d.Done? ==> StepOk(cfg, ids, l, asked, n, d.node, d.out))
  {
    hide Ready, StepOk, NodeOk, HandleAppend, HandleHeartbeat, HandleVoteResp, WinsTooEarly, Contested;
    ReadyNode(cfg, ids, l, asked, n);
    if m.AppendMsg? || m.Heartbeat? {
      CandidateFollows(cfg, ids, l, asked, n, m);
    } else if m.VoteResp? && (n.role == PreCandidate) == m.pre {
      HandleVoteRespOk(cfg, ids, l, asked, n, m);
    } else {
      QuietOk(cfg, ids, l, asked, n, n, {});
    }
  }

  lemma StepLeaderOk(cfg: JointConfig, ids: set<NodeId>, l: Ledger, asked: Asked, n: Node, m: Message)
    requires Ready(cfg, ids, l, asked, n) && MsgOk(ids, l, asked, m) && n.role == Leader
    requires !m.ReadIndex? && (m.term == n.term || (m.VoteResp? && m.pre))
    ensures var d := StepLeader(cfg, n, m); d.Done? && StepOk(cfg, ids, l, asked, n, d.node, d.out)
  {
    hide Ready, StepOk, NodeOk, HandleAppendResp, HandleHeartbeatResp;
    ReadyNode(cfg, ids, l, asked, n);
    if m.AppendResp? {
      HandleAppendRespOk(cfg, ids, l, asked, n, m);
    } else if m.HeartbeatResp? {
      HandleHeartbeatRespOk(cfg, ids, l, asked, n, m);
    } else {
      QuietOk(cfg, ids, l, asked, n, n, {});
    }
  }

  /** A node dies when it refuses a pre-vote while its term is still 0. */
  predicate DiesRefusing(n: Node, m: Message) {
    m.RequestVote? && n.term == 0 && m.pre && !Grants(n, m)
  }

  lemma StepRoleOk(cfg: JointConfig, ids: set<NodeId>, l: Ledger, asked: Asked, n: Node, m: Message)
    requires Ready(cfg, ids, l, asked, n) && MsgOk(ids, l, asked, m) && m.to == n.id
    requires m.term == n.term || KeepsTerm(m) || m.ReadIndex?
    requires Contested(cfg, n) && (n.role == Leader ==> !m.ReadIndex?)
    ensures var d := StepRole(cfg, n, m);
            && (d.Fatal? <==> DiesRefusing(n, m) || DiesWinning(cfg, n, m))
            && (d.Done? ==> StepOk(cfg, ids, l, asked, n, d.node, d.out))
            && (d.Done? && n.role == Follower ==>
                  d.node.term == n.term && (d.node.vote == n.vote || d.node.vote != n.id))
  {
    hide Ready, StepOk, NodeOk, HandleVoteRequest, StepFollower, StepCandidate, StepLeader, Grants, WinsTooEarly,
         Contested;
    if m.RequestVote? {
      assert n.term == 0 ==> m.pre;
      HandleVoteRequestOk(cfg, ids, l, asked, n, m);
    } else {
      match n.role
      case Follower => StepFollowerOk(cfg, ids, l, asked, n, m);
      case Leader => StepLeaderOk(cfg, ids, l, asked, n, m);
      case _ => StepCandidateOk(cfg, ids, l, asked, n, m);
    }
  }

  /** Moving to the message's term first, and then reacting. */
  lemma StepHigherOk(cfg: JointConfig, ids: set<NodeId>, l: Ledger, asked: Asked, n: Node, m: Message, leader: NodeId)
    requires Ready(cfg, ids, l, asked, n) && MsgOk(ids, l, asked, m) && m.to == n.id
    requires m.term > n.term && !KeepsTerm(m) && !m.ReadIndex?
    ensures var d := StepRole(cfg, BecomeFollower(n, m.term, leader), m);
            d.Done? && StepOk(cfg, ids, l, asked, n, d.node, d.out)
  {
    hide Ready, StepOk, NodeOk, StepRole, Grows, MsgOk, Grants;
    var k, r := Advance(l, n.id, m.term), BecomeFollower(n, m.term, leader);
    FollowReady(cfg, ids, l, asked, n, m.term, leader);
    MsgOkGrows(ids, l, k, asked, asked, m);
    StepRoleOk(cfg, ids, k, asked, r, m);
    var d := StepRole(cfg, r, m);
    assert n.id != INVALID_ID by { CampaignFacts(cfg, ids, l, asked, n); }
    FollowThen(cfg, ids, l, asked, n, m.term, leader, d.node, d.out);
  }

  lemma TermlessRead(ids: set<NodeId>, l: Ledger, asked: Asked, m: Message)
    requires MsgOk(ids, l, asked, m)
    ensures m.ReadIndex? <==> m.term == 0
  {
  }

  lemma StepMessageOk(cfg: JointConfig, ids: set<NodeId>, l: Ledger, asked: Asked, n: Node, m: Message)
    requires Ready(cfg, ids, l, asked, n) && MsgOk(ids, l, asked, m) && m.to == n.id
    requires Contested(cfg, n) && (n.role == Leader ==> !m.ReadIndex?)
    ensures var d := Step(cfg, n, m);
            && (d.Fatal? <==> DiesRefusing(n, m) || DiesWinning(cfg, n, m))
            && (d.Done? ==> StepOk(cfg, ids, l, asked, n, d.node, d.out))
  {
    hide Ready, StepOk, NodeOk, StepRole, StepLower, MsgOk, Grants, Reset, WinsTooEarly, Contested;
    TermlessRead(ids, l, asked, m);
    if m.term == 0 {
      StepRoleOk(cfg, ids, l, asked, n, m);
    } else if m.term > n.term {
      if KeepsTerm(m) {
        StepRoleOk(cfg, ids, l, asked, n, m);
      } else {
        StepHigherOk(cfg, ids, l, asked, n, m, if m.AppendMsg? || m.Heartbeat? then m.from else INVALID_ID);
      }
    } else if m.term < n.term {
      StepLowerOk(cfg, ids, l, asked, n, m);
      assert StepLower(n, m).Done?;
    } else {
      StepRoleOk(cfg, ids, l, asked, n, m);
    }
  }

  // Read requests ---------------------------------------------------------------------------------

  lemma ReadyFrom(cfg: JointConfig, s: Cluster, i: NodeId)
    requires ClusterInv(cfg, s) && i in s.nodes
    ensures Ready(cfg, s.nodes.Keys, s.ledger, s.asked, s.nodes[i]) && s.nodes[i].id == i
  {
    hide NodeOk, RecordOk, MsgOk, Inv;
  }

  lemma AskedReady(cfg: JointConfig, s: Cluster, i: NodeId, ctx: Ctx)
    requires ClusterInv(cfg, s) && i in s.nodes && s.nodes[i].role == Leader
    requires CommitTerm(s.nodes[i]) == s.nodes[i].term
    ensures var asked := Recorded(cfg, s, s.nodes[i], ctx);
            AskedGrows(s.asked, asked) && Ready(cfg, s.nodes.Keys, s.ledger, asked, s.nodes[i])
  {
    hide NodeOk, RecordOk, Inv, Recorded, ClusterInv, Grows, AskedGrows;
    var asked := Recorded(cfg, s, s.nodes[i], ctx);
    ReadyFrom(cfg, s, i);
    RecordedGrows(cfg, s, s.nodes[i], ctx);
    NewRecordOk(cfg, s, i, ctx);
    NodeOkAsked(s.nodes.Keys, s.ledger, s.asked, asked, s.nodes[i]);
    GrowsSame(s.ledger);
    KeepRecords(cfg, s.ledger, s.ledger, s.asked, asked);
  }

  /** With a single voter that voter is the leader, so no quorum can have left the leader's term. */
  lemma SingletonServes(cfg: JointConfig, s: Cluster, n: Node, ctx: Ctx)
    requires cfg.IsSingleton() && n.id in cfg.Ids() && n.id in s.nodes && s.nodes[n.id] == n
    requires n.id in s.ledger.term && s.ledger.term[n.id] == n.term
    requires n.term in s.ledger.reign && s.ledger.reign[n.term].committed <= n.committed
    requires var asked := Recorded(cfg, s, n, ctx); forall c <- asked.at :: RecordOk(cfg, s.ledger, asked, c)
    ensures ReadOk(Recorded(cfg, s, n, ctx), ctx, n.committed)
  {
    var asked := Recorded(cfg, s, n, ctx);
    var r := asked.at[(ctx, n.term)];
    assert RecordOk(cfg, s.ledger, asked, (ctx, n.term));
    var v :| v in cfg.incoming;
    assert |cfg.incoming - {v}| == 0;
    assert cfg.incoming == {v};
    assert v == n.id;
    assert cfg.incoming * r.above == {};
    assert Covered(r, n.committed);
  }

  lemma LeaderReign(ids: set<NodeId>, l: Ledger, asked: Asked, n: Node)
    requires NodeOk(ids, l, asked, n) && n.role == Leader && CommitTerm(n) == n.term
    ensures n.id in l.term && l.term[n.id] == n.term
    ensures n.term in l.reign && l.reign[n.term].committed == n.committed
  {
    hide Settled, QueueOk;
  }

  lemma HandleReadIndexOk(cfg: JointConfig, s: Cluster, i: NodeId, ctx: Ctx, from: NodeId)
    requires Safe(cfg, s) && i in s.nodes && s.nodes[i].role == Leader
    requires CommitTerm(s.nodes[i]) == s.nodes[i].term
    ensures var n, asked := s.nodes[i], Recorded(cfg, s, s.nodes[i], ctx);
            var d := HandleReadIndex(cfg, n, from, ctx);
            d.Done? && StepOk(cfg, s.nodes.Keys, s.ledger, asked, n, d.node, d.out)
            && AskedGrows(s.asked, asked)
            && forall c | c in asked.at && c !in s.asked.at ::
                 RecordOk(cfg, Observe(s.ledger, n, d.node, d.out), asked, c)
  {
    hide ClusterInv, NodeOk, Inv, RecordOk, QueueOk, MsgOk, ReleaseReads, Servable, PeerOk, Settled, Observe, Grows,
         Recorded, AskedGrows;
    var n, l := s.nodes[i], s.ledger;
    var asked := Recorded(cfg, s, n, ctx);
    ClusterFacts(cfg, s);
    AskedReady(cfg, s, i, ctx);
    LeaderParts(s.nodes.Keys, l, asked, n);
    NodeReads(s.nodes.Keys, l, asked, n);
    var d := HandleReadIndex(cfg, n, from, ctx);
    if cfg.IsSingleton() {
      var st := ReadStatus(ctx, from, n.committed, {n.id});
      assert Servable(asked, n, st) by {
        LeaderReign(s.nodes.Keys, l, asked, n);
        SingletonServes(cfg, s, n, ctx);
        ServableIntro(asked, n, st);
      }
      assert n == n.(readOnly := n.readOnly);
      ReleaseReadsOk(cfg, s.nodes.Keys, l, asked, n, n.readOnly, [st]);
    } else {
      AddToQueue(cfg, s, i, ctx, from);
      QueueNode(s.nodes.Keys, l, asked, n, d.node);
      QuietOk(cfg, s.nodes.Keys, l, asked, n, d.node, {});
    }
    assert AskedGrows(asked, asked) by { AskedSame(asked); }
    forall c | c in asked.at && c !in s.asked.at
      ensures RecordOk(cfg, Observe(l, n, d.node, d.out), asked, c)
    {
      RecordOkGrows(cfg, l, Observe(l, n, d.node, d.out), asked, asked, c);
    }
  }

  lemma AskedSame(asked: Asked)
    ensures AskedGrows(asked, asked)
  {
  }

  lemma ServableIntro(asked: Asked, n: Node, st: ReadStatus)
    requires ReadOk(asked, st.ctx, st.index) && st.index == n.committed && n.term >= 1 && CommitTerm(n) == n.term
    ensures Servable(asked, n, st)
  {
  }

  // One event -------------------------------------------------------------------------------------

  /**
   What kills a node: a refusal it cannot send, an election won too early, an empty proposal, a peer assigned to
   group 0.
   */
  ghost predicate Dies(cfg: JointConfig, n: Node, e: Event) {
    match e
    case Deliver(m) => DiesRefusing(n, m) || DiesWinning(cfg, n, m)
    case Campaigns(_, _) => n.role != Leader && AloneTooEarly(cfg, n)
    case Proposes(_, data) => n.role == Leader && data == []
    case AssignsGroups(_, ids) => ZeroGroup(ids)
    case _ => false
  }

  /** Everything a cluster needs to know about one node's reaction to `e`. */
  ghost predicate ReactionOk(cfg: JointConfig, s: Cluster, e: Event, d: Outcome)
    requires Actor(e) in s.nodes
  {
    var n := s.nodes[Actor(e)];
    && (d.Fatal? <==> Dies(cfg, n, e))
    && (d.Done? ==>
          && AskedGrows(s.asked, RecordRead(cfg, s, n, e))
          && StepOk(cfg, s.nodes.Keys, s.ledger, RecordRead(cfg, s, n, e), n, d.node, d.out)
          && (forall c | c in RecordRead(cfg, s, n, e).at && c !in s.asked.at ::
                RecordOk(cfg, Observe(s.ledger, n, d.node, d.out), RecordRead(cfg, s, n, e), c)))
  }

  lemma AskOk(cfg: JointConfig, s: Cluster, e: Event)
    requires Safe(cfg, s) && Enabled(cfg, s, e) && Asks(cfg, s.nodes[Actor(e)], e).Some?
    ensures ReactionOk(cfg, s, e, React(cfg, s.nodes[Actor(e)], e))
  {
    hide ClusterInv, StepOk, RecordOk, Observe, HandleReadIndex, NodeOk, WinsTooEarly;
    var i := Actor(e);
    var n, ctx := s.nodes[i], Asks(cfg, s.nodes[i], e).value;
    var from := if e.Deliver? then e.m.from else INVALID_ID;
    HandleReadIndexOk(cfg, s, i, ctx, from);
    if e.Deliver? {
      NetOk(cfg, s, e.m);
    }
    assert React(cfg, n, e) == HandleReadIndex(cfg, n, from, ctx);
  }

  lemma NetOk(cfg: JointConfig, s: Cluster, m: Message)
    requires ClusterInv(cfg, s) && m in s.net
    ensures MsgOk(s.nodes.Keys, s.ledger, s.asked, m) && (m.ReadIndex? ==> m.term == 0)
  {
  }

  /** A request that the leader ignores changes nothing. */
  lemma DropReadOk(cfg: JointConfig, ids: set<NodeId>, l: Ledger, asked: Asked, n: Node, m: Message)
    requires Ready(cfg, ids, l, asked, n) && n.role == Leader && m.ReadIndex? && m.term == 0 && Ignores(cfg, n, m.req)
    ensures var d := Step(cfg, n, m); d.Done? && StepOk(cfg, ids, l, asked, n, d.node, d.out)
  {
    hide StepOk, NodeOk, Inv, RecordOk;
    assert Step(cfg, n, m) == Done(n, {});
    QuietOk(cfg, ids, l, asked, n, n, {});
  }

  lemma MessageOk(cfg: JointConfig, ids: set<NodeId>, l: Ledger, asked: Asked, n: Node, m: Message)
    requires Ready(cfg, ids, l, asked, n) && MsgOk(ids, l, asked, m) && m.to == n.id
    requires Contested(cfg, n) && (n.role == Leader && m.ReadIndex? ==> Ignores(cfg, n, m.req))
    ensures var d := Step(cfg, n, m);
            && (d.Fatal? <==> DiesRefusing(n, m) || DiesWinning(cfg, n, m))
            && (d.Done? ==> StepOk(cfg, ids, l, asked, n, d.node, d.out))
  {
    hide StepOk, Ready, Step, NodeOk, Grants, WinsTooEarly, Contested;
    if n.role == Leader && m.ReadIndex? {
      DropReadOk(cfg, ids, l, asked, n, m);
    } else {
      StepMessageOk(cfg, ids, l, asked, n, m);
    }
  }

  lemma LocalOk(cfg: JointConfig, ids: set<NodeId>, l: Ledger, asked: Asked, n: Node, e: Event)
    requires Ready(cfg, ids, l, asked, n) && !e.Deliver?
    requires Contested(cfg, n) && Asks(cfg, n, e).None?
    ensures var d := React(cfg, n, e);
            (d.Fatal? <==> Dies(cfg, n, e)) && (d.Done? ==> StepOk(cfg, ids, l, asked, n, d.node, d.out))
  {
    hide StepOk, NodeOk, Ready, Step, Hup, Propose, Persisted, SendAppend, SendHeartbeat, EnableGroups, AssignGroups,
         ClearGroups, Unreachable, Resize, ZeroGroup, AloneTooEarly, Contested;
    match e
    case AskRead(_, ctx) =>
      assert n.id != INVALID_ID by { CampaignFacts(cfg, ids, l, asked, n); }
      var m := ReadIndex(INVALID_ID, n.id, 0, ctx);
      assert MsgOk(ids, l, asked, m);
      MessageOk(cfg, ids, l, asked, n, m);
    case Campaigns(_, transfer) => HupOk(cfg, ids, l, asked, n, transfer);
    case Proposes(_, data) => ProposeOk(cfg, ids, l, asked, n, data);
    case Persists(_, upTo, ofTerm) => PersistedOk(cfg, ids, l, asked, n, upTo, ofTerm);
    case SendsAppend(_, to, allowEmpty, count) => SendAppendOk(cfg, ids, l, asked, n, to, allowEmpty, count);
    case SendsHeartbeat(_, to, ctx) => SendHeartbeatOk(cfg, ids, l, asked, n, to, ctx);
    case EnablesGroups(_, enable) => EnableGroupsOk(cfg, ids, l, asked, n, enable);
    case AssignsGroups(_, groups) => AssignGroupsOk(cfg, ids, l, asked, n, groups);
    case ClearsGroups(_) =>
      ClearGroupsOk(cfg, ids, l, asked, n);
      assert ClearGroups(n) == Done(ClearGroups(n).node, {}) by { QuietClear(n); }
    case LosesPeer(_, peer) =>
      UnreachableOk(cfg, ids, l, asked, n, peer);
      assert Unreachable(n, peer) == Done(Unreachable(n, peer).node, {}) by { QuietUnreachable(n, peer); }
    case Resizes(_, peer, cap) =>
      ResizeOk(cfg, ids, l, asked, n, peer, cap);
      assert Resize(n, peer, cap) == Done(Resize(n, peer, cap).node, {}) by { QuietResize(n, peer, cap); }
    case StepsDown(_) => StepDownOk(cfg, ids, l, asked, n);
    case Restarts(_) => RestartOk(cfg, ids, l, asked, n);
  }

  lemma QuietClear(n: Node)
    ensures ClearGroups(n) == Done(ClearGroups(n).node, {})
  {
  }

  lemma QuietUnreachable(n: Node, peer: NodeId)
    ensures Unreachable(n, peer) == Done(Unreachable(n, peer).node, {})
  {
  }

  lemma QuietResize(n: Node, peer: NodeId, cap: nat)
    ensures Resize(n, peer, cap) == Done(Resize(n, peer, cap).node, {})
  {
  }

  lemma StepDownOk(cfg: JointConfig, ids: set<NodeId>, l: Ledger, asked: Asked, n: Node)
    requires Ready(cfg, ids, l, asked, n)
    ensures StepOk(cfg, ids, l, asked, n, StepDown(n).node, {})
  {
    hide StepOk, NodeOk, Inv, RecordOk;
    if n.role == Leader {
      FollowOk(cfg, ids, l, asked, n, n.term, INVALID_ID);
    } else {
      QuietOk(cfg, ids, l, asked, n, n, {});
    }
  }

  lemma RestartOk(cfg: JointConfig, ids: set<NodeId>, l: Ledger, asked: Asked, n: Node)
    requires Ready(cfg, ids, l, asked, n)
    ensures StepOk(cfg, ids, l, asked, n, Restart(n).node, {})
  {
    hide NodeOk, Inv, RecordOk, MsgOk, Grows, Observe;
    var n1 := n.(persisted := |n.log|);
    PersistedNode(ids, l, asked, n, |n.log|);
    var r := BecomeFollower(n1, n.term, INVALID_ID);
    FollowOk(cfg, ids, l, asked, n1, n.term, INVALID_ID);
    SameStart(cfg, ids, l, asked, n, n1, r, {});
    var k := Observe(l, n, r, {});
    assert Observe(l, n, Restart(n).node, {}) == k by { ForgetObserve(l, n, r); }
    assert NodeOk(ids, k, asked, Restart(n).node) by { ForgetReads(ids, k, asked, r); }
  }

  lemma ForgetObserve(l: Ledger, n: Node, r: Node)
    ensures Observe(l, n, r.(readStates := []), {}) == Observe(l, n, r, {})
  {
  }

  lemma ForgetReads(ids: set<NodeId>, l: Ledger, asked: Asked, n: Node)
    requires NodeOk(ids, l, asked, n) && n.role == Follower
    ensures NodeOk(ids, l, asked, n.(readStates := []))
  {
    hide Settled;
  }

  lemma ReactOk(cfg: JointConfig, s: Cluster, e: Event)
    requires Safe(cfg, s) && Enabled(cfg, s, e)
    ensures ReactionOk(cfg, s, e, React(cfg, s.nodes[Actor(e)], e))
  {
    hide ClusterInv, StepOk, RecordOk, Observe, NodeOk, Grants, WinsTooEarly, AloneTooEarly, Contested;
    var i := Actor(e);
    var n := s.nodes[i];
    if Asks(cfg, n, e).Some? {
      AskOk(cfg, s, e);
    } else {
      ReadyFrom(cfg, s, i);
      if e.Deliver? {
        NetOk(cfg, s, e.m);
        MessageOk(cfg, s.nodes.Keys, s.ledger, s.asked, n, e.m);
      } else {
        LocalOk(cfg, s.nodes.Keys, s.ledger, s.asked, n, e);
      }
    }
  }

  lemma NextInv(cfg: JointConfig, s: Cluster, e: Event, s': Cluster)
    requires Safe(cfg, s) && Next(cfg, s, e, s')
    ensures ClusterInv(cfg, s') && Grows(s.ledger, s'.ledger) && AskedGrows(s.asked, s'.asked)
  {
    hide ClusterInv, RecordOk, Observe, NodeOk, Grants, Inv, React, MsgOk, Grows, AskedGrows, Contested;
    ReactOk(cfg, s, e);
    var n := s.nodes[Actor(e)];
    var d := React(cfg, n, e);
    StepKeeps(cfg, s, e, d.node, d.out, RecordRead(cfg, s, n, e));
    assert s' == After(cfg, s, e, d.node, d.out).(asked := RecordRead(cfg, s, n, e));
  }
}
