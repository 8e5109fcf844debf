/** Runs from an empty cluster: what no reaction does, and the invariant at every state. */
module ClusterRuns {
  import opened Quorum
  import opened LogModel
  import opened CommittedIndex
  import opened RaftNode
  import opened Ledger
  import opened LedgerActions
  import opened Cluster
  import opened ClusterFrame
  import opened ClusterFollower
  import opened ClusterElection
  import opened ClusterReads
  import opened ClusterSafety

  // What no reaction does -------------------------------------------------------------------------

  predicate Stands(n: Node) {
    n.role == Candidate || n.role == PreCandidate
  }

  /** Nobody leaves the follower role or starts to stand by reacting, and no commit index moves back. */
  ghost predicate Mild(n: Node, d: Outcome) {
    d.Done? ==>
      && (d.node.role != Follower ==> n.role != Follower) && (Stands(d.node) ==> Stands(n))
      && n.committed <= d.node.committed && d.node.id == n.id
  }

  lemma MildCommit(cfg: JointConfig, n: Node)
    ensures Mild(n, MaybeCommit(cfg, n))
  {
    hide JointIndex;
  }

  lemma MildElection(cfg: JointConfig, n: Node, from: NodeId, grant: bool)
    requires Stands(n)
    ensures Mild(n, PollElection(cfg, n, from, grant))
  {
    hide JointVote, ResetProgress, NewEntries;
  }

  /** A campaign moves no commit index back, and goes on only if the node's own vote does not decide it. */
  ghost predicate Fair(cfg: JointConfig, n: Node, d: Outcome) {
    d.Done? ==> n.committed <= d.node.committed && d.node.id == n.id && Contested(cfg, d.node)
  }

  lemma FairElection(cfg: JointConfig, n: Node)
    ensures Fair(cfg, n, CampaignElection(cfg, n))
  {
    hide VoteRequests, ResetProgress, NewEntries, JointVote;
    assert RecordVote(BecomeCandidate(n), n.id, true).votes == map[n.id := true];
  }

  lemma MildPollPre(cfg: JointConfig, n: Node, from: NodeId, grant: bool)
    requires n.role == PreCandidate
    ensures Mild(n, PollPre(cfg, n, from, grant))
  {
    hide JointVote, CampaignElection, ResetProgress;
    FairElection(cfg, RecordVote(n, from, grant));
  }

  lemma FairPre(cfg: JointConfig, n: Node)
    ensures Fair(cfg, n, CampaignPre(cfg, n))
  {
    hide VoteRequests, CampaignElection, ResetProgress, JointVote;
    var p := BecomePreCandidate(n);
    assert RecordVote(p, n.id, true).votes == map[n.id := true];
    FairElection(cfg, RecordVote(p, n.id, true));
  }

  lemma FairHup(cfg: JointConfig, n: Node, transfer: bool)
    ensures Fair(cfg, n, Hup(cfg, n, transfer))
  {
    hide CampaignPre, CampaignElection, JointVote;
    FairElection(cfg, n);
    FairPre(cfg, n);
  }

  lemma MildLeader(cfg: JointConfig, n: Node, m: Message)
    requires n.role == Leader
    ensures Mild(n, StepLeader(cfg, n, m))
  {
    hide MaybeCommit, IsQuorum, LastUpTo;
    if m.AppendResp? && m.from in n.progress && !m.reject {
      var (p, news) := n.progress[m.from].(recentActive := true).UpdateCommitted(m.commit).MaybeUpdate(m.index);
      MildCommit(cfg, SetProgress(n, m.from, AfterUpdate(p, m.index)));
    }
  }

  lemma MildAppend(n: Node, m: Message)
    requires m.AppendMsg?
    ensures Mild(n, HandleAppend(n, m))
  {
    hide FindConflict, LastUpTo;
  }

  lemma MildCandidate(cfg: JointConfig, n: Node, m: Message)
    requires Stands(n)
    ensures Mild(n, StepCandidate(cfg, n, m))
  {
    hide PollElection, PollPre, HandleAppend;
    if m.AppendMsg? {
      MildAppend(BecomeFollower(n, m.term, m.from), m);
    } else if m.VoteResp? {
      MildElection(cfg, n, m.from, !m.reject);
      if n.role == PreCandidate {
        MildPollPre(cfg, n, m.from, !m.reject);
      }
    }
  }

  lemma MildRole(cfg: JointConfig, n: Node, m: Message)
    ensures Mild(n, StepRole(cfg, n, m))
  {
    hide StepLeader, StepCandidate, HandleAppend, UpToDate;
    if !m.RequestVote? {
      match n.role
      case Follower =>
        if m.AppendMsg? {
          MildAppend(n.(leaderId := m.from), m);
        }
      case Leader => MildLeader(cfg, n, m);
      case _ => MildCandidate(cfg, n, m);
    }
  }

  lemma MildStep(cfg: JointConfig, n: Node, m: Message)
    ensures Mild(n, Step(cfg, n, m))
  {
    hide StepRole;
    MildRole(cfg, n, m);
    MildRole(cfg, BecomeFollower(n, m.term, if m.AppendMsg? || m.Heartbeat? then m.from else INVALID_ID), m);
  }

  lemma MildPersisted(cfg: JointConfig, n: Node, upTo: nat, ofTerm: nat)
    ensures Mild(n, Persisted(cfg, n, upTo, ofTerm))
  {
    hide MaybeCommit, TermAt;
    if n.id in n.progress {
      MildCommit(cfg, SetProgress(n, n.id, n.progress[n.id].MaybeUpdate(upTo).0).(persisted := upTo));
    }
  }

  lemma MildGroups(cfg: JointConfig, n: Node, enable: bool, ids: seq<(NodeId, nat)>)
    ensures Mild(n, EnableGroups(cfg, n, enable)) && Mild(n, AssignGroups(cfg, n, ids)) && Mild(n, ClearGroups(n))
  {
    hide MaybeCommit, Assign;
    MildCommit(cfg, n.(groupCommit := enable));
    MildCommit(cfg, n.(progress := Assign(n.progress, ids)));
  }

  lemma MildReact(cfg: JointConfig, n: Node, e: Event)
    requires Contested(cfg, n)
    ensures var d := React(cfg, n, e);
            d.Done? ==> n.committed <= d.node.committed && Contested(cfg, d.node)
                        && (d.node.role != Follower ==> n.role != Follower || e.Campaigns?)
  {
    hide Step, Hup, Persisted, EnableGroups, AssignGroups, ClearGroups, ResetProgress, NewEntries, JointVote;
    match e
    case Deliver(m) => MildStep(cfg, n, m);
    case AskRead(_, ctx) => MildStep(cfg, n, ReadIndex(INVALID_ID, n.id, 0, ctx));
    case Campaigns(_, transfer) => FairHup(cfg, n, transfer);
    case Persists(_, upTo, ofTerm) => MildPersisted(cfg, n, upTo, ofTerm);
    case EnablesGroups(_, enable) => MildGroups(cfg, n, enable, []);
    case AssignsGroups(_, ids) => MildGroups(cfg, n, false, ids);
    case ClearsGroups(_) => MildGroups(cfg, n, false, []);
    case _ =>
  }

  lemma NextSafe(cfg: JointConfig, s: Cluster, e: Event, s': Cluster)
    requires Safe(cfg, s) && Next(cfg, s, e, s')
    ensures Safe(cfg, s') && Grows(s.ledger, s'.ledger) && AskedGrows(s.asked, s'.asked)
  {
    hide ClusterInv, React, Observe, Grows, AskedGrows, RecordRead, Asks, Contested;
    NextInv(cfg, s, e, s');
    MildReact(cfg, s.nodes[Actor(e)], e);
  }

  // The first state -------------------------------------------------------------------------------

  ghost predicate Blank(ids: set<NodeId>, l: Ledger) {
    && l.term.Keys == ids && l.log.Keys == ids
    && (forall i <- ids :: l.term[i] == 0 && l.log[i] == [])
    && l.campaign == map[] && l.vote == map[] && l.reign == map[] && l.acked == map[]
  }

  lemma BlankInv(cfg: JointConfig, ids: set<NodeId>, l: Ledger)
    requires cfg.Ids() != {} && Blank(ids, l)
    ensures Inv(cfg, l)
  {
    hide Respects;
  }

  lemma FreshOk(ids: set<NodeId>, l: Ledger, asked: Asked, n: Node, i: NodeId)
    requires i in ids && i != INVALID_ID && Fresh(n, i, ids) && Blank(ids, l)
    ensures NodeOk(ids, l, asked, n) && n.id == i && n.role == Follower
  {
    assert n.log[..0] == LeaderLog(l, 0)[..0];
  }

  lemma InitParts(cfg: JointConfig, s: Cluster)
    requires Init(cfg, s)
    ensures Blank(s.nodes.Keys, s.ledger) && cfg.Ids() != {} && cfg.Ids() <= s.nodes.Keys && INVALID_ID !in s.nodes
    ensures s.net == {} && s.asked == Asked(map[], false) && forall i <- s.nodes :: Fresh(s.nodes[i], i, s.nodes.Keys)
  {
    hide Fresh;
  }

  lemma InitSafe(cfg: JointConfig, s: Cluster)
    requires Init(cfg, s)
    ensures Safe(cfg, s)
  {
    hide Init, Inv, NodeOk, MsgOk, RecordOk, Blank, Fresh;
    InitParts(cfg, s);
    BlankInv(cfg, s.nodes.Keys, s.ledger);
    BlankKeys(s.nodes.Keys, s.ledger);
    forall i <- s.nodes
      ensures s.nodes[i].id == i && s.nodes[i].role == Follower
      ensures NodeOk(s.nodes.Keys, s.ledger, s.asked, s.nodes[i])
    {
      FreshOk(s.nodes.Keys, s.ledger, s.asked, s.nodes[i], i);
    }
  }

  lemma BlankKeys(ids: set<NodeId>, l: Ledger)
    requires Blank(ids, l)
    ensures l.term.Keys == ids
  {
  }

  // Runs ------------------------------------------------------------------------------------------

  ghost predicate Steps(cfg: JointConfig, s: Cluster, s': Cluster) {
    exists e :: Next(cfg, s, e, s')
  }

  /** Any finite run from a fresh cluster: every state after the first comes from the one before it by one event. */
  ghost predicate IsRun(cfg: JointConfig, run: seq<Cluster>) {
    && |run| > 0 && Init(cfg, run[0])
    && forall k :: 0 <= k < |run| - 1 ==> Steps(cfg, run[k], run[k + 1])
  }

  lemma {:induction false} RunSafe(cfg: JointConfig, run: seq<Cluster>, k: nat)
    requires IsRun(cfg, run) && k < |run|
    ensures Safe(cfg, run[k])
  {
    hide Safe, Init, Next;
    if k == 0 {
      InitSafe(cfg, run[0]);
    } else {
      RunSafe(cfg, run, k - 1);
      assert Steps(cfg, run[k - 1], run[k - 1 + 1]);
      var e :| Next(cfg, run[k - 1], e, run[k]);
      NextSafe(cfg, run[k - 1], e, run[k]);
    }
  }

  /** From state `a` to state `b` the same nodes take part and no commit index moves back. */
  ghost predicate Ahead(s: Cluster, s': Cluster) {
    && s.nodes.Keys == s'.nodes.Keys
    && Grows(s.ledger, s'.ledger) && AskedGrows(s.asked, s'.asked)
    && forall i <- s.nodes :: s.nodes[i].committed <= s'.nodes[i].committed
  }

  lemma NextAhead(cfg: JointConfig, s: Cluster, e: Event, s': Cluster)
    requires Safe(cfg, s) && Next(cfg, s, e, s')
    ensures Ahead(s, s')
  {
    hide ClusterInv, VotersLead, React, Observe, Grows, AskedGrows, RecordRead, Asks, Contested;
    NextSafe(cfg, s, e, s');
    MildReact(cfg, s.nodes[Actor(e)], e);
  }

  lemma {:induction false} RunAhead(cfg: JointConfig, run: seq<Cluster>, a: nat, b: nat)
    requires IsRun(cfg, run) && a <= b < |run|
    ensures Ahead(run[a], run[b])
    decreases b
  {
    hide Safe, Init, Next, Ahead, Grows;
    if a == b {
      Same(run[a]);
    } else {
      RunAhead(cfg, run, a, b - 1);
      RunSafe(cfg, run, b - 1);
      assert Steps(cfg, run[b - 1], run[b - 1 + 1]);
      var e :| Next(cfg, run[b - 1], e, run[b]);
      NextAhead(cfg, run[b - 1], e, run[b]);
      AheadTransitive(run[a], run[b - 1], run[b]);
    }
  }

  lemma Same(s: Cluster)
    ensures Ahead(s, s)
  {
  }

  lemma AheadTransitive(s: Cluster, t: Cluster, u: Cluster)
    requires Ahead(s, t) && Ahead(t, u)
    ensures Ahead(s, u)
  {
    hide Grows;
    GrowsTransitive(s.ledger, t.ledger, u.ledger);
  }

  // What a state of a run says about one node -----------------------------------------------------

  lemma NodeFacts(cfg: JointConfig, run: seq<Cluster>, k: nat, i: NodeId)
    requires IsRun(cfg, run) && k < |run| && i in run[k].nodes
    ensures var l, n := run[k].ledger, run[k].nodes[i];
            && n.id == i && i in l.term && l.term[i] == n.term && GoodLog(l, n.log, n.term)
            && n.committed <= |n.log| && Settled(l, n.log, n.committed)
            && (n.vote != INVALID_ID <==> (i, n.term) in l.vote)
            && (n.vote != INVALID_ID ==> l.vote[(i, n.term)] == n.vote)
            && (n.role == Leader ==> n.term in l.reign && l.reign[n.term] == Reign(i, n.log, OwnCommitted(n)))
  {
    hide IsRun, Safe, GoodLog, Settled, OwnCommitted, PeerOk, QueueOk, Inv, MsgOk, RecordOk;
    RunSafe(cfg, run, k);
    InvOf(cfg, run[k]);
    assert NodeOk(run[k].nodes.Keys, run[k].ledger, run[k].asked, run[k].nodes[i]) by {
      ClusterFacts(cfg, run[k]);
    }
    assert run[k].nodes[i].id == i by { ClusterFacts(cfg, run[k]); }
    GoodLogs(cfg, run[k].ledger, i, 0);
  }

  lemma InvOf(cfg: JointConfig, s: Cluster)
    requires Safe(cfg, s)
    ensures ClusterInv(cfg, s) && Inv(cfg, s.ledger)
  {
  }

  lemma RunInv(cfg: JointConfig, run: seq<Cluster>, a: nat, b: nat)
    requires IsRun(cfg, run) && a <= b < |run|
    ensures Inv(cfg, run[b].ledger) && Grows(run[a].ledger, run[b].ledger) && run[a].nodes.Keys == run[b].nodes.Keys
  {
    hide IsRun, Inv, Grows, ClusterInv;
    RunSafe(cfg, run, b);
    InvOf(cfg, run[b]);
    RunAhead(cfg, run, a, b);
  }
}
