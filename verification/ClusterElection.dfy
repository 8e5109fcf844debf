/** Steps of nodes that campaign, collect votes and win. */
module ClusterElection {
  import opened Quorum
  import opened LogModel
  import opened ReadOnlyModel
  import opened RaftNode
  import opened Ledger
  import opened LedgerActions
  import opened Cluster
  import opened ClusterFrame
  import opened ClusterFollower

  // Winning ---------------------------------------------------------------------------------------

  function FirstEntry(n: Node): Entry {
    Entry(n.term, |n.log| + 1, 0)
  }

  lemma LeaderShape(n: Node)
    requires n.id in n.progress && n.persisted == |n.log|
    ensures var r := AsLeader(n);
            && r.id == n.id && r.term == n.term && r.vote == n.vote && r.role == Leader
            && r.log == n.log + [FirstEntry(n)] && r.committed == n.committed
            && r.progress.Keys == n.progress.Keys && r.readOnly == NoReads() && r.readStates == n.readStates
            && r.progress[n.id].matched == |n.log| == r.persisted
  {
    assert NewEntries(n.term, |n.log|, [0]) == [FirstEntry(n)];
  }

  lemma MayLeadNow(cfg: JointConfig, ids: set<NodeId>, l: Ledger, asked: Asked, n: Node)
    requires Ready(cfg, ids, l, asked, n) && n.role == Candidate && JointVote(cfg, n.votes) == Won
    ensures MayLead(cfg, l, n.id, FirstEntry(n)) && n.term >= 1
  {
    var t := n.term;
    JointVoteMeaning(cfg, n.votes);
    hide IsQuorum, JointVote, RecordOk, Settled;
    assert forall j <- Granted(n.votes) :: j in VotersFor(l, t, n.id);
    QuorumGrows(cfg, Granted(n.votes), VotersFor(l, t, n.id));
    if t in l.reign {
      OneLeader(cfg, l, t, n.id);
    }
  }

  /** The ledger that a new leader leaves behind: it leads, and it has acknowledged its own log. */
  function Elected(l: Ledger, n: Node): Ledger
    requires n.id in l.term && n.id in l.log && l.term[n.id] == n.term
  {
    var k := Elect(l, n.id, FirstEntry(n));
    k.(acked := RaiseAck(l, n.id, n.term, |n.log|))
  }

  lemma ElectedIsAccepted(l: Ledger, n: Node)
    requires n.id in l.term && n.id in l.log && l.term[n.id] == n.term && l.log[n.id] == n.log
    ensures var k := Elect(l, n.id, FirstEntry(n));
            MayAccept(k, n.id, n.term, |n.log|) && Accept(k, n.id, n.term, |n.log|) == Elected(l, n)
  {
    var k := Elect(l, n.id, FirstEntry(n));
    assert k.reign[n.term].log[..|n.log|] == n.log;
    assert k.log[n.id := k.log[n.id]] == k.log;
  }

  lemma ElectedKeeps(cfg: JointConfig, l: Ledger, n: Node)
    requires Inv(cfg, l) && MayLead(cfg, l, n.id, FirstEntry(n)) && n.term >= 1
    requires n.id in l.term && n.id in l.log
    requires l.term[n.id] == n.term && l.log[n.id] == n.log
    ensures Inv(cfg, Elected(l, n)) && Grows(l, Elected(l, n))
  {
    hide Inv, Grows, MayLead;
    var k := Elect(l, n.id, FirstEntry(n));
    ElectKeeps(cfg, l, n.id, FirstEntry(n));
    ElectedIsAccepted(l, n);
    AcceptKeeps(cfg, k, n.id, n.term, |n.log|);
    GrowsTransitive(l, k, Elected(l, n));
  }

  lemma NoOwnCommit(l: Ledger, n: Node)
    requires CampaignsOk(l) && CandidateOk(l, n) && n.id in n.progress && n.committed <= |n.log| == n.persisted
    ensures OwnCommitted(AsLeader(n)) == 0
  {
    LeaderShape(n);
    assert TermsUpTo(n.log, n.term - 1);
  }

  lemma ObserveElected(l: Ledger, n: Node, out: set<Message>)
    requires n.id in l.term && n.id in l.log && l.term[n.id] == n.term && l.log[n.id] == n.log
    requires (n.id, n.term) in l.vote && l.vote[(n.id, n.term)] == n.id && n.vote == n.id && n.id != INVALID_ID
    requires n.id in n.progress && n.persisted == |n.log| && OwnCommitted(AsLeader(n)) == 0
    ensures Observe(l, n, AsLeader(n), out) == Elected(l, n)
  {
    LeaderShape(n);
    assert l.term[n.id := n.term] == l.term;
    assert l.vote[(n.id, n.term) := n.id] == l.vote;
  }

  lemma NewLeaderPeers(l: Ledger, n: Node, j: NodeId)
    requires n.id in n.progress && j in n.progress && n.persisted == |n.log| <= Acked(l, n.id, n.term)
    ensures AsLeader(n).progress.Keys == n.progress.Keys && PeerOk(l, AsLeader(n), j)
  {
    LeaderShape(n);
  }

  lemma ElectedNode(cfg: JointConfig, ids: set<NodeId>, l: Ledger, asked: Asked, n: Node)
    requires AcksOk(l) && CampaignsOk(l) && NodeOk(ids, l, asked, n) && n.role == Candidate && n.term !in l.reign
    requires Grows(l, Elected(l, n)) && n.persisted == |n.log|
    ensures OwnCommitted(AsLeader(n)) == 0
    ensures NodeOk(ids, Elected(l, n), asked, AsLeader(n))
  {
    hide Settled, Grows, CampaignsOk, LeaderOk, ReadOk;
    var k, r := Elected(l, n), AsLeader(n);
    LeaderShape(n);
    NoOwnCommit(l, n);
    assert n.log <= r.log;
    SettledGrows(l, k, n.log, r.log, n.committed);
    assert Acked(l, n.id, n.term) == 0;
    assert Holds(k, n.term, |n.log|, r.log);
    ElectedLeader(l, asked, n);
  }

  lemma ElectedLeader(l: Ledger, asked: Asked, n: Node)
    requires n.id in l.term && n.id in l.log && l.term[n.id] == n.term && l.log[n.id] == n.log && n.id in n.progress
    requires n.term >= 1 && n.vote == n.id && n.persisted == |n.log| && OwnCommitted(AsLeader(n)) == 0
    ensures LeaderOk(Elected(l, n), asked, AsLeader(n))
  {
    var k, r := Elected(l, n), AsLeader(n);
    LeaderShape(n);
    hide OwnCommitted, PeerOk;
    forall j <- r.progress
      ensures PeerOk(k, r, j)
    {
      NewLeaderPeers(k, n, j);
    }
  }

  /** A candidate whose grants form a quorum becomes the leader of its term. */
  lemma WinOk(cfg: JointConfig, ids: set<NodeId>, l: Ledger, asked: Asked, n: Node)
    requires Ready(cfg, ids, l, asked, n) && n.role == Candidate && JointVote(cfg, n.votes) == Won
    requires n.persisted == |n.log|
    ensures StepOk(cfg, ids, l, asked, n, AsLeader(n), {})
  {
    hide NodeOk, Inv, Observe, RecordOk, Grows, JointVote, AsLeader, OwnCommitted;
    MayLeadNow(cfg, ids, l, asked, n);
    WinFacts(cfg, ids, l, asked, n);
    ElectedKeeps(cfg, l, n);
    ElectedNode(cfg, ids, l, asked, n);
    ObserveElected(l, n, {});
    assert AsLeader(n).id == n.id by { LeaderShape(n); }
  }

  lemma WinFacts(cfg: JointConfig, ids: set<NodeId>, l: Ledger, asked: Asked, n: Node)
    requires Ready(cfg, ids, l, asked, n) && n.role == Candidate
    ensures AcksOk(l) && CampaignsOk(l) && NodeOk(ids, l, asked, n)
    ensures n.id in l.term && n.id in l.log && l.term[n.id] == n.term && l.log[n.id] == n.log
    ensures (n.id, n.term) in l.vote && l.vote[(n.id, n.term)] == n.id && n.vote == n.id && n.id != INVALID_ID
    ensures n.id in n.progress
  {
    hide RecordOk, Settled;
  }

  // Counting votes --------------------------------------------------------------------------------

  /** Observing a step needs only the node's identity, term and log before it. */
  lemma SameStart(cfg: JointConfig, ids: set<NodeId>, l: Ledger, asked: Asked, n: Node, r: Node, n': Node,
                  out: set<Message>)
    requires r.id == n.id && r.term == n.term && r.log == n.log
    requires StepOk(cfg, ids, l, asked, r, n', out)
    ensures StepOk(cfg, ids, l, asked, n, n', out)
  {
    assert Observe(l, n, n', out) == Observe(l, r, n', out);
  }

  lemma RecordNode(ids: set<NodeId>, l: Ledger, asked: Asked, n: Node, from: NodeId, grant: bool)
    requires NodeOk(ids, l, asked, n) && n.role != Leader
    requires n.role == Candidate && grant ==> (from, n.term) in l.vote && l.vote[(from, n.term)] == n.id
    ensures NodeOk(ids, l, asked, RecordVote(n, from, grant))
  {
    hide Settled;
  }

  /** A node that still collects votes cannot win with its own vote alone. */
  ghost predicate Contested(cfg: JointConfig, n: Node) {
    n.role == Candidate || n.role == PreCandidate ==> JointVote(cfg, map[n.id := true]) != Won
  }

  /** Counting the ballot makes the node win although part of its log is not known to be persisted. */
  predicate WinsTooEarly(cfg: JointConfig, n: Node, from: NodeId, grant: bool) {
    n.persisted < |n.log| && JointVote(cfg, RecordVote(n, from, grant).votes) == Won
  }

  lemma PollElectionOk(cfg: JointConfig, ids: set<NodeId>, l: Ledger, asked: Asked, n: Node, from: NodeId, grant: bool)
    requires Ready(cfg, ids, l, asked, n) && n.role == Candidate
    requires grant ==> (from, n.term) in l.vote && l.vote[(from, n.term)] == n.id
    ensures var d := PollElection(cfg, n, from, grant);
            && (d.Fatal? <==> WinsTooEarly(cfg, n, from, grant))
            && (d.Done? ==> d.out == {} && d.node.term == n.term && d.node.vote == n.vote
                            && StepOk(cfg, ids, l, asked, n, d.node, {}))
            && (d.Done? && d.node.role != Leader ==>
                  d.node.log == n.log && d.node.committed == n.committed && d.node.priority == n.priority)
  {
    hide NodeOk, Inv, RecordOk, StepOk, JointVote, MsgOk;
    PersistedWithin(ids, l, asked, n);
    var r := RecordVote(n, from, grant);
    RecordNode(ids, l, asked, n, from, grant);
    assert n.id in n.progress by { WinFacts(cfg, ids, l, asked, n); }
    match JointVote(cfg, r.votes)
    case Won =>
      if r.persisted == |r.log| {
        WinOk(cfg, ids, l, asked, r);
        LeaderShape(r);
        SameStart(cfg, ids, l, asked, n, r, AsLeader(r), {});
      }
    case Lost =>
      FollowOk(cfg, ids, l, asked, r, r.term, INVALID_ID);
      SameStart(cfg, ids, l, asked, n, r, BecomeFollower(r, r.term, INVALID_ID), {});
    case Pending => QuietOk(cfg, ids, l, asked, n, r, {});
  }

  // Campaigning -----------------------------------------------------------------------------------

  lemma CampaignNode(ids: set<NodeId>, l: Ledger, asked: Asked, n: Node)
    requires AcksOk(l) && VotesOk(l) && CampaignsOk(l) && NodeOk(ids, l, asked, n) && Grows(l, Campaign(l, n.id))
    requires forall t <- l.reign :: (l.reign[t].leader, t) in l.campaign
    ensures NodeOk(ids, Campaign(l, n.id), asked, BecomeCandidate(n))
  {
    hide Settled, Grows;
    var k, r := Campaign(l, n.id), BecomeCandidate(n);
    SettledGrows(l, k, n.log, n.log, n.committed);
    assert r.progress.Keys == n.progress.Keys;
    assert Acked(l, n.id, r.term) == 0;
    if r.term in l.reign {
      assert l.reign[r.term].leader != n.id;
    }
  }

  lemma CampaignFacts(cfg: JointConfig, ids: set<NodeId>, l: Ledger, asked: Asked, n: Node)
    requires Ready(cfg, ids, l, asked, n)
    ensures AcksOk(l) && VotesOk(l) && CampaignsOk(l) && NodeOk(ids, l, asked, n)
    ensures forall t <- l.reign :: (l.reign[t].leader, t) in l.campaign
    ensures n.id in l.term && n.id in l.log && l.log[n.id] == n.log && l.term[n.id] == n.term
    ensures n.id in ids && n.id != INVALID_ID
  {
    hide RecordOk, Settled;
  }

  lemma CampaignReady(cfg: JointConfig, ids: set<NodeId>, l: Ledger, asked: Asked, n: Node)
    requires Ready(cfg, ids, l, asked, n)
    requires n.id in l.term && n.id in l.log
    ensures Ready(cfg, ids, Campaign(l, n.id), asked, BecomeCandidate(n)) && Grows(l, Campaign(l, n.id))
  {
    hide NodeOk, Inv, RecordOk, Grows, Campaign, BecomeCandidate;
    CampaignFacts(cfg, ids, l, asked, n);
    CampaignKeeps(cfg, l, n.id);
    CampaignNode(ids, l, asked, n);
    GrowsKeys(l, Campaign(l, n.id));
    KeepRecords(cfg, l, Campaign(l, n.id), asked, asked);
  }

  lemma ObserveCampaign(l: Ledger, n: Node, r: Node, out: set<Message>)
    requires n.id in l.term && n.id in l.log && l.log[n.id] == n.log && n.id != INVALID_ID && l.term[n.id] == n.term
    requires r.id == n.id && r.term == n.term + 1 && r.vote == n.id
    ensures Observe(Campaign(l, n.id), BecomeCandidate(n), r, out) == Observe(l, n, r, out)
  {
    var k := Campaign(l, n.id);
    assert k.term[n.id := r.term] == l.term[n.id := r.term];
    assert k.vote[(n.id, r.term) := n.id] == l.vote[(n.id, r.term) := n.id];
  }

  lemma ObserveQuiet(l: Ledger, n: Node, r: Node, out: set<Message>)
    requires Silent(out)
    ensures Observe(l, n, r, out) == Observe(l, n, r, {})
  {
    NoAck(out, r.term);
    NoAck({}, r.term);
  }

  lemma RequestsOk(cfg: JointConfig, ids: set<NodeId>, l: Ledger, asked: Asked, n: Node, term: nat, pre: bool)
    requires n.id in ids && n.id != INVALID_ID && term >= 1
    requires CommitInfoOk(l, n.committed, CommitTerm(n))
    requires !pre ==> (n.id, term) in l.campaign && l.campaign[(n.id, term)] == n.log
    ensures forall m <- VoteRequests(cfg, n, term, pre) :: MsgOk(ids, l, asked, m)
    ensures Silent(VoteRequests(cfg, n, term, pre))
  {
    hide CommitInfoOk;
  }


  /** What CampaignElection leaves to check once the vote for itself has been counted. */
  lemma CampaignOut(cfg: JointConfig, ids: set<NodeId>, l: Ledger, asked: Asked, n: Node, c: Node, r: Node, k: Ledger)
    requires n.id in l.term && n.id in l.log && l.log[n.id] == n.log && l.term[n.id] == n.term
    requires Grows(Campaign(l, n.id), k) && NodeOk(ids, k, asked, r) && GoodLog(k, r.log, r.term)
    requires r.id == n.id && r.log == n.log
    ensures forall m <- VoteRequests(cfg, r, n.term + 1, false) :: MsgOk(ids, k, asked, m)
    ensures Silent(VoteRequests(cfg, r, n.term + 1, false))
  {
    hide Settled, Traced, VoteRequests, MsgOk, Silent;
    OwnCommitInfo(k, r);
    assert (n.id, n.term + 1) in Campaign(l, n.id).campaign;
    RequestsOk(cfg, ids, k, asked, r, n.term + 1, false);
  }

  lemma StepLog(cfg: JointConfig, ids: set<NodeId>, l: Ledger, asked: Asked, n: Node, r: Node, out: set<Message>)
    requires StepOk(cfg, ids, l, asked, n, r, out)
    ensures var k := Observe(l, n, r, out);
            NodeOk(ids, k, asked, r) && GoodLog(k, r.log, r.term) && Grows(l, k) && Inv(cfg, k) && r.id == n.id
  {
    hide Settled, Grows, MsgOk, Observe;
    var k := Observe(l, n, r, out);
    GoodLogs(cfg, k, r.id, r.term);
  }

  /** The node's own vote alone wins, and part of its log is not known to be persisted. */
  predicate AloneTooEarly(cfg: JointConfig, n: Node) {
    n.persisted < |n.log| && JointVote(cfg, map[n.id := true]) == Won
  }

  lemma FirstBallot(cfg: JointConfig, n: Node)
    ensures WinsTooEarly(cfg, BecomeCandidate(n), n.id, true) <==> AloneTooEarly(cfg, n)
  {
    hide JointVote;
    assert RecordVote(BecomeCandidate(n), n.id, true).votes == map[n.id := true];
  }

  lemma CampaignElectionOk(cfg: JointConfig, ids: set<NodeId>, l: Ledger, asked: Asked, n: Node)
    requires Ready(cfg, ids, l, asked, n) && n.role != Leader
    ensures var d := CampaignElection(cfg, n);
            && (d.Fatal? <==> AloneTooEarly(cfg, n))
            && (d.Done? ==> StepOk(cfg, ids, l, asked, n, d.node, d.out) && d.node.term == n.term + 1)
  {
    hide NodeOk, Inv, RecordOk, StepOk, Ready, MsgOk, Grows, Observe, PollElection, VoteRequests, Silent, GoodLog,
         WinsTooEarly;
    CampaignFacts(cfg, ids, l, asked, n);
    CampaignReady(cfg, ids, l, asked, n);
    var l1, c := Campaign(l, n.id), BecomeCandidate(n);
    PollElectionOk(cfg, ids, l1, asked, c, n.id, true);
    FirstBallot(cfg, n);
    if PollElection(cfg, c, n.id, true).Fatal? {
      return;
    }
    var r := PollElection(cfg, c, n.id, true).node;
    StepLog(cfg, ids, l1, asked, c, r, {});
    ObserveCampaign(l, n, r, {});
    var k := Observe(l, n, r, {});
    GrowsTransitive(l, l1, k);
    if r.role == Leader {
      assert StepOk(cfg, ids, l, asked, n, r, {}) by { AssembleStep(cfg, ids, l, asked, n, r, {}); }
    } else {
      CampaignOut(cfg, ids, l, asked, n, c, r, k);
      var out := VoteRequests(cfg, r, n.term + 1, false);
      ObserveQuiet(l, n, r, out);
      AssembleStep(cfg, ids, l, asked, n, r, out);
    }
  }

  lemma AssembleStep(cfg: JointConfig, ids: set<NodeId>, l: Ledger, asked: Asked, n: Node, r: Node, out: set<Message>)
    requires var k := Observe(l, n, r, out);
             r.id == n.id && Inv(cfg, k) && Grows(l, k) && NodeOk(ids, k, asked, r)
             && forall m <- out :: MsgOk(ids, k, asked, m)
    ensures StepOk(cfg, ids, l, asked, n, r, out)
  {
  }

  lemma PollPreOk(cfg: JointConfig, ids: set<NodeId>, l: Ledger, asked: Asked, n: Node, from: NodeId, grant: bool)
    requires Ready(cfg, ids, l, asked, n) && n.role == PreCandidate
    ensures var d := PollPre(cfg, n, from, grant);
            && (d.Fatal? <==> JointVote(cfg, RecordVote(n, from, grant).votes) == Won && AloneTooEarly(cfg, n))
            && (d.Done? ==> StepOk(cfg, ids, l, asked, n, d.node, d.out) && n.term <= d.node.term <= n.term + 1)
            && (d.Done? && d.node.term == n.term ==>
                  d.out == {} && d.node.log == n.log && d.node.committed == n.committed)
  {
    hide NodeOk, Inv, RecordOk, StepOk, JointVote, MsgOk, CampaignElection;
    var r := RecordVote(n, from, grant);
    RecordNode(ids, l, asked, n, from, grant);
    match JointVote(cfg, r.votes)
    case Won =>
      CampaignElectionOk(cfg, ids, l, asked, r);
      var d := CampaignElection(cfg, r);
      if d.Done? {
        SameStart(cfg, ids, l, asked, n, r, d.node, d.out);
      }
    case Lost =>
      FollowOk(cfg, ids, l, asked, r, r.term, INVALID_ID);
      SameStart(cfg, ids, l, asked, n, r, BecomeFollower(r, r.term, INVALID_ID), {});
    case Pending => QuietOk(cfg, ids, l, asked, n, r, {});
  }

  lemma PreNode(ids: set<NodeId>, l: Ledger, asked: Asked, n: Node)
    requires NodeOk(ids, l, asked, n)
    ensures NodeOk(ids, l, asked, BecomePreCandidate(n))
  {
    hide Settled;
  }

  lemma PreOut(cfg: JointConfig, ids: set<NodeId>, l: Ledger, asked: Asked, n: Node, r: Node)
    requires StepOk(cfg, ids, l, asked, n, r, {})
    ensures forall m <- VoteRequests(cfg, r, n.term + 1, true) :: MsgOk(ids, Observe(l, n, r, {}), asked, m)
    ensures Silent(VoteRequests(cfg, r, n.term + 1, true))
  {
    hide Settled, Grows, MsgOk, Observe, Silent, VoteRequests, Traced, StepOk;
    var k := Observe(l, n, r, {});
    StepLog(cfg, ids, l, asked, n, r, {});
    OwnCommitInfo(k, r);
    RequestsOk(cfg, ids, k, asked, r, n.term + 1, true);
  }

  lemma CampaignPreOk(cfg: JointConfig, ids: set<NodeId>, l: Ledger, asked: Asked, n: Node)
    requires Ready(cfg, ids, l, asked, n) && n.role != Leader
    ensures var d := CampaignPre(cfg, n);
            (d.Fatal? <==> AloneTooEarly(cfg, n)) && (d.Done? ==> StepOk(cfg, ids, l, asked, n, d.node, d.out))
  {
    hide NodeOk, Inv, RecordOk, StepOk, MsgOk, PollPre, VoteRequests, Observe, Silent, Grows, GoodLog;
    var p := BecomePreCandidate(n);
    PreNode(ids, l, asked, n);
    PollPreOk(cfg, ids, l, asked, p, n.id, true);
    var d := PollPre(cfg, p, n.id, true);
    assert RecordVote(p, n.id, true).votes == map[n.id := true];
    if d.Fatal? {
      return;
    }
    SameStart(cfg, ids, l, asked, n, p, d.node, d.out);
    if d.node.term == n.term {
      var r, out := d.node, VoteRequests(cfg, d.node, n.term + 1, true);
      PreOut(cfg, ids, l, asked, n, r);
      ObserveQuiet(l, n, r, out);
      StepLog(cfg, ids, l, asked, n, r, {});
      AssembleStep(cfg, ids, l, asked, n, r, out);
    }
  }

  lemma HupOk(cfg: JointConfig, ids: set<NodeId>, l: Ledger, asked: Asked, n: Node, transfer: bool)
    requires Ready(cfg, ids, l, asked, n)
    ensures var d := Hup(cfg, n, transfer);
            && (d.Fatal? <==> n.role != Leader && AloneTooEarly(cfg, n))
            && (d.Done? ==> StepOk(cfg, ids, l, asked, n, d.node, d.out))
  {
    hide NodeOk, Inv, RecordOk, StepOk, MsgOk, CampaignPre, CampaignElection, AloneTooEarly;
    if n.role == Leader {
      QuietOk(cfg, ids, l, asked, n, n, {});
    } else if n.preVote && !transfer {
      CampaignPreOk(cfg, ids, l, asked, n);
    } else {
      CampaignElectionOk(cfg, ids, l, asked, n);
    }
  }

  // Responses -------------------------------------------------------------------------------------

  lemma ObserveCommit(l: Ledger, n: Node, r: Node, out: set<Message>, c: nat)
    requires r.role != Leader
    ensures Observe(l, n, r.(committed := c), out) == Observe(l, n, r, out)
  {
  }

  /** A commit index learnt from a vote message after the vote has been counted. */
  lemma ThenCommitByVote(cfg: JointConfig, ids: set<NodeId>, l: Ledger, asked: Asked, n: Node, r: Node,
                         out: set<Message>, commit: nat, commitTerm: nat)
    requires StepOk(cfg, ids, l, asked, n, r, out) && CommitInfoOk(l, commit, commitTerm)
    ensures var d := CommitByVote(r, commit, commitTerm);
            d.Done? && StepOk(cfg, ids, l, asked, n, d.node, out)
  {
    hide NodeOk, Inv, Observe, Grows, CommitInfoOk, MsgOk, Traced;
    var k := Observe(l, n, r, out);
    StepLog(cfg, ids, l, asked, n, r, out);
    CommitInfoGrows(l, k, commit, commitTerm);
    CommitByVoteOk(cfg, ids, k, asked, r, commit, commitTerm);
    var d := CommitByVote(r, commit, commitTerm);
    if r.role != Leader {
      ObserveCommit(l, n, r, out, d.node.committed);
    }
  }

  lemma HandleVoteRespOk(cfg: JointConfig, ids: set<NodeId>, l: Ledger, asked: Asked, n: Node, m: Message)
    requires Ready(cfg, ids, l, asked, n) && MsgOk(ids, l, asked, m)
    requires m.VoteResp? && m.to == n.id && (m.pre || m.term == n.term)
    requires if m.pre then n.role == PreCandidate else n.role == Candidate
    requires Contested(cfg, n)
    ensures var d := HandleVoteResp(cfg, n, m);
            && (d.Fatal? <==> !m.pre && WinsTooEarly(cfg, n, m.from, !m.reject))
            && (d.Done? ==> StepOk(cfg, ids, l, asked, n, d.node, d.out))
  {
    hide NodeOk, Inv, RecordOk, StepOk, Ready, PollPre, PollElection, CommitByVote, CommitInfoOk, JointVote;
    if m.pre {
      PollPreOk(cfg, ids, l, asked, n, m.from, !m.reject);
      var d := PollPre(cfg, n, m.from, !m.reject);
      ThenCommitByVote(cfg, ids, l, asked, n, d.node, d.out, m.commit, m.commitTerm);
    } else {
      PollElectionOk(cfg, ids, l, asked, n, m.from, !m.reject);
      var d := PollElection(cfg, n, m.from, !m.reject);
      if d.Done? {
        ThenCommitByVote(cfg, ids, l, asked, n, d.node, {}, m.commit, m.commitTerm);
      }
    }
  }
}
