/** Runs exist: a fresh cluster of any size, and a run that elects a leader which commits. */
module ClusterExample {
  import opened Quorum
  import opened LogModel
  import opened CommittedIndex
  import opened ProgressModel
  import opened ReadOnlyModel
  import opened RaftNode
  import opened Ledger
  import opened Cluster
  import opened ClusterRuns

  function FreshNode(i: NodeId, ids: set<NodeId>): Node {
    Node(i, 0, INVALID_ID, Follower, INVALID_ID, [], 0, 0, map[], map j | j in ids :: NewProgress(1, 256), NoReads(),
         [], 0, false, false, false)
  }

  function FreshCluster(ids: set<NodeId>): Cluster {
    Cluster(map i | i in ids :: FreshNode(i, ids), {},
            Ledger(map i | i in ids :: 0, map i | i in ids :: [], map[], map[], map[], map[]), Asked(map[], false))
  }

  lemma FreshIsFresh(i: NodeId, ids: set<NodeId>)
    ensures Fresh(FreshNode(i, ids), i, ids)
  {
    assert FreshNode(i, ids).progress.Keys == ids;
  }

  /** Every configuration with voters has a run, whatever other nodes there are. */
  lemma FreshRuns(cfg: JointConfig, ids: set<NodeId>)
    requires cfg.Ids() != {} && cfg.Ids() <= ids && INVALID_ID !in ids
    ensures IsRun(cfg, [FreshCluster(ids)])
  {
    hide Fresh, FreshNode, Next;
    var s := FreshCluster(ids);
    assert s.nodes.Keys == ids;
    assert s.ledger == Ledger(map i | i in s.nodes :: 0, map i | i in s.nodes :: [], map[], map[], map[], map[]);
    forall i <- s.nodes
      ensures Fresh(s.nodes[i], i, s.nodes.Keys)
    {
      FreshIsFresh(i, ids);
    }
  }

  const ALONE := JointConfig({1}, {})

  lemma WonAlone()
    ensures JointVote(ALONE, map[1 := true]) == Won
  {
    var votes: map<NodeId, bool> := map[1 := true];
    JointVoteMeaning(ALONE, votes);
    assert {1} * Granted(votes) == {1};
  }

  /** A lone voter that campaigns leads term 1 with one entry. */
  lemma LeadsAlone(n: Node)
    requires n == FreshNode(1, {1})
    ensures var d := Hup(ALONE, n, true);
            && d.Done? && d.node.role == Leader && d.node.term == 1 && d.node.id == 1 && d.node.committed == 0
            && d.node.log == [Entry(1, 1, 0)] && !d.node.groupCommit && d.node.persisted == 0
            && d.node.progress.Keys == {1} && d.node.progress[1].matched == 0 && d.node.progress[1].group == 0
  {
    hide JointVote;
    WonAlone();
    var c := BecomeCandidate(n);
    assert RecordVote(c, 1, true).votes == map[1 := true];
    assert NewEntries(1, 0, [0]) == [Entry(1, 1, 0)];
  }

  lemma IndexAlone(acks: Acks)
    requires acks.Keys == {1} && acks[1].index == 1
    ensures JointIndex(ALONE, false, acks).0 == 1
  {
    var voters: set<NodeId> := {1};
    var n := MajorityIndex(voters, acks);
    MajorityIndexAcked(voters, acks, U64_MAX);
    assert voters * AtLeast(voters, acks, 1) == {1};
    MajorityIndexLargest(voters, acks, U64_MAX, 1);
    assert n > 1 ==> |voters * AtLeast(voters, acks, n)| == 0;
  }

  /** Once its entry is on disk, a lone leader commits it. */
  lemma CommitsAlone(n: Node)
    requires n.role == Leader && n.term == 1 && n.id == 1 && n.committed == 0 && n.log == [Entry(1, 1, 0)]
    requires !n.groupCommit && n.progress.Keys == {1} && n.progress[1].matched == 0 && n.progress[1].group == 0
    requires n.persisted == 0
    ensures var d := Persisted(ALONE, n, 1, 1); d.Done? && d.node.committed == 1 && d.node.role == Leader
  {
    hide JointIndex;
    var (p, news) := n.progress[1].MaybeUpdate(1);
    var r := SetProgress(n, 1, p).(persisted := 1);
    assert r.progress.Keys == {1};
    IndexAlone(MatchedIndexes(r));
  }

  lemma Advances(cfg: JointConfig, s: Cluster, e: Event) returns (s': Cluster)
    requires Enabled(cfg, s, e) && React(cfg, s.nodes[Actor(e)], e).Done?
    ensures Steps(cfg, s, s') && s'.nodes == s.nodes[Actor(e) := React(cfg, s.nodes[Actor(e)], e).node]
  {
    hide React, Observe, RecordRead, Asks;
    var d := React(cfg, s.nodes[Actor(e)], e);
    s' := After(cfg, s, e, d.node, d.out);
    assert Next(cfg, s, e, s');
  }

  /** The results about runs are not empty: in this run a leader is elected and commits an entry. */
  lemma CommittingRun() returns (run: seq<Cluster>)
    ensures IsRun(ALONE, run) && |run| == 3 && 1 in run[2].nodes
    ensures run[2].nodes[1].role == Leader && run[2].nodes[1].committed == 1
  {
    hide IsRun, React, Steps, Hup, Persisted;
    var s0 := FreshCluster({1});
    FreshRuns(ALONE, {1});
    LeadsAlone(s0.nodes[1]);
    CampaignReacts(ALONE, s0);
    var s1 := Advances(ALONE, s0, Campaigns(1, true));
    CommitsAlone(s1.nodes[1]);
    PersistReacts(ALONE, s1);
    var s2 := Advances(ALONE, s1, Persists(1, 1, 1));
    run := [s0, s1, s2];
    RunOfThree(ALONE, s0, s1, s2);
  }

  lemma CampaignReacts(cfg: JointConfig, s: Cluster)
    requires 1 in s.nodes && 1 in cfg.Ids()
    ensures Enabled(cfg, s, Campaigns(1, true))
    ensures React(cfg, s.nodes[1], Campaigns(1, true)) == Hup(cfg, s.nodes[1], true)
  {
  }

  lemma PersistReacts(cfg: JointConfig, s: Cluster)
    requires 1 in s.nodes
    ensures Enabled(cfg, s, Persists(1, 1, 1))
    ensures React(cfg, s.nodes[1], Persists(1, 1, 1)) == Persisted(cfg, s.nodes[1], 1, 1)
  {
  }

  lemma RunOfThree(cfg: JointConfig, s0: Cluster, s1: Cluster, s2: Cluster)
    requires IsRun(cfg, [s0]) && Steps(cfg, s0, s1) && Steps(cfg, s1, s2)
    ensures IsRun(cfg, [s0, s1, s2])
  {
    hide Steps, Init;
    var run := [s0, s1, s2];
    assert [s0][0] == s0;
    assert forall k :: 0 <= k < |run| - 1 ==> Steps(cfg, run[k], run[k + 1]);
  }
}
