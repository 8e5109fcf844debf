/**
 What makes a leader commit, said in terms of what its peers hold: whichever event it is that may move the commit
 index, it moves to the largest index that enough peers hold, if that index is new and of the leader's term.
 */
module CommitRule {
  import opened Quorum
  import opened LogModel
  import opened ProgressModel
  import opened CommittedIndex
  import opened RaftNode
  import opened Cluster
  import opened ClusterRuns
  import opened ClusterTheorems

  /** The peers that are known to hold everything up to `k`. */
  function Holders(n: Node, k: nat): set<NodeId> {
    set j | j in n.progress && n.progress[j].matched >= k
  }

  function GroupOf(n: Node, j: NodeId): nat {
    if j in n.progress then n.progress[j].group else 0
  }

  /** Two of the nodes belong to two distinct commit groups. */
  ghost predicate Spread(n: Node, s: set<NodeId>) {
    exists u, v :: u in s && v in s && GroupOf(n, u) != 0 && GroupOf(n, v) != 0 && GroupOf(n, u) != GroupOf(n, v)
  }

  /**
   Whether enough voters of one half hold index `k`. With commit groups a majority must reach over two groups, if the
   half has two; if it has one group that everybody is in, a majority does; otherwise everybody must hold it.
   */
  ghost predicate HalfHolds(n: Node, voters: set<NodeId>, k: nat) {
    || voters == {}
    || (if !n.groupCommit then HasMajority(voters, Holders(n, k))
        else if Spread(n, voters) then HasMajority(voters, Holders(n, k)) && Spread(n, voters * Holders(n, k))
        else if forall v <- voters :: GroupOf(n, v) != 0 then HasMajority(voters, Holders(n, k))
        else voters <= Holders(n, k))
  }

  ghost predicate EnoughHold(cfg: JointConfig, n: Node, k: nat) {
    HalfHolds(n, cfg.incoming, k) && HalfHolds(n, cfg.outgoing, k)
  }

  /** Without groups it is simply a quorum that holds the index. */
  lemma EnoughIsQuorum(cfg: JointConfig, n: Node, k: nat)
    requires !n.groupCommit
    ensures EnoughHold(cfg, n, k) <==> IsQuorum(cfg, Holders(n, k))
  {
  }

  /** The largest 64-bit index that enough peers hold. */
  ghost predicate Largest(cfg: JointConfig, n: Node, k: nat) {
    && k <= U64_MAX && EnoughHold(cfg, n, k)
    && forall j :: k < j <= U64_MAX ==> !EnoughHold(cfg, n, j)
  }

  /** Node `n'` has committed what its peers' progress allows, and is otherwise where `n` was. */
  ghost predicate CommitsByRule(cfg: JointConfig, n: Node, n': Node) {
    && n'.id == n.id && n'.term == n.term && n'.role == n.role && n'.log == n.log && n'.vote == n.vote
    && n'.readOnly == n.readOnly && n'.readStates == n.readStates
    && exists k: nat :: Largest(cfg, n', k)
                   && n'.committed == if k > n.committed && TermAt(n.log, k) == n.term then k else n.committed
  }

  // The joint index is that index -----------------------------------------------------------------

  lemma SameGroups(n: Node, s: set<NodeId>)
    ensures Spread(n, s) <==> TwoGroups(MatchedIndexes(n), s)
    ensures forall v :: GroupOf(n, v) == AckOf(MatchedIndexes(n), v).group
  {
    var acks := MatchedIndexes(n);
    if Spread(n, s) {
      var u, v :| u in s && v in s && GroupOf(n, u) != 0 && GroupOf(n, v) != 0 && GroupOf(n, u) != GroupOf(n, v);
      assert AckOf(acks, u).group != AckOf(acks, v).group;
    }
    if TwoGroups(acks, s) {
      var u, v :| u in s && v in s && AckOf(acks, u).group != 0 && AckOf(acks, v).group != 0
                  && AckOf(acks, u).group != AckOf(acks, v).group;
      assert GroupOf(n, u) != GroupOf(n, v);
    }
  }

  lemma SameHolders(n: Node, voters: set<NodeId>, k: nat)
    requires voters <= n.progress.Keys
    ensures voters * Holders(n, k) == AtLeast(voters, MatchedIndexes(n), k)
    ensures HasMajority(voters, Holders(n, k)) <==> HasMajority(voters, AtLeast(voters, MatchedIndexes(n), k))
    ensures voters <= Holders(n, k) <==> voters <= AtLeast(voters, MatchedIndexes(n), k)
  {
    var acks := MatchedIndexes(n);
    assert voters * Holders(n, k) == AtLeast(voters, acks, k);
    assert voters * AtLeast(voters, acks, k) == AtLeast(voters, acks, k);
  }

  /** For each half: enough voters hold exactly the indexes up to its committed index. */
  lemma HalfMeaning(n: Node, voters: set<NodeId>, k: nat)
    requires voters <= n.progress.Keys && k <= U64_MAX
    ensures HalfHolds(n, voters, k) <==> k <= HalfIndex(voters, n.groupCommit, MatchedIndexes(n)).0
  {
    var acks := MatchedIndexes(n);
    var i := HalfIndex(voters, n.groupCommit, acks).0;
    hide HasMajority, MatchedIndexes, Holders, AtLeast, Spread, TwoGroups, GroupOf, AckOf;
    if voters != {} {
      SameHolders(n, voters, k);
      SameGroups(n, voters);
      SameGroups(n, voters * Holders(n, k));
      if k <= i {
        HalfBelow(voters, n.groupCommit, acks, i, k);
      } else if HalfHolds(n, voters, k) {
        HalfAbove(voters, n.groupCommit, acks, k);
      }
    }
  }

  /** What enough voters hold at an index, they hold below it. */
  lemma HalfBelow(voters: set<NodeId>, groups: bool, acks: Acks, i: nat, k: nat)
    requires voters != {} && k <= i == HalfIndex(voters, groups, acks).0
    ensures if !groups || (!TwoGroups(acks, voters) && AllGrouped(voters, acks))
            then HasMajority(voters, AtLeast(voters, acks, k))
            else if TwoGroups(acks, voters)
            then HasMajority(voters, AtLeast(voters, acks, k)) && TwoGroups(acks, AtLeast(voters, acks, k))
            else voters <= AtLeast(voters, acks, k)
  {
    hide HasMajority;
    assert AtLeast(voters, acks, i) <= AtLeast(voters, acks, k);
    if !groups || (!TwoGroups(acks, voters) && AllGrouped(voters, acks)) {
      MajorityIndexAcked(voters, acks, U64_MAX);
      MajorityGrows(voters, AtLeast(voters, acks, i), AtLeast(voters, acks, k));
    } else if TwoGroups(acks, voters) {
      GroupIndexAcked(voters, acks, U64_MAX);
      MajorityGrows(voters, AtLeast(voters, acks, i), AtLeast(voters, acks, k));
    } else {
      LeastIndexAcked(voters, acks, U64_MAX);
    }
  }

  lemma HalfAbove(voters: set<NodeId>, groups: bool, acks: Acks, k: nat)
    requires voters != {} && k <= U64_MAX
    requires if !groups || (!TwoGroups(acks, voters) && AllGrouped(voters, acks))
             then HasMajority(voters, AtLeast(voters, acks, k))
             else if TwoGroups(acks, voters)
             then HasMajority(voters, AtLeast(voters, acks, k)) && TwoGroups(acks, AtLeast(voters, acks, k))
             else voters <= AtLeast(voters, acks, k)
    ensures k <= HalfIndex(voters, groups, acks).0
  {
    hide HasMajority, AtLeast, TwoGroups, AllGrouped;
    if !groups || (!TwoGroups(acks, voters) && AllGrouped(voters, acks)) {
      MajorityIndexLargest(voters, acks, U64_MAX, k);
    } else if TwoGroups(acks, voters) {
      GroupIndexLargest(voters, acks, U64_MAX, k);
    } else {
      LeastIndexLargest(voters, acks, U64_MAX, k);
    }
  }

  lemma HalfBounded(voters: set<NodeId>, groups: bool, acks: Acks)
    ensures HalfIndex(voters, groups, acks).0 <= U64_MAX
  {
  }

  lemma JointMeaning(cfg: JointConfig, n: Node)
    requires cfg.Ids() <= n.progress.Keys
    ensures Largest(cfg, n, JointIndex(cfg, n.groupCommit, MatchedIndexes(n)).0)
  {
    hide HalfHolds, HalfIndex, MatchedIndexes;
    var acks := MatchedIndexes(n);
    var k := JointIndex(cfg, n.groupCommit, acks).0;
    assert cfg.incoming <= n.progress.Keys && cfg.outgoing <= n.progress.Keys;
    HalfBounded(cfg.incoming, n.groupCommit, acks);
    HalfBounded(cfg.outgoing, n.groupCommit, acks);
    forall j | k <= j <= U64_MAX
      ensures EnoughHold(cfg, n, j) <==> j == k
    {
      HalfMeaning(n, cfg.incoming, j);
      HalfMeaning(n, cfg.outgoing, j);
    }
  }

  lemma LargestIsOne(cfg: JointConfig, n: Node, j: nat, k: nat)
    requires Largest(cfg, n, j) && Largest(cfg, n, k)
    ensures j == k
  {
    hide EnoughHold;
  }

  // Whatever makes a leader look ------------------------------------------------------------------

  lemma SamePeers(cfg: JointConfig, n: Node, n': Node, k: nat)
    requires n'.groupCommit == n.groupCommit && n'.progress.Keys == n.progress.Keys
    requires forall j <- n.progress :: n'.progress[j].matched == n.progress[j].matched
                                       && n'.progress[j].group == n.progress[j].group
    requires Largest(cfg, n, k)
    ensures Largest(cfg, n', k)
  {
    assert MatchedIndexes(n') == MatchedIndexes(n);
    forall j
      ensures EnoughHold(cfg, n', j) <==> EnoughHold(cfg, n, j)
    {
      assert Holders(n', j) == Holders(n, j);
      assert forall v :: GroupOf(n', v) == GroupOf(n, v);
      SameSpread(n, n', cfg.incoming);
      SameSpread(n, n', cfg.outgoing);
      SameSpread(n, n', cfg.incoming * Holders(n, j));
      SameSpread(n, n', cfg.outgoing * Holders(n, j));
    }
  }

  lemma SameSpread(n: Node, n': Node, s: set<NodeId>)
    requires forall v :: GroupOf(n', v) == GroupOf(n, v)
    ensures Spread(n', s) <==> Spread(n, s)
  {
    if Spread(n, s) {
      var u, v :| u in s && v in s && GroupOf(n, u) != 0 && GroupOf(n, v) != 0 && GroupOf(n, u) != GroupOf(n, v);
      assert GroupOf(n', u) != GroupOf(n', v);
    }
    if Spread(n', s) {
      var u, v :| u in s && v in s && GroupOf(n', u) != 0 && GroupOf(n', v) != 0 && GroupOf(n', u) != GroupOf(n', v);
      assert GroupOf(n, u) != GroupOf(n, v);
    }
  }

  /** Only the node's own progress changes beside the commit index, and not in what it holds. */
  lemma MaybeCommitRule(cfg: JointConfig, n: Node)
    requires cfg.Ids() <= n.progress.Keys && n.term >= 1
    ensures var d := MaybeCommit(cfg, n);
            && d.Done? && d.out == {} && CommitsByRule(cfg, n, d.node) && d.node.groupCommit == n.groupCommit
            && d.node.persisted == n.persisted && d.node.progress.Keys == n.progress.Keys
            && forall j <- n.progress :: d.node.progress[j].matched == n.progress[j].matched
                                         && d.node.progress[j].group == n.progress[j].group
                                         && (j != n.id ==> d.node.progress[j] == n.progress[j])
  {
    hide JointIndex, Largest, MatchedIndexes;
    JointMeaning(cfg, n);
    var d := MaybeCommit(cfg, n);
    SamePeers(cfg, n, d.node, JointIndex(cfg, n.groupCommit, MatchedIndexes(n)).0);
  }

  /** What runs keep, and the rule needs. */
  lemma LeaderOfRun(cfg: JointConfig, run: seq<Cluster>, k: nat, i: NodeId)
    requires IsRun(cfg, run) && At(run, k, i)
    ensures var n := run[k].nodes[i];
            && n.id == i && i in n.progress && cfg.Ids() <= n.progress.Keys && (n.role == Leader ==> n.term >= 1)
  {
    hide IsRun;
    RunSafe(cfg, run, k);
    KeysOf(cfg, run[k], i);
  }

  lemma KeysOf(cfg: JointConfig, s: Cluster, i: NodeId)
    requires ClusterInv(cfg, s) && i in s.nodes
    ensures var n := s.nodes[i];
            n.id == i && i in n.progress && cfg.Ids() <= n.progress.Keys && (n.role == Leader ==> n.term >= 1)
  {
  }

  /** A message that tells a leader of its own term something new about a peer. */
  predicate IsNews(n: Node, m: Message) {
    && m.AppendResp? && !m.reject && n.role == Leader && m.term == n.term && m.from in n.progress
    && m.index > n.progress[m.from].matched
  }

  lemma AckRule(cfg: JointConfig, n: Node, m: Message)
    requires cfg.Ids() <= n.progress.Keys && n.term >= 1 && IsNews(n, m)
    ensures var d := Step(cfg, n, m);
            && d.Done? && CommitsByRule(cfg, n, d.node) && d.node.progress.Keys == n.progress.Keys
            && d.node.progress[m.from].matched == m.index
            && forall j <- n.progress :: j != m.from ==> d.node.progress[j].matched == n.progress[j].matched
  {
    hide MaybeCommit, CommitsByRule;
    var pr := n.progress[m.from].(recentActive := true).UpdateCommitted(m.commit);
    var (p, news) := pr.MaybeUpdate(m.index);
    var q := AfterUpdate(p, m.index);
    assert q.matched == m.index by { AfterUpdateMatched(p, m.index); }
    var r := SetProgress(n, m.from, q);
    assert r.progress.Keys == n.progress.Keys;
    MaybeCommitRule(cfg, r);
    assert Step(cfg, n, m) == MaybeCommit(cfg, r);
    SameBefore(cfg, n, r, MaybeCommit(cfg, r).node);
  }

  lemma AfterUpdateMatched(p: Progress, index: nat)
    ensures AfterUpdate(p, index).matched == p.matched
  {
  }

  lemma SameBefore(cfg: JointConfig, n: Node, r: Node, n': Node)
    requires CommitsByRule(cfg, r, n')
    requires r == n.(progress := r.progress, persisted := r.persisted, groupCommit := r.groupCommit)
    ensures CommitsByRule(cfg, n, n')
  {
    hide Largest;
  }

  /**
   In every run, every acknowledgement that is news to a leader of its term, whatever state the peer's progress is in,
   moves that peer's matched index and no other, and then the leader commits by the rule.
   */
  lemma AckCommits(cfg: JointConfig, run: seq<Cluster>, k: nat, m: Message)
    requires IsRun(cfg, run) && k < |run| && Enabled(cfg, run[k], Deliver(m)) && IsNews(run[k].nodes[m.to], m)
    ensures var n := run[k].nodes[m.to];
            var d := React(cfg, n, Deliver(m));
            && d.Done? && CommitsByRule(cfg, n, d.node) && d.node.progress.Keys == n.progress.Keys
            && d.node.progress[m.from].matched == m.index
            && forall j <- n.progress :: j != m.from ==> d.node.progress[j].matched == n.progress[j].matched
  {
    hide IsRun, Step, CommitsByRule;
    LeaderOfRun(cfg, run, k, m.to);
    AckRule(cfg, run[k].nodes[m.to], m);
  }

  /** The leader's own log counts as far as it is reported to be persisted, and it commits by the rule. */
  lemma NoticeRule(cfg: JointConfig, n: Node, index: nat, term: nat)
    requires cfg.Ids() <= n.progress.Keys && n.term >= 1 && n.role == Leader && n.id in n.progress
    requires n.persisted < index <= |n.log| && TermAt(n.log, index) == term && n.progress[n.id].matched < index
    ensures var d := Persisted(cfg, n, index, term);
            && d.Done? && d.out == {} && d.node.persisted == index && CommitsByRule(cfg, n, d.node)
            && d.node.progress.Keys == n.progress.Keys && d.node.progress[n.id].matched == index
            && forall j <- n.progress :: j != n.id ==> d.node.progress[j] == n.progress[j]
  {
    hide MaybeCommit, CommitsByRule, TermAt;
    var (p, news) := n.progress[n.id].MaybeUpdate(index);
    var r := SetProgress(n, n.id, p).(persisted := index);
    assert r.progress.Keys == n.progress.Keys;
    MaybeCommitRule(cfg, r);
    SameBefore(cfg, n, r, MaybeCommit(cfg, r).node);
  }

  /** Any other node only takes note. */
  lemma NoticeElsewhere(cfg: JointConfig, n: Node, index: nat, term: nat)
    requires n.role != Leader
    ensures Persisted(cfg, n, index, term)
            == Done(if n.persisted < index <= |n.log| && TermAt(n.log, index) == term
                    then n.(persisted := index) else n, {})
  {
  }

  /** A peer's group is the last one that the list gives it. */
  ghost predicate LastGroup(ids: seq<(NodeId, nat)>, j: NodeId, k: nat) {
    k < |ids| && ids[k].0 == j && forall i :: k < i < |ids| ==> ids[i].0 != j
  }

  lemma {:induction false} AssignMeaning(progress: map<NodeId, Progress>, ids: seq<(NodeId, nat)>, j: NodeId)
    requires j in progress
    ensures var ps := Assign(progress, ids);
            && ps.Keys == progress.Keys && ps[j] == progress[j].(group := ps[j].group)
            && (forall k: nat :: LastGroup(ids, j, k) ==> ps[j].group == ids[k].1)
            && ((forall k :: 0 <= k < |ids| ==> ids[k].0 != j) ==> ps[j].group == progress[j].group)
    decreases |ids|
  {
    if ids != [] {
      var n := |ids| - 1;
      AssignMeaning(progress, ids[..n], j);
      forall k: nat | LastGroup(ids, j, k)
        ensures Assign(progress, ids)[j].group == ids[k].1
      {
        if k < n {
          assert ids[n].0 != j && LastGroup(ids[..n], j, k);
        }
      }
    }
  }

  /** Assigning groups to a leader that uses them lets it commit by the rule. */
  lemma AssignRule(cfg: JointConfig, n: Node, ids: seq<(NodeId, nat)>, j: NodeId)
    requires cfg.Ids() <= n.progress.Keys && n.term >= 1 && !ZeroGroup(ids) && j in n.progress
    ensures var d := AssignGroups(cfg, n, ids);
            && d.Done? && d.out == {} && d.node.progress.Keys == n.progress.Keys
            && d.node.progress[j].matched == n.progress[j].matched
            && (forall k: nat :: LastGroup(ids, j, k) ==> d.node.progress[j].group == ids[k].1)
            && ((forall k :: 0 <= k < |ids| ==> ids[k].0 != j) ==> d.node.progress[j].group == n.progress[j].group)
            && (n.role == Leader && n.groupCommit ==> CommitsByRule(cfg, n, d.node))
            && (!(n.role == Leader && n.groupCommit) ==> d.node.committed == n.committed)
  {
    hide MaybeCommit, CommitsByRule, Assign;
    var r := n.(progress := Assign(n.progress, ids));
    AssignMeaning(n.progress, ids, j);
    if n.role == Leader && n.groupCommit {
      MaybeCommitRule(cfg, r);
      SameBefore(cfg, n, r, MaybeCommit(cfg, r).node);
    }
  }

  /** Turning groups off lets a leader commit by the rule without groups; turning them on commits nothing. */
  lemma EnableRule(cfg: JointConfig, n: Node, enable: bool)
    requires cfg.Ids() <= n.progress.Keys && n.term >= 1
    ensures var d := EnableGroups(cfg, n, enable);
            && d.Done? && d.out == {} && d.node.groupCommit == enable
            && (n.role == Leader && !enable ==> CommitsByRule(cfg, n, d.node))
            && (!(n.role == Leader && !enable) ==> d.node == n.(groupCommit := enable))
  {
    hide MaybeCommit, CommitsByRule;
    var r := n.(groupCommit := enable);
    if n.role == Leader && !enable {
      MaybeCommitRule(cfg, r);
      SameBefore(cfg, n, r, MaybeCommit(cfg, r).node);
    }
  }

  // Commit indexes learnt from others -------------------------------------------------------------

  /** What a node that does not lead takes over from an index and a term that a vote message advertises. */
  function Learnt(n: Node, commit: nat, commitTerm: nat): nat {
    if n.role != Leader && commit > n.committed && commitTerm > 0 && TermAt(n.log, commit) == commitTerm
    then commit else n.committed
  }

  /** A node whose log has the advertised term at an advertised index above its own commits it. */
  lemma VoteCommits(n: Node, commit: nat, commitTerm: nat)
    ensures CommitByVote(n, commit, commitTerm) == Done(n.(committed := Learnt(n, commit, commitTerm)), {})
  {
  }
}
