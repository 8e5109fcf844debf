/** Raft's guarantees, stated on the nodes of every run. The history ledger appears only in the proofs. */
module ClusterTheorems {
  import opened Options
  import opened Quorum
  import opened LogModel
  import opened ReadOnlyModel
  import opened RaftNode
  import opened Ledger
  import opened LedgerActions
  import opened Cluster
  import opened ClusterFrame
  import opened ClusterSafety
  import opened ClusterRuns

  /** `i` is a node of state `k` of the run. */
  ghost predicate At(run: seq<Cluster>, k: nat, i: NodeId) {
    k < |run| && i in run[k].nodes
  }

  // Election safety -------------------------------------------------------------------------------

  lemma ElectionSafetyOrdered(cfg: JointConfig, run: seq<Cluster>, a: nat, b: nat, i: NodeId, j: NodeId)
    requires IsRun(cfg, run) && At(run, a, i) && At(run, b, j) && a <= b
    requires run[a].nodes[i].role == Leader && run[b].nodes[j].role == Leader
    requires run[a].nodes[i].term == run[b].nodes[j].term
    ensures i == j
  {
    hide IsRun, GoodLog, Settled, Inv;
    NodeFacts(cfg, run, a, i);
    NodeFacts(cfg, run, b, j);
    RunInv(cfg, run, a, b);
  }

  /** At most one node ever leads a term, at any two moments of a run. */
  lemma ElectionSafety(cfg: JointConfig, run: seq<Cluster>, a: nat, b: nat, i: NodeId, j: NodeId)
    requires IsRun(cfg, run) && At(run, a, i) && At(run, b, j)
    requires run[a].nodes[i].role == Leader && run[b].nodes[j].role == Leader
    requires run[a].nodes[i].term == run[b].nodes[j].term
    ensures i == j
  {
    hide IsRun;
    if a <= b {
      ElectionSafetyOrdered(cfg, run, a, b, i, j);
    } else {
      ElectionSafetyOrdered(cfg, run, b, a, j, i);
    }
  }

  // Log matching ----------------------------------------------------------------------------------

  lemma LogMatchingOrdered(cfg: JointConfig, run: seq<Cluster>, a: nat, b: nat, i: NodeId, j: NodeId, k: nat)
    requires IsRun(cfg, run) && At(run, a, i) && At(run, b, j) && a <= b
    requires 1 <= k <= |run[a].nodes[i].log| && k <= |run[b].nodes[j].log|
    requires TermAt(run[a].nodes[i].log, k) == TermAt(run[b].nodes[j].log, k)
    ensures run[a].nodes[i].log[..k] == run[b].nodes[j].log[..k]
  {
    hide IsRun, Settled, Inv, Grows, Traced, Sorted, TermsUpTo;
    var x, y := run[a].nodes[i], run[b].nodes[j];
    NodeFacts(cfg, run, a, i);
    NodeFacts(cfg, run, b, j);
    RunInv(cfg, run, a, b);
    GoodLogGrows(run[a].ledger, run[b].ledger, x.log, x.term, x.term);
    Matching(run[b].ledger, x.log, y.log, k);
  }

  /** Two logs, of any two nodes at any two moments, that agree on the term at an index agree up to that index. */
  lemma LogMatching(cfg: JointConfig, run: seq<Cluster>, a: nat, b: nat, i: NodeId, j: NodeId, k: nat)
    requires IsRun(cfg, run) && At(run, a, i) && At(run, b, j)
    requires 1 <= k <= |run[a].nodes[i].log| && k <= |run[b].nodes[j].log|
    requires TermAt(run[a].nodes[i].log, k) == TermAt(run[b].nodes[j].log, k)
    ensures run[a].nodes[i].log[..k] == run[b].nodes[j].log[..k]
  {
    hide IsRun;
    if a <= b {
      LogMatchingOrdered(cfg, run, a, b, i, j, k);
    } else {
      LogMatchingOrdered(cfg, run, b, a, j, i, k);
    }
  }

  /** Along a log the indexes are consecutive, the terms never decrease, and none is 0 or above the node's term. */
  lemma LogsWellFormed(cfg: JointConfig, run: seq<Cluster>, a: nat, i: NodeId)
    requires IsRun(cfg, run) && At(run, a, i)
    ensures var n := run[a].nodes[i];
            && Sorted(n.log)
            && forall k :: 0 <= k < |n.log| ==> n.log[k].index == k + 1 && 1 <= n.log[k].term <= n.term
  {
    hide IsRun, Settled, Holds;
    NodeFacts(cfg, run, a, i);
  }

  // State machine safety --------------------------------------------------------------------------

  /** Logs that are settled up to `m` and `n` agree up to the smaller of the two. */
  lemma SettledAgree(cfg: JointConfig, l: Ledger, x: Log, m: nat, y: Log, n: nat, c: nat)
    requires Inv(cfg, l) && Settled(l, x, m) && Settled(l, y, n) && c <= m && c <= n
    ensures c <= |x| && c <= |y| && x[..c] == y[..c]
  {
    hide Inv;
    if c > 0 {
      var t :| t in l.reign && m <= l.reign[t].committed && Holds(l, t, m, x);
      var t' :| t' in l.reign && n <= l.reign[t'].committed && Holds(l, t', n, y);
      HoldsLess(l, t, m, c, x);
      HoldsLess(l, t', n, c, y);
      if t < t' {
        LaterLeaderHolds(cfg, l, t, t');
        HoldsLess(l, t, Committed(l, t), c, l.reign[t'].log);
      } else if t' < t {
        LaterLeaderHolds(cfg, l, t', t);
        HoldsLess(l, t', Committed(l, t'), c, l.reign[t].log);
      }
    }
  }

  lemma StateMachineSafetyOrdered(cfg: JointConfig, run: seq<Cluster>, a: nat, b: nat, i: NodeId, j: NodeId, c: nat)
    requires IsRun(cfg, run) && At(run, a, i) && At(run, b, j) && a <= b
    requires c <= run[a].nodes[i].committed && c <= run[b].nodes[j].committed
    ensures c <= |run[a].nodes[i].log| && c <= |run[b].nodes[j].log|
    ensures run[a].nodes[i].log[..c] == run[b].nodes[j].log[..c]
  {
    hide IsRun, Settled, Inv, Grows, GoodLog;
    var x, y := run[a].nodes[i], run[b].nodes[j];
    NodeFacts(cfg, run, a, i);
    NodeFacts(cfg, run, b, j);
    RunInv(cfg, run, a, b);
    SettledGrows(run[a].ledger, run[b].ledger, x.log, x.log, x.committed);
    SettledAgree(cfg, run[b].ledger, x.log, x.committed, y.log, y.committed, c);
  }

  /** Any two nodes, at any two moments, agree on every entry at or below both their commit indexes. */
  lemma StateMachineSafety(cfg: JointConfig, run: seq<Cluster>, a: nat, b: nat, i: NodeId, j: NodeId, c: nat)
    requires IsRun(cfg, run) && At(run, a, i) && At(run, b, j)
    requires c <= run[a].nodes[i].committed && c <= run[b].nodes[j].committed
    ensures c <= |run[a].nodes[i].log| && c <= |run[b].nodes[j].log|
    ensures run[a].nodes[i].log[..c] == run[b].nodes[j].log[..c]
  {
    hide IsRun;
    if a <= b {
      StateMachineSafetyOrdered(cfg, run, a, b, i, j, c);
    } else {
      StateMachineSafetyOrdered(cfg, run, b, a, j, i, c);
    }
  }

  lemma VoteGrows(l: Ledger, k: Ledger, i: NodeId, t: nat)
    requires Grows(l, k)
    ensures (i, t) in l.vote ==> (i, t) in k.vote && k.vote[(i, t)] == l.vote[(i, t)]
    ensures i in l.term ==> i in k.term && l.term[i] <= k.term[i]
  {
  }

  /** A node's term and commit index never decrease, and within a term it never takes back or changes a vote. */
  lemma NothingTakenBack(cfg: JointConfig, run: seq<Cluster>, a: nat, b: nat, i: NodeId)
    requires IsRun(cfg, run) && At(run, a, i) && a <= b < |run|
    ensures i in run[b].nodes
    ensures var n, n' := run[a].nodes[i], run[b].nodes[i];
            && n.term <= n'.term && n.committed <= n'.committed
            && (n.term == n'.term && n.vote != INVALID_ID ==> n'.vote == n.vote)
  {
    hide IsRun, Settled, Inv, GoodLog, Grows, AskedGrows;
    RunAhead(cfg, run, a, b);
    NodeFacts(cfg, run, a, i);
    NodeFacts(cfg, run, b, i);
    VoteGrows(run[a].ledger, run[b].ledger, i, run[a].nodes[i].term);
  }

  // Leader completeness ---------------------------------------------------------------------------

  /** What leader `p` committed in its own term, every leader of a later term holds, whenever that leader lives. */
  lemma LaterTermHolds(cfg: JointConfig, l: Ledger, k: Ledger, t: nat, t': nat)
    requires Inv(cfg, l) && Inv(cfg, k) && (Grows(l, k) || Grows(k, l))
    requires t < t' && t in l.reign && t' in k.reign
    ensures Holds(l, t, l.reign[t].committed, k.reign[t'].log)
  {
    hide Inv, Grows;
    var c := l.reign[t].committed;
    if Grows(l, k) {
      assert LeaderLog(l, t) <= LeaderLog(k, t) by { LeaderLogGrows(l, k, t); }
      assert t in k.reign && c <= k.reign[t].committed by { ReignGrows(l, k, t); }
      LaterLeaderHolds(cfg, k, t, t');
      HoldsLess(k, t, k.reign[t].committed, c, k.reign[t'].log);
      CommittedFits(cfg, l, t);
      assert LeaderLog(k, t)[..c] == LeaderLog(l, t)[..c];
    } else if c > 0 {
      assert LeaderLog(k, t) <= LeaderLog(l, t) by { LeaderLogGrows(k, l, t); }
      CommittedFits(cfg, l, t);
      if Blocked(cfg, k, t, c) {
        BlockedGrows(cfg, k, l, t, c);
        assert false;
      }
      assert Respects(cfg, k, t, c, k.reign[t'].log) by { CompleteAt(cfg, k, t, t', c); }
      assert Holds(k, t, c, k.reign[t'].log);
      assert LeaderLog(k, t)[..c] == LeaderLog(l, t)[..c];
    } else {
      assert k.reign[t'].log[..0] == LeaderLog(l, t)[..0];
    }
  }

  lemma ReignGrows(l: Ledger, k: Ledger, t: nat)
    requires Grows(l, k) && t in l.reign
    ensures t in k.reign && l.reign[t].log <= k.reign[t].log && l.reign[t].committed <= k.reign[t].committed
  {
  }

  lemma CommittedFits(cfg: JointConfig, l: Ledger, t: nat)
    requires Inv(cfg, l) && t in l.reign
    ensures l.reign[t].committed <= |LeaderLog(l, t)|
    ensures l.reign[t].committed > 0 ==>
              TermAt(LeaderLog(l, t), l.reign[t].committed) == t && !Blocked(cfg, l, t, l.reign[t].committed)
  {
    if l.reign[t].committed > 0 {
      ChosenNotBlocked(cfg, l, t, l.reign[t].committed);
    }
  }

  lemma RunOrdered(cfg: JointConfig, run: seq<Cluster>, a: nat, b: nat)
    requires IsRun(cfg, run) && a < |run| && b < |run|
    ensures Inv(cfg, run[a].ledger) && Inv(cfg, run[b].ledger)
    ensures Grows(run[a].ledger, run[b].ledger) || Grows(run[b].ledger, run[a].ledger)
    ensures a <= b ==> Grows(run[a].ledger, run[b].ledger)
  {
    hide IsRun, Inv, Grows;
    RunInv(cfg, run, a, a);
    RunInv(cfg, run, b, b);
    if a <= b {
      RunInv(cfg, run, a, b);
    } else {
      RunInv(cfg, run, b, a);
    }
  }

  /**
   What a leader has committed from its own term is in the log of every leader of a later term at every moment of
   the run, and in its own log from then on.
   */
  lemma LeaderCompleteness(cfg: JointConfig, run: seq<Cluster>, a: nat, b: nat, p: NodeId, j: NodeId)
    requires IsRun(cfg, run) && At(run, a, p) && At(run, b, j)
    requires run[a].nodes[p].role == Leader && run[b].nodes[j].role == Leader
    requires run[a].nodes[p].term < run[b].nodes[j].term
             || (run[a].nodes[p].term == run[b].nodes[j].term && a <= b)
    ensures var c := OwnCommitted(run[a].nodes[p]);
            && c <= |run[a].nodes[p].log| && c <= |run[b].nodes[j].log|
            && run[b].nodes[j].log[..c] == run[a].nodes[p].log[..c]
  {
    hide IsRun, Inv, Grows, GoodLog, Settled;
    NodeFacts(cfg, run, a, p);
    NodeFacts(cfg, run, b, j);
    RunOrdered(cfg, run, a, b);
    var t, t' := run[a].nodes[p].term, run[b].nodes[j].term;
    if t < t' {
      LaterTermHolds(cfg, run[a].ledger, run[b].ledger, t, t');
    } else {
      ReignGrows(run[a].ledger, run[b].ledger, t);
    }
  }

  lemma OwnId(cfg: JointConfig, run: seq<Cluster>, k: nat, i: NodeId)
    requires IsRun(cfg, run) && At(run, k, i)
    ensures run[k].nodes[i].id == i
  {
    NodeFacts(cfg, run, k, i);
  }

  /** Every reign in the ledger is some leader of the run, as it was at some moment. */
  lemma {:induction false} ReignOrigin(cfg: JointConfig, run: seq<Cluster>, k: nat, t: nat) returns (q: nat, p: NodeId)
    requires IsRun(cfg, run) && k < |run| && t in run[k].ledger.reign
    ensures q <= k && At(run, q, p)
    ensures var n := run[q].nodes[p];
            n.role == Leader && n.term == t && run[k].ledger.reign[t] == Reign(p, n.log, OwnCommitted(n))
  {
    hide Init, Next, OwnCommitted;
    if k == 0 {
      InitParts(cfg, run[0]);
      assert false;
    } else {
      assert Steps(cfg, run[k - 1], run[k - 1 + 1]);
      var e :| Next(cfg, run[k - 1], e, run[k]);
      var i := ReignStep(cfg, run[k - 1], e, run[k], t);
      if t in run[k - 1].ledger.reign && run[k].ledger.reign[t] == run[k - 1].ledger.reign[t] {
        q, p := ReignOrigin(cfg, run, k - 1, t);
      } else {
        q, p := k, i;
        OwnId(cfg, run, k - 1, i);
      }
    }
  }

  lemma ReignStep(cfg: JointConfig, s: Cluster, e: Event, s': Cluster, t: nat) returns (i: NodeId)
    requires Next(cfg, s, e, s') && t in s'.ledger.reign
    ensures i == Actor(e) && i in s.nodes && i in s'.nodes
    ensures (t in s.ledger.reign && s'.ledger.reign[t] == s.ledger.reign[t])
            || (s'.nodes[i].role == Leader && s'.nodes[i].term == t
                && s'.ledger.reign[t] == Reign(s.nodes[i].id, s'.nodes[i].log, OwnCommitted(s'.nodes[i])))
  {
    hide React, OwnCommitted, RecordRead, Asks, AckIn, RaiseAck;
    i := Actor(e);
  }

  /**
   Whichever way a node learnt its commit index (its own quorum, an append, a heartbeat, a vote message, a read
   reply), some leader had by then committed that index from its own term, with the same entries.
   */
  lemma CommitOrigin(cfg: JointConfig, run: seq<Cluster>, a: nat, i: NodeId) returns (q: nat, p: NodeId)
    requires IsRun(cfg, run) && At(run, a, i) && run[a].nodes[i].committed > 0
    ensures q <= a && At(run, q, p) && run[q].nodes[p].role == Leader
    ensures var c := run[a].nodes[i].committed;
            && c <= OwnCommitted(run[q].nodes[p]) <= |run[q].nodes[p].log| && c <= |run[a].nodes[i].log|
            && run[q].nodes[p].log[..c] == run[a].nodes[i].log[..c]
  {
    hide IsRun, Inv, Grows, GoodLog, OwnCommitted;
    NodeFacts(cfg, run, a, i);
    RunInv(cfg, run, a, a);
    var x := run[a].nodes[i];
    var l := run[a].ledger;
    var t :| t in l.reign && x.committed <= l.reign[t].committed && Holds(l, t, x.committed, x.log);
    CommittedFits(cfg, l, t);
    q, p := ReignOrigin(cfg, run, a, t);
  }

  /**
   Whatever any node has committed, by whichever path, goes back to a leader that committed it from its own term, and
   every leader of a later term than that one's holds it, at every moment of the run.
   */
  lemma LaterLeadersHold(cfg: JointConfig, run: seq<Cluster>, a: nat, i: NodeId) returns (q: nat, p: NodeId)
    requires IsRun(cfg, run) && At(run, a, i) && run[a].nodes[i].committed > 0
    ensures q <= a && At(run, q, p) && run[q].nodes[p].role == Leader
    ensures run[a].nodes[i].committed <= OwnCommitted(run[q].nodes[p])
    ensures StartsWith(run[q].nodes[p].log, run[a].nodes[i].log, run[a].nodes[i].committed)
    ensures forall b: nat, j: NodeId | At(run, b, j) && run[b].nodes[j].role == Leader
                                       && run[q].nodes[p].term < run[b].nodes[j].term ::
              StartsWith(run[b].nodes[j].log, run[a].nodes[i].log, run[a].nodes[i].committed)
  {
    hide IsRun, OwnCommitted;
    q, p := CommitOrigin(cfg, run, a, i);
    var c := run[a].nodes[i].committed;
    forall b: nat, j: NodeId | At(run, b, j) && run[b].nodes[j].role == Leader
                               && run[q].nodes[p].term < run[b].nodes[j].term
      ensures StartsWith(run[b].nodes[j].log, run[a].nodes[i].log, c)
    {
      LeaderCompleteness(cfg, run, q, b, p, j);
      var x, y := run[q].nodes[p].log, run[b].nodes[j].log;
      assert y[..c] == y[..OwnCommitted(run[q].nodes[p])][..c];
      assert x[..c] == x[..OwnCommitted(run[q].nodes[p])][..c];
    }
  }

  /** `log` starts with the first `c` entries of `other`. */
  ghost predicate StartsWith(log: Log, other: Log, c: nat) {
    c <= |log| && c <= |other| && log[..c] == other[..c]
  }

  // Panics ----------------------------------------------------------------------------------------

  /**
   A node that has not left term 0 gets a pre-vote request from a node with an empty log and a lower priority. It
   refuses, and `send` rejects the refusal because it carries term 0 (src/raft.rs:632-655).
   */
  predicate RefusesInTermZero(n: Node, e: Event) {
    && e.Deliver? && e.m.RequestVote? && e.m.pre
    && n.term == 0 && e.m.index == 0 && n.priority > e.m.priority
  }

  /** A leader is handed an empty batch of proposals (src/raft.rs:2071-2073). */
  predicate ProposesNothing(n: Node, e: Event) {
    e.Proposes? && n.role == Leader && e.data == []
  }

  /** A peer is assigned to commit group 0 (src/raft.rs:543). */
  predicate AssignsZero(e: Event) {
    e.AssignsGroups? && ZeroGroup(e.ids)
  }

  /**
   A node wins while part of its log is not known to be persisted: with its own vote alone when it campaigns, or with
   the response it is handed. become_leader asserts that this does not happen (src/raft.rs:1252).
   */
  predicate WinsUnpersisted(cfg: JointConfig, n: Node, e: Event) {
    && n.persisted < |n.log|
    && (|| (e.Campaigns? && n.role != Leader && JointVote(cfg, map[n.id := true]) == Won)
        || (e.Deliver? && e.m.VoteResp? && !e.m.pre && e.m.term == n.term && n.role == Candidate
            && JointVote(cfg, RecordVote(n, e.m.from, !e.m.reject).votes) == Won))
  }

  lemma FirstTerm(l: Ledger, lg: Log, t: nat)
    requires GoodLog(l, lg, t) && lg != []
    ensures t >= 1
  {
    assert 1 <= lg[0].term <= t;
  }

  lemma TermZeroGrants(n: Node, m: Message)
    requires m.RequestVote? && m.pre && m.term >= 1 && n.term == 0 && n.log == []
    ensures Grants(n, m) <==> (m.index > 0 || n.priority <= m.priority)
  {
  }

  /**
   In every run, whatever happens next, a node dies exactly in these four cases. So no commit goes past the end of a
   log, no append conflicts with a committed entry, and no read queue disagrees with its map, even if requests to read
   arrive twice.
   */
  lemma PanicsExactly(cfg: JointConfig, run: seq<Cluster>, k: nat, e: Event)
    requires IsRun(cfg, run) && k < |run| && Enabled(cfg, run[k], e)
    ensures var n := run[k].nodes[Actor(e)];
            React(cfg, n, e).Fatal?
            <==> RefusesInTermZero(n, e) || WinsUnpersisted(cfg, n, e) || ProposesNothing(n, e) || AssignsZero(e)
  {
    hide IsRun, Safe, React, StepOk, RecordOk, Grants, ClusterInv, Observe, Settled, Sorted, ZeroGroup, JointVote;
    var n := run[k].nodes[Actor(e)];
    RunSafe(cfg, run, k);
    ReactOk(cfg, run[k], e);
    if e.Deliver? && e.m.RequestVote? && e.m.pre && n.term == 0 {
      NodeFacts(cfg, run, k, Actor(e));
      if n.log != [] {
        FirstTerm(run[k].ledger, n.log, n.term);
        assert false;
      }
      InvOf(cfg, run[k]);
      NetOk(cfg, run[k], e.m);
      TermZeroGrants(n, e.m);
    }
  }

  /** Every leader of every run dies of an empty batch. */
  lemma EmptyBatchKills(cfg: JointConfig, run: seq<Cluster>, k: nat, i: NodeId)
    requires IsRun(cfg, run) && At(run, k, i) && run[k].nodes[i].role == Leader
    ensures Enabled(cfg, run[k], Proposes(i, [])) && React(cfg, run[k].nodes[i], Proposes(i, [])).Fatal?
  {
    hide IsRun, React;
    PanicsExactly(cfg, run, k, Proposes(i, []));
  }

  /** Every node of every run dies of an assignment that puts a peer, known or not, into group 0. */
  lemma GroupZeroKills(cfg: JointConfig, run: seq<Cluster>, k: nat, i: NodeId, peer: NodeId)
    requires IsRun(cfg, run) && At(run, k, i)
    ensures var e := AssignsGroups(i, [(peer, 0)]);
            Enabled(cfg, run[k], e) && React(cfg, run[k].nodes[i], e).Fatal?
  {
    hide IsRun, React;
    var ids := [(peer, 0)];
    assert ids[0].1 == 0;
    PanicsExactly(cfg, run, k, AssignsGroups(i, ids));
  }

  /** Such a run: of two fresh voters the one with the lower priority starts a pre-vote, and the other dies. */
  lemma PanicReachable(s: Cluster)
    requires Init(JointConfig({1, 2}, {}), s)
    requires s.nodes[1].preVote && s.nodes[1].priority < s.nodes[2].priority
    ensures var cfg := JointConfig({1, 2}, {});
            exists s', e :: IsRun(cfg, [s, s']) && Enabled(cfg, s', e) && React(cfg, s'.nodes[Actor(e)], e).Fatal?
  {
    hide After, Init, Hup, IsRun, Fresh, Asks;
    var cfg := JointConfig({1, 2}, {});
    InitParts(cfg, s);
    assert 1 in cfg.Ids() && 2 in cfg.Ids();
    var n := s.nodes[1];
    assert Fresh(n, 1, s.nodes.Keys);
    FreshParts(n, 1, s.nodes.Keys);
    var d := CampaignAsks(n);
    var s' := After(cfg, s, Campaigns(1, false), d.node, d.out);
    FirstStep(cfg, s, d, s');
    RunOfTwo(cfg, s, Campaigns(1, false), s');
    var m := RequestVote(1, 2, 1, true, 0, 0, 0, 0, n.priority);
    assert Fresh(s.nodes[2], 2, s.nodes.Keys);
    FreshParts(s.nodes[2], 2, s.nodes.Keys);
    PreVoteEnabled(cfg, s', m);
    PanicsExactly(cfg, [s, s'], 1, Deliver(m));
    var e := Deliver(m);
    assert IsRun(cfg, [s, s']) && Enabled(cfg, s', e) && React(cfg, s'.nodes[Actor(e)], e).Fatal?;
  }

  lemma FreshParts(n: Node, i: NodeId, ids: set<NodeId>)
    requires Fresh(n, i, ids)
    ensures n.id == i && n.term == 0 && n.role == Follower && n.log == [] && n.committed == 0
  {
  }

  lemma RunOfTwo(cfg: JointConfig, s: Cluster, e: Event, s': Cluster)
    requires Init(cfg, s) && Next(cfg, s, e, s')
    ensures IsRun(cfg, [s, s'])
  {
    hide Init, Next;
    var run := [s, s'];
    assert Steps(cfg, s, s');
    assert forall k :: 0 <= k < |run| - 1 ==> Steps(cfg, run[k], run[k + 1]);
  }

  lemma FirstStep(cfg: JointConfig, s: Cluster, d: Outcome, s': Cluster)
    requires 1 in s.nodes && 2 in s.nodes && 1 in cfg.Ids()
    requires d == Hup(cfg, s.nodes[1], false) && d.Done? && s' == After(cfg, s, Campaigns(1, false), d.node, d.out)
    ensures Next(cfg, s, Campaigns(1, false), s')
    ensures s'.nodes.Keys == s.nodes.Keys && s'.nodes[2] == s.nodes[2] && d.out <= s'.net
  {
    hide Hup, Observe, RecordRead;
    assert React(cfg, s.nodes[1], Campaigns(1, false)) == d;
  }

  lemma PreVoteEnabled(cfg: JointConfig, s: Cluster, m: Message)
    requires m.RequestVote? && m in s.net && m.to in s.nodes
    ensures Enabled(cfg, s, Deliver(m))
  {
  }

  lemma OneGrantPends()
    ensures JointVote(JointConfig({1, 2}, {}), map[1 := true]) == Pending
  {
    var cfg := JointConfig({1, 2}, {});
    var votes: map<NodeId, bool> := map[1 := true];
    JointVoteMeaning(cfg, votes);
    assert {1, 2} * Granted(votes) == {1};
    assert {1, 2} * (cfg.Ids() - Quorum.Refused(votes)) == {1, 2};
  }

  lemma CampaignAsks(n: Node) returns (d: Outcome)
    requires n.id == 1 && n.term == 0 && n.role == Follower && n.log == [] && n.committed == 0 && n.preVote
    ensures d == Hup(JointConfig({1, 2}, {}), n, false) && d.Done?
    ensures RequestVote(1, 2, 1, true, 0, 0, 0, 0, n.priority) in d.out
  {
    hide JointVote;
    var cfg := JointConfig({1, 2}, {});
    d := Hup(cfg, n, false);
    assert RecordVote(BecomePreCandidate(n), 1, true).votes == map[1 := true];
    OneGrantPends();
    assert 2 in cfg.Ids();
    assert d.out == VoteRequests(cfg, d.node, 1, true);
  }

  // Reads -----------------------------------------------------------------------------------------

  /** At step `k` the read request `ctx` reaches the leader of term `t`, which takes it. */
  ghost predicate Reaches(cfg: JointConfig, run: seq<Cluster>, k: nat, ctx: Ctx, t: nat) {
    k + 1 < |run|
    && exists e :: Next(cfg, run[k], e, run[k + 1]) && Asks(cfg, run[k].nodes[Actor(e)], e) == Some(ctx)
                   && run[k].nodes[Actor(e)].term == t
  }

  /** At step `k` the request enters the queue; a single voter answers at once and has none. */
  ghost predicate Enters(cfg: JointConfig, run: seq<Cluster>, k: nat, ctx: Ctx, t: nat) {
    !cfg.IsSingleton() && Reaches(cfg, run, k, ctx, t)
  }

  /**
   No context enters the queue of the leader of one term twice. It may arrive again while it is queued, and it may
   enter the queues of leaders of several terms.
   */
  ghost predicate OnceQueued(cfg: JointConfig, run: seq<Cluster>) {
    forall k: nat, k': nat, ctx: Ctx, t: nat | Enters(cfg, run, k, ctx, t) && Enters(cfg, run, k', ctx, t) :: k == k'
  }

  lemma ReachesRecords(cfg: JointConfig, run: seq<Cluster>, k: nat, ctx: Ctx, t: nat)
    requires Reaches(cfg, run, k, ctx, t)
    ensures k + 1 < |run| && (ctx, t) in run[k + 1].asked.at
  {
    hide React, Observe, Asks;
  }

  lemma RecordStep(cfg: JointConfig, run: seq<Cluster>, k: nat, e: Event, ctx: Ctx, t: nat)
    requires k + 1 < |run| && Next(cfg, run[k], e, run[k + 1])
    requires (ctx, t) in run[k + 1].asked.at && (ctx, t) !in run[k].asked.at
    ensures Reaches(cfg, run, k, ctx, t) && run[k + 1].asked.at[(ctx, t)].seen == CommittedOf(run[k].nodes)
  {
    hide React, Observe, Asks;
  }

  lemma {:induction false} AskedOrigin(cfg: JointConfig, run: seq<Cluster>, b: nat, ctx: Ctx, t: nat) returns (k: nat)
    requires IsRun(cfg, run) && b < |run| && (ctx, t) in run[b].asked.at
    ensures k < b && Reaches(cfg, run, k, ctx, t) && run[b].asked.at[(ctx, t)].seen == CommittedOf(run[k].nodes)
  {
    hide Init, Next, Reaches, Ahead;
    if b == 0 {
      InitParts(cfg, run[0]);
      assert false;
    } else if (ctx, t) in run[b - 1].asked.at {
      k := AskedOrigin(cfg, run, b - 1, ctx, t);
      RunAhead(cfg, run, b - 1, b);
      AheadAsked(run[b - 1], run[b], ctx, t);
    } else {
      assert Steps(cfg, run[b - 1], run[b - 1 + 1]);
      var e :| Next(cfg, run[b - 1], e, run[b]);
      k := b - 1;
      RecordStep(cfg, run, k, e, ctx, t);
    }
  }

  lemma AheadAsked(s: Cluster, s': Cluster, ctx: Ctx, t: nat)
    requires Ahead(s, s') && (ctx, t) in s.asked.at
    ensures (ctx, t) in s'.asked.at && s'.asked.at[(ctx, t)] == s.asked.at[(ctx, t)]
  {
    hide Grows;
  }

  /** What a second arrival looks like. */
  lemma RepeatStep(cfg: JointConfig, run: seq<Cluster>, k: nat, e: Event) returns (ctx: Ctx, t: nat)
    requires k + 1 < |run| && Next(cfg, run[k], e, run[k + 1]) && run[k + 1].asked.repeated && !run[k].asked.repeated
    ensures Enters(cfg, run, k, ctx, t) && (ctx, t) in run[k].asked.at
  {
    hide React, Observe, Asks;
    ctx, t := Asks(cfg, run[k].nodes[Actor(e)], e).value, run[k].nodes[Actor(e)].term;
  }

  lemma QueuedOrigin(cfg: JointConfig, run: seq<Cluster>, b: nat, ctx: Ctx, t: nat) returns (k: nat)
    requires IsRun(cfg, run) && b < |run| && (ctx, t) in run[b].asked.at && !cfg.IsSingleton()
    ensures k < b && Enters(cfg, run, k, ctx, t)
  {
    hide IsRun, Reaches;
    k := AskedOrigin(cfg, run, b, ctx, t);
  }

  lemma {:induction false} NeverRepeated(cfg: JointConfig, run: seq<Cluster>, b: nat)
    requires IsRun(cfg, run) && OnceQueued(cfg, run) && b < |run|
    ensures !run[b].asked.repeated
  {
    hide Init, Next, Reaches;
    if b == 0 {
      InitParts(cfg, run[0]);
    } else {
      NeverRepeated(cfg, run, b - 1);
      assert Steps(cfg, run[b - 1], run[b - 1 + 1]);
      var e :| Next(cfg, run[b - 1], e, run[b]);
      if run[b].asked.repeated {
        var ctx, t := RepeatStep(cfg, run, b - 1, e);
        var k := QueuedOrigin(cfg, run, b - 1, ctx, t);
        assert false;
      }
    }
  }

  /** `index` covers everything that any node had committed by state `k`. */
  ghost predicate Covers(run: seq<Cluster>, k: nat, index: nat) {
    forall a, j :: 0 <= a <= k && At(run, a, j) ==> run[a].nodes[j].committed <= index
  }

  lemma ReadCovers(cfg: JointConfig, run: seq<Cluster>, b: nat, ctx: Ctx, index: nat) returns (k: nat, t: nat)
    requires IsRun(cfg, run) && b < |run| && ReadOk(run[b].asked, ctx, index) && !run[b].asked.repeated
    ensures k < b && Reaches(cfg, run, k, ctx, t) && Covers(run, k, index)
  {
    hide IsRun, Reaches, Grows;
    t :| (ctx, t) in run[b].asked.at && Covered(run[b].asked.at[(ctx, t)], index);
    k := AskedOrigin(cfg, run, b, ctx, t);
    forall a, j | 0 <= a <= k && At(run, a, j)
      ensures run[a].nodes[j].committed <= index
    {
      RunAhead(cfg, run, a, k);
      assert run[k].nodes[j].committed == run[b].asked.at[(ctx, t)].seen[j];
    }
  }

  lemma ReadStateOk(cfg: JointConfig, s: Cluster, i: NodeId, r: ReadState)
    requires ClusterInv(cfg, s) && i in s.nodes && r in s.nodes[i].readStates
    ensures ReadOk(s.asked, r.ctx, r.index)
  {
    hide Inv, Settled, MsgOk, RecordOk, LeaderOk, CandidateOk, Holds, ReadOk;
  }

  /**
   ReadIndex is linearizable while no context enters the queue of one term's leader twice: a read state, on any node,
   answers a request that reached a leader at some earlier step, and its index is at least every index that any node
   had committed by then.
   */
  lemma ReadsAreLinearizable(cfg: JointConfig, run: seq<Cluster>, b: nat, i: NodeId, r: ReadState)
    returns (k: nat, t: nat)
    requires IsRun(cfg, run) && OnceQueued(cfg, run) && At(run, b, i) && r in run[b].nodes[i].readStates
    ensures k < b && Reaches(cfg, run, k, r.ctx, t) && Covers(run, k, r.index)
  {
    hide IsRun, Reaches, ReadOk, Covers, ClusterInv, OnceQueued;
    RunSafe(cfg, run, b);
    ReadStateOk(cfg, run[b], i, r);
    NeverRepeated(cfg, run, b);
    k, t := ReadCovers(cfg, run, b, r.ctx, r.index);
  }

  /** The same holds of every reply that a leader sends to a follower. */
  lemma RepliesAreLinearizable(cfg: JointConfig, run: seq<Cluster>, b: nat, m: Message) returns (k: nat, t: nat)
    requires IsRun(cfg, run) && OnceQueued(cfg, run) && b < |run| && m in run[b].net && m.ReadIndexResp?
    ensures k < b && Reaches(cfg, run, k, m.req, t) && Covers(run, k, m.index)
  {
    hide IsRun, Reaches, ReadOk, Covers, ClusterInv, OnceQueued;
    RunSafe(cfg, run, b);
    NetOk(cfg, run[b], m);
    NeverRepeated(cfg, run, b);
    k, t := ReadCovers(cfg, run, b, m.req, m.index);
  }
}
