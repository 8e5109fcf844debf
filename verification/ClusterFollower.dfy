/** Steps of nodes that follow: moving to a later term, storing appends, heartbeats, votes. */
module ClusterFollower {
  import opened Quorum
  import opened LogModel
  import opened Numbers
  import opened ReadOnlyModel
  import opened RaftNode
  import opened Ledger
  import opened LedgerActions
  import opened Cluster
  import opened ClusterFrame

  ghost predicate Silent(out: set<Message>) {
    forall m <- out :: m.AppendResp? && !m.reject ==> m.index == 0
  }

  lemma NoAck(out: set<Message>, t: nat)
    requires Silent(out)
    ensures AckIn(out, t) == 0
  {
  }

  lemma OneAck(m: Message)
    requires m.AppendResp? && !m.reject
    ensures AckIn({m}, m.term) == m.index
  {
    assert exists x :: x in {m} && x.AppendResp? && !x.reject && x.term == m.term by {
      assert m in {m};
    }
  }

  lemma GrowsSame(l: Ledger)
    ensures Grows(l, l)
  {
  }

  /** A node whose new state already agrees with the ledger leaves the ledger as it is. */
  lemma ObserveSame(ids: set<NodeId>, l: Ledger, asked: Asked, n: Node, n': Node, out: set<Message>)
    requires NodeOk(ids, l, asked, n')
    requires n'.id == n.id && n'.term == n.term
    requires Silent(out)
    ensures Observe(l, n, n', out) == l
  {
    NoAck(out, n.term);
    assert l.term[n.id := n.term] == l.term;
    assert l.log[n.id := n'.log] == l.log;
    if n'.vote != INVALID_ID {
      assert l.vote[(n.id, n.term) := n'.vote] == l.vote;
    }
    if n'.role == Leader {
      assert l.reign[n.term := l.reign[n.term]] == l.reign;
      assert PeerOk(l, n', n.id);
    }
  }

  // Moving to a later term ------------------------------------------------------------------------

  lemma ObserveFollow(ids: set<NodeId>, l: Ledger, asked: Asked, n: Node, t: nat, leader: NodeId)
    requires NodeOk(ids, l, asked, n) && n.term <= t
    ensures Observe(l, n, BecomeFollower(n, t, leader), {}) == Advance(l, n.id, t)
  {
    hide LeaderOk, CandidateOk, Settled, Holds, ReadOk, AckIn;
    NoAck({}, t);
    assert l.log[n.id := n.log] == l.log;
    if t == n.term && n.vote != INVALID_ID {
      assert l.vote[(n.id, n.term) := n.vote] == l.vote;
    }
  }

  lemma FollowNode(ids: set<NodeId>, l: Ledger, asked: Asked, n: Node, t: nat, leader: NodeId)
    requires AcksOk(l) && VotesOk(l) && NodeOk(ids, l, asked, n) && n.term <= t
    ensures NodeOk(ids, Advance(l, n.id, t), asked, BecomeFollower(n, t, leader))
  {
    hide Settled, Grows, LeaderOk, CandidateOk;
    var k, n' := Advance(l, n.id, t), BecomeFollower(n, t, leader);
    AdvanceGrows(l, n.id, t);
    SettledGrows(l, k, n.log, n.log, n.committed);
    assert n'.progress.Keys == n.progress.Keys;
    if t > n.term {
      assert Acked(l, n.id, t) == 0 && (n.id, t) !in l.vote;
    } else {
      var m := Acked(l, n.id, t);
      if Holds(l, t, m, n.log) {
        HoldsGrows(l, k, t, m, n.log, n.log);
      }
    }
  }

  lemma FollowReady(cfg: JointConfig, ids: set<NodeId>, l: Ledger, asked: Asked, n: Node, t: nat, leader: NodeId)
    requires Ready(cfg, ids, l, asked, n) && n.term <= t
    ensures Ready(cfg, ids, Advance(l, n.id, t), asked, BecomeFollower(n, t, leader))
    ensures Grows(l, Advance(l, n.id, t))
  {
    hide NodeOk, Inv, RecordOk;
    assert n.id in l.term && l.term[n.id] == n.term by { NodeTerm(ids, l, asked, n); }
    AdvanceKeeps(cfg, l, n.id, t);
    assert AcksOk(l) && VotesOk(l) by { InvParts(cfg, l); }
    FollowNode(ids, l, asked, n, t, leader);
    GrowsKeys(l, Advance(l, n.id, t));
    KeepRecords(cfg, l, Advance(l, n.id, t), asked, asked);
  }

  lemma InvParts(cfg: JointConfig, l: Ledger)
    requires Inv(cfg, l)
    ensures AcksOk(l) && VotesOk(l)
  {
  }

  lemma NodeTerm(ids: set<NodeId>, l: Ledger, asked: Asked, n: Node)
    requires NodeOk(ids, l, asked, n)
    ensures n.id in l.term && l.term[n.id] == n.term && n.id in l.log && l.log[n.id] == n.log
    ensures n.id in ids
  {
  }

  lemma FollowOk(cfg: JointConfig, ids: set<NodeId>, l: Ledger, asked: Asked, n: Node, t: nat, leader: NodeId)
    requires Ready(cfg, ids, l, asked, n) && n.term <= t
    ensures StepOk(cfg, ids, l, asked, n, BecomeFollower(n, t, leader), {})
  {
    hide NodeOk, Inv, Observe;
    ObserveFollow(ids, l, asked, n, t, leader);
    FollowReady(cfg, ids, l, asked, n, t, leader);
  }

  /** Moving to a later term and then acting there is one step from the earlier term. */
  lemma FollowThen(cfg: JointConfig, ids: set<NodeId>, l: Ledger, asked: Asked, n: Node, t: nat, leader: NodeId,
                   n': Node, out: set<Message>)
    requires Ready(cfg, ids, l, asked, n) && n.term <= t
    requires StepOk(cfg, ids, Advance(l, n.id, t), asked, BecomeFollower(n, t, leader), n', out)
    requires n'.vote != n.id || n'.term > t || t == n.term
    ensures StepOk(cfg, ids, l, asked, n, n', out)
  {
    hide NodeOk, Inv, Observe, RecordOk, MsgOk, Grows;
    var k, r := Advance(l, n.id, t), BecomeFollower(n, t, leader);
    assert Observe(k, r, n', out) == Observe(l, n, n', out) by {
      NodeTerm(ids, l, asked, n);
      ObserveTwice(l, n, t, leader, n', out);
    }
    assert Grows(l, k) by { FollowReady(cfg, ids, l, asked, n, t, leader); }
    GrowsTransitive(l, k, Observe(l, n, n', out));
  }

  lemma ObserveTwice(l: Ledger, n: Node, t: nat, leader: NodeId, n': Node, out: set<Message>)
    requires n.id in l.term && n.id in l.log && l.log[n.id] == n.log && n.term <= t
    requires n'.vote != n.id || n'.term > t || t == n.term
    ensures Observe(Advance(l, n.id, t), BecomeFollower(n, t, leader), n', out) == Observe(l, n, n', out)
  {
    assert l.term[n.id := t][n.id := n'.term] == l.term[n.id := n'.term];
  }

  // Storing appends -------------------------------------------------------------------------------

  /** A matching anchor means that the logs agree up to the anchor. */
  lemma AnchorMatches(l: Ledger, log: Log, m: Message)
    requires m.AppendMsg? && AnchorOk(l, m) && Acked(l, m.to, m.term) <= |log|
    requires Traced(l, log) && Traced(l, LeaderLog(l, m.term))
    requires TermAt(log, m.index) == m.logTerm
    ensures m.index + |m.entries| <= |LeaderLog(l, m.term)| && m.index <= |log|
    ensures m.entries == LeaderLog(l, m.term)[m.index..m.index + |m.entries|]
    ensures log[..m.index] == LeaderLog(l, m.term)[..m.index]
  {
    var d := LeaderLog(l, m.term);
    if 0 < m.index <= |log| {
      assert log[m.index - 1].term >= 1;
      Matching(l, log, d, m.index);
    }
  }

  /** find_conflict stops at the first difference: everything before it agrees. */
  lemma {:induction false} ConflictSplits(l: Ledger, log: Log, d: Log, p: nat, q: nat)
    requires Traced(l, log) && Traced(l, d)
    requires p <= q <= |d| && p <= |log| && log[..p] == d[..p]
    ensures var c := FindConflict(log, d[p..q]);
            if c == 0 then q <= |log| && log[..q] == d[..q]
            else p < c <= q && c <= |log| + 1 && log[..c - 1] == d[..c - 1] && !(d[..q] <= log)
    decreases q - p
  {
    if p < q {
      var ents := d[p..q];
      assert ents[0] == d[p] && d[p].index == p + 1;
      assert ents[1..] == d[p + 1..q];
      if p < |log| && log[p].term == d[p].term {
        Matching(l, log, d, p + 1);
        ConflictSplits(l, log, d, p + 1, q);
      } else {
        assert d[p].term >= 1;
        assert FindConflict(log, ents) == p + 1;
        assert d[..q][p] == d[p];
      }
    }
  }

  /** What stays persisted when everything from `conflict` on is replaced lies within the new log. */
  predicate KeepsPersisted(log: Log, log': Log, conflict: nat) {
    conflict <= |log'| && (conflict == 0 ==> log' == log)
  }

  /** What maybe_append does with a good append: it stores exactly the leader's prefix and never breaks. */
  lemma StoresPrefix(l: Ledger, log: Log, committed: nat, m: Message)
    requires m.AppendMsg? && AnchorOk(l, m) && Acked(l, m.to, m.term) <= |log| && committed <= m.index
    requires Traced(l, log) && Traced(l, LeaderLog(l, m.term))
    requires TermAt(log, m.index) == m.logTerm
    ensures var d, last := LeaderLog(l, m.term), m.index + |m.entries|;
            var c := Min(m.commit, last);
            && last <= |d|
            && MaybeAppend(log, committed, m.index, m.logTerm, m.commit, m.entries) ==
               Stored(Store(log, d[..last]), if committed >= c then committed else c, FindConflict(log, m.entries),
                      last)
            && KeepsPersisted(log, Store(log, d[..last]), FindConflict(log, m.entries))
  {
    hide Traced, AnchorOk, MaybeAppend, Store, FindConflict, Acked;
    AnchorMatches(l, log, m);
    var d, last := LeaderLog(l, m.term), m.index + |m.entries|;
    ConflictSplits(l, log, d, m.index, last);
    AppendsPrefix(log, committed, m.index, m.logTerm, m.commit, d, last, m.entries);
  }

  lemma AppendsPrefix(log: Log, committed: nat, index: nat, term: nat, commit: nat, d: Log, last: nat, ents: Log)
    requires committed <= index <= last <= |d| && index <= |log| && TermAt(log, index) == term
    requires ents == d[index..last]
    requires var c := FindConflict(log, ents);
             if c == 0 then last <= |log| && log[..last] == d[..last]
             else index < c <= last && c <= |log| + 1 && log[..c - 1] == d[..c - 1] && !(d[..last] <= log)
    ensures var c := Min(commit, last);
            && MaybeAppend(log, committed, index, term, commit, ents) ==
               Stored(Store(log, d[..last]), if committed >= c then committed else c, FindConflict(log, ents), last)
            && KeepsPersisted(log, Store(log, d[..last]), FindConflict(log, ents))
  {
    hide FindConflict, TermAt;
    var c := FindConflict(log, ents);
    if c == 0 {
      assert d[..last] <= log;
      assert MaybeAppend(log, committed, index, term, commit, ents) == CommitStored(log, committed, commit, c, last);
    } else {
      Splice(log, d, c - 1, index, last);
      assert MaybeAppend(log, committed, index, term, commit, ents)
          == CommitStored(d[..last], committed, commit, c, last);
    }
  }

  lemma Splice(log: Log, d: Log, k: nat, index: nat, last: nat)
    requires index <= k <= last <= |d| && k <= |log| && log[..k] == d[..k]
    ensures log[..k] + d[index..last][k - index..] == d[..last]
  {
    assert d[index..last][k - index..] == d[k..last];
  }

  lemma GoodLogs(cfg: JointConfig, l: Ledger, i: NodeId, t: nat)
    requires Inv(cfg, l) && i in l.log
    ensures GoodLog(l, l.log[i], l.term[i])
    ensures Traced(l, LeaderLog(l, t))
  {
    if t in l.reign {
      assert GoodLog(l, l.reign[t].log, t);
    }
  }

  lemma ObserveAccept(ids: set<NodeId>, l: Ledger, asked: Asked, n: Node, n': Node, m: Message, last: nat)
    requires NodeOk(ids, l, asked, n) && n.term in l.reign && last <= |l.reign[n.term].log|
    requires n' == n.(log := n'.log, committed := n'.committed, persisted := n'.persisted) && n.role != Leader
    requires n'.log == Store(n.log, l.reign[n.term].log[..last])
    requires m.AppendResp? && !m.reject && m.term == n.term && m.index == last
    ensures MayAccept(l, n.id, n.term, last)
    ensures Observe(l, n, n', {m}) == Accept(l, n.id, n.term, last)
  {
    OneAck(m);
    assert l.term[n.id := n.term] == l.term;
    if n.vote != INVALID_ID {
      assert l.vote[(n.id, n.term) := n.vote] == l.vote;
    }
  }

  lemma AcceptNode(ids: set<NodeId>, l: Ledger, asked: Asked, n: Node, m: Message, n': Node)
    requires NodeOk(ids, l, asked, n) && n.role == Follower && n.term in l.reign
    requires m.AppendMsg? && m.term == n.term && n.committed <= m.index <= |n.log|
    requires m.index + |m.entries| <= |LeaderLog(l, n.term)|
    requires n.log[..m.index] == LeaderLog(l, n.term)[..m.index]
    requires m.commit <= |LeaderLog(l, n.term)| && Settled(l, LeaderLog(l, n.term), m.commit)
    requires var d, last := LeaderLog(l, n.term), m.index + |m.entries|;
             var c := Min(m.commit, last);
             && n' == n.(log := Store(n.log, d[..last]), committed := if n.committed >= c then n.committed else c,
                         persisted := n'.persisted)
             && n'.persisted <= |n'.log|
    ensures MayAccept(l, n.id, n.term, m.index + |m.entries|)
    ensures NodeOk(ids, Accept(l, n.id, n.term, m.index + |m.entries|), asked, n')
  {
    hide Settled;
    var d, last := LeaderLog(l, n.term), m.index + |m.entries|;
    AcceptGrows(l, n.id, n.term, last);
    var k := Accept(l, n.id, n.term, last);
    AcceptSettled(l, k, n.log, d, last, n.committed, m.index, m.commit);
    AcceptAcked(l, n, d, last, m.index);
    assert d[..last] <= n'.log;
  }

  lemma AcceptSettled(l: Ledger, k: Ledger, log: Log, d: Log, last: nat, committed: nat, index: nat, commit: nat)
    requires Grows(l, k) && Settled(l, log, committed) && committed <= |log|
    requires committed <= index <= last <= |d| && index <= |log| && log[..index] == d[..index]
    requires commit <= |d| && Settled(l, d, commit)
    ensures var c := Min(commit, last);
            Settled(k, Store(log, d[..last]), if committed >= c then committed else c)
  {
    var c := Min(commit, last);
    var log' := Store(log, d[..last]);
    if committed >= c {
      SettledPrefix(l, log, log', committed) by {
        StoreHolds(log, d[..last], d, index);
        assert log'[..committed] == log'[..index][..committed] == log[..index][..committed];
      }
      SettledGrows(l, k, log', log', committed);
    } else {
      SettledLess(l, d, commit, c);
      SettledPrefix(l, d, log', c) by {
        assert d[..last] <= log';
        assert d[..last][..c] == d[..c] && log'[..last][..c] == log'[..c];
      }
      SettledGrows(l, k, log', log', c);
    }
  }

  lemma SettledLess(l: Ledger, lg: Log, m: nat, c: nat)
    requires Settled(l, lg, m) && c <= m
    ensures Settled(l, lg, c)
  {
    if c > 0 {
      var t :| t in l.reign && m <= l.reign[t].committed && Holds(l, t, m, lg);
      HoldsLess(l, t, m, c, lg);
    }
  }

  lemma SettledPrefix(l: Ledger, lg: Log, lg': Log, m: nat)
    requires Settled(l, lg, m) && m <= |lg| && m <= |lg'| && lg[..m] == lg'[..m]
    ensures Settled(l, lg', m)
  {
    if m > 0 {
      var t :| t in l.reign && m <= l.reign[t].committed && Holds(l, t, m, lg);
      assert Holds(l, t, m, lg');
    }
  }

  lemma AcceptAcked(l: Ledger, n: Node, d: Log, last: nat, index: nat)
    requires MayAccept(l, n.id, n.term, last) && d == LeaderLog(l, n.term) && l.log[n.id] == n.log
    requires index <= last && index <= |n.log| && n.log[..index] == d[..index] && n.committed <= index
    requires Acked(l, n.id, n.term) <= |n.log|
    requires Holds(l, n.term, Acked(l, n.id, n.term), n.log) || Acked(l, n.id, n.term) <= n.committed
    ensures var k := Accept(l, n.id, n.term, last);
            var a := Acked(k, n.id, n.term);
            a <= |k.log[n.id]| && Holds(k, n.term, a, k.log[n.id])
  {
    var k := Accept(l, n.id, n.term, last);
    var a := Acked(l, n.id, n.term);
    if a <= last {
      assert Holds(k, n.term, last, k.log[n.id]) by { AcceptNew(l, n.id, n.term, last, last); }
    } else {
      StoreHolds(n.log, d[..last], d, a);
    }
  }

  /** The reply below the committed index is the acknowledgement that VouchCommitted records. */
  lemma ObserveVouch(ids: set<NodeId>, l: Ledger, asked: Asked, n: Node, m: Message)
    requires NodeOk(ids, l, asked, n) && n.role != Leader
    requires m.AppendResp? && !m.reject && m.term == n.term && m.index == n.committed
    ensures Observe(l, n, n, {m}) == VouchCommitted(l, n.id, n.term, n.committed)
  {
    OneAck(m);
    assert l.term[n.id := n.term] == l.term;
    assert l.log[n.id := n.log] == l.log;
    if n.vote != INVALID_ID {
      assert l.vote[(n.id, n.term) := n.vote] == l.vote;
    }
  }

  lemma VouchNode(ids: set<NodeId>, l: Ledger, asked: Asked, n: Node)
    requires NodeOk(ids, l, asked, n) && n.role == Follower && n.term in l.reign
    ensures MayVouchCommitted(l, n.id, n.term, n.committed)
    ensures NodeOk(ids, VouchCommitted(l, n.id, n.term, n.committed), asked, n)
  {
    hide Settled;
    var k := VouchCommitted(l, n.id, n.term, n.committed);
    VouchGrows(l, n.id, n.term, n.committed);
    SettledGrows(l, k, n.log, n.log, n.committed);
  }

  lemma LowAppendOk(cfg: JointConfig, ids: set<NodeId>, l: Ledger, asked: Asked, n: Node, m: Message)
    requires Ready(cfg, ids, l, asked, n) && n.role == Follower && n.term in l.reign && n.term >= 1
    requires m.AppendResp? && !m.reject && m.from == n.id && m.term == n.term && m.index == n.committed
    ensures StepOk(cfg, ids, l, asked, n, n, {m})
  {
    hide NodeOk, Inv, Observe, RecordOk, Grows;
    ObserveVouch(ids, l, asked, n, m);
    VouchNode(ids, l, asked, n);
    VouchKeeps(cfg, l, n.id, n.term, n.committed);
  }

  lemma StoredAppendOk(cfg: JointConfig, ids: set<NodeId>, l: Ledger, asked: Asked, n: Node, m: Message,
                       n': Node, r: Message)
    requires Ready(cfg, ids, l, asked, n) && n.role == Follower && n.term in l.reign && n.term >= 1
    requires m.AppendMsg? && m.term == n.term && n.committed <= m.index <= |n.log|
    requires m.index + |m.entries| <= |LeaderLog(l, n.term)|
    requires n.log[..m.index] == LeaderLog(l, n.term)[..m.index]
    requires m.commit <= |LeaderLog(l, n.term)| && Settled(l, LeaderLog(l, n.term), m.commit)
    requires var d, last := LeaderLog(l, n.term), m.index + |m.entries|;
             var c := Min(m.commit, last);
             && n' == n.(log := Store(n.log, d[..last]), committed := if n.committed >= c then n.committed else c,
                         persisted := n'.persisted)
             && n'.persisted <= |n'.log|
    requires r.AppendResp? && !r.reject && r.from == n.id && r.term == n.term && r.index == m.index + |m.entries|
    ensures StepOk(cfg, ids, l, asked, n, n', {r})
  {
    hide NodeOk, Inv, Observe, RecordOk, Grows, Store, Settled;
    var last := m.index + |m.entries|;
    AcceptNode(ids, l, asked, n, m, n');
    ObserveAccept(ids, l, asked, n, n', r, last);
    AcceptKeeps(cfg, l, n.id, n.term, last);
  }

  /** A reply that acknowledges nothing, from a node whose recorded state is unchanged. */
  lemma QuietOk(cfg: JointConfig, ids: set<NodeId>, l: Ledger, asked: Asked, n: Node, n': Node, out: set<Message>)
    requires Ready(cfg, ids, l, asked, n)
    requires n'.id == n.id && n'.term == n.term && NodeOk(ids, l, asked, n')
    requires Silent(out)
    requires forall m <- out :: MsgOk(ids, l, asked, m)
    ensures StepOk(cfg, ids, l, asked, n, n', out)
  {
    hide NodeOk, Inv, Observe, RecordOk, MsgOk, Grows;
    ObserveSame(ids, l, asked, n, n', out);
    GrowsSame(l);
  }

  lemma AppendFacts(cfg: JointConfig, ids: set<NodeId>, l: Ledger, asked: Asked, n: Node, m: Message)
    requires Ready(cfg, ids, l, asked, n) && MsgOk(ids, l, asked, m)
    requires m.AppendMsg? && m.to == n.id && m.term == n.term
    ensures NodeOk(ids, l, asked, n) && n.term in l.reign && n.term >= 1 && AnchorOk(l, m)
    ensures Acked(l, n.id, n.term) <= |n.log|
    ensures m.commit <= |LeaderLog(l, n.term)| && Settled(l, LeaderLog(l, n.term), m.commit)
    ensures Traced(l, n.log) && Traced(l, LeaderLog(l, n.term))
  {
    hide Settled, AnchorOk, Traced, RecordOk;
    GoodLogs(cfg, l, n.id, n.term);
  }

  lemma PersistedWithin(ids: set<NodeId>, l: Ledger, asked: Asked, n: Node)
    requires NodeOk(ids, l, asked, n)
    ensures n.persisted <= |n.log|
  {
  }

  lemma HandleStored(cfg: JointConfig, ids: set<NodeId>, l: Ledger, asked: Asked, n: Node, m: Message)
    requires Ready(cfg, ids, l, asked, n) && MsgOk(ids, l, asked, m) && n.role == Follower
    requires m.AppendMsg? && m.to == n.id && m.term == n.term
    requires n.committed <= m.index && TermAt(n.log, m.index) == m.logTerm
    ensures var d := HandleAppend(n, m);
            d.Done? && d.node.vote == n.vote && d.node.term == n.term && StepOk(cfg, ids, l, asked, n, d.node, d.out)
  {
    hide Ready, Traced, Settled, StepOk, MaybeAppend, MsgOk, NodeOk, AnchorOk, Store, FindConflict;
    AppendFacts(cfg, ids, l, asked, n, m);
    AnchorMatches(l, n.log, m);
    StoresPrefix(l, n.log, n.committed, m);
    var d := HandleAppend(n, m);
    assert n.persisted <= |n.log| by { PersistedWithin(ids, l, asked, n); }
    StoredAppendOk(cfg, ids, l, asked, n, m, d.node,
      AppendResp(n.id, m.from, n.term, m.index + |m.entries|, false, 0, 0, d.node.committed));
  }

  lemma RefusalOk(ids: set<NodeId>, l: Ledger, asked: Asked, n: Node, m: Message)
    requires m.AppendResp? && m.reject && m.term >= 1
    ensures MsgOk(ids, l, asked, m) && Silent({m})
  {
  }

  /** Every append is answered without a panic: no conflict below the committed index, no commit past the end. */
  lemma HandleAppendOk(cfg: JointConfig, ids: set<NodeId>, l: Ledger, asked: Asked, n: Node, m: Message)
    requires Ready(cfg, ids, l, asked, n) && MsgOk(ids, l, asked, m) && n.role == Follower
    requires m.AppendMsg? && m.to == n.id && m.term == n.term
    ensures var d := HandleAppend(n, m);
            d.Done? && d.node.vote == n.vote && d.node.term == n.term && StepOk(cfg, ids, l, asked, n, d.node, d.out)
  {
    hide Ready, Traced, Settled, StepOk, MsgOk, NodeOk, AnchorOk, Silent, LastUpTo, FindConflict;
    AppendFacts(cfg, ids, l, asked, n, m);
    if m.index < n.committed {
      LowAppendOk(cfg, ids, l, asked, n, AppendResp(n.id, m.from, n.term, n.committed, false, 0, 0, n.committed));
    } else if TermAt(n.log, m.index) != m.logTerm {
      var hint := LastUpTo(n.log, Min(m.index, |n.log|), m.logTerm);
      var r := AppendResp(n.id, m.from, n.term, m.index, true, hint, TermAt(n.log, hint), n.committed);
      RefusalOk(ids, l, asked, n, r);
      QuietOk(cfg, ids, l, asked, n, n, {r});
    } else {
      HandleStored(cfg, ids, l, asked, n, m);
    }
  }

  // Learning a commit index -----------------------------------------------------------------------

  lemma CommitNode(ids: set<NodeId>, l: Ledger, asked: Asked, n: Node, c: nat)
    requires NodeOk(ids, l, asked, n) && n.role != Leader
    requires n.committed <= c <= |n.log| && Settled(l, n.log, c)
    ensures NodeOk(ids, l, asked, n.(committed := c))
  {
    hide Settled;
  }

  /** An entry that a leader committed is the same entry wherever its term is found at its index. */
  lemma CommitMatchingOk(ids: set<NodeId>, l: Ledger, asked: Asked, n: Node, index: nat, term: nat)
    requires NodeOk(ids, l, asked, n) && n.role != Leader && Traced(l, n.log)
    requires term >= 1 && index <= |LeaderLog(l, term)| && Settled(l, LeaderLog(l, term), index)
    ensures var d := CommitMatching(n, index, term);
            d.Done? && d.out == {} && d.node == n.(committed := d.node.committed) && NodeOk(ids, l, asked, d.node)
  {
    if index > n.committed && TermAt(n.log, index) == term {
      assert Holds(l, term, index, n.log);
      SettledPrefix(l, LeaderLog(l, term), n.log, index);
      CommitNode(ids, l, asked, n, index);
    }
  }

  lemma HeartbeatFacts(cfg: JointConfig, ids: set<NodeId>, l: Ledger, asked: Asked, n: Node, m: Message)
    requires Ready(cfg, ids, l, asked, n) && MsgOk(ids, l, asked, m)
    requires m.Heartbeat? && m.to == n.id && m.term == n.term
    ensures NodeOk(ids, l, asked, n) && m.commit <= |n.log|
    ensures m.commit > n.committed ==> Settled(l, n.log, m.commit)
  {
    hide RecordOk, Inv;
    if m.commit > n.committed {
      var a := Acked(l, n.id, n.term);
      HoldsLess(l, n.term, a, m.commit, n.log);
      SettledPrefix(l, LeaderLog(l, n.term), n.log, m.commit);
    }
  }

  lemma HeartbeatRespOk(cfg: JointConfig, ids: set<NodeId>, l: Ledger, asked: Asked, n: Node, m: Message, c: nat)
    requires Ready(cfg, ids, l, asked, n) && MsgOk(ids, l, asked, m)
    requires m.Heartbeat? && m.to == n.id && m.term == n.term
    ensures MsgOk(ids, l, asked, HeartbeatResp(n.id, m.from, n.term, c, m.ctx))
  {
    if m.ctx.Some? && !asked.repeated {
      assert RecordOk(cfg, l, asked, (m.ctx.value, m.term));
    }
  }

  /** No heartbeat commits past the end of the log, and what it commits is committed. */
  lemma HandleHeartbeatOk(cfg: JointConfig, ids: set<NodeId>, l: Ledger, asked: Asked, n: Node, m: Message)
    requires Ready(cfg, ids, l, asked, n) && MsgOk(ids, l, asked, m) && n.role == Follower
    requires m.Heartbeat? && m.to == n.id && m.term == n.term
    ensures var d := HandleHeartbeat(n, m);
            d.Done? && d.node.vote == n.vote && d.node.term == n.term && StepOk(cfg, ids, l, asked, n, d.node, d.out)
  {
    hide Ready, StepOk, MsgOk, NodeOk, Settled;
    HeartbeatFacts(cfg, ids, l, asked, n, m);
    if m.commit > n.committed {
      CommitNode(ids, l, asked, n, m.commit);
    }
    var d := HandleHeartbeat(n, m);
    HeartbeatRespOk(cfg, ids, l, asked, n, m, d.node.committed);
    assert Silent(d.out);
    QuietOk(cfg, ids, l, asked, n, d.node, d.out);
  }

  lemma LogTraced(cfg: JointConfig, ids: set<NodeId>, l: Ledger, asked: Asked, n: Node)
    requires Ready(cfg, ids, l, asked, n)
    ensures NodeOk(ids, l, asked, n) && GoodLog(l, n.log, n.term)
  {
    hide Settled, RecordOk, GoodLog;
    GoodLogs(cfg, l, n.id, n.term);
  }

  lemma ReadNode(ids: set<NodeId>, l: Ledger, asked: Asked, n: Node, r: ReadState)
    requires NodeOk(ids, l, asked, n) && ReadOk(asked, r.ctx, r.index)
    ensures NodeOk(ids, l, asked, n.(readStates := n.readStates + [r]))
  {
    hide Settled, LeaderOk;
    if n.role == Leader {
      ReadLeader(l, asked, n, n.readStates + [r]);
    }
  }

  lemma ReadLeader(l: Ledger, asked: Asked, n: Node, rs: seq<ReadState>)
    requires LeaderOk(l, asked, n)
    ensures LeaderOk(l, asked, n.(readStates := rs))
  {
    hide ReadOnly.Valid, Nested;
    var n' := n.(readStates := rs);
    forall j <- n'.progress
      ensures PeerOk(l, n', j)
    {
      assert PeerOk(l, n, j);
    }
    forall c <- n'.readOnly.pending
      ensures QueuedOk(asked, n', c)
    {
      assert QueuedOk(asked, n, c);
    }
    assert n'.readOnly.Valid();
  }

  lemma ReadRespFacts(cfg: JointConfig, ids: set<NodeId>, l: Ledger, asked: Asked, n: Node, m: Message)
    requires Ready(cfg, ids, l, asked, n) && MsgOk(ids, l, asked, m) && m.ReadIndexResp?
    ensures m.index <= |LeaderLog(l, m.term)| && Settled(l, LeaderLog(l, m.term), m.index)
    ensures ReadOk(asked, m.req, m.index)
  {
    hide NodeOk, RecordOk;
    assert Chosen(cfg, l, m.term, l.reign[m.term].committed);
    assert Holds(l, m.term, m.index, LeaderLog(l, m.term));
  }

  /** A follower learns its leader's commit index from the answer to a read. */
  lemma HandleReadRespOk(cfg: JointConfig, ids: set<NodeId>, l: Ledger, asked: Asked, n: Node, m: Message)
    requires Ready(cfg, ids, l, asked, n) && MsgOk(ids, l, asked, m) && n.role == Follower
    requires m.ReadIndexResp? && m.term == n.term && m.term >= 1
    ensures var d := StepFollower(n, m);
            d.Done? && d.node.vote == n.vote && d.node.term == n.term && StepOk(cfg, ids, l, asked, n, d.node, d.out)
  {
    hide Ready, StepOk, MsgOk, NodeOk, Settled, Traced, ReadOk;
    LogTraced(cfg, ids, l, asked, n);
    ReadRespFacts(cfg, ids, l, asked, n, m);
    var r := n.(readStates := n.readStates + [ReadState(m.index, m.req)]);
    ReadNode(ids, l, asked, n, ReadState(m.index, m.req));
    CommitMatchingOk(ids, l, asked, r, m.index, m.term);
    var d := StepFollower(n, m);
    assert Silent(d.out);
    QuietOk(cfg, ids, l, asked, n, d.node, d.out);
  }

  // Voting ----------------------------------------------------------------------------------------

  lemma OwnCommitInfo(l: Ledger, n: Node)
    requires n.committed <= |n.log| && Settled(l, n.log, n.committed) && Traced(l, n.log)
    ensures CommitInfoOk(l, n.committed, CommitTerm(n))
  {
    if n.committed > 0 {
      var s := CommitTerm(n);
      assert Holds(l, s, n.committed, n.log);
      assert LeaderLog(l, s)[n.committed - 1] == n.log[..n.committed][n.committed - 1];
      SettledPrefix(l, n.log, LeaderLog(l, s), n.committed);
    }
  }

  lemma ObserveVote(ids: set<NodeId>, l: Ledger, asked: Asked, n: Node, from: NodeId, out: set<Message>)
    requires NodeOk(ids, l, asked, n) && n.role != Leader && from != INVALID_ID && from != n.id && Silent(out)
    ensures Observe(l, n, n.(vote := from), out) == Vote(l, n.id, from)
  {
    NoAck(out, n.term);
    assert l.term[n.id := n.term] == l.term;
    assert l.log[n.id := n.log] == l.log;
  }

  lemma VoteNode(ids: set<NodeId>, l: Ledger, asked: Asked, n: Node, from: NodeId)
    requires NodeOk(ids, l, asked, n) && n.role != Leader && n.role != Candidate
    requires from != INVALID_ID && MayVote(l, n.id, from)
    ensures NodeOk(ids, Vote(l, n.id, from), asked, n.(vote := from))
  {
    hide Settled, MayVote;
    var k := Vote(l, n.id, from);
    VoteGrows(l, n.id, from);
    SettledGrows(l, k, n.log, n.log, n.committed);
  }

  lemma GrantOk(cfg: JointConfig, ids: set<NodeId>, l: Ledger, asked: Asked, n: Node, from: NodeId, r: Message)
    requires Ready(cfg, ids, l, asked, n) && n.role != Leader && n.role != Candidate
    requires from != INVALID_ID && from != n.id && MayVote(l, n.id, from) && n.term >= 1
    requires r == VoteResp(n.id, from, n.term, false, false, 0, 0)
    ensures StepOk(cfg, ids, l, asked, n, n.(vote := from), {r})
  {
    hide NodeOk, Inv, Observe, RecordOk, Grows, MayVote;
    ObserveVote(ids, l, asked, n, from, {r});
    VoteNode(ids, l, asked, n, from);
    NodeTerm(ids, l, asked, n);
    VoteKeeps(cfg, l, n.id, from);
  }

  lemma MayGrant(cfg: JointConfig, ids: set<NodeId>, l: Ledger, asked: Asked, n: Node, m: Message)
    requires Ready(cfg, ids, l, asked, n) && MsgOk(ids, l, asked, m)
    requires m.RequestVote? && !m.pre && m.to == n.id && m.term == n.term
    requires n.vote == m.from || n.vote == INVALID_ID
    requires UpToDate(n.log, m.index, m.logTerm)
    ensures m.from != INVALID_ID && m.from != n.id && MayVote(l, n.id, m.from) && m.term >= 1
    ensures n.role != Leader && n.role != Candidate
  {
    hide Inv, RecordOk, Settled, CommitInfoOk;
  }

  lemma CommitByVoteOk(cfg: JointConfig, ids: set<NodeId>, l: Ledger, asked: Asked, n: Node, commit: nat,
                       commitTerm: nat)
    requires NodeOk(ids, l, asked, n) && Traced(l, n.log) && CommitInfoOk(l, commit, commitTerm)
    ensures var d := CommitByVote(n, commit, commitTerm);
            d.Done? && d.node == n.(committed := d.node.committed) && NodeOk(ids, l, asked, d.node)
  {
    hide NodeOk, Traced, Settled;
    if commit != 0 && commitTerm != 0 && n.role != Leader {
      CommitMatchingOk(ids, l, asked, n, commit, commitTerm);
    }
  }

  lemma RejectFacts(cfg: JointConfig, ids: set<NodeId>, l: Ledger, asked: Asked, n: Node)
    requires Ready(cfg, ids, l, asked, n)
    ensures NodeOk(ids, l, asked, n) && Traced(l, n.log) && CommitInfoOk(l, n.committed, CommitTerm(n))
  {
    hide RecordOk, Settled, Inv, Traced, CommitInfoOk;
    LogTraced(cfg, ids, l, asked, n);
    OwnCommitInfo(l, n);
  }

  lemma RejectVoteOk(cfg: JointConfig, ids: set<NodeId>, l: Ledger, asked: Asked, n: Node, m: Message)
    requires Ready(cfg, ids, l, asked, n) && MsgOk(ids, l, asked, m) && m.RequestVote? && n.term >= 1
    ensures var d := CommitByVote(n, m.commit, m.commitTerm);
            d.Done? && d.node.vote == n.vote && d.node.term == n.term &&
            StepOk(cfg, ids, l, asked, n, d.node,
              {VoteResp(n.id, m.from, n.term, m.pre, true, n.committed, CommitTerm(n))})
  {
    hide Ready, NodeOk, Traced, CommitInfoOk, StepOk, CommitByVote;
    RejectFacts(cfg, ids, l, asked, n);
    CommitByVoteOk(cfg, ids, l, asked, n, m.commit, m.commitTerm);
    var r := VoteResp(n.id, m.from, n.term, m.pre, true, n.committed, CommitTerm(n));
    assert Silent({r});
    QuietOk(cfg, ids, l, asked, n, CommitByVote(n, m.commit, m.commitTerm).node, {r});
  }

  lemma HandleVoteRequestOk(cfg: JointConfig, ids: set<NodeId>, l: Ledger, asked: Asked, n: Node, m: Message)
    requires Ready(cfg, ids, l, asked, n) && MsgOk(ids, l, asked, m)
    requires m.RequestVote? && m.to == n.id && (m.pre || m.term == n.term)
    ensures var d := HandleVoteRequest(n, m);
            && (d.Fatal? <==> !Grants(n, m) && n.term == 0)
            && (d.Done? ==> d.node.term == n.term && (d.node.vote == n.vote || d.node.vote != n.id)
                            && StepOk(cfg, ids, l, asked, n, d.node, d.out))
  {
    hide Ready, MsgOk, NodeOk, StepOk, UpToDate, CommitByVote;
    if Grants(n, m) {
      if m.pre {
        PreGrantOk(cfg, ids, l, asked, n, m);
      } else {
        MayGrant(cfg, ids, l, asked, n, m);
        GrantOk(cfg, ids, l, asked, n, m.from, VoteResp(n.id, m.from, m.term, false, false, 0, 0));
      }
    } else if n.term >= 1 {
      RejectVoteOk(cfg, ids, l, asked, n, m);
    }
  }

  lemma PreGrantOk(cfg: JointConfig, ids: set<NodeId>, l: Ledger, asked: Asked, n: Node, m: Message)
    requires Ready(cfg, ids, l, asked, n) && MsgOk(ids, l, asked, m) && m.RequestVote?
    ensures StepOk(cfg, ids, l, asked, n, n, {VoteResp(n.id, m.from, m.term, true, false, 0, 0)})
  {
    hide NodeOk, RecordOk, Inv, StepOk;
    QuietOk(cfg, ids, l, asked, n, n, {VoteResp(n.id, m.from, m.term, true, false, 0, 0)});
  }

  /** A message from an earlier term changes nothing (src/raft.rs:1423-1485). */
  lemma StepLowerOk(cfg: JointConfig, ids: set<NodeId>, l: Ledger, asked: Asked, n: Node, m: Message)
    requires Ready(cfg, ids, l, asked, n) && n.term > m.term
    ensures var d := StepLower(n, m); d.Done? && StepOk(cfg, ids, l, asked, n, d.node, d.out)
  {
    hide NodeOk, RecordOk, Inv, StepOk;
    var d := StepLower(n, m);
    assert Silent(d.out);
    QuietOk(cfg, ids, l, asked, n, n, d.out);
  }
}
