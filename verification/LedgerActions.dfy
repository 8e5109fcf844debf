/** The facts a ledger gains, and the proof that each keeps the invariant. */
module LedgerActions {
  import opened Quorum
  import opened LogModel
  import opened Ledger

  // Clauses that carry over when an action leaves their subject alone -----------------------------

  lemma CarryReign(cfg: JointConfig, l: Ledger, k: Ledger, t: nat)
    requires Inv(cfg, l) && Grows(l, k) && t in l.reign && k.reign[t] == l.reign[t]
    ensures GoodLog(k, k.reign[t].log, t)
    ensures (k.reign[t].leader, t) in k.campaign
    ensures IsQuorum(cfg, VotersFor(k, t, k.reign[t].leader))
    ensures k.reign[t].committed > 0 ==> Chosen(cfg, k, t, k.reign[t].committed)
  {
    GoodLogGrows(l, k, l.reign[t].log, t, t);
    QuorumGrows(cfg, VotersFor(l, t, l.reign[t].leader), VotersFor(k, t, l.reign[t].leader));
    if l.reign[t].committed > 0 {
      ChosenGrows(cfg, l, k, t, l.reign[t].committed);
    }
  }

  lemma CarryReigns(cfg: JointConfig, l: Ledger, k: Ledger)
    requires Inv(cfg, l) && Grows(l, k) && k.reign == l.reign
    ensures ReignsOk(cfg, k)
  {
    forall t <- k.reign
      ensures GoodLog(k, k.reign[t].log, t)
      ensures (k.reign[t].leader, t) in k.campaign
      ensures IsQuorum(cfg, VotersFor(k, t, k.reign[t].leader))
      ensures k.reign[t].committed > 0 ==> Chosen(cfg, k, t, k.reign[t].committed)
    {
      CarryReign(cfg, l, k, t);
    }
  }

  lemma CarryLogs(cfg: JointConfig, l: Ledger, k: Ledger)
    requires Inv(cfg, l) && Grows(l, k) && k.log == l.log
    ensures LogsOk(k)
  {
    forall j <- k.log
      ensures GoodLog(k, k.log[j], k.term[j])
    {
      GoodLogGrows(l, k, l.log[j], l.term[j], k.term[j]);
    }
  }

  lemma CarryCampaigns(cfg: JointConfig, l: Ledger, k: Ledger)
    requires Inv(cfg, l) && Grows(l, k) && k.campaign == l.campaign
    ensures CampaignsOk(k)
  {
    forall i: NodeId, t: nat | (i, t) in k.campaign
      ensures i in k.term && t <= k.term[i] && GoodLog(k, k.campaign[(i, t)], t - 1)
    {
      GoodLogGrows(l, k, l.campaign[(i, t)], t - 1, t - 1);
    }
  }

  lemma CarryKept(cfg: JointConfig, l: Ledger, k: Ledger, j: NodeId, t: nat, n: nat)
    requires Inv(cfg, l) && Grows(l, k) && k.term.Keys == k.log.Keys
    requires j in l.log && 1 <= n <= Acked(l, j, t) && l.log[j] <= k.log[j]
    ensures Respects(cfg, k, t, n, k.log[j])
  {
    assert Respects(cfg, l, t, n, l.log[j]);
    RespectsGrows(cfg, l, k, t, n, l.log[j], k.log[j]);
  }

  lemma CarryAllKept(cfg: JointConfig, l: Ledger, k: Ledger)
    requires Inv(cfg, l) && Grows(l, k) && k.log.Keys == l.log.Keys
    requires k.acked == l.acked
    requires forall j <- l.log :: l.log[j] <= k.log[j]
    ensures Kept(cfg, k)
  {
    forall j: NodeId, t: nat, n: nat | j in k.log && 1 <= n <= Acked(k, j, t)
      ensures Respects(cfg, k, t, n, k.log[j])
    {
      CarryKept(cfg, l, k, j, t, n);
    }
  }

  lemma CarryVouch(cfg: JointConfig, l: Ledger, k: Ledger, j: NodeId, t': nat, t: nat, n: nat)
    requires Inv(cfg, l) && Grows(l, k) && VotesOk(k)
    requires (j, t') in l.vote && t < t' && 1 <= n <= Acked(k, j, t)
    ensures Respects(cfg, k, t, n, k.campaign[(k.vote[(j, t')], t')])
  {
    var c := l.campaign[(l.vote[(j, t')], t')];
    assert Acked(l, j, t) == Acked(k, j, t);
    assert Respects(cfg, l, t, n, c);
    RespectsGrows(cfg, l, k, t, n, c, c);
  }

  lemma CarryVouched(cfg: JointConfig, l: Ledger, k: Ledger)
    requires Inv(cfg, l) && Grows(l, k) && VotesOk(k) && k.vote == l.vote
    ensures Vouched(cfg, k)
  {
    forall j: NodeId, t': nat, t: nat, n: nat | (j, t') in k.vote && t < t' && 1 <= n <= Acked(k, j, t)
      ensures Respects(cfg, k, t, n, k.campaign[(k.vote[(j, t')], t')])
    {
      CarryVouch(cfg, l, k, j, t', t, n);
    }
  }

  lemma CarryCompleteAt(cfg: JointConfig, l: Ledger, k: Ledger, t': nat, t: nat, n: nat)
    requires Inv(cfg, l) && Grows(l, k) && t' in l.reign && t < t' && n >= 1
    ensures Respects(cfg, k, t, n, k.reign[t'].log)
  {
    assert Respects(cfg, l, t, n, l.reign[t'].log);
    RespectsGrows(cfg, l, k, t, n, l.reign[t'].log, k.reign[t'].log);
  }

  lemma CarryComplete(cfg: JointConfig, l: Ledger, k: Ledger)
    requires Inv(cfg, l) && Grows(l, k) && k.reign.Keys == l.reign.Keys
    ensures Complete(cfg, k)
  {
    forall t': nat, t: nat, n: nat | t' in k.reign && t < t' && n >= 1
      ensures Respects(cfg, k, t, n, k.reign[t'].log)
    {
      CarryCompleteAt(cfg, l, k, t', t, n);
    }
  }

  // A node moves to a later term ------------------------------------------------------------------

  function Advance(l: Ledger, j: NodeId, t: nat): Ledger {
    l.(term := l.term[j := t])
  }

  lemma AdvanceGrows(l: Ledger, j: NodeId, t: nat)
    requires j in l.term && l.term[j] <= t
    ensures Grows(l, Advance(l, j, t))
  {
    assert Advance(l, j, t).term.Keys == l.term.Keys;
  }

  lemma AdvanceKeeps(cfg: JointConfig, l: Ledger, j: NodeId, t: nat)
    requires Inv(cfg, l) && j in l.term && l.term[j] <= t
    ensures Inv(cfg, Advance(l, j, t)) && Grows(l, Advance(l, j, t))
  {
    hide GoodLog, Kept, Vouched, Complete, Respects, Chosen, IsQuorum;
    var k := Advance(l, j, t);
    AdvanceGrows(l, j, t);
    CarryReigns(cfg, l, k);
    CarryLogs(cfg, l, k);
    CarryCampaigns(cfg, l, k);
    CarryAllKept(cfg, l, k);
    CarryVouched(cfg, l, k);
    CarryComplete(cfg, l, k);
  }

  // A node campaigns: it moves to the next term and votes for itself ------------------------------

  function Campaign(l: Ledger, i: NodeId): Ledger
    requires i in l.term && i in l.log
  {
    var t := l.term[i] + 1;
    l.(term := l.term[i := t], campaign := l.campaign[(i, t) := l.log[i]], vote := l.vote[(i, t) := i])
  }

  lemma CampaignGrows(cfg: JointConfig, l: Ledger, i: NodeId)
    requires Inv(cfg, l) && i in l.term
    ensures Grows(l, Campaign(l, i))
  {
    var t := l.term[i] + 1;
    var k := Campaign(l, i);
    assert k.term.Keys == l.term.Keys;
    assert (i, t) !in l.campaign && (i, t) !in l.vote;
  }

  lemma CampaignOpens(cfg: JointConfig, l: Ledger, i: NodeId)
    requires Inv(cfg, l) && i in l.term
    ensures var k := Campaign(l, i); CampaignsOk(k) && VotesOk(k) && LogsOk(k)
  {
    var k := Campaign(l, i);
    CampaignGrows(cfg, l, i);
    CarryLogs(cfg, l, k);
    forall x: NodeId, t: nat | (x, t) in k.campaign
      ensures x in k.term && t <= k.term[x] && GoodLog(k, k.campaign[(x, t)], t - 1)
    {
      if (x, t) in l.campaign {
        GoodLogGrows(l, k, l.campaign[(x, t)], t - 1, t - 1);
      } else {
        GoodLogGrows(l, k, l.log[i], l.term[i], t - 1);
      }
    }
  }

  lemma CampaignVouches(cfg: JointConfig, l: Ledger, i: NodeId)
    requires Inv(cfg, l) && i in l.term
    requires VotesOk(Campaign(l, i))
    ensures Vouched(cfg, Campaign(l, i))
  {
    var k := Campaign(l, i);
    CampaignGrows(cfg, l, i);
    forall j: NodeId, t': nat, t: nat, n: nat | (j, t') in k.vote && t < t' && 1 <= n <= Acked(k, j, t)
      ensures Respects(cfg, k, t, n, k.campaign[(k.vote[(j, t')], t')])
    {
      if (j, t') in l.vote {
        CarryVouch(cfg, l, k, j, t', t, n);
      } else {
        CarryKept(cfg, l, k, i, t, n);
      }
    }
  }

  lemma CampaignKeeps(cfg: JointConfig, l: Ledger, i: NodeId)
    requires Inv(cfg, l) && i in l.term
    ensures Inv(cfg, Campaign(l, i)) && Grows(l, Campaign(l, i))
  {
    hide GoodLog, Kept, Vouched, Complete, Respects, Chosen, IsQuorum;
    var k := Campaign(l, i);
    CampaignGrows(cfg, l, i);
    CampaignOpens(cfg, l, i);
    CampaignVouches(cfg, l, i);
    CarryReigns(cfg, l, k);
    CarryAllKept(cfg, l, k);
    CarryComplete(cfg, l, k);
  }

  // A node votes for a candidate of its own term --------------------------------------------------

  function Vote(l: Ledger, j: NodeId, i: NodeId): Ledger
    requires j in l.term
  {
    l.(vote := l.vote[(j, l.term[j]) := i])
  }

  ghost predicate MayVote(l: Ledger, j: NodeId, i: NodeId) {
    && j in l.term && j in l.log
    && var t := l.term[j];
    && (i, t) in l.campaign
    && ((j, t) in l.vote ==> l.vote[(j, t)] == i)
    && UpToDate(l.log[j], |l.campaign[(i, t)]|, LastTerm(l.campaign[(i, t)]))
  }

  lemma OwnEntry(l: Ledger, t: nat, n: nat, lg: Log)
    requires n >= 1 && OwnIndex(l, t, n) && Holds(l, t, n, lg)
    ensures lg[n - 1].term == t
  {
    assert lg[n - 1] == lg[..n][n - 1] == LeaderLog(l, t)[n - 1];
  }

  /** Of two good logs that end in the same term, the shorter is a prefix of the longer. */
  lemma SameLastTerm(l: Ledger, lg: Log, c: Log)
    requires Traced(l, lg) && Traced(l, c)
    requires lg != [] && |lg| <= |c| && LastTerm(lg) == LastTerm(c)
    ensures lg <= c
  {
    var d := LeaderLog(l, LastTerm(c));
    assert Holds(l, LastTerm(c), |c|, c) && Holds(l, LastTerm(lg), |lg|, lg);
    assert c[..|lg|] == d[..|c|][..|lg|];
  }

  /** The up-to-date rule: a candidate at least as new as `lg` respects what `lg` respects. */
  lemma NewerRespects(cfg: JointConfig, l: Ledger, lg: Log, c: Log, a: int, b: int, t: nat, n: nat)
    requires Inv(cfg, l) && GoodLog(l, lg, a) && GoodLog(l, c, b)
    requires UpToDate(lg, |c|, LastTerm(c))
    requires n >= 1 && Respects(cfg, l, t, n, lg)
    ensures Respects(cfg, l, t, n, c)
  {
    hide Inv, Blocked, Traced;
    if OwnIndex(l, t, n) && !Blocked(cfg, l, t, n) {
      OwnEntry(l, t, n, lg);
      if LastTerm(c) == LastTerm(lg) {
        SameLastTerm(l, lg, c);
        assert c[..n] == lg[..n];
      } else {
        LaterRespects(cfg, l, c, b, t, n);
      }
    }
  }

  lemma TracedPrefix(l: Ledger, lg: Log, m: nat)
    requires Traced(l, lg) && m <= |lg|
    ensures Traced(l, lg[..m])
  {
    forall k | 0 <= k < m
      ensures Holds(l, lg[k].term, k + 1, lg[..m])
    {
      assert Holds(l, lg[k].term, k + 1, lg);
      assert lg[..m][..k + 1] == lg[..k + 1];
    }
  }

  /** A log that ends in a term later than `t` holds what the leader of that term holds of term `t`. */
  lemma LaterRespects(cfg: JointConfig, l: Ledger, c: Log, b: int, t: nat, n: nat)
    requires Inv(cfg, l) && GoodLog(l, c, b) && c != [] && t < LastTerm(c)
    requires n >= 1 && OwnIndex(l, t, n) && !Blocked(cfg, l, t, n)
    ensures Holds(l, t, n, c)
  {
    hide Inv, Blocked;
    var s := LastTerm(c);
    var d := LeaderLog(l, s);
    assert Holds(l, s, |c|, c);
    CompleteAt(cfg, l, t, s, n);
    ReignGood(cfg, l, s);
    assert d[n - 1] == d[..n][n - 1] == LeaderLog(l, t)[n - 1];
    assert d[|c| - 1] == d[..|c|][|c| - 1] == c[|c| - 1];
    assert n <= |c|;
    assert c[..n] == d[..|c|][..n];
  }

  lemma VoteGrows(l: Ledger, j: NodeId, i: NodeId)
    requires MayVote(l, j, i)
    ensures Grows(l, Vote(l, j, i))
  {
  }

  lemma VoteVouches(cfg: JointConfig, l: Ledger, j: NodeId, i: NodeId)
    requires Inv(cfg, l) && MayVote(l, j, i)
    requires VotesOk(Vote(l, j, i))
    ensures Vouched(cfg, Vote(l, j, i))
  {
    var k := Vote(l, j, i);
    VoteGrows(l, j, i);
    var c := l.campaign[(i, l.term[j])];
    forall x: NodeId, t': nat, t: nat, n: nat | (x, t') in k.vote && t < t' && 1 <= n <= Acked(k, x, t)
      ensures Respects(cfg, k, t, n, k.campaign[(k.vote[(x, t')], t')])
    {
      if (x, t') in l.vote {
        CarryVouch(cfg, l, k, x, t', t, n);
      } else {
        assert Respects(cfg, l, t, n, l.log[j]);
        NewerRespects(cfg, l, l.log[j], c, l.term[j], t' - 1, t, n);
        RespectsGrows(cfg, l, k, t, n, c, c);
      }
    }
  }

  lemma VoteKeeps(cfg: JointConfig, l: Ledger, j: NodeId, i: NodeId)
    requires Inv(cfg, l) && MayVote(l, j, i)
    ensures Inv(cfg, Vote(l, j, i)) && Grows(l, Vote(l, j, i))
  {
    hide GoodLog, Kept, Vouched, Complete, Respects, Chosen, IsQuorum;
    var k := Vote(l, j, i);
    VoteGrows(l, j, i);
    VoteVouches(cfg, l, j, i);
    CarryReigns(cfg, l, k);
    CarryLogs(cfg, l, k);
    CarryCampaigns(cfg, l, k);
    CarryAllKept(cfg, l, k);
    CarryComplete(cfg, l, k);
  }

  // A candidate with a quorum of votes becomes leader and appends its first entry -----------------

  ghost predicate MayLead(cfg: JointConfig, l: Ledger, i: NodeId, e: Entry) {
    && i in l.term && i in l.log
    && var t := l.term[i];
    && (i, t) in l.campaign && l.campaign[(i, t)] == l.log[i]
    && IsQuorum(cfg, VotersFor(l, t, i))
    && t !in l.reign
    && e.term == t && e.index == |l.log[i]| + 1
  }

  function Elect(l: Ledger, i: NodeId, e: Entry): Ledger
    requires i in l.term && i in l.log
  {
    var lg := l.log[i] + [e];
    l.(reign := l.reign[l.term[i] := Reign(i, lg, 0)], log := l.log[i := lg])
  }

  /** Election safety: a quorum of votes for `i` in a term that has a leader makes `i` that leader. */
  lemma OneLeader(cfg: JointConfig, l: Ledger, t: nat, i: NodeId)
    requires Inv(cfg, l) && t in l.reign && IsQuorum(cfg, VotersFor(l, t, i))
    ensures l.reign[t].leader == i
  {
    var j := QuorumsMeet(cfg, VotersFor(l, t, i), VotersFor(l, t, l.reign[t].leader));
  }

  lemma AppendGood(l: Ledger, k: Ledger, lg: Log, es: Log, t: nat)
    requires GoodLog(l, lg, t) && Grows(l, k)
    requires t >= 1 && t in k.reign && k.reign[t].log == lg + es
    requires forall x :: 0 <= x < |es| ==> es[x].term == t && es[x].index == |lg| + 1 + x
    ensures GoodLog(k, lg + es, t)
  {
    var r := lg + es;
    forall x | 0 <= x < |r|
      ensures r[x].index == x + 1 && r[x].term >= 1 && r[x].term in k.reign && Holds(k, r[x].term, x + 1, r)
    {
      if x < |lg| {
        assert Holds(l, lg[x].term, x + 1, lg);
        HoldsGrows(l, k, lg[x].term, x + 1, lg, r);
      }
    }
  }

  lemma ElectGrows(cfg: JointConfig, l: Ledger, i: NodeId, e: Entry)
    requires Inv(cfg, l) && MayLead(cfg, l, i, e)
    ensures Grows(l, Elect(l, i, e))
  {
  }

  lemma ElectReigns(cfg: JointConfig, l: Ledger, i: NodeId, e: Entry)
    requires Inv(cfg, l) && MayLead(cfg, l, i, e) && l.term[i] >= 1
    ensures ReignsOk(cfg, Elect(l, i, e))
  {
    var k := Elect(l, i, e);
    ElectGrows(cfg, l, i, e);
    forall t <- k.reign
      ensures GoodLog(k, k.reign[t].log, t)
      ensures (k.reign[t].leader, t) in k.campaign
      ensures IsQuorum(cfg, VotersFor(k, t, k.reign[t].leader))
      ensures k.reign[t].committed > 0 ==> Chosen(cfg, k, t, k.reign[t].committed)
    {
      if t in l.reign {
        CarryReign(cfg, l, k, t);
      } else {
        GoodLogGrows(l, l, l.log[i], l.term[i], t);
        AppendGood(l, k, l.log[i], [e], t);
        assert VotersFor(k, t, i) == VotersFor(l, t, i);
      }
    }
  }

  lemma ElectLogs(cfg: JointConfig, l: Ledger, i: NodeId, e: Entry)
    requires Inv(cfg, l) && MayLead(cfg, l, i, e) && l.term[i] >= 1
    ensures LogsOk(Elect(l, i, e))
  {
    var k := Elect(l, i, e);
    ElectGrows(cfg, l, i, e);
    forall j <- k.log
      ensures GoodLog(k, k.log[j], k.term[j])
    {
      if j == i {
        AppendGood(l, k, l.log[i], [e], l.term[i]);
      } else {
        GoodLogGrows(l, k, l.log[j], l.term[j], k.term[j]);
      }
    }
  }

  /** A new leader respects every index of every earlier term: its voters vouch for it or block the index. */
  lemma ElectRespects(cfg: JointConfig, l: Ledger, i: NodeId, e: Entry, t: nat, n: nat)
    requires Inv(cfg, l) && MayLead(cfg, l, i, e) && t < l.term[i] && n >= 1
    ensures Respects(cfg, l, t, n, l.log[i])
  {
    var t' := l.term[i];
    var q := VotersFor(l, t', i);
    if j :| j in q && Acked(l, j, t) >= n {
      assert Respects(cfg, l, t, n, l.campaign[(l.vote[(j, t')], t')]);
    } else {
      QuorumGrows(cfg, q, PastWithout(l, t, n));
    }
  }

  lemma ElectComplete(cfg: JointConfig, l: Ledger, i: NodeId, e: Entry)
    requires Inv(cfg, l) && MayLead(cfg, l, i, e)
    ensures Complete(cfg, Elect(l, i, e))
  {
    var k := Elect(l, i, e);
    ElectGrows(cfg, l, i, e);
    forall t': nat, t: nat, n: nat | t' in k.reign && t < t' && n >= 1
      ensures Respects(cfg, k, t, n, k.reign[t'].log)
    {
      if t' in l.reign {
        CarryCompleteAt(cfg, l, k, t', t, n);
      } else {
        ElectRespects(cfg, l, i, e, t, n);
        RespectsGrows(cfg, l, k, t, n, l.log[i], l.log[i] + [e]);
      }
    }
  }

  lemma ElectKeeps(cfg: JointConfig, l: Ledger, i: NodeId, e: Entry)
    requires Inv(cfg, l) && MayLead(cfg, l, i, e) && l.term[i] >= 1
    ensures Inv(cfg, Elect(l, i, e)) && Grows(l, Elect(l, i, e))
  {
    hide GoodLog, Kept, Vouched, Complete, Respects, Chosen, IsQuorum;
    var k := Elect(l, i, e);
    ElectGrows(cfg, l, i, e);
    ElectReigns(cfg, l, i, e);
    ElectLogs(cfg, l, i, e);
    ElectComplete(cfg, l, i, e);
    CarryCampaigns(cfg, l, k);
    CarryAllKept(cfg, l, k);
    CarryVouched(cfg, l, k);
  }

  // A leader appends entries of its own term ------------------------------------------------------

  ghost predicate MayAppend(l: Ledger, t: nat, es: Log) {
    && t in l.reign && t >= 1
    && var i := l.reign[t].leader;
    && i in l.term && i in l.log && l.term[i] == t && l.log[i] == l.reign[t].log
    && forall x :: 0 <= x < |es| ==> es[x].term == t && es[x].index == |l.log[i]| + 1 + x
  }

  function Append(l: Ledger, t: nat, es: Log): Ledger
    requires t in l.reign
  {
    var r := l.reign[t];
    l.(reign := l.reign[t := r.(log := r.log + es)], log := l.log[r.leader := r.log + es])
  }

  lemma AppendGrows(l: Ledger, t: nat, es: Log)
    requires MayAppend(l, t, es)
    ensures Grows(l, Append(l, t, es))
  {
  }

  lemma AppendReigns(cfg: JointConfig, l: Ledger, t: nat, es: Log)
    requires Inv(cfg, l) && MayAppend(l, t, es)
    ensures ReignsOk(cfg, Append(l, t, es))
  {
    var k := Append(l, t, es);
    AppendGrows(l, t, es);
    forall s <- k.reign
      ensures GoodLog(k, k.reign[s].log, s)
      ensures (k.reign[s].leader, s) in k.campaign
      ensures IsQuorum(cfg, VotersFor(k, s, k.reign[s].leader))
      ensures k.reign[s].committed > 0 ==> Chosen(cfg, k, s, k.reign[s].committed)
    {
      if s == t {
        AppendGood(l, k, l.reign[t].log, es, t);
        assert VotersFor(k, t, l.reign[t].leader) == VotersFor(l, t, l.reign[t].leader);
        if l.reign[t].committed > 0 {
          ChosenGrows(cfg, l, k, t, l.reign[t].committed);
        }
      } else {
        CarryReign(cfg, l, k, s);
      }
    }
  }

  lemma AppendLogs(cfg: JointConfig, l: Ledger, t: nat, es: Log)
    requires Inv(cfg, l) && MayAppend(l, t, es)
    ensures LogsOk(Append(l, t, es))
  {
    var k := Append(l, t, es);
    AppendGrows(l, t, es);
    forall j <- k.log
      ensures GoodLog(k, k.log[j], k.term[j])
    {
      if j == l.reign[t].leader {
        AppendGood(l, k, l.reign[t].log, es, t);
      } else {
        GoodLogGrows(l, k, l.log[j], l.term[j], k.term[j]);
      }
    }
  }

  lemma AppendKeeps(cfg: JointConfig, l: Ledger, t: nat, es: Log)
    requires Inv(cfg, l) && MayAppend(l, t, es)
    ensures Inv(cfg, Append(l, t, es)) && Grows(l, Append(l, t, es))
  {
    hide GoodLog, Kept, Vouched, Complete, Respects, Chosen, IsQuorum;
    var k := Append(l, t, es);
    AppendGrows(l, t, es);
    AppendReigns(cfg, l, t, es);
    AppendLogs(cfg, l, t, es);
    CarryCampaigns(cfg, l, k);
    CarryAllKept(cfg, l, k);
    CarryVouched(cfg, l, k);
    CarryComplete(cfg, l, k);
  }

  // A node stores and acknowledges a prefix of its leader's log -----------------------------------

  /** Records that `j` acknowledged index `m` to the leader of term `t`. */
  function RaiseAck(l: Ledger, j: NodeId, t: nat, m: nat): map<(NodeId, nat), nat> {
    if m <= Acked(l, j, t) then l.acked else l.acked[(j, t) := m]
  }

  ghost predicate MayAccept(l: Ledger, j: NodeId, t: nat, m: nat) {
    j in l.term && j in l.log && l.term[j] == t && t in l.reign && m <= |l.reign[t].log|
  }

  /** The log that results from storing `p`: untouched if it already starts with `p`, replaced by `p` otherwise. */
  function Store(lg: Log, p: Log): Log {
    if p <= lg then lg else p
  }

  function Accept(l: Ledger, j: NodeId, t: nat, m: nat): Ledger
    requires MayAccept(l, j, t, m)
  {
    l.(log := l.log[j := Store(l.log[j], l.reign[t].log[..m])],
       acked := RaiseAck(l, j, t, m))
  }

  lemma AcceptGrows(l: Ledger, j: NodeId, t: nat, m: nat)
    requires MayAccept(l, j, t, m)
    ensures Grows(l, Accept(l, j, t, m))
  {
  }

  /** Storing a leader's prefix never drops an entry that the old log shares with that leader. */
  lemma StoreHolds(lg: Log, p: Log, d: Log, n: nat)
    requires p <= d && n <= |lg| && n <= |d| && lg[..n] == d[..n]
    ensures n <= |Store(lg, p)| && Store(lg, p)[..n] == d[..n]
  {
    if n > |p| {
      assert p == d[..n][..|p|] == lg[..n][..|p|];
    } else {
      assert p[..n] == d[..n];
    }
  }

  lemma AcceptKept(cfg: JointConfig, l: Ledger, j: NodeId, t: nat, m: nat, s: nat, n: nat)
    requires Inv(cfg, l) && MayAccept(l, j, t, m)
    requires 1 <= n <= Acked(l, j, s)
    ensures Respects(cfg, l, s, n, Store(l.log[j], l.reign[t].log[..m]))
  {
    var d := l.reign[t].log;
    assert Respects(cfg, l, s, n, l.log[j]);
    if OwnIndex(l, s, n) && !Blocked(cfg, l, s, n) {
      assert Holds(l, s, n, l.log[j]);
      assert Holds(l, s, n, d) by {
        if s < t {
          assert Respects(cfg, l, s, n, d);
        } else {
          assert s == t;
        }
      }
      StoreHolds(l.log[j], d[..m], d, n);
    }
  }

  lemma AcceptNew(l: Ledger, j: NodeId, t: nat, m: nat, n: nat)
    requires MayAccept(l, j, t, m) && n <= m
    ensures var k := Accept(l, j, t, m); Holds(k, t, n, k.log[j])
  {
    var k := Accept(l, j, t, m);
    assert Holds(k, t, m, k.log[j]);
    HoldsLess(k, t, m, n, k.log[j]);
  }

  lemma AcceptAllKept(cfg: JointConfig, l: Ledger, j: NodeId, t: nat, m: nat)
    requires Inv(cfg, l) && MayAccept(l, j, t, m)
    ensures Kept(cfg, Accept(l, j, t, m))
  {
    assert l.term.Keys == l.log.Keys;
    hide Inv, Holds, Blocked, OwnIndex, Store;
    var k := Accept(l, j, t, m);
    AcceptGrows(l, j, t, m);
    forall x: NodeId, s: nat, n: nat | x in k.log && 1 <= n <= Acked(k, x, s)
      ensures Respects(cfg, k, s, n, k.log[x])
    {
      if x != j {
        CarryKept(cfg, l, k, x, s, n);
      } else if n <= Acked(l, j, s) {
        AcceptKept(cfg, l, j, t, m, s, n);
        RespectsGrows(cfg, l, k, s, n, k.log[j], k.log[j]);
      } else {
        assert s == t && n <= m;
        AcceptNew(l, j, t, m, n);
      }
    }
  }

  lemma AcceptLogs(cfg: JointConfig, l: Ledger, j: NodeId, t: nat, m: nat)
    requires Inv(cfg, l) && MayAccept(l, j, t, m)
    ensures LogsOk(Accept(l, j, t, m))
  {
    hide Kept, Vouched, Complete, Respects, Chosen, IsQuorum, CampaignsOk, VotesOk;
    var k := Accept(l, j, t, m);
    AcceptGrows(l, j, t, m);
    forall x <- k.log
      ensures GoodLog(k, k.log[x], k.term[x])
    {
      if x == j && k.log[j] != l.log[j] {
        TracedPrefix(l, l.reign[t].log, m);
        GoodLogGrows(l, k, k.log[j], t, t);
      } else {
        GoodLogGrows(l, k, l.log[x], l.term[x], k.term[x]);
      }
    }
  }

  lemma AcceptKeeps(cfg: JointConfig, l: Ledger, j: NodeId, t: nat, m: nat)
    requires Inv(cfg, l) && MayAccept(l, j, t, m)
    ensures Inv(cfg, Accept(l, j, t, m)) && Grows(l, Accept(l, j, t, m))
  {
    hide GoodLog, Kept, Vouched, Complete, Respects, Chosen, IsQuorum;
    var k := Accept(l, j, t, m);
    AcceptGrows(l, j, t, m);
    AcceptLogs(cfg, l, j, t, m);
    AcceptAllKept(cfg, l, j, t, m);
    CarryReigns(cfg, l, k);
    CarryCampaigns(cfg, l, k);
    CarryVouched(cfg, l, k);
    CarryComplete(cfg, l, k);
  }

  // A node acknowledges its own committed index ---------------------------------------------------

  /**
   The first `m` entries of `lg` are committed: some leader committed them from its own term.
   */
  ghost predicate Settled(l: Ledger, lg: Log, m: nat) {
    m == 0 || exists t :: t in l.reign && m <= l.reign[t].committed && Holds(l, t, m, lg)
  }

  ghost predicate MayVouchCommitted(l: Ledger, j: NodeId, t: nat, m: nat) {
    && j in l.term && j in l.log && l.term[j] == t && t in l.reign
    && m <= |l.log[j]| && Settled(l, l.log[j], m)
  }

  /** The reply to an append that lies below the committed index (src/raft.rs:2511-2523). */
  function VouchCommitted(l: Ledger, j: NodeId, t: nat, m: nat): Ledger {
    l.(acked := RaiseAck(l, j, t, m))
  }

  lemma VouchGrows(l: Ledger, j: NodeId, t: nat, m: nat)
    requires MayVouchCommitted(l, j, t, m)
    ensures Grows(l, VouchCommitted(l, j, t, m))
  {
  }

  /**
   The leader of term `t` may not hold the committed prefix, if a later leader committed it. Then the indexes
   on which the two differ are blocked in term `t`, so the acknowledgement is harmless.
   */
  lemma SettledRespects(cfg: JointConfig, l: Ledger, lg: Log, m: nat, t: nat, n: nat)
    requires Inv(cfg, l) && Settled(l, lg, m) && 1 <= n <= m && t in l.reign
    ensures Respects(cfg, l, t, n, lg)
  {
    hide Inv, Blocked;
    var s :| s in l.reign && m <= l.reign[s].committed && Holds(l, s, m, lg);
    HoldsLess(l, s, m, n, lg);
    if s < t {
      LaterLeaderHolds(cfg, l, s, t);
      HoldsLess(l, s, Committed(l, s), n, l.reign[t].log);
      assert Holds(l, t, n, lg);
    } else if t < s {
      CompleteAt(cfg, l, t, s, n);
      if OwnIndex(l, t, n) && Holds(l, t, n, l.reign[s].log) {
        assert Holds(l, t, n, lg);
      }
    }
  }

  lemma VouchKept(cfg: JointConfig, l: Ledger, j: NodeId, t: nat, m: nat)
    requires Inv(cfg, l) && MayVouchCommitted(l, j, t, m)
    ensures Kept(cfg, VouchCommitted(l, j, t, m))
  {
    hide Respects, GoodLog, Vouched, Complete, ReignsOk, Grows;
    var k := VouchCommitted(l, j, t, m);
    VouchGrows(l, j, t, m);
    forall x: NodeId, s: nat, n: nat | x in k.log && 1 <= n <= Acked(k, x, s)
      ensures Respects(cfg, k, s, n, k.log[x])
    {
      if n <= Acked(l, x, s) {
        CarryKept(cfg, l, k, x, s, n);
      } else {
        SettledRespects(cfg, l, l.log[j], m, t, n);
        RespectsGrows(cfg, l, k, t, n, l.log[j], l.log[j]);
      }
    }
  }

  lemma VouchKeeps(cfg: JointConfig, l: Ledger, j: NodeId, t: nat, m: nat)
    requires Inv(cfg, l) && MayVouchCommitted(l, j, t, m)
    ensures Inv(cfg, VouchCommitted(l, j, t, m)) && Grows(l, VouchCommitted(l, j, t, m))
  {
    hide GoodLog, Kept, Vouched, Complete, Respects, Chosen, IsQuorum;
    var k := VouchCommitted(l, j, t, m);
    VouchGrows(l, j, t, m);
    VouchKept(cfg, l, j, t, m);
    CarryReigns(cfg, l, k);
    CarryLogs(cfg, l, k);
    CarryCampaigns(cfg, l, k);
    CarryVouched(cfg, l, k);
    CarryComplete(cfg, l, k);
  }

  // A leader commits an entry of its own term that a quorum acknowledged --------------------------

  ghost predicate MayCommit(cfg: JointConfig, l: Ledger, t: nat, n: nat) {
    t in l.reign && n >= l.reign[t].committed && Chosen(cfg, l, t, n)
  }

  function Commit(l: Ledger, t: nat, n: nat): Ledger
    requires t in l.reign
  {
    l.(reign := l.reign[t := l.reign[t].(committed := n)])
  }

  lemma CommitGrows(cfg: JointConfig, l: Ledger, t: nat, n: nat)
    requires MayCommit(cfg, l, t, n)
    ensures Grows(l, Commit(l, t, n))
  {
  }

  lemma CommitReigns(cfg: JointConfig, l: Ledger, t: nat, n: nat)
    requires Inv(cfg, l) && MayCommit(cfg, l, t, n)
    ensures ReignsOk(cfg, Commit(l, t, n))
  {
    var k := Commit(l, t, n);
    CommitGrows(cfg, l, t, n);
    forall s <- k.reign
      ensures GoodLog(k, k.reign[s].log, s)
      ensures (k.reign[s].leader, s) in k.campaign
      ensures IsQuorum(cfg, VotersFor(k, s, k.reign[s].leader))
      ensures k.reign[s].committed > 0 ==> Chosen(cfg, k, s, k.reign[s].committed)
    {
      if s == t {
        GoodLogGrows(l, k, l.reign[t].log, t, t);
        assert VotersFor(k, t, l.reign[t].leader) == VotersFor(l, t, l.reign[t].leader);
        ChosenGrows(cfg, l, k, t, n);
      } else {
        CarryReign(cfg, l, k, s);
      }
    }
  }

  lemma CommitKeeps(cfg: JointConfig, l: Ledger, t: nat, n: nat)
    requires Inv(cfg, l) && MayCommit(cfg, l, t, n)
    ensures Inv(cfg, Commit(l, t, n)) && Grows(l, Commit(l, t, n))
  {
    hide GoodLog, Kept, Vouched, Complete, Respects, Chosen, IsQuorum;
    var k := Commit(l, t, n);
    CommitGrows(cfg, l, t, n);
    CommitReigns(cfg, l, t, n);
    CarryLogs(cfg, l, k);
    CarryCampaigns(cfg, l, k);
    CarryAllKept(cfg, l, k);
    CarryVouched(cfg, l, k);
    CarryComplete(cfg, l, k);
  }
}
