/**
 What the nodes of a cluster have done so far, and why it is safe.

 The ledger is history: it is read off the nodes after every step and never read by them. It records who
 campaigned with which log, who voted for whom, what each leader's log was, how far each node acknowledged each
 leader, and how far each leader committed. Each action below is one such fact being added.
 */
module Ledger {
  import opened Quorum
  import opened LogModel

  /** One term's leader: its log and the index it has committed from its own term (0 if none). */
  datatype Reign = Reign(leader: NodeId, log: Log, committed: nat)

  datatype Ledger = Ledger(
    term: map<NodeId, nat>,
    log: map<NodeId, Log>,
    campaign: map<(NodeId, nat), Log>,
    vote: map<(NodeId, nat), NodeId>,
    reign: map<nat, Reign>,
    acked: map<(NodeId, nat), nat>)

  // Reading the ledger ----------------------------------------------------------------------------

  function LeaderLog(l: Ledger, t: nat): Log {
    if t in l.reign then l.reign[t].log else []
  }

  /** The largest index `j` acknowledged to the leader of term `t`. */
  function Acked(l: Ledger, j: NodeId, t: nat): nat {
    if (j, t) in l.acked then l.acked[(j, t)] else 0
  }

  function Committed(l: Ledger, t: nat): nat {
    if t in l.reign then l.reign[t].committed else 0
  }

  function AckedBy(l: Ledger, t: nat, n: nat): set<NodeId> {
    set j | j in l.term && Acked(l, j, t) >= n
  }

  /** Nodes that left term `t` without acknowledging index `n` in it: they never will. */
  function PastWithout(l: Ledger, t: nat, n: nat): set<NodeId> {
    set j | j in l.term && l.term[j] > t && Acked(l, j, t) < n
  }

  function VotersFor(l: Ledger, t: nat, i: NodeId): set<NodeId> {
    set j | j in l.term && (j, t) in l.vote && l.vote[(j, t)] == i
  }

  /** Index `n` of term `t` can never gather a quorum of acknowledgements. */
  ghost predicate Blocked(cfg: JointConfig, l: Ledger, t: nat, n: nat) {
    IsQuorum(cfg, PastWithout(l, t, n))
  }

  /** `lg` starts with the first `n` entries of term `t`'s leader. */
  ghost predicate Holds(l: Ledger, t: nat, n: nat, lg: Log) {
    n <= |LeaderLog(l, t)| && n <= |lg| && lg[..n] == LeaderLog(l, t)[..n]
  }

  /** Index `n` of term `t`'s leader is, or would be, an entry of term `t` itself. */
  ghost predicate OwnIndex(l: Ledger, t: nat, n: nat) {
    n > |LeaderLog(l, t)| || TermAt(LeaderLog(l, t), n) == t
  }

  /** `lg` respects index `n` of term `t`: it holds it, unless that index can no longer commit in term `t`. */
  ghost predicate Respects(cfg: JointConfig, l: Ledger, t: nat, n: nat, lg: Log) {
    OwnIndex(l, t, n) ==> Holds(l, t, n, lg) || Blocked(cfg, l, t, n)
  }

  /** Index `n` of term `t` is an entry of term `t` that a quorum acknowledged in term `t`. */
  ghost predicate Chosen(cfg: JointConfig, l: Ledger, t: nat, n: nat) {
    && 1 <= n <= |LeaderLog(l, t)|
    && TermAt(LeaderLog(l, t), n) == t
    && IsQuorum(cfg, AckedBy(l, t, n))
  }

  /** Every prefix that ends in an entry of term s is a prefix of the log of term s's leader. */
  ghost predicate Traced(l: Ledger, lg: Log) {
    forall k :: 0 <= k < |lg| ==>
                  && lg[k].index == k + 1 && lg[k].term >= 1
                  && lg[k].term in l.reign && Holds(l, lg[k].term, k + 1, lg)
  }

  ghost predicate GoodLog(l: Ledger, lg: Log, t: int) {
    Traced(l, lg) && Sorted(lg) && TermsUpTo(lg, t)
  }

  // The invariant ---------------------------------------------------------------------------------

  ghost predicate Shape(cfg: JointConfig, l: Ledger) {
    l.term.Keys == l.log.Keys && cfg.Ids() != {}
  }

  ghost predicate ReignsOk(cfg: JointConfig, l: Ledger) {
    forall t <- l.reign ::
      && GoodLog(l, l.reign[t].log, t)
      && (l.reign[t].leader, t) in l.campaign
      && IsQuorum(cfg, VotersFor(l, t, l.reign[t].leader))
      && (l.reign[t].committed > 0 ==> Chosen(cfg, l, t, l.reign[t].committed))
  }

  ghost predicate LogsOk(l: Ledger)
    requires l.term.Keys == l.log.Keys
  {
    forall j <- l.log :: GoodLog(l, l.log[j], l.term[j])
  }

  ghost predicate CampaignsOk(l: Ledger) {
    forall i: NodeId, t: nat | (i, t) in l.campaign ::
      i in l.term && t <= l.term[i] && GoodLog(l, l.campaign[(i, t)], t - 1)
  }

  ghost predicate VotesOk(l: Ledger) {
    forall j: NodeId, t: nat | (j, t) in l.vote ::
      j in l.term && t <= l.term[j] && (l.vote[(j, t)], t) in l.campaign
  }

  ghost predicate AcksOk(l: Ledger) {
    forall j: NodeId, t: nat | Acked(l, j, t) > 0 :: j in l.term && t <= l.term[j] && t in l.reign
  }

  /** A node keeps what it acknowledged. */
  ghost predicate Kept(cfg: JointConfig, l: Ledger)
    requires l.term.Keys == l.log.Keys
  {
    forall j: NodeId, t: nat, n: nat {:trigger Respects(cfg, l, t, n, l.log[j])} |
      j in l.log && 1 <= n <= Acked(l, j, t) :: Respects(cfg, l, t, n, l.log[j])
  }

  /** A node votes only for a log that holds what the node acknowledged in earlier terms. */
  ghost predicate Vouched(cfg: JointConfig, l: Ledger)
    requires VotesOk(l)
  {
    forall j: NodeId, t': nat, t: nat, n: nat
      {:trigger Respects(cfg, l, t, n, l.campaign[(l.vote[(j, t')], t')])} |
      (j, t') in l.vote && t < t' && 1 <= n <= Acked(l, j, t) ::
      Respects(cfg, l, t, n, l.campaign[(l.vote[(j, t')], t')])
  }

  /** Every leader respects every index of every earlier term. */
  ghost predicate Complete(cfg: JointConfig, l: Ledger) {
    forall t': nat, t: nat, n: nat {:trigger Respects(cfg, l, t, n, l.reign[t'].log)} |
      t' in l.reign && t < t' && n >= 1 :: Respects(cfg, l, t, n, l.reign[t'].log)
  }

  ghost predicate Inv(cfg: JointConfig, l: Ledger) {
    && Shape(cfg, l) && ReignsOk(cfg, l) && LogsOk(l) && CampaignsOk(l) && VotesOk(l) && AcksOk(l)
    && Kept(cfg, l) && Vouched(cfg, l) && Complete(cfg, l)
  }

  // What the invariant gives ----------------------------------------------------------------------

  lemma ChosenNotBlocked(cfg: JointConfig, l: Ledger, t: nat, n: nat)
    requires cfg.Ids() != {}
    requires Chosen(cfg, l, t, n)
    ensures !Blocked(cfg, l, t, n)
  {
    if Blocked(cfg, l, t, n) {
      var j := QuorumsMeet(cfg, AckedBy(l, t, n), PastWithout(l, t, n));
      assert false;
    }
  }

  /** What a leader committed is held by every leader of a later term. */
  lemma LaterLeaderHolds(cfg: JointConfig, l: Ledger, t: nat, t': nat)
    requires Inv(cfg, l)
    requires t < t' && t' in l.reign
    ensures Holds(l, t, Committed(l, t), l.reign[t'].log)
  {
    var n := Committed(l, t);
    if n > 0 {
      ChosenNotBlocked(cfg, l, t, n);
      assert Respects(cfg, l, t, n, l.reign[t'].log);
    } else {
      assert l.reign[t'].log[..0] == LeaderLog(l, t)[..0];
    }
  }

  lemma CompleteAt(cfg: JointConfig, l: Ledger, t: nat, t': nat, n: nat)
    requires Inv(cfg, l) && t < t' && t' in l.reign && n >= 1
    ensures Respects(cfg, l, t, n, l.reign[t'].log)
  {
  }

  lemma ReignGood(cfg: JointConfig, l: Ledger, t: nat)
    requires Inv(cfg, l) && t in l.reign
    ensures GoodLog(l, l.reign[t].log, t)
  {
  }

  /** Two good logs that agree on the term at an index agree up to that index. */
  lemma Matching(l: Ledger, a: Log, b: Log, k: nat)
    requires Traced(l, a) && Traced(l, b)
    requires 1 <= k <= |a| && k <= |b| && a[k - 1].term == b[k - 1].term
    ensures a[..k] == b[..k]
  {
    assert Holds(l, a[k - 1].term, k, a) && Holds(l, b[k - 1].term, k, b);
  }

  lemma HoldsLess(l: Ledger, t: nat, n: nat, m: nat, lg: Log)
    requires Holds(l, t, n, lg) && m <= n
    ensures Holds(l, t, m, lg)
  {
    assert lg[..m] == lg[..n][..m];
    assert LeaderLog(l, t)[..m] == LeaderLog(l, t)[..n][..m];
  }

  // Growth ----------------------------------------------------------------------------------------

  /** Nothing recorded is ever taken back; `k` only adds to `l`. */
  ghost predicate Grows(l: Ledger, k: Ledger) {
    && l.term.Keys == k.term.Keys
    && (forall j <- l.term :: l.term[j] <= k.term[j])
    && (forall t <- l.reign ::
          t in k.reign && l.reign[t].leader == k.reign[t].leader && l.reign[t].log <= k.reign[t].log
          && l.reign[t].committed <= k.reign[t].committed)
    && (forall j: NodeId, t: nat :: Acked(l, j, t) <= Acked(k, j, t))
    && (forall j: NodeId, t: nat | j in l.term && l.term[j] > t :: Acked(l, j, t) == Acked(k, j, t))
    && (forall c <- l.campaign :: c in k.campaign && l.campaign[c] == k.campaign[c])
    && (forall v <- l.vote :: v in k.vote && l.vote[v] == k.vote[v])
  }

  lemma GrowsTransitive(a: Ledger, b: Ledger, c: Ledger)
    requires Grows(a, b) && Grows(b, c)
    ensures Grows(a, c)
  {
  }

  lemma LeaderLogGrows(l: Ledger, k: Ledger, t: nat)
    requires Grows(l, k)
    ensures LeaderLog(l, t) <= LeaderLog(k, t)
  {
  }

  lemma HoldsGrows(l: Ledger, k: Ledger, t: nat, n: nat, lg: Log, lg': Log)
    requires Grows(l, k) && Holds(l, t, n, lg) && lg <= lg'
    ensures Holds(k, t, n, lg')
  {
    LeaderLogGrows(l, k, t);
    assert lg'[..n] == lg[..n];
  }

  lemma BlockedGrows(cfg: JointConfig, l: Ledger, k: Ledger, t: nat, n: nat)
    requires Grows(l, k) && Blocked(cfg, l, t, n)
    ensures Blocked(cfg, k, t, n)
  {
    QuorumGrows(cfg, PastWithout(l, t, n), PastWithout(k, t, n));
  }

  lemma ChosenGrows(cfg: JointConfig, l: Ledger, k: Ledger, t: nat, n: nat)
    requires Grows(l, k) && Chosen(cfg, l, t, n)
    ensures Chosen(cfg, k, t, n)
  {
    LeaderLogGrows(l, k, t);
    QuorumGrows(cfg, AckedBy(l, t, n), AckedBy(k, t, n));
  }

  lemma RespectsGrows(cfg: JointConfig, l: Ledger, k: Ledger, t: nat, n: nat, lg: Log, lg': Log)
    requires Grows(l, k) && n >= 1 && Respects(cfg, l, t, n, lg) && lg <= lg'
    ensures Respects(cfg, k, t, n, lg')
  {
    LeaderLogGrows(l, k, t);
    if OwnIndex(k, t, n) {
      assert OwnIndex(l, t, n);
      if Blocked(cfg, l, t, n) {
        BlockedGrows(cfg, l, k, t, n);
      } else {
        HoldsGrows(l, k, t, n, lg, lg');
      }
    }
  }

  lemma GoodLogGrows(l: Ledger, k: Ledger, lg: Log, t: int, t': int)
    requires Grows(l, k) && GoodLog(l, lg, t) && t <= t'
    ensures GoodLog(k, lg, t')
  {
    forall i | 0 <= i < |lg|
      ensures lg[i].term in k.reign && Holds(k, lg[i].term, i + 1, lg)
    {
      HoldsGrows(l, k, lg[i].term, i + 1, lg, lg);
    }
  }
}
