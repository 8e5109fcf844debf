/** Majority and joint quorums: src/quorum/majority.rs, src/quorum/joint.rs and src/util.rs. */
module Quorum {

  type NodeId = nat

  /** The reserved id that stands for "no node" (src/raft.rs:78). */
  const INVALID_ID: NodeId := 0

  datatype VoteResult = Pending | Lost | Won

  /** Two halves whose majorities must both agree; `outgoing` is empty outside joint consensus. */
  datatype JointConfig = JointConfig(incoming: set<NodeId>, outgoing: set<NodeId>) {
    predicate Contains(id: NodeId) {
      id in incoming || id in outgoing
    }

    predicate IsSingleton() {
      outgoing == {} && |incoming| == 1
    }

    function Ids(): set<NodeId> {
      incoming + outgoing
    }
  }

  function Majority(total: nat): nat {
    total / 2 + 1
  }

  /** `s` holds a majority of `voters`. An empty half never objects. */
  predicate HasMajority(voters: set<NodeId>, s: set<NodeId>) {
    voters == {} || |voters * s| >= Majority(|voters|)
  }

  predicate IsQuorum(cfg: JointConfig, s: set<NodeId>) {
    HasMajority(cfg.incoming, s) && HasMajority(cfg.outgoing, s)
  }

  lemma SubsetSize<T>(a: set<T>, b: set<T>)
    requires a <= b
    ensures |a| <= |b|
  {
    assert b == a + (b - a);
  }

  lemma MajorityGrows(voters: set<NodeId>, s: set<NodeId>, t: set<NodeId>)
    requires s <= t
    requires HasMajority(voters, s)
    ensures HasMajority(voters, t)
  {
    SubsetSize(voters * s, voters * t);
  }

  lemma QuorumGrows(cfg: JointConfig, s: set<NodeId>, t: set<NodeId>)
    requires s <= t
    requires IsQuorum(cfg, s)
    ensures IsQuorum(cfg, t)
  {
    MajorityGrows(cfg.incoming, s, t);
    MajorityGrows(cfg.outgoing, s, t);
  }

  lemma MajoritiesMeet(voters: set<NodeId>, s: set<NodeId>, t: set<NodeId>) returns (v: NodeId)
    requires voters != {}
    requires HasMajority(voters, s) && HasMajority(voters, t)
    ensures v in voters && v in s && v in t
  {
    var a, b := voters * s, voters * t;
    SubsetSize(a + b, voters);
    assert |a| + |b| == |a + b| + |a * b|;
    assert a * b != {};
    v :| v in a * b;
  }

  /** Any two quorums of one configuration that has a voter share a voter. */
  lemma QuorumsMeet(cfg: JointConfig, s: set<NodeId>, t: set<NodeId>) returns (v: NodeId)
    requires cfg.Ids() != {}
    requires IsQuorum(cfg, s) && IsQuorum(cfg, t)
    ensures v in cfg.Ids() && v in s && v in t
  {
    if cfg.incoming != {} {
      v := MajoritiesMeet(cfg.incoming, s, t);
    } else {
      v := MajoritiesMeet(cfg.outgoing, s, t);
    }
  }

  // Votes -----------------------------------------------------------------------------------------

  function Granted(votes: map<NodeId, bool>): set<NodeId> {
    set v | v in votes && votes[v]
  }

  function Refused(votes: map<NodeId, bool>): set<NodeId> {
    set v | v in votes && !votes[v]
  }

  /** The outcome for one half: decided once a majority granted, or can no longer grant. */
  function MajorityVote(voters: set<NodeId>, votes: map<NodeId, bool>): (r: VoteResult) {
    if HasMajority(voters, Granted(votes)) then Won
    else if HasMajority(voters, voters - Refused(votes)) then Pending
    else Lost
  }

  /** One more ballot moves exactly one of the two counters. */
  lemma CountOne(done: set<NodeId>, v: NodeId, votes: map<NodeId, bool>)
    requires v !in done
    ensures |(done + {v}) * Granted(votes)| == |done * Granted(votes)| + (if v in votes && votes[v] then 1 else 0)
    ensures |(done + {v}) - votes.Keys| == |done - votes.Keys| + (if v in votes then 0 else 1)
  {
    if v in votes {
      assert (done + {v}) - votes.Keys == done - votes.Keys;
    } else {
      assert (done + {v}) - votes.Keys == (done - votes.Keys) + {v};
    }
    if v in Granted(votes) {
      assert (done + {v}) * Granted(votes) == (done * Granted(votes)) + {v};
    } else {
      assert (done + {v}) * Granted(votes) == done * Granted(votes);
    }
  }

  lemma MoveOne(done: set<NodeId>, rest: set<NodeId>, v: NodeId)
    requires done !! rest && v in rest
    ensures (done + {v}) !! (rest - {v}) && (done + {v}) + (rest - {v}) == done + rest
  {
  }

  lemma NotRefused(voters: set<NodeId>, votes: map<NodeId, bool>)
    ensures |voters * (voters - Refused(votes))| == |voters * Granted(votes)| + |voters - votes.Keys|
  {
    assert voters * (voters - Refused(votes)) == (voters * Granted(votes)) + (voters - votes.Keys);
    assert (voters * Granted(votes)) !! (voters - votes.Keys);
  }

  lemma TallyDecides(voters: set<NodeId>, votes: map<NodeId, bool>)
    requires voters != {}
    ensures MajorityVote(voters, votes) ==
      var yes, missing, q := |voters * Granted(votes)|, |voters - votes.Keys|, Majority(|voters|);
      if yes >= q then Won else if yes + missing >= q then Pending else Lost
  {
    NotRefused(voters, votes);
  }

  /** Counts one half's ballots (src/quorum/majority.rs:189-213). */
  method CountVotes(voters: set<NodeId>, votes: map<NodeId, bool>) returns (r: VoteResult)
    ensures r == MajorityVote(voters, votes)
  {
    if voters == {} {
      return Won;
    }
    hide MajorityVote, Granted;
    var yes, missing, rest := 0, 0, voters;
    ghost var done := {};
    while rest != {}
      invariant done !! rest && done + rest == voters
      invariant yes == |done * Granted(votes)|
      invariant missing == |done - votes.Keys|
      decreases rest
    {
      var v :| v in rest;
      CountOne(done, v, votes);
      MoveOne(done, rest, v);
      rest, done := rest - {v}, done + {v};
      if v in votes {
        yes := if votes[v] then yes + 1 else yes;
      } else {
        missing := missing + 1;
      }
    }
    assert done == voters;
    TallyDecides(voters, votes);
    var q := Majority(|voters|);
    if yes >= q {
      r := Won;
    } else if yes + missing >= q {
      r := Pending;
    } else {
      r := Lost;
    }
  }

  /** Both halves must win; either half can lose (src/quorum/joint.rs:56-67). */
  function JointVote(cfg: JointConfig, votes: map<NodeId, bool>): (r: VoteResult) {
    match (MajorityVote(cfg.incoming, votes), MajorityVote(cfg.outgoing, votes))
    case (Won, Won) => Won
    case (Lost, _) => Lost
    case (_, Lost) => Lost
    case _ => Pending
  }

  lemma GrantedImpliesWinnable(voters: set<NodeId>, votes: map<NodeId, bool>)
    ensures HasMajority(voters, Granted(votes)) ==> HasMajority(voters, voters - Refused(votes))
  {
    SubsetSize(voters * Granted(votes), voters * (voters - Refused(votes)));
  }

  lemma RestrictMajority(voters: set<NodeId>, s: set<NodeId>, t: set<NodeId>)
    requires voters * s == voters * t
    ensures HasMajority(voters, s) == HasMajority(voters, t)
  {
  }

  /** A joint vote is won exactly by a quorum of grants, and lost exactly when refusals leave no quorum. */
  lemma JointVoteMeaning(cfg: JointConfig, votes: map<NodeId, bool>)
    ensures JointVote(cfg, votes) == Won <==> IsQuorum(cfg, Granted(votes))
    ensures JointVote(cfg, votes) == Lost <==> !IsQuorum(cfg, cfg.Ids() - Refused(votes))
  {
    var left := cfg.Ids() - Refused(votes);
    RestrictMajority(cfg.incoming, left, cfg.incoming - Refused(votes));
    RestrictMajority(cfg.outgoing, left, cfg.outgoing - Refused(votes));
    GrantedImpliesWinnable(cfg.incoming, votes);
    GrantedImpliesWinnable(cfg.outgoing, votes);
    hide HasMajority;
  }

  /** `later` holds every ballot of `votes`: record_vote never overwrites (src/tracker.rs:297-299). */
  ghost predicate Extends(later: map<NodeId, bool>, votes: map<NodeId, bool>) {
    forall v <- votes :: v in later && later[v] == votes[v]
  }

  /** Won and Lost are final: further ballots cannot change them. */
  lemma VoteIsFinal(cfg: JointConfig, votes: map<NodeId, bool>, later: map<NodeId, bool>)
    requires Extends(later, votes)
    ensures JointVote(cfg, votes) != Pending ==> JointVote(cfg, later) == JointVote(cfg, votes)
  {
    hide HasMajority;
    JointVoteMeaning(cfg, votes);
    JointVoteMeaning(cfg, later);
    if JointVote(cfg, votes) == Won {
      QuorumGrows(cfg, Granted(votes), Granted(later));
    } else if JointVote(cfg, votes) == Lost && JointVote(cfg, later) != Lost {
      QuorumGrows(cfg, cfg.Ids() - Refused(later), cfg.Ids() - Refused(votes));
    }
  }

  /** Pending means that both endings are still open. */
  lemma PendingIsOpen(cfg: JointConfig, votes: map<NodeId, bool>)
    returns (won: map<NodeId, bool>, lost: map<NodeId, bool>)
    requires JointVote(cfg, votes) == Pending
    ensures Extends(won, votes) && JointVote(cfg, won) == Won
    ensures Extends(lost, votes) && JointVote(cfg, lost) == Lost
  {
    hide HasMajority;
    won := map v | v in cfg.Ids() + votes.Keys :: if v in votes then votes[v] else true;
    lost := map v | v in cfg.Ids() + votes.Keys :: if v in votes then votes[v] else false;
    JointVoteMeaning(cfg, votes);
    JointVoteMeaning(cfg, won);
    JointVoteMeaning(cfg, lost);
    QuorumGrows(cfg, cfg.Ids() - Refused(votes), Granted(won));
    if IsQuorum(cfg, cfg.Ids() - Refused(lost)) {
      QuorumGrows(cfg, cfg.Ids() - Refused(lost), Granted(votes));
    }
  }
}
