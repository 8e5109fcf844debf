/**
 What campaigns, vote requests and vote responses do, said in terms of ballots and quorums: nothing that wins is left
 undone, and nothing happens without winning.
 */
module Elections {
  import opened Quorum
  import opened LogModel
  import opened ProgressModel
  import opened ReadOnlyModel
  import opened RaftNode
  import opened CommitRule

  /** A request for the vote of another voter, with the end of the log and what is committed of it. */
  predicate IsRequest(cfg: JointConfig, n: Node, term: nat, pre: bool, m: Message) {
    && m.RequestVote? && m.to in cfg.Ids() && m.to != n.id
    && m == RequestVote(n.id, m.to, term, pre, |n.log|, LastTerm(n.log), n.committed, TermAt(n.log, n.committed),
                        n.priority)
  }

  /** Exactly one such request to every other voter. */
  ghost predicate AsksAll(cfg: JointConfig, n: Node, term: nat, pre: bool, out: set<Message>) {
    && (forall m <- out :: IsRequest(cfg, n, term, pre, m))
    && forall v <- cfg.Ids() :: v != n.id ==> exists m <- out :: m.to == v
  }

  lemma RequestsAskAll(cfg: JointConfig, n: Node, term: nat, pre: bool)
    ensures AsksAll(cfg, n, term, pre, VoteRequests(cfg, n, term, pre))
  {
    forall v <- cfg.Ids() | v != n.id
      ensures exists m <- VoteRequests(cfg, n, term, pre) :: m.to == v
    {
      var m := RequestVote(n.id, v, term, pre, |n.log|, LastTerm(n.log), n.committed, CommitTerm(n), n.priority);
      assert m in VoteRequests(cfg, n, term, pre);
    }
  }

  lemma SameRequests(cfg: JointConfig, n: Node, r: Node, term: nat, pre: bool, out: set<Message>)
    requires AsksAll(cfg, r, term, pre, out)
    requires r.id == n.id && r.log == n.log && r.committed == n.committed && r.priority == n.priority
    ensures AsksAll(cfg, n, term, pre, out)
  {
    assert forall m :: IsRequest(cfg, r, term, pre, m) ==> IsRequest(cfg, n, term, pre, m);
  }

  /** Nothing of what a node has stored changes, except the commit index. */
  predicate SameLog(n: Node, n': Node) {
    n'.id == n.id && n'.log == n.log && n'.persisted == n.persisted && n'.priority == n.priority
  }

  // Winning ---------------------------------------------------------------------------------------

  /** A new leader of `term`: one empty entry more, nobody known to hold anything but itself. */
  ghost predicate Leads(n: Node, term: nat, n': Node) {
    && n'.role == Leader && n'.term == term && n'.leaderId == n.id == n'.id && n'.vote == n.id
    && n'.log == n.log + [Entry(term, |n.log| + 1, 0)] && n'.committed == n.committed && n'.persisted == n.persisted
    && n'.readOnly == NoReads() && n'.readStates == n.readStates && n'.progress.Keys == n.progress.Keys
    && forall j <- n.progress ::
         if j == n.id then n'.progress[j].matched == |n.log| && n'.progress[j].state == Replicate
         else n'.progress[j].matched == 0 && n'.progress[j].nextIdx == |n.log| + 1 && n'.progress[j].state == Probe
              && !n'.progress[j].paused
  }

  lemma LeadsNow(n: Node)
    requires n.persisted == |n.log| && n.vote == n.id
    ensures Leads(n, n.term, AsLeader(n))
  {
    assert NewEntries(n.term, |n.log|, [0]) == [Entry(n.term, |n.log| + 1, 0)];
  }

  lemma OwnBallot(cfg: JointConfig, id: NodeId)
    ensures JointVote(cfg, map[id := true]) == Won <==> IsQuorum(cfg, {id})
    ensures JointVote(cfg, map[id := true]) != Lost || !IsQuorum(cfg, cfg.Ids())
  {
    var votes := map[id := true];
    JointVoteMeaning(cfg, votes);
    assert Granted(votes) == {id} && Quorum.Refused(votes) == {};
    assert cfg.Ids() - Quorum.Refused(votes) == cfg.Ids();
  }

  lemma EverybodyIsQuorum(cfg: JointConfig)
    ensures IsQuorum(cfg, cfg.Ids())
  {
    assert cfg.incoming * cfg.Ids() == cfg.incoming && cfg.outgoing * cfg.Ids() == cfg.outgoing;
  }

  /** A real election: decided at once by a node that is a quorum by itself, otherwise everybody is asked. */
  lemma ElectionDoes(cfg: JointConfig, n: Node)
    ensures var d := CampaignElection(cfg, n);
            if IsQuorum(cfg, {n.id}) then
              && (d.Fatal? <==> n.persisted != |n.log|)
              && (d.Done? ==> Leads(n, n.term + 1, d.node) && d.out == {})
            else
              && d.Done? && d.node.role == Candidate && d.node.term == n.term + 1 && d.node.vote == n.id
              && d.node.leaderId == INVALID_ID && d.node.votes == map[n.id := true] && d.node.committed == n.committed
              && SameLog(n, d.node) && AsksAll(cfg, n, n.term + 1, false, d.out)
  {
    hide JointVote, IsQuorum, AsksAll, VoteRequests, ResetProgress;
    OwnBallot(cfg, n.id);
    EverybodyIsQuorum(cfg);
    var c := BecomeCandidate(n);
    var r := RecordVote(c, n.id, true);
    assert r.votes == map[n.id := true];
    if IsQuorum(cfg, {n.id}) {
      if n.persisted == |n.log| {
        LeadsNow(r);
        assert r.progress.Keys == n.progress.Keys by { ResetKeys(n); }
      }
    } else {
      RequestsAskAll(cfg, r, n.term + 1, false);
      SameRequests(cfg, n, r, n.term + 1, false, VoteRequests(cfg, r, n.term + 1, false));
    }
  }

  lemma ResetKeys(n: Node)
    ensures ResetProgress(n).Keys == n.progress.Keys
  {
  }

  /** hup (src/raft.rs:1546-1588): a leader does nothing; a pre-vote asks for the next term without entering it. */
  lemma CampaignDoes(cfg: JointConfig, n: Node, transfer: bool)
    ensures var d := Hup(cfg, n, transfer);
            if n.role == Leader then d == Done(n, {})
            else if IsQuorum(cfg, {n.id}) then
              && (d.Fatal? <==> n.persisted != |n.log|)
              && (d.Done? ==> Leads(n, n.term + 1, d.node) && d.out == {})
            else if n.preVote && !transfer then
              && d.Done? && AsksAll(cfg, n, n.term + 1, true, d.out)
              && d.node == n.(role := PreCandidate, votes := map[n.id := true], leaderId := INVALID_ID)
            else
              && d.Done? && d.node.role == Candidate && d.node.term == n.term + 1 && d.node.vote == n.id
              && d.node.leaderId == INVALID_ID && d.node.votes == map[n.id := true] && d.node.committed == n.committed
              && SameLog(n, d.node) && AsksAll(cfg, n, n.term + 1, false, d.out)
  {
    hide JointVote, IsQuorum, AsksAll, VoteRequests, CampaignElection;
    if n.role != Leader {
      OwnBallot(cfg, n.id);
      EverybodyIsQuorum(cfg);
      if n.preVote && !transfer {
        var p := RecordVote(BecomePreCandidate(n), n.id, true);
        assert p.votes == map[n.id := true];
        if IsQuorum(cfg, {n.id}) {
          ElectionDoes(cfg, p);
          LeadsFrom(n, p, n.term + 1, CampaignElection(cfg, p));
        } else {
          RequestsAskAll(cfg, p, n.term + 1, true);
          SameRequests(cfg, n, p, n.term + 1, true, VoteRequests(cfg, p, n.term + 1, true));
        }
      } else {
        ElectionDoes(cfg, n);
      }
    }
  }

  lemma LeadsFrom(n: Node, p: Node, term: nat, d: Outcome)
    requires d.Done? ==> Leads(p, term, d.node)
    requires p == n.(role := p.role, votes := p.votes, leaderId := p.leaderId)
    ensures d.Done? ==> Leads(n, term, d.node)
  {
  }

  // Responses -------------------------------------------------------------------------------------

  /** A response that belongs to this candidacy. A granted pre-vote is for the next term; others are of this one. */
  predicate Counted(n: Node, m: Message) {
    && m.VoteResp? && m.term >= 1
    && (|| (n.role == PreCandidate && m.pre && (m.term == n.term || (m.term > n.term && !m.reject)))
        || (n.role == Candidate && !m.pre && m.term == n.term))
  }

  /** The ballots with this one; the first from a node counts. */
  function Ballots(n: Node, m: Message): map<NodeId, bool>
    requires m.VoteResp?
  {
    if m.from in n.votes then n.votes else n.votes[m.from := !m.reject]
  }

  /** Too many have refused. */
  ghost predicate Hopeless(cfg: JointConfig, ballots: map<NodeId, bool>) {
    !IsQuorum(cfg, cfg.Ids() - Quorum.Refused(ballots))
  }

  /** Follows nobody in its own term, and takes over what the response says is committed. */
  ghost predicate GivesUp(n: Node, m: Message, d: Outcome)
    requires m.VoteResp?
  {
    && d.Done? && d.out == {} && d.node.role == Follower && d.node.term == n.term && d.node.vote == n.vote
    && d.node.leaderId == INVALID_ID && SameLog(n, d.node) && d.node.readStates == n.readStates
    && d.node.committed == Learnt(n, m.commit, m.commitTerm)
  }

  /** Only the ballot is added, and what the response says is committed is taken over. */
  ghost predicate OnlyCounts(n: Node, m: Message, d: Outcome)
    requires m.VoteResp?
  {
    d == Done(n.(votes := Ballots(n, m), committed := Learnt(n, m.commit, m.commitTerm)), {})
  }

  lemma CountedStep(cfg: JointConfig, n: Node, m: Message)
    requires Counted(n, m)
    ensures Step(cfg, n, m) == HandleVoteResp(cfg, n, m)
  {
    hide HandleVoteResp;
  }

  /** After the ballot is counted, what the response says is committed is taken over. */
  lemma ThenLearns(cfg: JointConfig, n: Node, m: Message)
    requires m.VoteResp?
    ensures var d := if m.pre then PollPre(cfg, n, m.from, !m.reject) else PollElection(cfg, n, m.from, !m.reject);
            HandleVoteResp(cfg, n, m)
            == if d.Fatal? then Fatal
               else Done(d.node.(committed := Learnt(d.node, m.commit, m.commitTerm)), d.out)
  {
    hide PollPre, PollElection, CommitByVote, Learnt;
    var d := if m.pre then PollPre(cfg, n, m.from, !m.reject) else PollElection(cfg, n, m.from, !m.reject);
    if d.Done? {
      VoteCommits(d.node, m.commit, m.commitTerm);
    }
  }

  lemma PollDoes(cfg: JointConfig, n: Node, m: Message)
    requires m.VoteResp?
    ensures var r, b := n.(votes := Ballots(n, m)), Ballots(n, m);
            var poll, vote := PollPre(cfg, n, m.from, !m.reject), PollElection(cfg, n, m.from, !m.reject);
            if IsQuorum(cfg, Granted(b)) then poll == CampaignElection(cfg, r) && vote == BecomeLeader(r)
            else if Hopeless(cfg, b) then poll == vote == Done(BecomeFollower(r, n.term, INVALID_ID), {})
            else poll == vote == Done(r, {})
  {
    hide JointVote, IsQuorum, Granted, Quorum.Refused, CampaignElection, BecomeLeader, BecomeFollower;
    assert RecordVote(n, m.from, !m.reject) == n.(votes := Ballots(n, m));
    JointVoteMeaning(cfg, Ballots(n, m));
  }

  lemma FollowerLearns(n: Node, r: Node, m: Message)
    requires m.VoteResp? && n.role != Leader && r == n.(votes := r.votes)
    ensures var f := BecomeFollower(r, n.term, INVALID_ID);
            GivesUp(n, m, Done(f.(committed := Learnt(f, m.commit, m.commitTerm)), {}))
  {
    hide ResetProgress, TermAt;
  }

  /**
   A pre-candidate: with a quorum of grants it starts the real election for the next term, with too many refusals it
   follows, and otherwise it goes on waiting.
   */
  lemma PreVoteDecides(cfg: JointConfig, n: Node, m: Message)
    requires n.role == PreCandidate && Counted(n, m)
    ensures var d := Step(cfg, n, m);
            if IsQuorum(cfg, Granted(Ballots(n, m))) then
              if IsQuorum(cfg, {n.id}) then
                (d.Fatal? <==> n.persisted != |n.log|) && (d.Done? ==> Leads(n, n.term + 1, d.node) && d.out == {})
              else
                && d.Done? && d.node.role == Candidate && d.node.term == n.term + 1 && d.node.vote == n.id
                && d.node.votes == map[n.id := true] && SameLog(n, d.node) && AsksAll(cfg, n, n.term + 1, false, d.out)
                && d.node.committed == Learnt(n, m.commit, m.commitTerm)
            else if Hopeless(cfg, Ballots(n, m)) then GivesUp(n, m, d)
            else OnlyCounts(n, m, d)
  {
    hide IsQuorum, AsksAll, CampaignElection, PollPre, PollElection, Granted, Hopeless, BecomeFollower, Leads, Step,
         HandleVoteResp, TermAt, GivesUp, Ballots;
    CountedStep(cfg, n, m);
    ThenLearns(cfg, n, m);
    PollDoes(cfg, n, m);
    var r := n.(votes := Ballots(n, m));
    if IsQuorum(cfg, Granted(Ballots(n, m))) {
      ElectionDoes(cfg, r);
      var d := CampaignElection(cfg, r);
      if IsQuorum(cfg, {n.id}) {
        LeadsFrom(n, r, n.term + 1, d);
        LeaderKeeps(n, d, m);
      } else {
        SameRequests(cfg, n, r, n.term + 1, false, d.out);
      }
    } else if Hopeless(cfg, Ballots(n, m)) {
      FollowerLearns(n, r, m);
    }
  }

  lemma LeaderKeeps(n: Node, d: Outcome, m: Message)
    requires m.VoteResp? && (d.Done? ==> exists t: nat :: Leads(n, t, d.node))
    ensures d.Done? ==> d.node.(committed := Learnt(d.node, m.commit, m.commitTerm)) == d.node
  {
  }

  /** A candidate: with a quorum of grants it leads, with too many refusals it follows, otherwise it waits. */
  lemma VoteDecides(cfg: JointConfig, n: Node, m: Message)
    requires n.role == Candidate && n.vote == n.id && Counted(n, m)
    ensures var d := Step(cfg, n, m);
            if IsQuorum(cfg, Granted(Ballots(n, m))) then
              (d.Fatal? <==> n.persisted != |n.log|) && (d.Done? ==> Leads(n, n.term, d.node) && d.out == {})
            else if Hopeless(cfg, Ballots(n, m)) then GivesUp(n, m, d)
            else OnlyCounts(n, m, d)
  {
    hide IsQuorum, PollPre, PollElection, Granted, Hopeless, BecomeFollower, AsLeader, Leads, Step, HandleVoteResp,
         TermAt, GivesUp, Ballots, CampaignElection;
    CountedStep(cfg, n, m);
    ThenLearns(cfg, n, m);
    PollDoes(cfg, n, m);
    var r := n.(votes := Ballots(n, m));
    if IsQuorum(cfg, Granted(Ballots(n, m))) {
      if r.persisted == |r.log| {
        LeadsNow(r);
        LeadsFrom(n, r, n.term, Done(AsLeader(r), {}));
        LeaderKeeps(n, Done(AsLeader(r), {}), m);
      }
    } else if Hopeless(cfg, Ballots(n, m)) {
      FollowerLearns(n, r, m);
    }
  }

  // Requests --------------------------------------------------------------------------------------

  /** The three tests of a vote (src/raft.rs:1494-1502): free to vote, log at least as new, priority. */
  predicate Deserves(n: Node, m: Message)
    requires m.RequestVote?
  {
    && (n.vote == m.from || (n.vote == INVALID_ID && n.leaderId == INVALID_ID) || (m.pre && m.term > n.term))
    && (m.logTerm > TermAt(n.log, |n.log|) || (m.logTerm == TermAt(n.log, |n.log|) && m.index >= |n.log|))
    && (m.index > |n.log| || n.priority <= m.priority)
  }

  /** A request of the node's term, or a pre-vote request for a later one, is answered to its sender. */
  lemma RequestAnswered(cfg: JointConfig, n: Node, m: Message)
    requires m.RequestVote? && m.term >= 1 && (m.term == n.term || (m.pre && m.term > n.term))
    ensures var d := Step(cfg, n, m);
            if Deserves(n, m) then
              d == Done(if m.pre then n else n.(vote := m.from), {VoteResp(n.id, m.from, m.term, m.pre, false, 0, 0)})
            else if n.term == 0 then d.Fatal?
            else
              d == Done(n.(committed := Learnt(n, m.commit, m.commitTerm)),
                        {VoteResp(n.id, m.from, n.term, m.pre, true, n.committed, TermAt(n.log, n.committed))})
  {
    VoteCommits(n, m.commit, m.commitTerm);
  }

  /** A real request for a later term first makes a follower of that term, with no vote and no leader. */
  lemma LaterRequestAnswered(cfg: JointConfig, n: Node, m: Message)
    requires m.RequestVote? && !m.pre && m.term > n.term
    ensures var r := n.(term := m.term, vote := INVALID_ID, leaderId := INVALID_ID);
            var d := Step(cfg, n, m);
            && d.Done? && d.node.role == Follower && d.node.term == m.term && SameLog(n, d.node)
            && d.node.leaderId == INVALID_ID && d.node.readStates == n.readStates && d.node.readOnly == NoReads()
            && if Deserves(r, m) then
                 && d.node.vote == m.from && d.node.committed == n.committed
                 && d.out == {VoteResp(n.id, m.from, m.term, false, false, 0, 0)}
               else
                 && d.node.vote == INVALID_ID
                 && d.node.committed == Learnt(n.(role := Follower), m.commit, m.commitTerm)
                 && d.out == {VoteResp(n.id, m.from, m.term, false, true, n.committed, TermAt(n.log, n.committed))}
  {
    hide ResetProgress;
    var f := BecomeFollower(n, m.term, INVALID_ID);
    VoteCommits(f, m.commit, m.commitTerm);
  }
}
