/** One node updated in place: src/raft.rs. Every method does what the function of the same name in RaftNode says. */
module RaftObject {
  import opened Options
  import opened Quorum
  import opened LogModel
  import opened CommittedIndex
  import opened ProgressModel
  import opened ReadOnlyModel
  import N = RaftNode
  import Backtrack

  class Raft {
    const id: NodeId
    const cfg: JointConfig
    const priority: int
    const preVote: bool
    const checkQuorum: bool
    var term: nat
    var vote: NodeId
    var role: N.Role
    var leaderId: NodeId
    var log: Log
    var committed: nat
    var persisted: nat
    var votes: map<NodeId, bool>
    var prs: map<NodeId, Progress>
    var readOnly: ReadOnly
    var readStates: seq<N.ReadState>
    var groupCommit: bool
    var msgs: set<N.Message>

    ghost function View(): N.Node
      reads this
    {
      N.Node(id, term, vote, role, leaderId, log, committed, persisted, votes, prs, readOnly, readStates, priority,
             preVote, checkQuorum, groupCommit)
    }

    /** The outcome `d`, after messages `before`: the process died, or the node and its messages are as `d` says. */
    ghost predicate Follows(d: N.Outcome, died: bool, before: set<N.Message>)
      reads this
    {
      died == d.Fatal? && (d.Done? ==> View() == d.node && msgs == before + d.out)
    }

    constructor (id: NodeId, cfg: JointConfig, priority: int, preVote: bool, checkQuorum: bool,
                 prs: map<NodeId, Progress>)
      ensures this.cfg == cfg && msgs == {}
      ensures View() == N.Node(id, 0, INVALID_ID, N.Follower, INVALID_ID, [], 0, 0, map[], prs, NoReads(), [],
                               priority, preVote, checkQuorum, false)
    {
      this.id, this.cfg, this.priority, this.preVote, this.checkQuorum := id, cfg, priority, preVote, checkQuorum;
      term, vote, role, leaderId, log, committed, persisted := 0, INVALID_ID, N.Follower, INVALID_ID, [], 0, 0;
      votes, this.prs, readOnly, readStates, groupCommit, msgs := map[], prs, NoReads(), [], false, {};
    }

    method Send(m: N.Message)
      modifies this`msgs
      ensures msgs == old(msgs) + {m}
    {
      msgs := msgs + {m};
    }

    // Role changes --------------------------------------------------------------------------------

    /** Resets every peer's progress, one by one; the node's own starts at what it has persisted. */
    method ResetProgress()
      modifies this`prs
      ensures prs == N.ResetProgress(old(View()))
    {
      hide Progress.Reset;
      ghost var was := prs;
      var todo := prs.Keys;
      while todo != {}
        invariant prs.Keys == was.Keys && todo <= prs.Keys
        invariant forall j <- prs :: prs[j] == if j in todo then was[j] else N.ResetProgress(old(View()))[j]
        decreases |todo|
      {
        var j :| j in todo;
        todo := todo - {j};
        var p := prs[j].Reset(|log| + 1);
        if j == id {
          p := p.(matched := persisted, committedIndex := committed);
        }
        prs := prs[j := p];
      }
    }

    method Reset(t: nat)
      modifies this
      ensures View() == N.Reset(old(View()), t) && msgs == old(msgs)
    {
      if term != t {
        term, vote := t, INVALID_ID;
      }
      leaderId, votes, readOnly := INVALID_ID, map[], NoReads();
      ResetProgress();
    }

    method BecomeFollower(t: nat, leader: NodeId)
      modifies this
      ensures View() == N.BecomeFollower(old(View()), t, leader) && msgs == old(msgs)
    {
      Reset(t);
      leaderId, role := leader, N.Follower;
    }

    method BecomeCandidate()
      modifies this
      ensures View() == N.BecomeCandidate(old(View())) && msgs == old(msgs)
    {
      Reset(term + 1);
      vote, role := id, N.Candidate;
    }

    method BecomePreCandidate()
      modifies this
      ensures View() == N.BecomePreCandidate(old(View())) && msgs == old(msgs)
    {
      role, votes, leaderId := N.PreCandidate, map[], INVALID_ID;
    }

    /** Stamps the leader's term and the next indexes on the entries and appends them. */
    method AppendEntry(data: seq<int>)
      modifies this`log
      ensures View() == N.AppendEntries(old(View()), data)
    {
      var after := |log|;
      for i := 0 to |data|
        invariant log == old(log) + N.NewEntries(term, after, data[..i])
      {
        log := log + [Entry(term, after + 1 + i, data[i])];
      }
      assert data[..|data|] == data;
    }

    /** become_leader (src/raft.rs:1233-1284); dies unless the whole log is known to be persisted. */
    method BecomeLeader() returns (died: bool)
      modifies this
      ensures Follows(N.BecomeLeader(old(View())), died, old(msgs))
    {
      Reset(term);
      leaderId, role := id, N.Leader;
      died := |log| != persisted;
      if died {
        return;
      }
      if id in prs {
        prs := prs[id := prs[id].BecomeReplicate()];
      }
      AppendEntry([0]);
    }

    // Elections -----------------------------------------------------------------------------------

    method RecordVote(from: NodeId, grant: bool)
      modifies this`votes
      ensures View() == N.RecordVote(old(View()), from, grant)
    {
      if from !in votes {
        votes := votes[from := grant];
      }
    }

    method VoteResult() returns (r: VoteResult)
      ensures r == JointVote(cfg, votes)
    {
      var i := CountVotes(cfg.incoming, votes);
      var o := CountVotes(cfg.outgoing, votes);
      r := if i == Won && o == Won then Won else if i == Lost || o == Lost then Lost else Pending;
    }

    /** poll (src/raft.rs:2259-2294) in a real election. */
    method PollElection(from: NodeId, grant: bool) returns (r: VoteResult, died: bool)
      modifies this
      ensures Follows(N.PollElection(cfg, old(View()), from, grant), died, old(msgs))
      ensures r == JointVote(cfg, N.RecordVote(old(View()), from, grant).votes)
      ensures !died ==> term == old(term) && msgs == old(msgs)
      ensures !died && old(role) != N.Leader ==> (r == Won <==> role == N.Leader)
    {
      hide JointVote, N.ResetProgress, N.NewEntries;
      RecordVote(from, grant);
      r := VoteResult();
      died := false;
      if r == Won {
        died := BecomeLeader();
      } else if r == Lost {
        BecomeFollower(term, INVALID_ID);
      }
    }

    /** Asks every other voter, one by one (src/raft.rs:1313-1331). */
    method RequestVotes(t: nat, pre: bool)
      modifies this`msgs
      ensures msgs == old(msgs) + N.VoteRequests(cfg, View(), t, pre)
    {
      hide N.VoteRequests, Requests, Quorum.JointConfig.Ids, TermAt, LastTerm;
      ghost var n := View();
      NoRequests(n, t, pre);
      var todo := cfg.incoming + cfg.outgoing;
      ghost var asked := {};
      AllIds(cfg);
      while todo != {}
        invariant asked + todo == cfg.Ids()
        invariant msgs == old(msgs) + Requests(n, asked, t, pre)
        decreases |todo|
      {
        var v :| v in todo;
        RequestsNext(n, asked, v, t, pre);
        JoinOne(old(msgs), Requests(n, asked, t, pre), Ask(n, v, t, pre));
        Move(asked, todo, v);
        todo, asked := todo - {v}, asked + {v};
        if v != id {
          var m := N.RequestVote(id, v, t, pre, |log|, LastTerm(log), committed, TermAt(log, committed), priority);
          assert m == Ask(n, v, t, pre);
          Send(m);
        }
      }
      AllRequests(cfg, n, asked, t, pre);
    }

    /** campaign (src/raft.rs:1290-1336) for the next term. */
    method CampaignElection() returns (died: bool)
      modifies this
      ensures Follows(N.CampaignElection(cfg, old(View())), died, old(msgs))
    {
      hide N.PollElection, JointVote, N.VoteRequests, N.ResetProgress;
      BecomeCandidate();
      var r;
      r, died := PollElection(id, true);
      if !died && r != Won {
        RequestVotes(term, false);
      }
    }

    /** poll for a pre-vote: winning it starts the real election. */
    method PollPre(from: NodeId, grant: bool) returns (died: bool)
      modifies this
      ensures Follows(N.PollPre(cfg, old(View()), from, grant), died, old(msgs))
    {
      hide JointVote, N.CampaignElection, N.BecomeFollower;
      RecordVote(from, grant);
      var r := VoteResult();
      died := false;
      if r == Won {
        died := CampaignElection();
      } else if r == Lost {
        BecomeFollower(term, INVALID_ID);
      }
    }

    method CampaignPre() returns (died: bool)
      modifies this
      ensures Follows(N.CampaignPre(cfg, old(View())), died, old(msgs))
    {
      hide N.PollPre, N.VoteRequests;
      var t := term;
      BecomePreCandidate();
      died := PollPre(id, true);
      if !died && term == t {
        PreAsksNobody(cfg, N.BecomePreCandidate(old(View())), id, true);
        RequestVotes(t + 1, true);
      }
    }

    /** hup (src/raft.rs:1546-1588). */
    method Hup(transfer: bool) returns (died: bool)
      modifies this
      ensures Follows(N.Hup(cfg, old(View()), transfer), died, old(msgs))
    {
      hide N.CampaignPre, N.CampaignElection;
      if role == N.Leader {
        return false;
      }
      if preVote && !transfer {
        died := CampaignPre();
      } else {
        died := CampaignElection();
      }
    }

    // Committing ----------------------------------------------------------------------------------

    method CommitTo(c: nat) returns (died: bool)
      modifies this`committed
      ensures Follows(N.CommitTo(old(View()), c), died, old(msgs))
    {
      if committed >= c {
        return false;
      }
      if |log| < c {
        return true;
      }
      committed := c;
      return false;
    }

    method CommitMatching(index: nat, t: nat) returns (died: bool)
      modifies this`committed
      ensures Follows(N.CommitMatching(old(View()), index, t), died, old(msgs))
    {
      died := false;
      if index > committed && TermAt(log, index) == t {
        died := CommitTo(index);
      }
    }

    /** Indexes are 64-bit numbers. */
    ghost predicate InRange()
      reads this
    {
      forall j <- prs :: prs[j].matched <= U64_MAX
    }

    method MaximalCommittedIndex() returns (c: nat)
      requires InRange()
      ensures c == JointIndex(cfg, groupCommit, N.MatchedIndexes(View())).0
    {
      hide JointIndex;
      c := ComputeJoint(cfg, groupCommit, N.Matched(prs));
    }

    /** maybe_commit (src/raft.rs:946-957). */
    method MaybeCommit() returns (died: bool)
      requires InRange()
      modifies this`committed, this`prs
      ensures Follows(N.MaybeCommit(cfg, old(View())), died, old(msgs))
    {
      hide JointIndex, N.MatchedIndexes;
      var c := MaximalCommittedIndex();
      var before := committed;
      died := CommitMatching(c, term);
      if !died && committed > before && id in prs {
        prs := prs[id := prs[id].UpdateCommitted(committed)];
      }
    }

    method CommitByVote(commit: nat, commitTerm: nat) returns (died: bool)
      modifies this`committed
      ensures Follows(N.CommitByVote(old(View()), commit, commitTerm), died, old(msgs))
    {
      if commit == 0 || commitTerm == 0 || commit <= committed || role == N.Leader {
        return false;
      }
      died := CommitMatching(commit, commitTerm);
    }

    // Appending -----------------------------------------------------------------------------------

    method FindConflict(ents: Log) returns (c: nat)
      ensures c == N.FindConflict(log, ents)
    {
      for i := 0 to |ents|
        invariant N.FindConflict(log, ents) == N.FindConflict(log, ents[i..])
      {
        if TermAt(log, ents[i].index) != ents[i].term {
          return ents[i].index;
        }
        assert ents[i..][1..] == ents[i + 1..];
      }
      return 0;
    }

    /** maybe_append (src/raft_log.rs:267-297); `last` is nothing when the append is refused. */
    method MaybeAppend(index: nat, t: nat, commit: nat, ents: Log) returns (last: Option<nat>, died: bool)
      modifies this`log, this`committed, this`persisted
      ensures var r := N.MaybeAppend(old(log), old(committed), index, t, commit, ents);
              && (died <==> r.Broken?)
              && (r.Refused? ==> last.None? && View() == old(View()))
              && (r.Stored? ==>
                    && last == Some(r.last)
                    && View() == old(View()).(log := r.log, committed := r.committed,
                                              persisted := N.StillPersisted(old(persisted), r.conflict)))
    {
      hide N.FindConflict;
      if TermAt(log, index) != t {
        return None, false;
      }
      var c := FindConflict(ents);
      var end := index + |ents|;
      if c != 0 {
        if c <= committed || !(index < c <= end) || c > |log| + 1 {
          return None, true;
        }
        log := log[..c - 1] + ents[c - index - 1..];
        if persisted > c - 1 {
          persisted := c - 1;
        }
      }
      died := CommitTo(if commit < end then commit else end);
      last := if died then None else Some(end);
    }

    /** handle_append_entries (src/raft.rs:2506-2565). */
    method HandleAppend(m: N.Message) returns (died: bool)
      requires m.AppendMsg?
      modifies this
      ensures Follows(N.HandleAppend(old(View()), m), died, old(msgs))
    {
      hide N.MaybeAppend, N.LastUpTo;
      if m.index < committed {
        Send(N.AppendResp(id, m.from, term, committed, false, 0, 0, committed));
        return false;
      }
      var last;
      last, died := MaybeAppend(m.index, m.logTerm, m.commit, m.entries);
      if died {
        return;
      }
      if last.Some? {
        Send(N.AppendResp(id, m.from, term, last.value, false, 0, 0, committed));
      } else {
        var hint, t := Backtrack.FindConflictByTerm(log, if m.index < |log| then m.index else |log|, m.logTerm);
        Send(N.AppendResp(id, m.from, term, m.index, true, hint, t.value, committed));
      }
    }

    method HandleHeartbeat(m: N.Message) returns (died: bool)
      requires m.Heartbeat?
      modifies this`committed, this`msgs
      ensures Follows(N.HandleHeartbeat(old(View()), m), died, old(msgs))
    {
      died := CommitTo(m.commit);
      if !died {
        Send(N.HeartbeatResp(id, m.from, term, committed, m.ctx));
      }
    }

    /** handle_append_response (src/raft.rs:1656-1871), without the appends it sends. */
    method HandleAppendResp(m: N.Message) returns (died: bool)
      requires m.AppendResp? && InRange() && m.index <= U64_MAX
      modifies this`prs, this`committed
      ensures Follows(N.HandleAppendResp(cfg, old(View()), m), died, old(msgs))
    {
      hide N.LastUpTo, N.MaybeCommit;
      var probe := m.rejectHint;
      if m.reject && m.logTerm > 0 {
        var i, _ := Backtrack.FindConflictByTerm(log, m.rejectHint, m.logTerm);
        probe := i;
      }
      if m.from !in prs {
        return false;
      }
      var pr := prs[m.from].(recentActive := true).UpdateCommitted(m.commit);
      if m.reject {
        var (p, current) := pr.MaybeDecrTo(m.index, probe, INVALID_INDEX);
        if current && p.state == Replicate {
          p := p.BecomeProbe();
        }
        prs := prs[m.from := p];
        return false;
      }
      var (p, news) := pr.MaybeUpdate(m.index);
      if !news {
        prs := prs[m.from := p];
        return false;
      }
      prs := prs[m.from := N.AfterUpdate(p, m.index)];
      died := MaybeCommit();
    }

    // Reading -------------------------------------------------------------------------------------

    /** handle_ready_read_index for each released read (src/raft.rs:2908-2923). */
    method ReleaseReads(sts: seq<ReadStatus>)
      modifies this`readStates, this`msgs
      ensures Follows(N.ReleaseReads(old(View()), sts), false, old(msgs))
    {
      hide N.LocalReads, Remote;
      ghost var n := View();
      NoneRemote(n);
      for i := 0 to |sts|
        invariant View() == n.(readStates := readStates)
        invariant readStates == n.readStates + N.LocalReads(n, sts[..i])
        invariant msgs == old(msgs) + Remote(n, sts[..i])
      {
        var st := sts[i];
        RemoteNext(n, sts, i);
        LocalNext(n, sts, i);
        if st.from == INVALID_ID || st.from == id {
          readStates := readStates + [N.ReadState(st.index, st.ctx)];
        } else {
          Send(N.ReadIndexResp(id, st.from, term, st.index, st.ctx));
        }
      }
      assert sts[..|sts|] == sts;
      RemoteIsAll(n, sts);
    }

    method HandleReadIndex(from: NodeId, ctx: Ctx)
      modifies this`readStates, this`readOnly, this`msgs
      ensures Follows(N.HandleReadIndex(cfg, old(View()), from, ctx), false, old(msgs))
    {
      hide N.ReleaseReads;
      if TermAt(log, committed) != term {
        return;
      }
      if cfg.IsSingleton() {
        ReleaseReads([ReadStatus(ctx, from, committed, {id})]);
      } else {
        readOnly := readOnly.AddRequest(committed, ctx, from, id);
      }
    }

    /** has_quorum (src/tracker.rs:353-358) asks the vote counters. */
    method HasQuorum(ids: set<NodeId>) returns (b: bool)
      ensures b <==> IsQuorum(cfg, ids)
    {
      var ballots := map v | v in ids :: true;
      var i := CountVotes(cfg.incoming, ballots);
      var o := CountVotes(cfg.outgoing, ballots);
      b := i == Won && o == Won;
      assert Granted(ballots) == ids;
    }

    method CountReadAck(from: NodeId, ctx: Ctx) returns (died: bool)
      requires readOnly.Valid()
      modifies this`readOnly, this`readStates, this`msgs
      ensures Follows(N.CountReadAck(cfg, old(View()), from, ctx), died, old(msgs))
    {
      hide N.ReleaseReads, IsQuorum, ReadOnly.Valid, ReadOnly.Released, ReadOnly.Advance;
      readOnly.RecvAckValid(from, ctx);
      readOnly := readOnly.RecvAck(from, ctx);
      if ctx !in readOnly.pending {
        return false;
      }
      var quorum := HasQuorum(readOnly.pending[ctx].acks);
      if !quorum {
        return false;
      }
      var released := readOnly.Released(ctx);
      readOnly := readOnly.Advance(ctx);
      ReleaseReads(released);
      return false;
    }

    /** handle_heartbeat_response (src/raft.rs:1873-1915), without the append it may send. */
    method HandleHeartbeatResp(m: N.Message) returns (died: bool)
      requires m.HeartbeatResp? && readOnly.Valid()
      modifies this`prs, this`readOnly, this`readStates, this`msgs
      ensures Follows(N.HandleHeartbeatResp(cfg, old(View()), m), died, old(msgs))
    {
      hide N.CountReadAck, ReadOnly.Valid;
      if m.from !in prs {
        return false;
      }
      var pr := prs[m.from].UpdateCommitted(m.commit).(recentActive := true).Resume();
      if pr.state == Replicate && pr.ins.Full() {
        pr := pr.(ins := pr.ins.FreeFirstOne());
      }
      prs := prs[m.from := pr];
      if m.ctx.None? {
        return false;
      }
      died := CountReadAck(m.from, m.ctx.value);
    }

    // Stepping ------------------------------------------------------------------------------------

    /** A vote or pre-vote request (src/raft.rs:1492-1536). */
    method HandleVoteRequest(m: N.Message) returns (died: bool)
      requires m.RequestVote?
      modifies this`vote, this`committed, this`msgs
      ensures Follows(N.HandleVoteRequest(old(View()), m), died, old(msgs))
    {
      var canVote := vote == m.from || (vote == INVALID_ID && leaderId == INVALID_ID) || (m.pre && m.term > term);
      if canVote && UpToDate(log, m.index, m.logTerm) && (m.index > |log| || priority <= m.priority) {
        Send(N.VoteResp(id, m.from, m.term, m.pre, false, 0, 0));
        if !m.pre {
          vote := m.from;
        }
        return false;
      }
      if term == 0 {
        return true;
      }
      Send(N.VoteResp(id, m.from, term, m.pre, true, committed, TermAt(log, committed)));
      died := CommitByVote(m.commit, m.commitTerm);
    }

    method HandleVoteResp(m: N.Message) returns (died: bool)
      requires m.VoteResp?
      modifies this
      ensures Follows(N.HandleVoteResp(cfg, old(View()), m), died, old(msgs))
    {
      hide N.PollPre, N.PollElection, N.CommitByVote;
      if m.pre {
        died := PollPre(m.from, !m.reject);
      } else {
        var _, d := PollElection(m.from, !m.reject);
        died := d;
      }
      if !died {
        died := CommitByVote(m.commit, m.commitTerm);
      }
    }

    method StepCandidate(m: N.Message) returns (died: bool)
      modifies this
      ensures Follows(N.StepCandidate(cfg, old(View()), m), died, old(msgs))
    {
      hide N.HandleAppend, N.HandleHeartbeat, N.HandleVoteResp, N.BecomeFollower;
      died := false;
      if m.AppendMsg? {
        BecomeFollower(m.term, m.from);
        died := HandleAppend(m);
      } else if m.Heartbeat? {
        BecomeFollower(m.term, m.from);
        died := HandleHeartbeat(m);
      } else if m.VoteResp? && ((role == N.PreCandidate) == m.pre) {
        died := HandleVoteResp(m);
      }
    }

    method StepFollower(m: N.Message) returns (died: bool)
      modifies this
      ensures Follows(N.StepFollower(old(View()), m), died, old(msgs))
    {
      hide N.HandleAppend, N.HandleHeartbeat, N.CommitMatching;
      died := false;
      if m.AppendMsg? {
        leaderId := m.from;
        died := HandleAppend(m);
      } else if m.Heartbeat? {
        leaderId := m.from;
        died := HandleHeartbeat(m);
      } else if m.ReadIndex? {
        if leaderId != INVALID_ID {
          Send(N.ReadIndex(if m.from == INVALID_ID then id else m.from, leaderId, 0, m.req));
        }
      } else if m.ReadIndexResp? {
        readStates := readStates + [N.ReadState(m.index, m.req)];
        died := CommitMatching(m.index, m.term);
      }
    }

    /** What a leader needs before it handles a message; runs keep it (`Cluster.LeaderOk`). */
    ghost predicate Prepared(m: N.Message)
      reads this
    {
      InRange() && readOnly.Valid() && (m.AppendResp? ==> m.index <= U64_MAX)
    }

    method StepLeader(m: N.Message) returns (died: bool)
      requires Prepared(m)
      modifies this
      ensures Follows(N.StepLeader(cfg, old(View()), m), died, old(msgs))
    {
      hide N.HandleAppendResp, N.HandleHeartbeatResp, N.HandleReadIndex, ReadOnly.Valid;
      died := false;
      if m.AppendResp? {
        died := HandleAppendResp(m);
      } else if m.HeartbeatResp? {
        died := HandleHeartbeatResp(m);
      } else if m.ReadIndex? {
        HandleReadIndex(m.from, m.req);
      }
    }

    method StepRole(m: N.Message) returns (died: bool)
      requires role == N.Leader ==> Prepared(m)
      modifies this
      ensures Follows(N.StepRole(cfg, old(View()), m), died, old(msgs))
    {
      hide N.HandleVoteRequest, N.StepFollower, N.StepLeader, N.StepCandidate, Prepared;
      if m.RequestVote? {
        died := HandleVoteRequest(m);
      } else if role == N.Follower {
        died := StepFollower(m);
      } else if role == N.Leader {
        died := StepLeader(m);
      } else {
        died := StepCandidate(m);
      }
    }

    /** step (src/raft.rs:1353-1544). */
    method Step(m: N.Message) returns (died: bool)
      requires role == N.Leader ==> Prepared(m)
      modifies this
      ensures Follows(N.Step(cfg, old(View()), m), died, old(msgs))
    {
      hide N.StepRole, N.Reset, Prepared;
      died := false;
      if m.term != 0 && m.term > term {
        var preVoteTraffic := (m.RequestVote? && m.pre) || (m.VoteResp? && m.pre && !m.reject);
        if !preVoteTraffic {
          BecomeFollower(m.term, if m.AppendMsg? || m.Heartbeat? then m.from else INVALID_ID);
        }
      } else if m.term != 0 && m.term < term {
        if (checkQuorum || preVote) && (m.Heartbeat? || m.AppendMsg?) {
          Send(N.AppendResp(id, m.from, term, 0, false, 0, 0, 0));
        } else if m.RequestVote? && m.pre {
          Send(N.VoteResp(id, m.from, term, true, true, 0, 0));
        }
        return false;
      }
      died := StepRole(m);
    }

    // What a leader does on its own ---------------------------------------------------------------

    /** MsgPropose (src/raft.rs:2070-2151); dies of an empty batch. */
    method Propose(data: seq<int>) returns (died: bool)
      modifies this`log
      ensures Follows(N.Propose(old(View()), data), died, old(msgs))
    {
      if role != N.Leader {
        return false;
      }
      if data == [] {
        return true;
      }
      AppendEntry(data);
      return false;
    }

    /** on_persist_entries (src/raft.rs:1067-1089). */
    method OnPersistEntries(index: nat, t: nat) returns (died: bool)
      requires InRange() && index <= U64_MAX
      modifies this`prs, this`committed, this`persisted
      ensures Follows(N.Persisted(cfg, old(View()), index, t), died, old(msgs))
    {
      hide N.MaybeCommit, TermAt;
      died := false;
      if !(persisted < index <= |log| && TermAt(log, index) == t) {
        return;
      }
      persisted := index;
      if role == N.Leader && id in prs {
        var (p, news) := prs[id].MaybeUpdate(index);
        prs := prs[id := p];
        if news {
          died := MaybeCommit();
        }
      }
    }

    /** enable_group_commit (src/raft.rs:521-526). */
    method EnableGroupCommit(enable: bool) returns (died: bool)
      requires InRange()
      modifies this`groupCommit, this`prs, this`committed
      ensures Follows(N.EnableGroups(cfg, old(View()), enable), died, old(msgs))
    {
      hide N.MaybeCommit;
      groupCommit := enable;
      died := false;
      if role == N.Leader && !enable {
        died := MaybeCommit();
      }
    }

    /** assign_commit_groups (src/raft.rs:540-553): the loop dies at the first group 0. */
    method AssignCommitGroups(ids: seq<(NodeId, nat)>) returns (died: bool)
      requires InRange()
      modifies this`prs, this`committed
      ensures Follows(N.AssignGroups(cfg, old(View()), ids), died, old(msgs))
    {
      hide N.MaybeCommit;
      assert ids[..0] == [];
      for k := 0 to |ids|
        invariant prs == N.Assign(old(prs), ids[..k]) && InRange()
        invariant forall i :: 0 <= i < k ==> ids[i].1 != 0
        invariant unchanged(`committed)
      {
        var (peer, group) := ids[k];
        if group == 0 {
          return true;
        }
        assert ids[..k + 1][..k] == ids[..k];
        if peer in prs {
          prs := prs[peer := prs[peer].(group := group)];
        }
      }
      assert ids[..|ids|] == ids;
      died := false;
      if role == N.Leader && groupCommit {
        died := MaybeCommit();
      }
    }

    /** handle_unreachable (src/raft.rs:2027-2050). */
    method HandleUnreachable(peer: NodeId)
      modifies this`prs
      ensures Follows(N.Unreachable(old(View()), peer), false, old(msgs))
    {
      if role == N.Leader && peer in prs && prs[peer].state == Replicate {
        prs := prs[peer := prs[peer].BecomeProbe()];
      }
    }

    /** adjust_max_inflight_msgs (src/raft.rs:2968-2972). */
    method AdjustMaxInflight(peer: NodeId, cap: nat)
      modifies this`prs
      ensures Follows(N.Resize(old(View()), peer, cap), false, old(msgs))
    {
      if peer in prs {
        prs := prs[peer := prs[peer].(ins := prs[peer].ins.SetCap(cap))];
      }
    }

    /** send_heartbeat (src/raft.rs:862-884): never a commit index beyond what the peer is known to hold. */
    method SendHeartbeat(to: NodeId, ctx: Option<Ctx>)
      modifies this`msgs
      ensures Follows(N.SendHeartbeat(old(View()), to, ctx), false, old(msgs))
    {
      if role == N.Leader && to in prs && to != id && (ctx.None? || ctx.value in readOnly.queue) {
        var matched := prs[to].matched;
        Send(N.Heartbeat(id, to, term, if matched < committed then matched else committed, ctx));
      }
    }
  }

  ghost function Ask(n: N.Node, v: NodeId, t: nat, pre: bool): N.Message {
    N.RequestVote(n.id, v, t, pre, |n.log|, LastTerm(n.log), n.committed, TermAt(n.log, n.committed), n.priority)
  }

  ghost function Requests(n: N.Node, ids: set<NodeId>, t: nat, pre: bool): set<N.Message> {
    set v | v in ids && v != n.id :: Ask(n, v, t, pre)
  }

  lemma AllIds(cfg: JointConfig)
    ensures {} + (cfg.incoming + cfg.outgoing) == cfg.Ids()
  {
  }

  lemma Move(a: set<NodeId>, b: set<NodeId>, v: NodeId)
    requires v in b
    ensures (a + {v}) + (b - {v}) == a + b && |b - {v}| < |b|
  {
    assert |b - {v}| == |b| - 1;
  }

  lemma NoRequests(n: N.Node, t: nat, pre: bool)
    ensures Requests(n, {}, t, pre) == {}
  {
  }

  lemma RequestsNext(n: N.Node, ids: set<NodeId>, v: NodeId, t: nat, pre: bool)
    ensures Requests(n, ids + {v}, t, pre) == Requests(n, ids, t, pre)
              + if v == n.id then {} else {Ask(n, v, t, pre)}
  {
  }

  lemma JoinOne(a: set<N.Message>, b: set<N.Message>, m: N.Message)
    ensures a + b + {m} == a + (b + {m}) && b + {} == b
  {
  }

  lemma AllRequests(cfg: JointConfig, n: N.Node, ids: set<NodeId>, t: nat, pre: bool)
    requires ids == cfg.Ids()
    ensures Requests(n, ids, t, pre) == N.VoteRequests(cfg, n, t, pre)
  {
  }

  lemma PreAsksNobody(cfg: JointConfig, n: N.Node, from: NodeId, grant: bool)
    ensures var d := N.PollPre(cfg, n, from, grant); d.Done? && d.node.term == n.term ==> d.out == {}
  {
    hide JointVote, N.PollElection;
    ElectionTerm(cfg, N.BecomeCandidate(N.RecordVote(n, from, grant)), n.id, true);
  }

  lemma ElectionTerm(cfg: JointConfig, n: N.Node, from: NodeId, grant: bool)
    ensures var d := N.PollElection(cfg, n, from, grant); d.Done? ==> d.node.term == n.term
  {
    hide JointVote, N.ResetProgress, N.NewEntries;
  }

  ghost function Remote(n: N.Node, sts: seq<ReadStatus>): set<N.Message> {
    set st | st in sts && !N.IsLocal(n, st) :: N.ReadResp(n, st)
  }

  lemma NoneRemote(n: N.Node)
    ensures Remote(n, []) == {} && N.LocalReads(n, []) == []
  {
  }

  lemma RemoteNext(n: N.Node, sts: seq<ReadStatus>, i: nat)
    requires i < |sts|
    ensures Remote(n, sts[..i + 1])
            == Remote(n, sts[..i]) + if N.IsLocal(n, sts[i]) then {} else {N.ReadResp(n, sts[i])}
  {
    assert sts[..i + 1] == sts[..i] + [sts[i]];
  }

  lemma RemoteIsAll(n: N.Node, sts: seq<ReadStatus>)
    ensures N.ReleaseReads(n, sts) == N.Done(n.(readStates := n.readStates + N.LocalReads(n, sts)), Remote(n, sts))
  {
  }

  lemma {:induction false} LocalConcat(n: N.Node, a: seq<ReadStatus>, b: seq<ReadStatus>)
    ensures N.LocalReads(n, a + b) == N.LocalReads(n, a) + N.LocalReads(n, b)
    decreases |a|
  {
    if a == [] {
      assert a + b == b;
    } else {
      assert (a + b)[1..] == a[1..] + b;
      LocalConcat(n, a[1..], b);
    }
  }

  lemma LocalNext(n: N.Node, sts: seq<ReadStatus>, i: nat)
    requires i < |sts|
    ensures N.LocalReads(n, sts[..i + 1]) == N.LocalReads(n, sts[..i])
              + if N.IsLocal(n, sts[i]) then [N.ReadState(sts[i].index, sts[i].ctx)] else []
  {
    assert sts[..i + 1] == sts[..i] + [sts[i]];
    LocalConcat(n, sts[..i], [sts[i]]);
    assert [sts[i]][1..] == [];
  }
}
