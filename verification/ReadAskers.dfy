/** Over every run: a read-index reply goes to a node that asked, through the leader that its request was handed to. */
module ReadAskers {
  import opened Options
  import opened Quorum
  import opened LogModel
  import opened ProgressModel
  import opened ReadOnlyModel
  import opened RaftNode
  import opened Cluster
  import opened ClusterRuns
  import opened ClusterTheorems
  import opened ReadReplies

  // What one reaction does about reads ------------------------------------------------------------

  predicate AboutReads(m: Message) {
    m.ReadIndex? || m.ReadIndexResp?
  }

  /** The queue stays within its term or is gone, and nothing about reads is sent. */
  ghost predicate NoReadsMove(n: Node, d: Outcome) {
    d.Done? ==>
      && d.node.id == n.id
      && ((d.node.readOnly == n.readOnly && d.node.term == n.term) || d.node.readOnly == NoReads())
      && forall m <- d.out :: !AboutReads(m)
  }

  /** What is queued after message `m` was queued before, in the same term, or is the request of `m`. */
  ghost predicate QueuedBy(n: Node, m: Message, n': Node) {
    forall c <- n'.readOnly.pending ::
      && n'.term == n.term && n'.readOnly.pending[c].ctx == c
      && (|| (c in n.readOnly.pending && n'.readOnly.pending[c].from == n.readOnly.pending[c].from)
          || (n.role == Leader && m.ReadIndex? && m.req == c && n'.readOnly.pending[c].from == m.from))
  }

  /** A reply answers what was queued, or the request of `m` itself. */
  ghost predicate RepliesTo(n: Node, m: Message, r: Message)
    requires r.ReadIndexResp?
  {
    && n.role == Leader && r.from == n.id && r.term == n.term && !Local(n, r.to)
    && (|| (r.req in n.readOnly.pending && n.readOnly.pending[r.req].from == r.to)
        || (m.ReadIndex? && m.req == r.req && m.from == r.to))
  }

  /** A request is only ever passed on, under the name of the node that made it. */
  ghost predicate PassesOn(n: Node, m: Message, r: Message)
    requires r.ReadIndex?
  {
    m.ReadIndex? && r.term == 0 && r.req == m.req && r.from == if m.from == INVALID_ID then n.id else m.from
  }

  /** Every queued status is filed under its own context. */
  ghost predicate Filed(n: Node) {
    forall c <- n.readOnly.pending :: n.readOnly.pending[c].ctx == c
  }

  ghost predicate ReadsMove(n: Node, m: Message, d: Outcome) {
    d.Done? ==>
      && d.node.id == n.id && QueuedBy(n, m, d.node)
      && (forall r <- d.out :: r.ReadIndexResp? ==> RepliesTo(n, m, r))
      && forall r <- d.out :: r.ReadIndex? ==> PassesOn(n, m, r)
  }

  lemma StillMove(n: Node, m: Message, d: Outcome)
    requires NoReadsMove(n, d) && Filed(n)
    ensures ReadsMove(n, m, d)
  {
  }

  lemma CommitStill(cfg: JointConfig, n: Node)
    ensures NoReadsMove(n, MaybeCommit(cfg, n))
  {
    hide CommitMatching;
    CommitMatchingStill(n, 0, 0);
    forall i: nat, t: nat
      ensures NoReadsMove(n, CommitMatching(n, i, t))
      ensures CommitMatching(n, i, t).Done? ==> CommitMatching(n, i, t).out == {}
    {
      CommitMatchingStill(n, i, t);
    }
  }

  lemma CommitMatchingStill(n: Node, index: nat, term: nat)
    ensures NoReadsMove(n, CommitMatching(n, index, term))
    ensures CommitMatching(n, index, term).Done? ==> CommitMatching(n, index, term).out == {}
  {
  }

  lemma PollStill(cfg: JointConfig, n: Node, from: NodeId, grant: bool)
    ensures NoReadsMove(n, PollElection(cfg, n, from, grant))
    ensures var d := PollElection(cfg, n, from, grant); d.Done? ==> d.out == {}
  {
    hide JointVote, ResetProgress, NewEntries, TermAt;
  }

  lemma CampaignStill(cfg: JointConfig, n: Node)
    ensures NoReadsMove(n, CampaignElection(cfg, n))
  {
    hide PollElection, ResetProgress, TermAt;
    PollStill(cfg, BecomeCandidate(n), n.id, true);
  }

  lemma ElectionStill(cfg: JointConfig, n: Node, from: NodeId, grant: bool)
    ensures NoReadsMove(n, PollElection(cfg, n, from, grant))
    ensures NoReadsMove(n, CampaignElection(cfg, n))
    ensures NoReadsMove(n, PollPre(cfg, n, from, grant))
  {
    PollStill(cfg, n, from, grant);
    CampaignStill(cfg, n);
    CampaignStill(cfg, RecordVote(n, from, grant));
    hide PollElection, CampaignElection, JointVote, ResetProgress;
  }

  lemma HupStill(cfg: JointConfig, n: Node, transfer: bool)
    ensures NoReadsMove(n, Hup(cfg, n, transfer))
  {
    hide PollPre, CampaignElection;
    ElectionStill(cfg, n, n.id, true);
    ElectionStill(cfg, BecomePreCandidate(n), n.id, true);
  }

  lemma AppendStill(n: Node, m: Message)
    requires m.AppendMsg?
    ensures NoReadsMove(n, HandleAppend(n, m))
  {
    hide MaybeAppend, LastUpTo, TermAt;
  }

  lemma CandidateStill(cfg: JointConfig, n: Node, m: Message)
    ensures NoReadsMove(n, StepCandidate(cfg, n, m))
  {
    hide HandleAppend, PollPre, PollElection, ResetProgress, TermAt;
    if m.AppendMsg? {
      AppendStill(BecomeFollower(n, m.term, m.from), m);
    } else if m.VoteResp? {
      ElectionStill(cfg, n, m.from, !m.reject);
    }
  }

  lemma FollowerMoves(n: Node, m: Message)
    requires Filed(n) && n.role == Follower
    ensures ReadsMove(n, m, StepFollower(n, m))
  {
    hide HandleAppend, CommitMatching;
    if m.AppendMsg? {
      AppendStill(n.(leaderId := m.from), m);
      StillMove(n, m, StepFollower(n, m));
    } else if m.ReadIndexResp? {
      CommitMatchingStill(n.(readStates := n.readStates + [ReadState(m.index, m.req)]), m.index, m.term);
      StillMove(n, m, StepFollower(n, m));
    }
  }

  lemma AckRespStill(cfg: JointConfig, n: Node, m: Message)
    requires m.AppendResp?
    ensures NoReadsMove(n, HandleAppendResp(cfg, n, m))
  {
    hide MaybeCommit, LastUpTo;
    if m.from in n.progress && !m.reject {
      var (p, news) := n.progress[m.from].(recentActive := true).UpdateCommitted(m.commit).MaybeUpdate(m.index);
      CommitStill(cfg, SetProgress(n, m.from, AfterUpdate(p, m.index)));
    }
  }

  /** The requests that are released are among those that were queued. */
  lemma ReleaseMoves(n: Node, m: Message, ro: ReadOnly, sts: seq<ReadStatus>)
    requires n.role == Leader && Filed(n)
    requires forall c <- ro.pending :: c in n.readOnly.pending && ro.pending[c].ctx == c
                                       && ro.pending[c].from == n.readOnly.pending[c].from
    requires forall st | st in sts :: st.ctx in n.readOnly.pending && n.readOnly.pending[st.ctx].from == st.from
    ensures ReadsMove(n, m, ReleaseReads(n.(readOnly := ro), sts))
  {
    var r := n.(readOnly := ro);
    ReleaseAnswers(r, sts);
    hide ReleaseReads;
    var d := ReleaseReads(r, sts);
    forall x <- d.out
      ensures x.ReadIndexResp? && RepliesTo(n, m, x)
    {
      var st :| st in sts && !Local(r, st.from) && x == ReadIndexResp(r.id, st.from, r.term, st.index, st.ctx);
    }
  }

  lemma BeatMoves(cfg: JointConfig, n: Node, m: Message)
    requires m.HeartbeatResp? && n.role == Leader && Filed(n)
    ensures ReadsMove(n, m, HandleHeartbeatResp(cfg, n, m))
  {
    hide CountReadAck;
    if m.from in n.progress && m.ctx.Some? {
      var pr := n.progress[m.from].UpdateCommitted(m.commit).(recentActive := true).Resume();
      var pr' := if pr.state == Replicate && pr.ins.Full() then pr.(ins := pr.ins.FreeFirstOne()) else pr;
      CountMoves(cfg, n, SetProgress(n, m.from, pr'), m, m.from, m.ctx.value);
    }
  }

  lemma CountMoves(cfg: JointConfig, n: Node, r: Node, m: Message, from: NodeId, ctx: Ctx)
    requires n.role == Leader && Filed(n) && r == n.(progress := r.progress)
    ensures ReadsMove(n, m, CountReadAck(cfg, r, from, ctx))
  {
    hide IsQuorum, ReleaseReads, ReadsMove;
    var ro := n.readOnly.RecvAck(from, ctx);
    if ctx !in ro.pending || !IsQuorum(cfg, ro.pending[ctx].acks) {
      AckMoves(n, r, m, ro);
    } else if ro.Valid() {
      ReleaseMoves(r, m, ro.Advance(ctx), ro.Released(ctx));
      SameMoves(n, r, m, ReleaseReads(r.(readOnly := ro.Advance(ctx)), ro.Released(ctx)));
    } else {
      assert CountReadAck(cfg, r, from, ctx).Fatal?;
      DeadMoves(n, m);
    }
  }

  lemma AckMoves(n: Node, r: Node, m: Message, ro: ReadOnly)
    requires Filed(n) && r == n.(progress := r.progress)
    requires forall c <- ro.pending :: c in n.readOnly.pending && ro.pending[c].ctx == c
                                       && ro.pending[c].from == n.readOnly.pending[c].from
    ensures ReadsMove(n, m, Done(r.(readOnly := ro), {}))
  {
  }

  lemma SameMoves(n: Node, r: Node, m: Message, d: Outcome)
    requires ReadsMove(r, m, d) && r == n.(progress := r.progress)
    ensures ReadsMove(n, m, d)
  {
    if d.Done? {
      forall x <- d.out
        ensures x.ReadIndexResp? ==> RepliesTo(n, m, x)
        ensures x.ReadIndex? ==> PassesOn(n, m, x)
      {
      }
    }
  }

  lemma DeadMoves(n: Node, m: Message)
    ensures ReadsMove(n, m, Fatal)
  {
  }

  lemma RequestMoves(cfg: JointConfig, n: Node, m: Message)
    requires m.ReadIndex? && n.role == Leader && Filed(n)
    ensures ReadsMove(n, m, HandleReadIndex(cfg, n, m.from, m.req))
  {
    hide ReleaseReads;
    if CommitTerm(n) == n.term && cfg.IsSingleton() {
      var st := ReadStatus(m.req, m.from, n.committed, {n.id});
      ReleaseAnswers(n, [st]);
      var d := ReleaseReads(n, [st]);
      forall x <- d.out
        ensures x.ReadIndexResp? && RepliesTo(n, m, x)
      {
      }
    }
  }

  lemma LeaderMoves(cfg: JointConfig, n: Node, m: Message)
    requires Filed(n) && n.role == Leader
    ensures ReadsMove(n, m, StepLeader(cfg, n, m))
  {
    hide HandleAppendResp, HandleHeartbeatResp, HandleReadIndex, ReadsMove;
    match m
    case AppendResp(_, _, _, _, _, _, _, _) =>
      AckRespStill(cfg, n, m);
      StillMove(n, m, StepLeader(cfg, n, m));
    case HeartbeatResp(_, _, _, _, _) => BeatMoves(cfg, n, m);
    case ReadIndex(_, _, _, _) => RequestMoves(cfg, n, m);
    case _ => StillMove(n, m, StepLeader(cfg, n, m));
  }

  lemma RoleMoves(cfg: JointConfig, n: Node, m: Message)
    requires Filed(n)
    ensures ReadsMove(n, m, StepRole(cfg, n, m))
  {
    hide StepLeader, StepFollower, StepCandidate, HandleVoteRequest, ReadsMove;
    if m.RequestVote? {
      VoteStill(n, m);
      StillMove(n, m, StepRole(cfg, n, m));
    } else {
      match n.role
      case Follower => FollowerMoves(n, m);
      case Leader => LeaderMoves(cfg, n, m);
      case _ =>
        CandidateStill(cfg, n, m);
        StillMove(n, m, StepRole(cfg, n, m));
    }
  }

  lemma VoteStill(n: Node, m: Message)
    requires m.RequestVote?
    ensures NoReadsMove(n, HandleVoteRequest(n, m))
  {
    hide Grants, TermAt;
  }

  lemma StepMoves(cfg: JointConfig, n: Node, m: Message)
    requires Filed(n)
    ensures ReadsMove(n, m, Step(cfg, n, m))
  {
    hide StepRole, ReadsMove, StepLower;
    var f := BecomeFollower(n, m.term, if m.AppendMsg? || m.Heartbeat? then m.from else INVALID_ID);
    RoleMoves(cfg, n, m);
    RoleMoves(cfg, f, m);
    LaterMoves(n, f, m, StepRole(cfg, f, m));
    LowerStill(n, m);
    StillMove(n, m, StepLower(n, m));
  }

  lemma LowerStill(n: Node, m: Message)
    ensures NoReadsMove(n, StepLower(n, m))
  {
  }

  /** A node that has just moved to a later term has nothing queued and leads nothing. */
  lemma LaterMoves(n: Node, f: Node, m: Message, d: Outcome)
    requires ReadsMove(f, m, d) && f.id == n.id && f.role == Follower && f.readOnly == NoReads()
    ensures ReadsMove(n, m, d)
  {
    if d.Done? {
      forall x <- d.out
        ensures x.ReadIndexResp? ==> RepliesTo(n, m, x)
        ensures x.ReadIndex? ==> PassesOn(n, m, x)
      {
      }
    }
  }

  lemma PersistedStill(cfg: JointConfig, n: Node, index: nat, term: nat)
    ensures NoReadsMove(n, Persisted(cfg, n, index, term))
  {
    hide MaybeCommit, TermAt;
    if n.id in n.progress {
      CommitStill(cfg, SetProgress(n, n.id, n.progress[n.id].MaybeUpdate(index).0).(persisted := index));
    }
  }

  lemma LocalStill(cfg: JointConfig, n: Node, e: Event)
    requires !e.Deliver? && !e.AskRead?
    ensures NoReadsMove(n, React(cfg, n, e))
  {
    hide Hup, Persisted, MaybeCommit, Assign, ResetProgress, NewEntries, TermAt, ZeroGroup;
    match e
    case Campaigns(_, transfer) => HupStill(cfg, n, transfer);
    case Persists(_, upTo, ofTerm) => PersistedStill(cfg, n, upTo, ofTerm);
    case EnablesGroups(_, enable) => CommitStill(cfg, n.(groupCommit := enable));
    case AssignsGroups(_, ids) => CommitStill(cfg, n.(progress := Assign(n.progress, ids)));
    case _ =>
  }

  // Runs ------------------------------------------------------------------------------------------

  /** At some step before `b` a request of `from` was handed to `leader`, which led term `t`. */
  ghost predicate Handed(cfg: JointConfig, run: seq<Cluster>, b: nat, leader: NodeId, t: nat, from: NodeId, ctx: Ctx) {
    exists k: nat :: k < b && HandedAt(cfg, run, k, leader, t, from, ctx)
  }

  ghost predicate HandedAt(cfg: JointConfig, run: seq<Cluster>, k: nat, leader: NodeId, t: nat, from: NodeId, ctx: Ctx)
  {
    && k + 1 < |run| && leader in run[k].nodes && run[k].nodes[leader].role == Leader && run[k].nodes[leader].term == t
    && Next(cfg, run[k], Deliver(ReadIndex(from, leader, 0, ctx)), run[k + 1])
  }

  /** At some step before `b` the application of `node` asked for the read. */
  ghost predicate Wanted(cfg: JointConfig, run: seq<Cluster>, b: nat, node: NodeId, ctx: Ctx) {
    exists k: nat :: k < b && k + 1 < |run| && Next(cfg, run[k], AskRead(node, ctx), run[k + 1])
  }

  /** What is known of the reads in a state. */
  ghost predicate ReadsKnown(cfg: JointConfig, run: seq<Cluster>, b: nat)
    requires b < |run|
  {
    && (forall m <- run[b].net :: m.ReadIndexResp? ==> Handed(cfg, run, b, m.from, m.term, m.to, m.req))
    && (forall m <- run[b].net :: m.ReadIndex? ==>
          m.term == 0 && m.from != INVALID_ID && Wanted(cfg, run, b, m.from, m.req))
    && (forall i <- run[b].nodes :: Filed(run[b].nodes[i]) && QueueKnown(cfg, run, b, run[b].nodes[i], i))
  }

  ghost predicate QueueKnown(cfg: JointConfig, run: seq<Cluster>, b: nat, n: Node, i: NodeId) {
    forall c <- n.readOnly.pending ::
      Local(n, n.readOnly.pending[c].from) || Handed(cfg, run, b, i, n.term, n.readOnly.pending[c].from, c)
  }

  /** The message that event `e` makes its node step, if any. */
  function Stepped(n: Node, e: Event): Option<Message> {
    match e
    case Deliver(m) => Some(m)
    case AskRead(_, ctx) => Some(ReadIndex(INVALID_ID, n.id, 0, ctx))
    case _ => None
  }

  lemma ReactMoves(cfg: JointConfig, n: Node, e: Event)
    requires Filed(n)
    ensures var d := React(cfg, n, e);
            match Stepped(n, e)
            case Some(m) => ReadsMove(n, m, d)
            case None => NoReadsMove(n, d)
  {
    hide ReadsMove, NoReadsMove, Step, Filed;
    match e
    case Deliver(m) => StepMoves(cfg, n, m);
    case AskRead(_, ctx) => StepMoves(cfg, n, ReadIndex(INVALID_ID, n.id, 0, ctx));
    case _ => LocalStill(cfg, n, e);
  }

  lemma HandedLater(cfg: JointConfig, run: seq<Cluster>, b: nat, leader: NodeId, t: nat, from: NodeId, ctx: Ctx)
    requires Handed(cfg, run, b, leader, t, from, ctx)
    ensures Handed(cfg, run, b + 1, leader, t, from, ctx)
  {
    hide HandedAt;
  }

  lemma WantedLater(cfg: JointConfig, run: seq<Cluster>, b: nat, node: NodeId, ctx: Ctx)
    requires Wanted(cfg, run, b, node, ctx)
    ensures Wanted(cfg, run, b + 1, node, ctx)
  {
    hide Next;
  }

  /** A request that a leader is handed in this step, by a message that is on the network. */
  lemma HandedNow(cfg: JointConfig, run: seq<Cluster>, b: nat, e: Event, n: Node, m: Message, from: NodeId, ctx: Ctx)
    requires b + 1 < |run| && Actor(e) in run[b].nodes
             && Next(cfg, run[b], e, run[b + 1]) && n == run[b].nodes[Actor(e)] && n.role == Leader
    requires Stepped(n, e) == Some(m) && m.ReadIndex? && m.req == ctx && m.from == from && from != INVALID_ID
    requires ReadsKnown(cfg, run, b)
    ensures Handed(cfg, run, b + 1, Actor(e), n.term, from, ctx)
  {
    hide React, After, Handed, Wanted, QueueKnown, Filed;
    assert e.Deliver? && e.m == ReadIndex(from, Actor(e), 0, ctx);
    assert HandedAt(cfg, run, b, Actor(e), n.term, from, ctx);
    HandedIs(cfg, run, b, Actor(e), n.term, from, ctx);
  }

  lemma HandedIs(cfg: JointConfig, run: seq<Cluster>, b: nat, leader: NodeId, t: nat, from: NodeId, ctx: Ctx)
    requires HandedAt(cfg, run, b, leader, t, from, ctx)
    ensures Handed(cfg, run, b + 1, leader, t, from, ctx)
  {
    hide HandedAt;
  }

  lemma ReplyKnown(cfg: JointConfig, run: seq<Cluster>, b: nat, e: Event, n: Node, m: Message, r: Message)
    requires b + 1 < |run| && Actor(e) in run[b].nodes
             && Next(cfg, run[b], e, run[b + 1]) && n == run[b].nodes[Actor(e)] && n.id == Actor(e)
    requires ReadsKnown(cfg, run, b) && Stepped(n, e) == Some(m) && r.ReadIndexResp? && RepliesTo(n, m, r)
    ensures Handed(cfg, run, b + 1, r.from, r.term, r.to, r.req)
  {
    hide React, After, Handed, Wanted, Next;
    if r.req in n.readOnly.pending && n.readOnly.pending[r.req].from == r.to {
      assert QueueKnown(cfg, run, b, n, Actor(e));
      HandedLater(cfg, run, b, r.from, r.term, r.to, r.req);
    } else {
      HandedNow(cfg, run, b, e, n, m, r.to, r.req);
    }
  }

  lemma RequestKnown(cfg: JointConfig, run: seq<Cluster>, b: nat, e: Event, n: Node, m: Message, r: Message)
    requires b + 1 < |run| && Actor(e) in run[b].nodes
             && Next(cfg, run[b], e, run[b + 1]) && n == run[b].nodes[Actor(e)] && n.id == Actor(e)
    requires n.id != INVALID_ID
    requires ReadsKnown(cfg, run, b) && Stepped(n, e) == Some(m) && r.ReadIndex? && PassesOn(n, m, r)
    ensures r.from != INVALID_ID && Wanted(cfg, run, b + 1, r.from, r.req)
  {
    hide React, After, Handed, QueueKnown;
    if e.Deliver? {
      assert e.m in run[b].net;
      WantedLater(cfg, run, b, r.from, r.req);
    } else {
      assert e == AskRead(n.id, r.req);
    }
  }

  lemma QueueLater(cfg: JointConfig, run: seq<Cluster>, b: nat, n: Node, i: NodeId)
    requires QueueKnown(cfg, run, b, n, i)
    ensures QueueKnown(cfg, run, b + 1, n, i)
  {
    hide Handed;
    forall c <- n.readOnly.pending
      ensures Local(n, n.readOnly.pending[c].from)
              || Handed(cfg, run, b + 1, i, n.term, n.readOnly.pending[c].from, c)
    {
      if !Local(n, n.readOnly.pending[c].from) {
        HandedLater(cfg, run, b, i, n.term, n.readOnly.pending[c].from, c);
      }
    }
  }

  lemma ActorQueue(cfg: JointConfig, run: seq<Cluster>, b: nat, e: Event, n: Node, n': Node)
    requires b + 1 < |run| && Actor(e) in run[b].nodes
             && Next(cfg, run[b], e, run[b + 1]) && n == run[b].nodes[Actor(e)] && n.id == n'.id == Actor(e)
    requires ReadsKnown(cfg, run, b)
    requires match Stepped(n, e)
             case Some(m) => QueuedBy(n, m, n')
             case None => (n'.readOnly == n.readOnly && n'.term == n.term) || n'.readOnly == NoReads()
    ensures Filed(n') && QueueKnown(cfg, run, b + 1, n', Actor(e))
  {
    hide React, After, Handed, Wanted, Next;
    assert Filed(n) && QueueKnown(cfg, run, b, n, Actor(e));
    forall c <- n'.readOnly.pending
      ensures Local(n', n'.readOnly.pending[c].from)
              || Handed(cfg, run, b + 1, Actor(e), n'.term, n'.readOnly.pending[c].from, c)
    {
      var from := n'.readOnly.pending[c].from;
      if !Local(n', from) {
        if c in n.readOnly.pending && from == n.readOnly.pending[c].from {
          HandedLater(cfg, run, b, Actor(e), n.term, from, c);
        } else {
          HandedNow(cfg, run, b, e, n, Stepped(n, e).value, from, c);
        }
      }
    }
  }

  lemma KnownStep(cfg: JointConfig, run: seq<Cluster>, b: nat, e: Event)
    requires b + 1 < |run| && Actor(e) in run[b].nodes && Next(cfg, run[b], e, run[b + 1]) && ReadsKnown(cfg, run, b)
    requires run[b].nodes[Actor(e)].id == Actor(e) != INVALID_ID
    ensures ReadsKnown(cfg, run, b + 1)
  {
    hide React, Handed, Wanted, Filed, QueueKnown, Observe, RecordRead;
    var s, s', i := run[b], run[b + 1], Actor(e);
    var n := s.nodes[i];
    var d := React(cfg, n, e);
    ReactMoves(cfg, n, e);
    ActorQueue(cfg, run, b, e, n, d.node);
    forall j <- s'.nodes
      ensures Filed(s'.nodes[j]) && QueueKnown(cfg, run, b + 1, s'.nodes[j], j)
    {
      if j != i {
        QueueLater(cfg, run, b, s.nodes[j], j);
      }
    }
    forall m <- s'.net
      ensures m.ReadIndexResp? ==> Handed(cfg, run, b + 1, m.from, m.term, m.to, m.req)
      ensures m.ReadIndex? ==> m.term == 0 && m.from != INVALID_ID && Wanted(cfg, run, b + 1, m.from, m.req)
    {
      MessageKnown(cfg, run, b, e, n, d, m);
    }
  }

  lemma MessageKnown(cfg: JointConfig, run: seq<Cluster>, b: nat, e: Event, n: Node, d: Outcome, m: Message)
    requires b + 1 < |run| && Actor(e) in run[b].nodes && Next(cfg, run[b], e, run[b + 1]) && ReadsKnown(cfg, run, b)
    requires n == run[b].nodes[Actor(e)] && n.id == Actor(e) != INVALID_ID && d == React(cfg, n, e) && d.Done?
    requires match Stepped(n, e)
             case Some(x) => ReadsMove(n, x, d)
             case None => NoReadsMove(n, d)
    requires m in run[b].net + d.out
    ensures m.ReadIndexResp? ==> Handed(cfg, run, b + 1, m.from, m.term, m.to, m.req)
    ensures m.ReadIndex? ==> m.term == 0 && m.from != INVALID_ID && Wanted(cfg, run, b + 1, m.from, m.req)
  {
    hide React, Handed, Wanted, Filed, QueueKnown, QueuedBy, Next;
    if m in run[b].net {
      if m.ReadIndexResp? {
        HandedLater(cfg, run, b, m.from, m.term, m.to, m.req);
      } else if m.ReadIndex? {
        WantedLater(cfg, run, b, m.from, m.req);
      }
    } else if m.ReadIndexResp? {
      ReplyKnown(cfg, run, b, e, n, Stepped(n, e).value, m);
    } else if m.ReadIndex? {
      RequestKnown(cfg, run, b, e, n, Stepped(n, e).value, m);
    }
  }

  lemma {:induction false} AlwaysKnown(cfg: JointConfig, run: seq<Cluster>, b: nat)
    requires IsRun(cfg, run) && b < |run|
    ensures ReadsKnown(cfg, run, b)
  {
    hide IsRun, ReadsKnown, Next, Actor;
    if b == 0 {
      FreshKnown(cfg, run);
    } else {
      AlwaysKnown(cfg, run, b - 1);
      var e := EventOf(cfg, run, b - 1);
      IdOfRun(cfg, run, b - 1, Actor(e));
      KnownStep(cfg, run, b - 1, e);
    }
  }

  lemma EventOf(cfg: JointConfig, run: seq<Cluster>, b: nat) returns (e: Event)
    requires IsRun(cfg, run) && b + 1 < |run|
    ensures Next(cfg, run[b], e, run[b + 1]) && Actor(e) in run[b].nodes
  {
    hide Next, Init;
    assert Steps(cfg, run[b], run[b + 1]);
    e :| Next(cfg, run[b], e, run[b + 1]);
    ActorIn(cfg, run[b], e, run[b + 1]);
  }

  lemma ActorIn(cfg: JointConfig, s: Cluster, e: Event, s': Cluster)
    requires Next(cfg, s, e, s')
    ensures Actor(e) in s.nodes
  {
    hide React, After;
  }

  lemma IdOfRun(cfg: JointConfig, run: seq<Cluster>, b: nat, i: NodeId)
    requires IsRun(cfg, run) && At(run, b, i)
    ensures run[b].nodes[i].id == i != INVALID_ID
  {
    hide IsRun;
    RunSafe(cfg, run, b);
    OwnIds(cfg, run[b], i);
  }

  lemma OwnIds(cfg: JointConfig, s: Cluster, i: NodeId)
    requires ClusterInv(cfg, s) && i in s.nodes
    ensures s.nodes[i].id == i != INVALID_ID
  {
  }

  lemma FreshQueue(n: Node, i: NodeId, ids: set<NodeId>)
    requires Fresh(n, i, ids)
    ensures n.readOnly == NoReads()
  {
  }

  lemma FreshKnown(cfg: JointConfig, run: seq<Cluster>)
    requires IsRun(cfg, run)
    ensures ReadsKnown(cfg, run, 0)
  {
    hide Handed, Wanted, Steps, Fresh;
    forall i <- run[0].nodes
      ensures run[0].nodes[i].readOnly == NoReads()
    {
      FreshQueue(run[0].nodes[i], i, run[0].nodes.Keys);
    }
  }

  /**
   In every run a read-index reply goes to a node whose application asked for that read, and answers a request of that
   node that was handed to the leader that replies, in the term of the reply.
   */
  lemma RepliesGoToAskers(cfg: JointConfig, run: seq<Cluster>, b: nat, m: Message) returns (k: nat, a: nat)
    requires IsRun(cfg, run) && b < |run| && m in run[b].net && m.ReadIndexResp?
    ensures a < k < b && HandedAt(cfg, run, k, m.from, m.term, m.to, m.req)
    ensures Next(cfg, run[a], AskRead(m.to, m.req), run[a + 1])
  {
    hide IsRun, HandedAt, QueueKnown, Filed, Wanted, Next;
    AlwaysKnown(cfg, run, b);
    k :| k < b && HandedAt(cfg, run, k, m.from, m.term, m.to, m.req);
    assert k + 1 < |run| && ReadIndex(m.to, m.from, 0, m.req) in run[k].net by {
      HandedOver(cfg, run, k, m.from, m.term, m.to, m.req);
    }
    AlwaysKnown(cfg, run, k);
    a := WhenWanted(cfg, run, k, m.to, m.req);
  }

  lemma HandedOver(cfg: JointConfig, run: seq<Cluster>, k: nat, leader: NodeId, t: nat, from: NodeId, ctx: Ctx)
    requires HandedAt(cfg, run, k, leader, t, from, ctx)
    ensures k + 1 < |run| && ReadIndex(from, leader, 0, ctx) in run[k].net
  {
    hide React, After;
  }

  lemma WhenWanted(cfg: JointConfig, run: seq<Cluster>, b: nat, node: NodeId, ctx: Ctx) returns (a: nat)
    requires Wanted(cfg, run, b, node, ctx)
    ensures a < b && a + 1 < |run| && Next(cfg, run[a], AskRead(node, ctx), run[a + 1])
  {
    hide Next;
    a :| a < b && a + 1 < |run| && Next(cfg, run[a], AskRead(node, ctx), run[a + 1]);
  }
}
