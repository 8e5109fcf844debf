/** Steps of three nodes, for building particular runs of a cluster. */
module ThreeNodes {
  import opened Options
  import opened Quorum
  import opened LogModel
  import opened Numbers
  import opened CommittedIndex
  import opened ProgressModel
  import opened ReadOnlyModel
  import opened RaftNode
  import opened Cluster
  import opened ClusterRuns
  import opened ClusterExample

  const ALL: set<NodeId> := {1, 2, 3}
  const THREE := JointConfig(ALL, {})

  // Two of three ----------------------------------------------------------------------------------

  lemma TwoOfThree(s: set<NodeId>, a: NodeId, b: NodeId)
    requires a in ALL && b in ALL && a != b && a in s && b in s
    ensures IsQuorum(THREE, s)
  {
    SubsetSize({a, b}, ALL * s);
  }

  lemma OneOfThree(s: set<NodeId>, a: NodeId)
    requires ALL * s <= {a}
    ensures !IsQuorum(THREE, s)
  {
    SubsetSize(ALL * s, {a});
  }

  lemma OwnVote(i: NodeId)
    requires i in ALL
    ensures JointVote(THREE, map[i := true]) == Pending
  {
    var votes := map[i := true];
    JointVoteMeaning(THREE, votes);
    OneOfThree(Granted(votes), i);
    TwoOfThree(THREE.Ids() - Quorum.Refused(votes), 1, 2);
  }

  lemma SecondVote(i: NodeId, j: NodeId)
    requires i in ALL && j in ALL && i != j
    ensures JointVote(THREE, map[i := true, j := true]) == Won
  {
    var votes := map[i := true, j := true];
    JointVoteMeaning(THREE, votes);
    TwoOfThree(Granted(votes), i, j);
  }

  /** Two acknowledgements of `k` and none beyond it commit `k`. */
  lemma TwoIndexes(acks: Acks, i: NodeId, j: NodeId, k: nat)
    requires i in ALL && j in ALL && i != j && acks.Keys == ALL && k <= U64_MAX
    requires acks[i].index >= k && acks[j].index >= k && forall v <- acks :: v != i ==> acks[v].index <= k
    ensures JointIndex(THREE, false, acks).0 == k
  {
    TwoOfThree(AtLeast(ALL, acks, k), i, j);
    MajorityIndexLargest(ALL, acks, U64_MAX, k);
    MajorityIndexAcked(ALL, acks, U64_MAX);
    var n := MajorityIndex(ALL, acks);
    if n > k {
      OneOfThree(AtLeast(ALL, acks, n), i);
      assert false;
    }
  }

  // What single nodes do --------------------------------------------------------------------------

  predicate Plain(n: Node, i: NodeId) {
    && n.id == i && i in ALL && n.progress.Keys == ALL && n.priority == 0
    && !n.preVote && !n.checkQuorum && !n.groupCommit
  }

  predicate Follows(n: Node, i: NodeId, term: nat, log: Log, committed: nat) {
    Plain(n, i) && n.role == Follower && n.term == term && n.log == log && n.committed == committed
  }

  /** A follower whose whole log is known to be persisted. */
  predicate IsFollower(n: Node, i: NodeId, term: nat, log: Log, committed: nat) {
    Follows(n, i, term, log, committed) && n.persisted == |log|
  }

  predicate IsLeader(n: Node, i: NodeId, term: nat, log: Log, committed: nat) {
    Plain(n, i) && n.role == Leader && n.term == term && n.log == log && n.committed == committed
  }

  /** Nothing was sent to `j` since the leader appended its first entry. */
  predicate Untouched(n: Node, j: NodeId) {
    j in n.progress && n.progress[j].state == Probe && !n.progress[j].paused && n.progress[j].matched == 0
    && n.progress[j].nextIdx == |n.log|
  }

  predicate OwnMatch(n: Node, k: nat) {
    n.id in n.progress && n.progress[n.id].matched == k == n.persisted
  }

  function VoteAsk(i: NodeId, j: NodeId, term: nat, log: Log, committed: nat): Message {
    RequestVote(i, j, term, false, |log|, LastTerm(log), committed, TermAt(log, committed), 0)
  }

  predicate Asking(n: Node, i: NodeId, term: nat, log: Log, committed: nat) {
    && Plain(n, i) && n.role == Candidate && n.term == term && n.log == log && n.committed == committed
    && n.votes == map[i := true]
  }

  lemma Campaigning(n: Node, i: NodeId, j: NodeId, term: nat, log: Log, committed: nat)
    requires Follows(n, i, term, log, committed) && j in ALL && j != i
    ensures var d := Hup(THREE, n, true);
            && d.Done? && Asking(d.node, i, term + 1, log, committed)
            && VoteAsk(i, j, term + 1, log, committed) in d.out
            && d.node.readStates == n.readStates && d.node.persisted == n.persisted
  {
    hide JointVote;
    OwnVote(i);
    var r := RecordVote(BecomeCandidate(n), i, true);
    assert r.votes == map[i := true] && r.progress.Keys == ALL;
    assert j in THREE.Ids();
  }

  lemma Granting(n: Node, j: NodeId, term: nat, log: Log, committed: nat, m: Message)
    requires IsFollower(n, j, term, log, committed) && m.RequestVote? && !m.pre && m.term > term && m.priority == 0
    requires UpToDate(log, m.index, m.logTerm)
    ensures Step(THREE, n, m).Done? && IsFollower(Step(THREE, n, m).node, j, m.term, log, committed)
    ensures VoteResp(j, m.from, m.term, false, false, 0, 0) in Step(THREE, n, m).out
  {
    var r := BecomeFollower(n, m.term, INVALID_ID);
    assert r.progress.Keys == ALL;
    assert Grants(r, m);
  }

  function Headed(log: Log, term: nat): Log {
    log + [Entry(term, |log| + 1, 0)]
  }

  lemma Winning(n: Node, i: NodeId, j: NodeId, term: nat, log: Log, committed: nat)
    requires Asking(n, i, term, log, committed) && j in ALL && i != j && term > 0 && n.persisted == |log|
    ensures var d := Step(THREE, n, VoteResp(j, i, term, false, false, 0, 0));
            && d.Done? && IsLeader(d.node, i, term, Headed(log, term), committed) && OwnMatch(d.node, |log|)
            && (forall v <- ALL :: v != i ==> Untouched(d.node, v)) && d.node.readOnly == NoReads()
            && d.node.readStates == n.readStates
  {
    hide JointVote;
    SecondVote(i, j);
    var r := RecordVote(n, j, true);
    assert r.votes == map[i := true, j := true];
    assert NewEntries(term, |log|, [0]) == [Entry(term, |log| + 1, 0)];
    assert AsLeader(r).progress.Keys == ALL;
  }

  lemma NoNews(n: Node, i: NodeId, j: NodeId)
    requires Plain(n, i) && j in ALL && i != j && forall v <- ALL :: v != i ==> n.progress[v].matched == 0
    ensures MaybeCommit(THREE, n) == Done(n, {})
  {
    hide JointIndex;
    var acks := MatchedIndexes(n);
    TwoIndexes(acks, i, j, 0);
  }

  lemma Persisting(n: Node, i: NodeId, term: nat, log: Log, committed: nat)
    requires IsLeader(n, i, term, log, committed) && log != [] && OwnMatch(n, |log| - 1)
    requires forall v <- ALL :: v != i ==> Untouched(n, v)
    ensures var d := Persisted(THREE, n, |log|, log[|log| - 1].term);
            && d.Done? && IsLeader(d.node, i, term, log, committed) && OwnMatch(d.node, |log|)
            && (forall v <- ALL :: v != i ==> Untouched(d.node, v)) && d.node.readOnly == n.readOnly
            && d.node.readStates == n.readStates
  {
    hide MaybeCommit;
    var (p, news) := n.progress[i].MaybeUpdate(|log|);
    var j: NodeId :| j in ALL && j != i by {
      assert (if i == 1 then 2 else 1) in ALL;
    }
    NoNews(SetProgress(n, i, p).(persisted := |log|), i, j);
  }

  /** The append that brings the entries from `from` on. */
  function Tail(i: NodeId, j: NodeId, term: nat, log: Log, committed: nat): Message
    requires log != []
  {
    AppendMsg(i, j, term, |log| - 1, TermAt(log, |log| - 1), log[|log| - 1..], committed)
  }

  /** Only peer `j` was paused. */
  predicate SameBut(n: Node, n': Node, j: NodeId) {
    && j in n.progress && n'.progress == n.progress[j := n.progress[j].Pause()]
    && n'.readOnly == n.readOnly && n'.readStates == n.readStates && n'.id == n.id && n'.log == n.log
    && n'.persisted == n.persisted
  }

  lemma Appending(n: Node, i: NodeId, j: NodeId, term: nat, log: Log, committed: nat)
    requires IsLeader(n, i, term, log, committed) && log != [] && j in ALL && i != j && Untouched(n, j)
    ensures var d := SendAppend(n, j, true, 1);
            && d.Done? && IsLeader(d.node, i, term, log, committed) && Tail(i, j, term, log, committed) in d.out
            && SameBut(n, d.node, j)
  {
    var due := log[|log| - 1..];
    assert due[..1] == due;
  }

  function Reply(i: NodeId, j: NodeId, term: nat, last: nat, committed: nat): Message {
    AppendResp(j, i, term, last, false, 0, 0, committed)
  }

  lemma TailTo(i: NodeId, j: NodeId, term: nat, log: Log, committed: nat)
    requires log != []
    ensures Tail(i, j, term, log, committed).AppendMsg? && Tail(i, j, term, log, committed).to == j
  {
  }

  lemma TailStored(log: Log, commit: nat, committed: nat)
    requires log != [] && log[|log| - 1].index == |log| && log[|log| - 1].term > 0 && commit <= |log| - 1
    ensures var c := Min(committed, |log|);
            MaybeAppend(log[..|log| - 1], commit, |log| - 1, TermAt(log, |log| - 1), committed, log[|log| - 1..])
            == Stored(log, if c > commit then c else commit, |log|, |log|)
  {
    var most, last := log[..|log| - 1], log[|log| - 1..];
    assert FindConflict(most, last) == |log|;
    assert most[..|log| - 1] == most && last[0..] == last && most + last == log;
  }

  lemma Accepting(n: Node, i: NodeId, j: NodeId, was: nat, term: nat, log: Log, commit: nat, committed: nat)
    requires log != [] && log[|log| - 1].index == |log| && log[|log| - 1].term > 0
    requires IsFollower(n, j, was, log[..|log| - 1], commit) && commit <= |log| - 1 && was <= term && term > 0
    ensures var d := Step(THREE, n, Tail(i, j, term, log, committed));
            var c := if Min(committed, |log|) > commit then Min(committed, |log|) else commit;
            && d.Done? && Follows(d.node, j, term, log, c) && Reply(i, j, term, |log|, c) in d.out
            && d.node.leaderId == i && d.node.persisted < |log|
  {
    hide MaybeAppend, TermAt;
    var r := if was < term then BecomeFollower(n, term, i) else n;
    assert r.progress.Keys == ALL;
    TailStored(log, commit, committed);
  }

  /** A follower is told that its log is on disk. */
  lemma Noticing(n: Node, j: NodeId, term: nat, log: Log, committed: nat)
    requires Follows(n, j, term, log, committed) && n.persisted < |log|
    ensures var d := Persisted(THREE, n, |log|, log[|log| - 1].term);
            d.Done? && IsFollower(d.node, j, term, log, committed) && d.node.leaderId == n.leaderId
  {
  }

  /** Only the answer of `j` is due; leader `i` itself has everything up to `k`. */
  predicate Waiting(n: Node, i: NodeId, j: NodeId, k: nat) {
    && j in n.progress && n.progress[j].matched == 0 && n.progress[j].state == Probe && OwnMatch(n, k) && n.id == i
    && forall v <- ALL :: v != i && v != j ==> Untouched(n, v)
  }

  predicate Matches(n: Node, j: NodeId, k: nat) {
    j in n.progress && n.progress[j].matched == k
  }

  lemma SentTo(n: Node, n': Node, i: NodeId, j: NodeId)
    requires SameBut(n, n', j) && OwnMatch(n, |n.log|) && n.id == i && i != j
    requires forall v <- ALL :: v != i ==> Untouched(n, v)
    requires j in ALL
    ensures Waiting(n', i, j, |n.log|)
  {
  }

  lemma Counting(n: Node, i: NodeId, j: NodeId, term: nat, log: Log, committed: nat, c: nat)
    requires IsLeader(n, i, term, log, committed) && j in ALL && i != j && 0 < |log| <= U64_MAX
    requires committed < |log| && TermAt(log, |log|) == term > 0 && Waiting(n, i, j, |log|)
    ensures var d := Step(THREE, n, Reply(i, j, term, |log|, c));
            && d.Done? && IsLeader(d.node, i, term, log, |log|) && d.node.readOnly == n.readOnly
            && d.node.readStates == n.readStates && Matches(d.node, j, |log|)
            && forall v <- ALL :: v != i && v != j ==> Untouched(d.node, v)
  {
    hide JointIndex;
    var pr := n.progress[j].(recentActive := true).UpdateCommitted(c);
    var (p, news) := pr.MaybeUpdate(|log|);
    var r := SetProgress(n, j, AfterUpdate(p, |log|));
    assert r.progress.Keys == ALL && r.progress[j].matched == |log|;
    TwoIndexes(MatchedIndexes(r), i, j, |log|);
  }

  lemma Queueing(n: Node, i: NodeId, from: NodeId, to: NodeId, term: nat, log: Log, committed: nat, ctx: Ctx)
    requires IsLeader(n, i, term, log, committed) && TermAt(log, committed) == term
    ensures Step(THREE, n, ReadIndex(from, to, 0, ctx))
            == Done(n.(readOnly := n.readOnly.AddRequest(committed, ctx, from, i)), {})
  {
    assert |ALL| == 3;
  }

  lemma Relaying(n: Node, i: NodeId, j: NodeId, term: nat, log: Log, committed: nat, ctx: Ctx)
    requires IsFollower(n, j, term, log, committed) && n.leaderId == i != INVALID_ID
    ensures Step(THREE, n, ReadIndex(INVALID_ID, n.id, 0, ctx)) == Done(n, {ReadIndex(j, i, 0, ctx)})
  {
  }

  lemma Beating(n: Node, i: NodeId, j: NodeId, term: nat, log: Log, committed: nat, ctx: Ctx)
    requires IsLeader(n, i, term, log, committed) && j in ALL && i != j && ctx in n.readOnly.queue
    ensures SendHeartbeat(n, j, Some(ctx))
            == Done(n, {Heartbeat(i, j, term, Min(n.progress[j].matched, committed), Some(ctx))})
  {
  }

  lemma Echoing(n: Node, i: NodeId, j: NodeId, term: nat, log: Log, committed: nat, commit: nat, ctx: Ctx)
    requires IsFollower(n, j, term, log, committed) && commit <= |log| && term > 0
    ensures var d := Step(THREE, n, Heartbeat(i, j, term, commit, Some(ctx)));
            && d.Done? && IsFollower(d.node, j, term, log, Max(commit, committed))
            && HeartbeatResp(j, i, term, Max(commit, committed), Some(ctx)) in d.out
  {
  }

  /** The second acknowledgement of `ctx` releases everything queued up to it. */
  lemma Releasing(n: Node, i: NodeId, j: NodeId, term: nat, log: Log, committed: nat, ctx: Ctx, c: nat)
    requires IsLeader(n, i, term, log, committed) && j in ALL && i != j && term > 0
    requires n.readOnly.Valid() && ctx in n.readOnly.pending && i in n.readOnly.pending[ctx].acks
    ensures var d := Step(THREE, n, HeartbeatResp(j, i, term, c, Some(ctx)));
            var ro := n.readOnly.RecvAck(j, ctx);
            && d.Done? && ro.Valid() && IsLeader(d.node, i, term, log, committed) && d.node.readOnly == ro.Advance(ctx)
            && d.node.readStates == n.readStates + LocalReads(n, ro.Released(ctx))
  {
    hide ReadOnly.Advance, ReadOnly.Released, ReadOnly.Valid;
    var ro := n.readOnly.RecvAck(j, ctx);
    n.readOnly.RecvAckValid(j, ctx);
    TwoOfThree(ro.pending[ctx].acks, i, j);
    var pr := n.progress[j].UpdateCommitted(c).(recentActive := true).Resume();
    var pr' := if pr.state == Replicate && pr.ins.Full() then pr.(ins := pr.ins.FreeFirstOne()) else pr;
    SameLocal(n, SetProgress(n, j, pr').(readOnly := ro.Advance(ctx)), ro.Released(ctx));
  }

  lemma {:induction false} SameLocal(n: Node, n': Node, sts: seq<ReadStatus>)
    requires n.id == n'.id
    ensures LocalReads(n, sts) == LocalReads(n', sts)
  {
    if sts != [] {
      SameLocal(n, n', sts[1..]);
    }
  }

  // Runs ------------------------------------------------------------------------------------------

  ghost function Last(run: seq<Cluster>): Cluster
    requires run != []
  {
    run[|run| - 1]
  }

  /** Request `c` has not reached a leader yet. */
  ghost predicate Unasked(s: Cluster, c: Ctx) {
    forall t: nat :: (c, t) !in s.asked.at
  }

  ghost predicate Going(run: seq<Cluster>) {
    run != [] && IsRun(THREE, run) && Last(run).nodes.Keys == ALL
  }

  predicate Brings(e: Event, c: Ctx) {
    (e.AskRead? && e.ctx == c) || (e.Deliver? && e.m.ReadIndex? && e.m.req == c)
  }

  /** No further request was made on the way from `s` to `s'`. */
  ghost predicate Quiet(s: Cluster, s': Cluster) {
    forall c: Ctx :: Unasked(s, c) ==> Unasked(s', c)
  }

  lemma Go(run: seq<Cluster>, e: Event) returns (run': seq<Cluster>)
    requires Going(run) && Enabled(THREE, Last(run), e) && React(THREE, Last(run).nodes[Actor(e)], e).Done?
    ensures Going(run') && |run'| == |run| + 1 && run <= run'
    ensures var d := React(THREE, Last(run).nodes[Actor(e)], e);
            Last(run').nodes == Last(run).nodes[Actor(e) := d.node] && Last(run').net == Last(run).net + d.out
    ensures forall c: Ctx :: Unasked(Last(run), c) && !Brings(e, c) ==> Unasked(Last(run'), c)
  {
    hide React, Observe, Init;
    var s := Last(run);
    var d := React(THREE, s.nodes[Actor(e)], e);
    var s' := After(THREE, s, e, d.node, d.out);
    assert Next(THREE, s, e, s');
    run' := run + [s'];
    assert run'[|run| - 1] == s;
    assert forall k :: 0 <= k < |run'| - 1 ==> Steps(THREE, run'[k], run'[k + 1]);
  }

  lemma FreshFollower(i: NodeId)
    requires i in ALL
    ensures IsFollower(FreshNode(i, ALL), i, 0, [], 0)
  {
    assert FreshNode(i, ALL).progress.Keys == ALL;
  }

  lemma FreshFollows()
    ensures FreshCluster(ALL).nodes.Keys == ALL
    ensures forall i <- ALL :: IsFollower(FreshCluster(ALL).nodes[i], i, 0, [], 0)
  {
    hide IsFollower, FreshNode;
    forall i <- ALL
      ensures IsFollower(FreshCluster(ALL).nodes[i], i, 0, [], 0)
    {
      FreshFollower(i);
    }
  }

  lemma NobodyAsked(run: seq<Cluster>)
    requires run == [FreshCluster(ALL)]
    ensures forall c: Ctx :: Unasked(Last(run), c)
  {
  }

  lemma Beginning() returns (run: seq<Cluster>)
    ensures Going(run) && forall i <- ALL :: IsFollower(Last(run).nodes[i], i, 0, [], 0)
    ensures forall c: Ctx :: Unasked(Last(run), c)
  {
    hide IsFollower, FreshNode, FreshCluster, IsRun, Unasked;
    FreshRuns(THREE, ALL);
    run := [FreshCluster(ALL)];
    NobodyAsked(run);
    FreshFollows();
  }

  /** Node `i` is elected with the vote of `j`. */
  lemma Elect(run: seq<Cluster>, i: NodeId, j: NodeId, term: nat, was: nat, log: Log, committed: nat, commit: nat)
    returns (run': seq<Cluster>)
    requires Going(run) && i in ALL && j in ALL && i != j && was <= term
    requires IsFollower(Last(run).nodes[i], i, term, log, committed)
    requires IsFollower(Last(run).nodes[j], j, was, log, commit)
    ensures Going(run') && run <= run' && Quiet(Last(run), Last(run')) && Last(run).net <= Last(run').net
    ensures var n := Last(run').nodes[i];
            && IsLeader(n, i, term + 1, Headed(log, term + 1), committed) && OwnMatch(n, |log|)
            && (forall v <- ALL :: v != i ==> Untouched(n, v)) && n.readOnly == NoReads()
    ensures IsFollower(Last(run').nodes[j], j, term + 1, log, commit)
    ensures forall v <- ALL :: v != i && v != j ==> Last(run').nodes[v] == Last(run).nodes[v]
  {
    hide IsRun, Step, Hup, Follows, IsLeader, Asking, Unasked, Untouched, OwnMatch;
    Campaigning(Last(run).nodes[i], i, j, term, log, committed);
    var r1 := Go(run, Campaigns(i, true));
    var ask := VoteAsk(i, j, term + 1, log, committed);
    Granting(Last(r1).nodes[j], j, was, log, commit, ask);
    var r2 := Go(r1, Event.Deliver(ask));
    Winning(Last(r2).nodes[i], i, j, term + 1, log, committed);
    run' := Go(r2, Event.Deliver(VoteResp(j, i, term + 1, false, false, 0, 0)));
  }

  /** Leader `i` sends its last entry to `j`, which stores it. */
  lemma SendTail(run: seq<Cluster>, i: NodeId, j: NodeId, term: nat, was: nat, log: Log, committed: nat, commit: nat)
    returns (run': seq<Cluster>)
    requires Going(run) && i in ALL && j in ALL && i != j && was <= term && term > 0
    requires log != [] && log[|log| - 1].index == |log| && log[|log| - 1].term > 0 && commit <= |log| - 1
    requires IsLeader(Last(run).nodes[i], i, term, log, committed) && Untouched(Last(run).nodes[i], j)
    requires IsFollower(Last(run).nodes[j], j, was, log[..|log| - 1], commit)
    ensures Going(run') && run <= run' && Quiet(Last(run), Last(run')) && Last(run).net <= Last(run').net
    ensures IsLeader(Last(run').nodes[i], i, term, log, committed)
    ensures SameBut(Last(run).nodes[i], Last(run').nodes[i], j)
    ensures var c := if Min(committed, |log|) > commit then Min(committed, |log|) else commit;
            && IsFollower(Last(run').nodes[j], j, term, log, c) && Reply(i, j, term, |log|, c) in Last(run').net
            && Last(run').nodes[j].leaderId == i
    ensures forall v <- ALL :: v != i && v != j ==> Last(run').nodes[v] == Last(run).nodes[v]
  {
    hide IsRun, Step, SendAppend, IsFollower, Follows, IsLeader, Unasked, Untouched, Tail, Reply, SameBut, Persisted;
    Appending(Last(run).nodes[i], i, j, term, log, committed);
    var r1 := Go(run, SendsAppend(i, j, true, 1));
    Accepting(Last(r1).nodes[j], i, j, was, term, log, commit, committed);
    TailTo(i, j, term, log, committed);
    var r2 := Go(r1, Event.Deliver(Tail(i, j, term, log, committed)));
    var c := if Min(committed, |log|) > commit then Min(committed, |log|) else commit;
    Noticing(Last(r2).nodes[j], j, term, log, c);
    run' := Go(r2, Persists(j, |log|, log[|log| - 1].term));
  }

  lemma LeaderParts(n: Node, i: NodeId, term: nat, log: Log, committed: nat)
    requires IsLeader(n, i, term, log, committed)
    ensures n.id == i && n.log == log && n.progress.Keys == ALL
  {
  }

  lemma PausedParts(n: Node, n': Node, j: NodeId)
    requires SameBut(n, n', j)
    ensures n'.readOnly == n.readOnly && n'.readStates == n.readStates
  {
  }

  /** Leader `i`, just elected, commits its first entry with the help of `j`. */
  lemma Commit(run: seq<Cluster>, i: NodeId, j: NodeId, term: nat, was: nat, log: Log, committed: nat, commit: nat)
    returns (run': seq<Cluster>)
    requires Going(run) && i in ALL && j in ALL && i != j && was <= term && term > 0
    requires 0 < |log| <= U64_MAX && log[|log| - 1].index == |log| && log[|log| - 1].term == term
    requires commit < |log| && committed < |log|
    requires IsLeader(Last(run).nodes[i], i, term, log, committed) && OwnMatch(Last(run).nodes[i], |log| - 1)
    requires forall v <- ALL :: v != i ==> Untouched(Last(run).nodes[i], v)
    requires IsFollower(Last(run).nodes[j], j, was, log[..|log| - 1], commit)
    ensures Going(run') && run <= run' && Quiet(Last(run), Last(run')) && Last(run).net <= Last(run').net
    ensures var n := Last(run').nodes[i];
            && IsLeader(n, i, term, log, |log|) && n.readOnly == Last(run).nodes[i].readOnly
            && (forall v <- ALL :: v != i && v != j ==> Untouched(n, v)) && Matches(n, j, |log|)
            && n.readStates == Last(run).nodes[i].readStates
    ensures var c := if committed > commit then committed else commit;
            IsFollower(Last(run').nodes[j], j, term, log, c) && Last(run').nodes[j].leaderId == i
    ensures forall v <- ALL :: v != i && v != j ==> Last(run').nodes[v] == Last(run).nodes[v]
  {
    hide IsRun, Step, Persisted, IsFollower, IsLeader, Unasked, Untouched, OwnMatch, SameBut;
    Persisting(Last(run).nodes[i], i, term, log, committed);
    var r1 := Go(run, Persists(i, |log|, log[|log| - 1].term));
    var r2 := SendTail(r1, i, j, term, was, log, committed, commit);
    var c := if committed > commit then committed else commit;
    LeaderParts(Last(r1).nodes[i], i, term, log, committed);
    SentTo(Last(r1).nodes[i], Last(r2).nodes[i], i, j);
    PausedParts(Last(r1).nodes[i], Last(r2).nodes[i], j);
    Counting(Last(r2).nodes[i], i, j, term, log, committed, c);
    run' := Go(r2, Event.Deliver(Reply(i, j, term, |log|, c)));
  }
}
