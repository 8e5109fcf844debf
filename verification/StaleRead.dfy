/**
 A read that is not linearizable: a request delivered twice to the same leader lets a late heartbeat response release
 another request, which had come in between.
 */
module StaleRead {
  import opened Options
  import opened Quorum
  import opened LogModel
  import opened Numbers
  import opened ReadOnlyModel
  import opened RaftNode
  import opened Cluster
  import opened ClusterRuns
  import opened ClusterTheorems
  import opened ThreeNodes

  const FIRST: Ctx := 7
  const SECOND: Ctx := 8

  // The run ---------------------------------------------------------------------------------------

  const ONE: Log := [Entry(1, 1, 0)]
  const TWO: Log := [Entry(1, 1, 0), Entry(2, 2, 0)]

  function RELAYED(): Message {
    ReadIndex(2, 1, 0, FIRST)
  }

  function LATE(): Message {
    HeartbeatResp(3, 1, 1, 1, Some(FIRST))
  }

  /** Node 1 leads term 1, and its first entry is committed and everywhere. */
  lemma Opening() returns (run: seq<Cluster>)
    ensures Going(run) && Unasked(Last(run), SECOND)
    ensures IsLeader(Last(run).nodes[1], 1, 1, ONE, 1) && Last(run).nodes[1].readOnly == NoReads()
    ensures Matches(Last(run).nodes[1], 2, 1) && Matches(Last(run).nodes[1], 3, 0)
    ensures IsFollower(Last(run).nodes[2], 2, 1, ONE, 0) && Last(run).nodes[2].leaderId == 1
    ensures IsFollower(Last(run).nodes[3], 3, 1, ONE, 1)
  {
    hide IsRun, Unasked, IsFollower, IsLeader, OwnMatch, SameBut;
    var r0 := Beginning();
    assert Headed([], 1) == ONE && ONE[..0] == [];
    var r1 := Elect(r0, 1, 2, 0, 0, [], 0, 0);
    var r2 := Commit(r1, 1, 2, 1, 1, ONE, 0, 0);
    run := SendTail(r2, 1, 3, 1, 0, ONE, 1, 0);
    PausedMatches(Last(r2).nodes[1], Last(run).nodes[1]);
  }

  lemma PausedMatches(n: Node, n': Node)
    requires SameBut(n, n', 3) && Matches(n, 2, 1) && Untouched(n, 3)
    ensures Matches(n', 2, 1) && Matches(n', 3, 0) && n'.readOnly == n.readOnly
  {
  }

  /** The first request is relayed and taken. */
  lemma Taken(run: seq<Cluster>) returns (run': seq<Cluster>)
    requires Going(run) && Unasked(Last(run), SECOND)
    requires IsLeader(Last(run).nodes[1], 1, 1, ONE, 1) && Last(run).nodes[1].readOnly == NoReads()
    requires IsFollower(Last(run).nodes[2], 2, 1, ONE, 0) && Last(run).nodes[2].leaderId == 1
    ensures Going(run') && Unasked(Last(run'), SECOND) && RELAYED() in Last(run').net
    ensures IsLeader(Last(run').nodes[1], 1, 1, ONE, 1)
    ensures Last(run').nodes[1] == Last(run).nodes[1].(readOnly := NoReads().AddRequest(1, FIRST, 2, 1))
    ensures Last(run').nodes[2] == Last(run).nodes[2] && Last(run').nodes[3] == Last(run).nodes[3]
  {
    hide IsRun, Step, Unasked, IsFollower;
    Relaying(Last(run).nodes[2], 1, 2, 1, ONE, 0, FIRST);
    var r1 := Go(run, AskRead(2, FIRST));
    Queueing(Last(r1).nodes[1], 1, 2, 1, 1, ONE, 1, FIRST);
    run' := Go(r1, Event.Deliver(RELAYED()));
  }

  /** Its heartbeats go out and are answered. */
  lemma Beat(run: seq<Cluster>, j: NodeId, commit: nat, committed: nat) returns (run': seq<Cluster>)
    requires Going(run) && Unasked(Last(run), SECOND) && j in ALL && j != 1 && commit <= 1
    requires IsLeader(Last(run).nodes[1], 1, 1, ONE, 1) && FIRST in Last(run).nodes[1].readOnly.queue
    requires Matches(Last(run).nodes[1], j, commit) && IsFollower(Last(run).nodes[j], j, 1, ONE, committed)
    ensures Going(run') && Unasked(Last(run'), SECOND) && Last(run).net <= Last(run').net
    ensures HeartbeatResp(j, 1, 1, Max(commit, committed), Some(FIRST)) in Last(run').net
    ensures IsFollower(Last(run').nodes[j], j, 1, ONE, Max(commit, committed))
    ensures forall v <- ALL :: v != j ==> Last(run').nodes[v] == Last(run).nodes[v]
  {
    hide IsRun, Step, SendHeartbeat, Unasked, IsFollower, IsLeader;
    LeaderParts(Last(run).nodes[1], 1, 1, ONE, 1);
    Beating(Last(run).nodes[1], 1, j, 1, ONE, 1, FIRST);
    var r1 := Go(run, SendsHeartbeat(1, j, Some(FIRST)));
    Echoing(Last(r1).nodes[j], 1, j, 1, ONE, committed, commit, FIRST);
    run' := Go(r1, Event.Deliver(Heartbeat(1, j, 1, commit, Some(FIRST))));
  }

  lemma OneQueued(ro: ReadOnly)
    requires ro == NoReads().AddRequest(1, FIRST, 2, 1)
    ensures ro.Valid() && FIRST in ro.queue && FIRST in ro.pending && 1 in ro.pending[FIRST].acks
    ensures ro.RecvAck(2, FIRST).Advance(FIRST) == NoReads()
  {
    assert ro.queue == [FIRST];
    var r := ro.RecvAck(2, FIRST);
    assert r.pending - (set i | 0 <= i <= 0 :: r.queue[i]) == map[] by {
      assert r.queue[0] == FIRST;
    }
  }

  /** The first request is released; its message and node 3's answer stay in the network. */
  lemma Releases(run: seq<Cluster>) returns (run': seq<Cluster>)
    requires Going(run) && Unasked(Last(run), SECOND) && RELAYED() in Last(run).net
    requires IsLeader(Last(run).nodes[1], 1, 1, ONE, 1)
    requires Last(run).nodes[1].readOnly == NoReads().AddRequest(1, FIRST, 2, 1)
    requires Matches(Last(run).nodes[1], 2, 1) && Matches(Last(run).nodes[1], 3, 0)
    requires IsFollower(Last(run).nodes[2], 2, 1, ONE, 0) && IsFollower(Last(run).nodes[3], 3, 1, ONE, 1)
    ensures Going(run') && Unasked(Last(run'), SECOND) && RELAYED() in Last(run').net && LATE() in Last(run').net
    ensures IsLeader(Last(run').nodes[1], 1, 1, ONE, 1) && Last(run').nodes[1].readOnly == NoReads()
    ensures IsFollower(Last(run').nodes[2], 2, 1, ONE, 1) && IsFollower(Last(run').nodes[3], 3, 1, ONE, 1)
  {
    hide IsRun, Step, Unasked, IsFollower, IsLeader, Matches, ReadOnly.Valid, ReadOnly.AddRequest, ReadOnly.RecvAck,
         ReadOnly.Advance, ReadOnly.Released, LocalReads;
    OneQueued(Last(run).nodes[1].readOnly);
    var r1 := Beat(run, 2, 1, 0);
    var r2 := Beat(r1, 3, 0, 1);
    Releasing(Last(r2).nodes[1], 1, 2, 1, ONE, 1, FIRST, 1);
    run' := Go(r2, Event.Deliver(HeartbeatResp(2, 1, 1, 1, Some(FIRST))));
  }

  /** Node 2 leads term 2 and commits a second entry, which node 1 does not learn. */
  lemma Overtaken(run: seq<Cluster>) returns (run': seq<Cluster>)
    requires Going(run) && Unasked(Last(run), SECOND)
    requires IsFollower(Last(run).nodes[2], 2, 1, ONE, 1) && IsFollower(Last(run).nodes[3], 3, 1, ONE, 1)
    ensures Going(run') && Unasked(Last(run'), SECOND) && Last(run).net <= Last(run').net
    ensures IsLeader(Last(run').nodes[2], 2, 2, TWO, 2) && Last(run').nodes[1] == Last(run).nodes[1]
  {
    hide IsRun, Unasked, IsFollower, IsLeader, OwnMatch;
    assert Headed(ONE, 2) == TWO && TWO[..1] == ONE;
    var r1 := Elect(run, 2, 3, 1, 1, ONE, 1, 1);
    run' := Commit(r1, 2, 3, 2, 2, TWO, 1, 1);
  }

  function BothQueued(): ReadOnly {
    NoReads().AddRequest(1, SECOND, INVALID_ID, 1).AddRequest(1, FIRST, 2, 1)
  }

  lemma BothWaiting()
    ensures BothQueued().queue == [SECOND, FIRST]
    ensures BothQueued().pending
            == map[SECOND := ReadStatus(SECOND, INVALID_ID, 1, {1}), FIRST := ReadStatus(FIRST, 2, 1, {1})]
  {
  }

  lemma BothReleased(n: Node)
    requires n.id == 1
    ensures BothQueued().Valid() && FIRST in BothQueued().pending && 1 in BothQueued().pending[FIRST].acks
    ensures var ro := BothQueued().RecvAck(3, FIRST);
            ro.Valid() && LocalReads(n, ro.Released(FIRST)) == [ReadState(1, SECOND)]
  {
    BothWaiting();
    hide BothQueued, LocalReads;
    assert BothQueued().Valid();
    BothQueued().RecvAckValid(3, FIRST);
    hide ReadOnly.Valid;
    var ro := BothQueued().RecvAck(3, FIRST);
    ReleasedPair(ro);
    FirstIsLocal(n, ro.pending[SECOND], ro.pending[FIRST]);
  }

  lemma ReleasedPair(ro: ReadOnly)
    requires ro.Valid() && ro.queue == [SECOND, FIRST] && SECOND in ro.pending && FIRST in ro.pending
    ensures ro.Released(FIRST) == [ro.pending[SECOND], ro.pending[FIRST]]
  {
    assert ro.queue[0] != FIRST && ro.queue[1] == FIRST;
    assert Position(ro.queue[1..], FIRST) == 0;
  }

  lemma FirstIsLocal(n: Node, a: ReadStatus, b: ReadStatus)
    requires n.id == 1 && a.from == INVALID_ID && b.from == 2
    ensures LocalReads(n, [a, b]) == [ReadState(a.index, a.ctx)]
  {
    assert [a, b][1..] == [b] && [b][1..] == [];
    assert LocalReads(n, [b]) == [];
  }

  /** The old leader takes the second request, then the first one again, and node 3's late answer releases both. */
  lemma Stale(run: seq<Cluster>) returns (run': seq<Cluster>)
    requires Going(run) && RELAYED() in Last(run).net && LATE() in Last(run).net
    requires IsLeader(Last(run).nodes[1], 1, 1, ONE, 1) && Last(run).nodes[1].readOnly == NoReads()
    ensures Going(run') && run <= run' && |run'| == |run| + 3
    ensures ReadState(1, SECOND) in Last(run').nodes[1].readStates
  {
    hide IsRun, Step, ReadOnly.Valid, ReadOnly.RecvAck, ReadOnly.Advance, ReadOnly.Released, ReadOnly.AddRequest,
         LocalReads;
    Queueing(Last(run).nodes[1], 1, INVALID_ID, 1, 1, ONE, 1, SECOND);
    var r1 := Go(run, AskRead(1, SECOND));
    Queueing(Last(r1).nodes[1], 1, 2, 1, 1, ONE, 1, FIRST);
    var r2 := Go(r1, Event.Deliver(RELAYED()));
    BothReleased(Last(r2).nodes[1]);
    Releasing(Last(r2).nodes[1], 1, 3, 1, ONE, 1, FIRST, 1);
    run' := Go(r2, Event.Deliver(LATE()));
    assert ReadState(1, SECOND) in [ReadState(1, SECOND)];
  }

  /**
   Without the condition that no context reaches the leader of one term twice, `ReadsAreLinearizable` fails: here the
   answer to the second request, which is made once, covers nothing that was committed by the time it was made.
   */
  lemma DuplicatesBreakReads() returns (run: seq<Cluster>, b: nat, r: ReadState)
    ensures IsRun(THREE, run) && At(run, b, 1) && r in run[b].nodes[1].readStates
    ensures !exists k, t :: 0 <= k < b && Reaches(THREE, run, k, r.ctx, t) && Covers(run, k, r.index)
  {
    hide IsRun, IsFollower, IsLeader, Reaches, Covers;
    var r1 := Opening();
    var r2 := Taken(r1);
    var r3 := Releases(r2);
    var r4 := Overtaken(r3);
    run := Stale(r4);
    b, r := |run| - 1, ReadState(1, SECOND);
    forall k: nat, t: nat | k < b && Reaches(THREE, run, k, SECOND, t)
      ensures !Covers(run, k, 1)
    {
      NotCovered(run, |r4| - 1, k, t);
    }
  }

  lemma NotCovered(run: seq<Cluster>, a: nat, k: nat, t: nat)
    requires IsRun(THREE, run) && a < |run| && Unasked(run[a], SECOND) && run[a].nodes.Keys == ALL
    requires IsLeader(run[a].nodes[2], 2, 2, TWO, 2) && Reaches(THREE, run, k, SECOND, t)
    ensures !Covers(run, k, 1)
  {
    hide IsRun, Reaches;
    ReachesRecords(THREE, run, k, SECOND, t);
    if k + 1 <= a {
      RunAhead(THREE, run, k + 1, a);
      AheadAsked(run[k + 1], run[a], SECOND, t);
      assert false;
    }
    assert At(run, a, 2);
  }
}
