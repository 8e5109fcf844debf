/**
 A node that dies of winning an election: it led a term, its own entry is not yet reported to be persisted, and after
 stepping down it wins the next term.
 */
module EarlyElection {
  import opened Quorum
  import opened LogModel
  import opened RaftNode
  import opened Cluster
  import opened ClusterRuns
  import opened ClusterTheorems
  import opened ThreeNodes

  const ONE: Log := [Entry(1, 1, 0)]

  lemma SteppingDown(n: Node, i: NodeId, term: nat, log: Log, committed: nat)
    requires IsLeader(n, i, term, log, committed)
    ensures StepDown(n).Done?
    ensures Follows(StepDown(n).node, i, term, log, committed) && StepDown(n).node.persisted == n.persisted
  {
    assert StepDown(n).node.progress.Keys == ALL;
  }

  /** The vote that makes node 1 win, and its only missing notice. */
  lemma Doomed(n: Node, m: Message)
    requires Asking(n, 1, 2, ONE, 0) && n.persisted == 0 && m == VoteResp(2, 1, 2, false, false, 0, 0)
    ensures WinsUnpersisted(THREE, n, Event.Deliver(m))
  {
    SecondVote(1, 2);
    assert RecordVote(n, 2, true).votes == map[1 := true, 2 := true];
  }

  /** A run of three nodes after which delivering a granted vote is fatal. */
  lemma EarlyWinKills() returns (run: seq<Cluster>, e: Event)
    ensures IsRun(THREE, run) && Enabled(THREE, Last(run), e) && WinsUnpersisted(THREE, Last(run).nodes[Actor(e)], e)
    ensures React(THREE, Last(run).nodes[Actor(e)], e).Fatal?
  {
    hide IsRun, Step, Hup, StepDown, IsFollower, IsLeader, Follows, Asking, Unasked, Untouched, WinsUnpersisted,
         OwnMatch;
    assert Headed([], 1) == ONE;
    var r0 := Beginning();
    var r1 := Elect(r0, 1, 2, 0, 0, [], 0, 0);
    OwnPersisted(Last(r1).nodes[1], 0);
    SteppingDown(Last(r1).nodes[1], 1, 1, ONE, 0);
    var r2 := Go(r1, StepsDown(1));
    Campaigning(Last(r2).nodes[1], 1, 2, 1, ONE, 0);
    var r3 := Go(r2, Campaigns(1, true));
    var ask := VoteAsk(1, 2, 2, ONE, 0);
    Granting(Last(r3).nodes[2], 2, 1, [], 0, ask);
    run := Go(r3, Event.Deliver(ask));
    var m := VoteResp(2, 1, 2, false, false, 0, 0);
    Doomed(Last(run).nodes[1], m);
    e := Event.Deliver(m);
    PanicsExactly(THREE, run, |run| - 1, e);
  }

  lemma OwnPersisted(n: Node, k: nat)
    requires OwnMatch(n, k)
    ensures n.persisted == k
  {
  }
}
