/** A run of three nodes with pre-votes on that elects a leader: first the pre-vote, then the vote. */
module PreVoteRun {
  import opened Quorum
  import opened LogModel
  import opened RaftNode
  import opened Cluster
  import opened ClusterRuns
  import opened ClusterExample
  import opened ThreeNodes
  import opened Elections

  function Careful(i: NodeId): Node {
    FreshNode(i, ALL).(preVote := true)
  }

  ghost function Start(): Cluster {
    FreshCluster(ALL).(nodes := map i | i in ALL :: Careful(i))
  }

  lemma StartIsRun()
    ensures Going([Start()]) && forall i <- ALL :: Start().nodes[i] == Careful(i)
  {
    hide Init, Fresh, FreshNode, Careful;
    FreshRuns(THREE, ALL);
    assert Init(THREE, FreshCluster(ALL)) by { assert [FreshCluster(ALL)][0] == FreshCluster(ALL); }
    var s := Start();
    assert s.nodes.Keys == ALL;
    forall i <- s.nodes
      ensures Fresh(s.nodes[i], i, ALL)
    {
      FreshCareful(i);
    }
    OtherInit(FreshCluster(ALL), s);
  }

  lemma FreshCareful(i: NodeId)
    requires i in ALL
    ensures Fresh(Careful(i), i, ALL)
  {
    assert Careful(i).progress.Keys == ALL;
  }

  /** Other fresh nodes with the same ids make another start. */
  lemma OtherInit(s: Cluster, s': Cluster)
    requires Init(THREE, s) && s' == s.(nodes := s'.nodes) && s'.nodes.Keys == s.nodes.Keys
    requires forall i <- s'.nodes :: Fresh(s'.nodes[i], i, s'.nodes.Keys)
    ensures Init(THREE, s')
  {
    hide Fresh;
    var empty: Log := [];
    assert (map i | i in s'.nodes :: 0) == (map i | i in s.nodes :: 0);
    assert (map i | i in s'.nodes :: empty) == (map i | i in s.nodes :: empty);
  }

  function Ask(term: nat, pre: bool): Message {
    RequestVote(1, 2, term, pre, 0, 0, 0, 0, 0)
  }

  function Grant(pre: bool): Message {
    VoteResp(2, 1, 1, pre, false, 0, 0)
  }

  lemma AskedOne(n: Node, term: nat, pre: bool, out: set<Message>)
    requires AsksAll(THREE, n, term, pre, out) && n.id == 1 && n.log == [] && n.committed == 0 && n.priority == 0
    ensures Ask(term, pre) in out
  {
    assert 2 in THREE.Ids();
    var m :| m in out && m.to == 2;
    assert IsRequest(THREE, n, term, pre, m);
  }

  lemma NotAlone(i: NodeId)
    ensures !IsQuorum(THREE, {i})
  {
    OneOfThree({i}, i);
  }

  lemma WonByTwo(n: Node, m: Message)
    requires n.votes == map[1 := true] && m.VoteResp? && m.from == 2 && !m.reject
    ensures IsQuorum(THREE, Granted(Ballots(n, m)))
  {
    TwoOfThree(Granted(Ballots(n, m)), 1, 2);
  }

  /** Node 1 stands, with its own ballot only, for the pre-vote or for term 1. */
  predicate Stands(n: Node, role: Role, term: nat) {
    && n.id == 1 && n.role == role && n.term == term && n.votes == map[1 := true]
    && n.log == [] && n.committed == 0 && n.persisted == 0 && n.priority == 0
  }

  lemma AsksPreVotes() returns (run: seq<Cluster>)
    ensures Going(run) && |run| == 2 && run[0] == Start() && Ask(1, true) in Last(run).net
    ensures Stands(Last(run).nodes[1], PreCandidate, 0) && Last(run).nodes[2] == Careful(2)
  {
    hide IsRun, Hup, IsQuorum, AsksAll;
    StartIsRun();
    var n0 := Careful(1);
    NotAlone(1);
    CampaignDoes(THREE, n0, false);
    AskedOne(n0, 1, true, Hup(THREE, n0, false).out);
    run := Go([Start()], Campaigns(1, false));
  }

  lemma PreVoteGranted()
    ensures Step(THREE, Careful(2), Ask(1, true)) == Done(Careful(2), {Grant(true)})
  {
    RequestAnswered(THREE, Careful(2), Ask(1, true));
  }

  lemma StartsElection(n: Node)
    requires Stands(n, PreCandidate, 0)
    ensures var d := Step(THREE, n, Grant(true));
            d.Done? && Stands(d.node, Candidate, 1) && d.node.vote == 1 && Ask(1, false) in d.out
  {
    hide Step, IsQuorum, AsksAll, Ballots;
    NotAlone(1);
    WonByTwo(n, Grant(true));
    PreVoteDecides(THREE, n, Grant(true));
    AskedOne(n, 1, false, Step(THREE, n, Grant(true)).out);
  }

  lemma VoteGranted()
    ensures Step(THREE, Careful(2), Ask(1, false)).Done? && Grant(false) in Step(THREE, Careful(2), Ask(1, false)).out
  {
    hide Step;
    LaterRequestAnswered(THREE, Careful(2), Ask(1, false));
  }

  lemma Wins(n: Node)
    requires Stands(n, Candidate, 1) && n.vote == 1
    ensures var d := Step(THREE, n, Grant(false));
            d.Done? && d.node.role == Leader && d.node.term == 1 && d.node.log == [Entry(1, 1, 0)]
  {
    hide Step, IsQuorum, Ballots;
    WonByTwo(n, Grant(false));
    VoteDecides(THREE, n, Grant(false));
  }

  /** Node 1 asks for pre-votes without leaving its term, gets one, asks for votes, gets one, and leads. */
  lemma ElectsThroughPreVotes() returns (run: seq<Cluster>)
    ensures IsRun(THREE, run) && |run| == 6 && run[0] == Start()
    ensures forall k :: 0 <= k < 6 ==> run[k].nodes.Keys == ALL
    ensures run[1].nodes[1].role == PreCandidate && run[1].nodes[1].term == 0
    ensures run[3].nodes[1].role == Candidate && run[3].nodes[1].term == 1
    ensures run[5].nodes[1].role == Leader && run[5].nodes[1].term == 1 && run[5].nodes[1].log == [Entry(1, 1, 0)]
  {
    hide IsRun, Step, Careful, Start, Quiet, Unasked;
    var r1 := AsksPreVotes();
    PreVoteGranted();
    var r2 := Go(r1, Event.Deliver(Ask(1, true)));
    StartsElection(Last(r2).nodes[1]);
    var r3 := Go(r2, Event.Deliver(Grant(true)));
    VoteGranted();
    var r4 := Go(r3, Event.Deliver(Ask(1, false)));
    Wins(Last(r4).nodes[1]);
    run := Go(r4, Event.Deliver(Grant(false)));
    RunKeys(run);
    Prefixes(r1, r2, r3, r4, run);
  }

  lemma Prefixes(r1: seq<Cluster>, r2: seq<Cluster>, r3: seq<Cluster>, r4: seq<Cluster>, run: seq<Cluster>)
    requires r1 <= r2 <= r3 <= r4 <= run && |r1| == 2 && |r3| == 4 && |run| == 6
    ensures run[0] == r1[0] && run[1] == Last(r1) && run[3] == Last(r3) && run[5] == Last(run)
  {
  }

  lemma RunKeys(run: seq<Cluster>)
    requires Going(run)
    ensures forall k :: 0 <= k < |run| ==> run[k].nodes.Keys == ALL
  {
    hide IsRun;
    forall k | 0 <= k < |run|
      ensures run[k].nodes.Keys == ALL
    {
      RunAhead(THREE, run, k, |run| - 1);
    }
  }
}
