/**
 A cluster of nodes with fixed voters. A run interleaves the nodes' reactions freely; the network keeps every
 message ever sent, so a message may be lost, delayed, reordered or delivered again.
 */
module Cluster {
  import opened Options
  import opened Quorum
  import opened LogModel
  import opened ReadOnlyModel
  import opened ProgressModel
  import opened RaftNode
  import opened Ledger
  import opened LedgerActions

  /**
   What was true when a read request first reached the leader of a term: the leader's commit index, every node's
   commit index, and the nodes that had already left that term.
   */
  datatype ReadRecord = ReadRecord(index: nat, seen: map<NodeId, nat>, above: set<NodeId>)

  /** The first time each context was taken in each term, and whether one was queued a second time in a term. */
  datatype Asked = Asked(at: map<(Ctx, nat), ReadRecord>, repeated: bool)

  datatype Cluster = Cluster(nodes: map<NodeId, Node>, net: set<Message>, ledger: Ledger, asked: Asked)

  datatype Event =
    | Deliver(m: Message)
    | AskRead(node: NodeId, ctx: Ctx)
    | Campaigns(node: NodeId, transfer: bool)
    | Proposes(node: NodeId, data: seq<int>)
    | Persists(node: NodeId, upTo: nat, ofTerm: nat)
    | SendsAppend(node: NodeId, to: NodeId, allowEmpty: bool, count: nat)
    | SendsHeartbeat(node: NodeId, to: NodeId, hbCtx: Option<Ctx>)
    | EnablesGroups(node: NodeId, enable: bool)
    | AssignsGroups(node: NodeId, ids: seq<(NodeId, nat)>)
    | ClearsGroups(node: NodeId)
    | LosesPeer(node: NodeId, peer: NodeId)
    | Resizes(node: NodeId, peer: NodeId, cap: nat)
    | StepsDown(node: NodeId)
    | Restarts(node: NodeId)

  function Actor(e: Event): NodeId {
    if e.Deliver? then e.m.to else e.node
  }

  ghost function React(cfg: JointConfig, n: Node, e: Event): Outcome {
    match e
    case Deliver(m) => Step(cfg, n, m)
    case AskRead(_, ctx) => Step(cfg, n, ReadIndex(INVALID_ID, n.id, 0, ctx))
    case Campaigns(_, transfer) => Hup(cfg, n, transfer)
    case Proposes(_, data) => Propose(n, data)
    case Persists(_, upTo, ofTerm) => Persisted(cfg, n, upTo, ofTerm)
    case SendsAppend(_, to, allowEmpty, count) => SendAppend(n, to, allowEmpty, count)
    case SendsHeartbeat(_, to, ctx) => SendHeartbeat(n, to, ctx)
    case EnablesGroups(_, enable) => EnableGroups(cfg, n, enable)
    case AssignsGroups(_, ids) => AssignGroups(cfg, n, ids)
    case ClearsGroups(_) => ClearGroups(n)
    case LosesPeer(_, peer) => Unreachable(n, peer)
    case Resizes(_, peer, cap) => Resize(n, peer, cap)
    case StepsDown(_) => StepDown(n)
    case Restarts(_) => Restart(n)
  }

  // History ---------------------------------------------------------------------------------------

  /** The index that `out` acknowledges in term `t`; 0 if it acknowledges none. */
  ghost function AckIn(out: set<Message>, t: nat): nat {
    if exists m :: m in out && m.AppendResp? && !m.reject && m.term == t
    then (var m :| m in out && m.AppendResp? && !m.reject && m.term == t; m.index)
    else 0
  }

  /** How far a leader has committed from its own term. */
  function OwnCommitted(n: Node): nat {
    if n.committed > 0 && TermAt(n.log, n.committed) == n.term then n.committed else 0
  }

  /** Reads the step from `n` to `n'` off the node and adds it to the ledger. */
  ghost function Observe(l: Ledger, n: Node, n': Node, out: set<Message>): Ledger {
    var i, t := n.id, n'.term;
    Ledger(
      l.term[i := t],
      l.log[i := n'.log],
      if t > n.term && n'.vote == i then l.campaign[(i, t) := n.log] else l.campaign,
      if n'.vote != INVALID_ID then l.vote[(i, t) := n'.vote] else l.vote,
      if n'.role == Leader then l.reign[t := Reign(i, n'.log, OwnCommitted(n'))] else l.reign,
      if n'.role == Leader then
        (if i in n'.progress then RaiseAck(l, i, t, n'.progress[i].matched) else l.acked)
      else RaiseAck(l, i, t, AckIn(out, t)))
  }

  /** A leader does nothing about a read before it has committed in its own term, or while it is queued already. */
  predicate Ignores(cfg: JointConfig, n: Node, ctx: Ctx) {
    CommitTerm(n) != n.term || (!cfg.IsSingleton() && ctx in n.readOnly.pending)
  }

  function RequestOf(e: Event): Option<Ctx> {
    match e
    case AskRead(_, ctx) => Some(ctx)
    case Deliver(m) => if m.ReadIndex? then Some(m.req) else None
    case _ => None
  }

  /** The read request that `e` hands to a leader that takes it. */
  function Asks(cfg: JointConfig, n: Node, e: Event): Option<Ctx> {
    var r := RequestOf(e);
    if n.role != Leader || r.None? || Ignores(cfg, n, r.value) then None else r
  }

  function CommittedOf(nodes: map<NodeId, Node>): map<NodeId, nat> {
    map j | j in nodes :: nodes[j].committed
  }

  function AboveTerm(nodes: map<NodeId, Node>, t: nat): set<NodeId> {
    set j | j in nodes && nodes[j].term > t
  }

  ghost function RecordRead(cfg: JointConfig, s: Cluster, n: Node, e: Event): Asked {
    match Asks(cfg, n, e)
    case None => s.asked
    case Some(ctx) => Recorded(cfg, s, n, ctx)
  }

  /** The record of a request that reaches leader `n`. */
  function NewRecord(s: Cluster, n: Node): ReadRecord {
    ReadRecord(n.committed, CommittedOf(s.nodes), AboveTerm(s.nodes, n.term))
  }

  /** A single voter answers at once and queues nothing, so a repetition there does no harm. */
  function Recorded(cfg: JointConfig, s: Cluster, n: Node, ctx: Ctx): Asked {
    if (ctx, n.term) in s.asked.at then s.asked.(repeated := s.asked.repeated || !cfg.IsSingleton())
    else s.asked.(at := s.asked.at[(ctx, n.term) := NewRecord(s, n)])
  }

  // Runs ------------------------------------------------------------------------------------------

  /** A fresh node: empty log, term 0, no vote. */
  ghost predicate Fresh(n: Node, i: NodeId, ids: set<NodeId>) {
    && n.id == i && n.term == 0 && n.vote == INVALID_ID && n.role == Follower && n.log == [] && n.committed == 0
    && n.persisted == 0
    && n.progress.Keys == ids && n.readOnly == NoReads() && n.readStates == []
    && forall j <- n.progress :: n.progress[j].state == Probe && n.progress[j].pendingRequestSnapshot == INVALID_INDEX
  }

  ghost predicate Init(cfg: JointConfig, s: Cluster) {
    && cfg.Ids() != {} && cfg.Ids() <= s.nodes.Keys && INVALID_ID !in s.nodes
    && (forall i <- s.nodes :: Fresh(s.nodes[i], i, s.nodes.Keys))
    && s.net == {} && s.asked == Asked(map[], false)
    && s.ledger == Ledger(map i | i in s.nodes :: 0, map i | i in s.nodes :: [], map[], map[], map[], map[])
  }

  /**
   What may happen: a message that was sent is delivered, or a node acts on its own. Only voters campaign
   (src/raft.rs:1112, src/raft.rs:2406).
   */
  ghost predicate Enabled(cfg: JointConfig, s: Cluster, e: Event) {
    && Actor(e) in s.nodes
    && (e.Deliver? ==> e.m in s.net)
    && (e.Campaigns? ==> e.node in cfg.Ids())
  }

  ghost function After(cfg: JointConfig, s: Cluster, e: Event, n': Node, out: set<Message>): Cluster
    requires Actor(e) in s.nodes
  {
    var n := s.nodes[Actor(e)];
    Cluster(s.nodes[Actor(e) := n'], s.net + out, Observe(s.ledger, n, n', out), RecordRead(cfg, s, n, e))
  }

  ghost predicate Next(cfg: JointConfig, s: Cluster, e: Event, s': Cluster) {
    && Enabled(cfg, s, e)
    && var d := React(cfg, s.nodes[Actor(e)], e);
    && d.Done? && s' == After(cfg, s, e, d.node, d.out)
  }

  // The invariant ---------------------------------------------------------------------------------

  /** `commit` with `commitTerm` names an entry that some leader committed. */
  ghost predicate CommitInfoOk(l: Ledger, commit: nat, commitTerm: nat) {
    commit > 0 ==>
      && commitTerm in l.reign && commit <= |LeaderLog(l, commitTerm)|
      && TermAt(LeaderLog(l, commitTerm), commit) == commitTerm
      && Settled(l, LeaderLog(l, commitTerm), commit)
  }

  ghost predicate Covered(r: ReadRecord, index: nat) {
    forall j <- r.seen :: r.seen[j] <= index
  }

  /** The released index covers everything that was committed anywhere when the request reached some leader. */
  ghost predicate ReadOk(asked: Asked, ctx: Ctx, index: nat) {
    asked.repeated || exists t: nat :: (ctx, t) in asked.at && Covered(asked.at[(ctx, t)], index)
  }

  /** Node `from` had not left term `t` when `ctx` first reached its leader. */
  ghost predicate Loyal(asked: Asked, ctx: Ctx, t: nat, from: NodeId) {
    asked.repeated || ((ctx, t) in asked.at && from !in asked.at[(ctx, t)].above)
  }

  /**
   An append is anchored in its leader's log and carries what follows. After a commit learnt from a pre-vote the
   anchor may lie past the leader's log; then it carries term 0 and nothing else, and its receiver refuses it.
   */
  ghost predicate AnchorOk(l: Ledger, m: Message)
    requires m.AppendMsg?
  {
    var d := LeaderLog(l, m.term);
    || (m.index + |m.entries| <= |d| && m.logTerm == TermAt(d, m.index)
        && m.entries == d[m.index..m.index + |m.entries|])
    || (m.logTerm == 0 && 1 <= m.index <= Acked(l, m.to, m.term) && m.entries == [])
  }

  ghost predicate FromLeader(l: Ledger, m: Message) {
    m.term in l.reign && l.reign[m.term].leader == m.from && m.from != m.to
  }

  ghost predicate MsgOk(ids: set<NodeId>, l: Ledger, asked: Asked, m: Message) {
    (m.term >= 1 || m.ReadIndex?) &&
    match m
    case RequestVote(from, to, term, pre, index, logTerm, commit, commitTerm, _) =>
      && from in ids && from != INVALID_ID && from != to
      && CommitInfoOk(l, commit, commitTerm)
      && (!pre ==> (from, term) in l.campaign
                   && index == |l.campaign[(from, term)]| && logTerm == LastTerm(l.campaign[(from, term)]))
    case VoteResp(from, to, term, pre, reject, commit, commitTerm) =>
      && CommitInfoOk(l, commit, commitTerm)
      && (!pre && !reject ==> (from, term) in l.vote && l.vote[(from, term)] == to)
    case AppendMsg(_, to, term, _, _, _, commit) =>
      && FromLeader(l, m) && AnchorOk(l, m)
      && commit <= |LeaderLog(l, term)| && Settled(l, LeaderLog(l, term), commit)
    case AppendResp(from, _, term, index, reject, _, _, _) =>
      !reject ==> index <= Acked(l, from, term)
    case Heartbeat(_, to, term, commit, ctx) =>
      && FromLeader(l, m)
      && commit <= |LeaderLog(l, term)| && Settled(l, LeaderLog(l, term), commit) && commit <= Acked(l, to, term)
      && (ctx.Some? ==> asked.repeated || (ctx.value, term) in asked.at)
    case HeartbeatResp(from, _, term, _, ctx) =>
      ctx.Some? ==> Loyal(asked, ctx.value, term, from)
    case ReadIndex(_, _, term, _) => term == 0
    case ReadIndexResp(_, _, term, index, req) =>
      && term in l.reign && 1 <= index <= l.reign[term].committed
      && ReadOk(asked, req, index)
  }

  ghost predicate CandidateOk(l: Ledger, n: Node) {
    && n.term >= 1 && n.vote == n.id
    && (n.id, n.term) in l.campaign && l.campaign[(n.id, n.term)] == n.log
    && (forall j | j in n.votes && n.votes[j] :: (j, n.term) in l.vote && l.vote[(j, n.term)] == n.id)
    && (n.term in l.reign ==> l.reign[n.term].leader != n.id)
  }

  ghost predicate PeerOk(l: Ledger, n: Node, j: NodeId)
    requires j in n.progress
  {
    var p := n.progress[j];
    && p.matched <= Acked(l, j, n.term)
    && 1 <= p.nextIdx
    && (p.nextIdx <= |n.log| + 1 || p.nextIdx <= Acked(l, j, n.term) + 1)
    && p.state != Snapshot && p.pendingRequestSnapshot == INVALID_INDEX
  }

  ghost predicate QueuedOk(asked: Asked, n: Node, c: Ctx)
    requires c in n.readOnly.pending
  {
    && 1 <= n.readOnly.pending[c].index <= OwnCommitted(n)
    && (asked.repeated
        || ((c, n.term) in asked.at
            && n.readOnly.pending[c].index == asked.at[(c, n.term)].index
            && n.readOnly.pending[c].acks !! asked.at[(c, n.term)].above))
  }

  ghost predicate QueueOk(asked: Asked, n: Node) {
    && n.readOnly.Valid()
    && (forall c <- n.readOnly.pending :: QueuedOk(asked, n, c))
    && Nested(asked, n.term, n.readOnly.queue)
  }

  /** The later a request was queued, the more nodes had left the leader's term. */
  ghost predicate Nested(asked: Asked, t: nat, q: seq<Ctx>) {
    asked.repeated
    || forall a, b :: 0 <= a < b < |q| ==> Within(asked, t, q[a], q[b])
  }

  /** Every node that had left term `t` when `c` arrived had left it when `d` arrived. */
  ghost predicate Within(asked: Asked, t: nat, c: Ctx, d: Ctx) {
    (c, t) in asked.at && (d, t) in asked.at && asked.at[(c, t)].above <= asked.at[(d, t)].above
  }

  ghost predicate LeaderOk(l: Ledger, asked: Asked, n: Node) {
    && n.term >= 1 && n.vote == n.id
    && n.term in l.reign && l.reign[n.term] == Reign(n.id, n.log, OwnCommitted(n))
    && (forall j <- n.progress :: PeerOk(l, n, j))
    && QueueOk(asked, n)
  }

  ghost predicate NodeOk(ids: set<NodeId>, l: Ledger, asked: Asked, n: Node) {
    && n.id in ids && n.id != INVALID_ID && n.progress.Keys == ids
    && n.id in l.term && l.term[n.id] == n.term
    && n.id in l.log && l.log[n.id] == n.log
    && (n.vote != INVALID_ID <==> (n.id, n.term) in l.vote)
    && (n.vote != INVALID_ID ==> l.vote[(n.id, n.term)] == n.vote)
    && n.committed <= |n.log| && Settled(l, n.log, n.committed) && n.persisted <= |n.log|
    && Acked(l, n.id, n.term) <= |n.log|
    && (Holds(l, n.term, Acked(l, n.id, n.term), n.log) || Acked(l, n.id, n.term) <= n.committed)
    && (n.role == Candidate ==> CandidateOk(l, n))
    && (n.role == Leader ==> LeaderOk(l, asked, n))
    && (forall r | r in n.readStates :: ReadOk(asked, r.ctx, r.index))
  }

  /** Either everything committed at the time of the request is covered, or a quorum had already moved on. */
  ghost predicate RecordOk(cfg: JointConfig, l: Ledger, asked: Asked, c: (Ctx, nat))
    requires c in asked.at
  {
    var r := asked.at[c];
    && (forall j <- r.above :: j in l.term && l.term[j] > c.1)
    && c.1 in l.reign && r.index <= l.reign[c.1].committed
    && (Covered(r, r.index) || IsQuorum(cfg, r.above))
  }

  ghost predicate ClusterInv(cfg: JointConfig, s: Cluster) {
    && Inv(cfg, s.ledger)
    && s.ledger.term.Keys == s.nodes.Keys && cfg.Ids() <= s.nodes.Keys && INVALID_ID !in s.nodes
    && (forall i <- s.nodes :: s.nodes[i].id == i && NodeOk(s.nodes.Keys, s.ledger, s.asked, s.nodes[i]))
    && (forall m <- s.net :: MsgOk(s.nodes.Keys, s.ledger, s.asked, m))
    && (forall c <- s.asked.at :: RecordOk(cfg, s.ledger, s.asked, c))
  }
}
