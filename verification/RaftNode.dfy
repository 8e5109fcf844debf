/** One node's reactions, as functions from its state and an event to its new state: src/raft.rs. */
module RaftNode {
  import opened Options
  import opened Quorum
  import opened LogModel
  import opened Numbers
  import opened CommittedIndex
  import opened ProgressModel
  import opened ReadOnlyModel

  datatype Role = Follower | Candidate | Leader | PreCandidate

  datatype ReadState = ReadState(index: nat, ctx: Ctx)

  datatype Node = Node(
    id: NodeId,
    term: nat,
    vote: NodeId,
    role: Role,
    leaderId: NodeId,
    log: Log,
    committed: nat,
    persisted: nat,
    votes: map<NodeId, bool>,
    progress: map<NodeId, Progress>,
    readOnly: ReadOnly,
    readStates: seq<ReadState>,
    priority: int,
    preVote: bool,
    checkQuorum: bool,
    groupCommit: bool)

  datatype Message =
    | RequestVote(from: NodeId, to: NodeId, term: nat, pre: bool, index: nat, logTerm: nat,
                  commit: nat, commitTerm: nat, priority: int)
    | VoteResp(from: NodeId, to: NodeId, term: nat, pre: bool, reject: bool, commit: nat, commitTerm: nat)
    | AppendMsg(from: NodeId, to: NodeId, term: nat, index: nat, logTerm: nat, entries: Log, commit: nat)
    | AppendResp(from: NodeId, to: NodeId, term: nat, index: nat, reject: bool, rejectHint: nat, logTerm: nat,
                 commit: nat)
    | Heartbeat(from: NodeId, to: NodeId, term: nat, commit: nat, ctx: Option<Ctx>)
    | HeartbeatResp(from: NodeId, to: NodeId, term: nat, commit: nat, ctx: Option<Ctx>)
    | ReadIndex(from: NodeId, to: NodeId, term: nat, req: Ctx)
    | ReadIndexResp(from: NodeId, to: NodeId, term: nat, index: nat, req: Ctx)

  /** `Fatal` is a `fatal!`, a failed `assert!` or an out-of-range access: the process dies. */
  datatype Outcome = Fatal | Done(node: Node, out: set<Message>)

  // Role changes ----------------------------------------------------------------------------------

  /** Every peer starts after the last entry; the node itself has what is persisted. */
  function Restarted(prs: map<NodeId, Progress>, id: NodeId, last: nat, persisted: nat, committed: nat)
    : map<NodeId, Progress>
  {
    map j | j in prs ::
      var p := prs[j].Reset(last + 1);
      if j == id then p.(matched := persisted, committedIndex := committed) else p
  }

  function ResetProgress(n: Node): map<NodeId, Progress> {
    Restarted(n.progress, n.id, |n.log|, n.persisted, n.committed)
  }

  /** src/raft.rs:1015-1044. The node matches its own log as far as it knows it to be persisted. */
  function Reset(n: Node, term: nat): Node {
    n.(term := term, vote := if n.term != term then INVALID_ID else n.vote, leaderId := INVALID_ID,
       votes := map[], readOnly := NoReads(), progress := ResetProgress(n))
  }

  function BecomeFollower(n: Node, term: nat, leader: NodeId): Node {
    Reset(n, term).(leaderId := leader, role := Follower)
  }

  function BecomeCandidate(n: Node): Node {
    Reset(n, n.term + 1).(vote := n.id, role := Candidate)
  }

  function BecomePreCandidate(n: Node): Node {
    n.(role := PreCandidate, votes := map[], leaderId := INVALID_ID)
  }

  function NewEntries(term: nat, after: nat, data: seq<int>): Log {
    seq(|data|, k requires 0 <= k < |data| => Entry(term, after + 1 + k, data[k]))
  }

  /** append_entry: stamps term and index on the entries (src/raft.rs:1050-1064). */
  function AppendEntries(n: Node, data: seq<int>): Node {
    n.(log := n.log + NewEntries(n.term, |n.log|, data))
  }

  /** The new leader appends one empty entry. */
  function AsLeader(n: Node): Node {
    var r := Reset(n, n.term).(leaderId := n.id, role := Leader);
    var r' := if n.id in r.progress
              then r.(progress := r.progress[n.id := r.progress[n.id].BecomeReplicate()]) else r;
    AppendEntries(r', [0])
  }

  /** become_leader (src/raft.rs:1233-1284) asserts that the whole log is known to be persisted. */
  function BecomeLeader(n: Node): Outcome {
    if n.persisted != |n.log| then Fatal else Done(AsLeader(n), {})
  }

  // Elections -------------------------------------------------------------------------------------

  function RecordVote(n: Node, from: NodeId, grant: bool): Node {
    if from in n.votes then n else n.(votes := n.votes[from := grant])
  }

  function CommitTerm(n: Node): nat {
    TermAt(n.log, n.committed)
  }

  function VoteRequests(cfg: JointConfig, n: Node, term: nat, pre: bool): set<Message> {
    set v | v in cfg.Ids() && v != n.id ::
      RequestVote(n.id, v, term, pre, |n.log|, LastTerm(n.log), n.committed, CommitTerm(n), n.priority)
  }

  /** poll for a real election (src/raft.rs:2259-2294). */
  function PollElection(cfg: JointConfig, n: Node, from: NodeId, grant: bool): Outcome {
    var r := RecordVote(n, from, grant);
    match JointVote(cfg, r.votes)
    case Won => BecomeLeader(r)
    case Lost => Done(BecomeFollower(r, r.term, INVALID_ID), {})
    case Pending => Done(r, {})
  }

  /** campaign for the next term (src/raft.rs:1290-1336). */
  function CampaignElection(cfg: JointConfig, n: Node): Outcome {
    match PollElection(cfg, BecomeCandidate(n), n.id, true)
    case Fatal => Fatal
    case Done(r, _) => Done(r, if r.role == Leader then {} else VoteRequests(cfg, r, n.term + 1, false))
  }

  /** poll for a pre-vote: winning it starts the real election. */
  function PollPre(cfg: JointConfig, n: Node, from: NodeId, grant: bool): Outcome {
    var r := RecordVote(n, from, grant);
    match JointVote(cfg, r.votes)
    case Won => CampaignElection(cfg, r)
    case Lost => Done(BecomeFollower(r, r.term, INVALID_ID), {})
    case Pending => Done(r, {})
  }

  /** Asks everybody, unless the node's own grant already won and moved it to the next term. */
  function CampaignPre(cfg: JointConfig, n: Node): Outcome {
    var d := PollPre(cfg, BecomePreCandidate(n), n.id, true);
    if d.Fatal? || d.node.term != n.term then d
    else Done(d.node, VoteRequests(cfg, d.node, n.term + 1, true))
  }

  /** hup (src/raft.rs:1546-1588); no configuration change is pending when the voters are fixed. */
  function Hup(cfg: JointConfig, n: Node, transfer: bool): Outcome {
    if n.role == Leader then Done(n, {})
    else if n.preVote && !transfer then CampaignPre(cfg, n)
    else CampaignElection(cfg, n)
  }

  // Committing ------------------------------------------------------------------------------------

  /** commit_to (src/raft_log.rs:304-318) never moves back and dies past the end of the log. */
  function CommitTo(n: Node, c: nat): Outcome {
    if n.committed >= c then Done(n, {})
    else if |n.log| < c then Fatal
    else Done(n.(committed := c), {})
  }

  /** RaftLog::maybe_commit (src/raft_log.rs:530-542). */
  function CommitMatching(n: Node, index: nat, term: nat): Outcome {
    if index > n.committed && TermAt(n.log, index) == term then CommitTo(n, index) else Done(n, {})
  }

  function Matched(prs: map<NodeId, Progress>): Acks {
    map j | j in prs :: Index(prs[j].matched, prs[j].group)
  }

  function MatchedIndexes(n: Node): Acks {
    Matched(n.progress)
  }

  /** Raft::maybe_commit (src/raft.rs:946-957): the leader's own commit rule. */
  ghost function MaybeCommit(cfg: JointConfig, n: Node): Outcome {
    var c := JointIndex(cfg, n.groupCommit, MatchedIndexes(n)).0;
    var d := CommitMatching(n, c, n.term);
    if d.Done? && d.node.committed > n.committed && n.id in n.progress
    then Done(d.node.(progress := n.progress[n.id := n.progress[n.id].UpdateCommitted(d.node.committed)]), {})
    else d
  }

  /** maybe_commit_by_vote (src/raft.rs:2226-2257). */
  function CommitByVote(n: Node, commit: nat, commitTerm: nat): Outcome {
    if commit == 0 || commitTerm == 0 || commit <= n.committed || n.role == Leader then Done(n, {})
    else CommitMatching(n, commit, commitTerm)
  }

  // Appending -------------------------------------------------------------------------------------

  /** `conflict` is the first index whose entry was replaced or added; 0 if there is none. */
  datatype AppendResult = Refused | Broken | Stored(log: Log, committed: nat, conflict: nat, last: nat)

  /** find_conflict (src/raft_log.rs:200-216): the first entry whose term differs; 0 if there is none. */
  function FindConflict(log: Log, ents: Log): nat {
    if ents == [] then 0
    else if TermAt(log, ents[0].index) != ents[0].term then ents[0].index
    else FindConflict(log, ents[1..])
  }

  /** maybe_append (src/raft_log.rs:267-297). */
  function MaybeAppend(log: Log, committed: nat, index: nat, term: nat, commit: nat, ents: Log): AppendResult {
    if TermAt(log, index) != term then Refused
    else
      var c := FindConflict(log, ents);
      var last := index + |ents|;
      if c == 0 then CommitStored(log, committed, commit, c, last)
      else if c <= committed || !(index < c <= last) || c > |log| + 1 then Broken
      else CommitStored(log[..c - 1] + ents[c - index - 1..], committed, commit, c, last)
  }

  function CommitStored(log: Log, committed: nat, commit: nat, conflict: nat, last: nat): AppendResult {
    var c := Min(commit, last);
    if committed >= c then Stored(log, committed, conflict, last)
    else if |log| < c then Broken
    else Stored(log, c, conflict, last)
  }

  /** Entries from `conflict` on are no longer the persisted ones. */
  function StillPersisted(persisted: nat, conflict: nat): nat {
    if conflict > 0 then Min(persisted, conflict - 1) else persisted
  }

  /** find_conflict_by_term (src/raft_log.rs:227-253): the largest index up to `index` whose term is at most `term`. */
  function LastUpTo(log: Log, index: nat, term: nat): (i: nat)
    ensures i <= index
  {
    if index > |log| || TermAt(log, index) <= term then index else LastUpTo(log, index - 1, term)
  }

  /** handle_append_entries (src/raft.rs:2506-2565). */
  function HandleAppend(n: Node, m: Message): Outcome
    requires m.AppendMsg?
  {
    if m.index < n.committed then
      Done(n, {AppendResp(n.id, m.from, n.term, n.committed, false, 0, 0, n.committed)})
    else
      match MaybeAppend(n.log, n.committed, m.index, m.logTerm, m.commit, m.entries)
      case Broken => Fatal
      case Stored(log, committed, conflict, last) =>
        Done(n.(log := log, committed := committed, persisted := StillPersisted(n.persisted, conflict)),
             {AppendResp(n.id, m.from, n.term, last, false, 0, 0, committed)})
      case Refused =>
        var hint := LastUpTo(n.log, Min(m.index, |n.log|), m.logTerm);
        Done(n, {AppendResp(n.id, m.from, n.term, m.index, true, hint, TermAt(n.log, hint), n.committed)})
  }

  /** handle_heartbeat (src/raft.rs:2569-2581). */
  function HandleHeartbeat(n: Node, m: Message): Outcome
    requires m.Heartbeat?
  {
    match CommitTo(n, m.commit)
    case Fatal => Fatal
    case Done(r, _) => Done(r, {HeartbeatResp(n.id, m.from, n.term, r.committed, m.ctx)})
  }

  /** handle_append_response (src/raft.rs:1656-1871), without the appends it sends. */
  ghost function HandleAppendResp(cfg: JointConfig, n: Node, m: Message): Outcome
    requires m.AppendResp?
  {
    if m.from !in n.progress then Done(n, {})
    else
      var pr := n.progress[m.from].(recentActive := true).UpdateCommitted(m.commit);
      if m.reject then
        var probe := if m.logTerm > 0 then LastUpTo(n.log, m.rejectHint, m.logTerm) else m.rejectHint;
        var (p, current) := pr.MaybeDecrTo(m.index, probe, INVALID_INDEX);
        Done(SetProgress(n, m.from, if current && p.state == Replicate then p.BecomeProbe() else p), {})
      else
        var (p, news) := pr.MaybeUpdate(m.index);
        if !news then Done(SetProgress(n, m.from, p), {})
        else MaybeCommit(cfg, SetProgress(n, m.from, AfterUpdate(p, m.index)))
  }

  function SetProgress(n: Node, j: NodeId, p: Progress): Node {
    n.(progress := n.progress[j := p])
  }

  function AfterUpdate(p: Progress, index: nat): Progress {
    match p.state
    case Probe => p.BecomeReplicate()
    case Snapshot => if p.IsSnapshotCaughtUp() then p.BecomeProbe() else p
    case Replicate => p.(ins := p.ins.FreeTo(index))
  }

  // Reading ---------------------------------------------------------------------------------------

  function ReadResp(n: Node, st: ReadStatus): Message {
    ReadIndexResp(n.id, st.from, n.term, st.index, st.ctx)
  }

  predicate IsLocal(n: Node, st: ReadStatus) {
    st.from == INVALID_ID || st.from == n.id
  }

  /** handle_ready_read_index for a batch (src/raft.rs:2908-2923): local reads are queued, remote ones answered. */
  function ReleaseReads(n: Node, sts: seq<ReadStatus>): Outcome {
    Done(n.(readStates := n.readStates + LocalReads(n, sts)),
         set st | st in sts && !IsLocal(n, st) :: ReadResp(n, st))
  }

  function LocalReads(n: Node, sts: seq<ReadStatus>): seq<ReadState> {
    if sts == [] then []
    else (if IsLocal(n, sts[0]) then [ReadState(sts[0].index, sts[0].ctx)] else []) + LocalReads(n, sts[1..])
  }

  /** A leader receives MsgReadIndex in Safe mode (src/raft.rs:2152-2182). */
  function HandleReadIndex(cfg: JointConfig, n: Node, from: NodeId, ctx: Ctx): Outcome {
    if CommitTerm(n) != n.term then Done(n, {})
    else if cfg.IsSingleton() then ReleaseReads(n, [ReadStatus(ctx, from, n.committed, {n.id})])
    else Done(n.(readOnly := n.readOnly.AddRequest(n.committed, ctx, from, n.id)), {})
  }

  /** handle_heartbeat_response (src/raft.rs:1873-1915), without the append it may send. */
  ghost function HandleHeartbeatResp(cfg: JointConfig, n: Node, m: Message): Outcome
    requires m.HeartbeatResp?
  {
    if m.from !in n.progress then Done(n, {})
    else
      var pr := n.progress[m.from].UpdateCommitted(m.commit).(recentActive := true).Resume();
      var pr' := if pr.state == Replicate && pr.ins.Full() then pr.(ins := pr.ins.FreeFirstOne()) else pr;
      var r := SetProgress(n, m.from, pr');
      if m.ctx.None? then Done(r, {}) else CountReadAck(cfg, r, m.from, m.ctx.value)
  }

  /** `advance` dies when the queue and the pending map disagree (src/read_only.rs:116-123). */
  ghost function CountReadAck(cfg: JointConfig, n: Node, from: NodeId, ctx: Ctx): Outcome {
    var ro := n.readOnly.RecvAck(from, ctx);
    if ctx !in ro.pending || !IsQuorum(cfg, ro.pending[ctx].acks) then Done(n.(readOnly := ro), {})
    else if !ro.Valid() then Fatal
    else ReleaseReads(n.(readOnly := ro.Advance(ctx)), ro.Released(ctx))
  }

  // Stepping --------------------------------------------------------------------------------------

  /** Whether a vote or pre-vote is granted (src/raft.rs:1494-1502). */
  predicate Grants(n: Node, m: Message)
    requires m.RequestVote?
  {
    && (n.vote == m.from || (n.vote == INVALID_ID && n.leaderId == INVALID_ID) || (m.pre && m.term > n.term))
    && UpToDate(n.log, m.index, m.logTerm)
    && (m.index > |n.log| || n.priority <= m.priority)
  }

  /**
   A vote or pre-vote request (src/raft.rs:1492-1536). A refusal carries the node's own term, and `send` dies on a
   vote response without a term (src/raft.rs:632-655).
   */
  function HandleVoteRequest(n: Node, m: Message): Outcome
    requires m.RequestVote?
  {
    if Grants(n, m) then
      Done(if m.pre then n else n.(vote := m.from), {VoteResp(n.id, m.from, m.term, m.pre, false, 0, 0)})
    else if n.term == 0 then Fatal
    else
      match CommitByVote(n, m.commit, m.commitTerm)
      case Fatal => Fatal
      case Done(r, _) => Done(r, {VoteResp(n.id, m.from, n.term, m.pre, true, n.committed, CommitTerm(n))})
  }

  /** A vote or pre-vote response that belongs to this candidacy (src/raft.rs:2323-2337). */
  function HandleVoteResp(cfg: JointConfig, n: Node, m: Message): Outcome
    requires m.VoteResp?
  {
    var d := if m.pre then PollPre(cfg, n, m.from, !m.reject) else PollElection(cfg, n, m.from, !m.reject);
    if d.Fatal? then Fatal
    else
      match CommitByVote(d.node, m.commit, m.commitTerm)
      case Fatal => Fatal
      case Done(r, _) => Done(r, d.out)
  }

  /** step_candidate (src/raft.rs:2298-2353). */
  function StepCandidate(cfg: JointConfig, n: Node, m: Message): Outcome {
    match m
    case AppendMsg(_, _, _, _, _, _, _) => HandleAppend(BecomeFollower(n, m.term, m.from), m)
    case Heartbeat(_, _, _, _, _) => HandleHeartbeat(BecomeFollower(n, m.term, m.from), m)
    case VoteResp(_, _, _, pre, _, _, _) =>
      if (n.role == PreCandidate) == pre then HandleVoteResp(cfg, n, m) else Done(n, {})
    case _ => Done(n, {})
  }

  /** step_follower (src/raft.rs:2355-2461). */
  function StepFollower(n: Node, m: Message): Outcome {
    match m
    case AppendMsg(_, _, _, _, _, _, _) => HandleAppend(n.(leaderId := m.from), m)
    case Heartbeat(_, _, _, _, _) => HandleHeartbeat(n.(leaderId := m.from), m)
    case ReadIndex(from, _, _, req) =>
      if n.leaderId == INVALID_ID then Done(n, {})
      else Done(n, {ReadIndex(if from == INVALID_ID then n.id else from, n.leaderId, 0, req)})
    case ReadIndexResp(_, _, _, index, req) =>
      CommitMatching(n.(readStates := n.readStates + [ReadState(index, req)]), index, m.term)
    case _ => Done(n, {})
  }

  /** step_leader (src/raft.rs:2052-2223). */
  ghost function StepLeader(cfg: JointConfig, n: Node, m: Message): Outcome {
    match m
    case AppendResp(_, _, _, _, _, _, _, _) => HandleAppendResp(cfg, n, m)
    case HeartbeatResp(_, _, _, _, _) => HandleHeartbeatResp(cfg, n, m)
    case ReadIndex(from, _, _, req) => HandleReadIndex(cfg, n, from, req)
    case _ => Done(n, {})
  }

  ghost function StepRole(cfg: JointConfig, n: Node, m: Message): Outcome {
    if m.RequestVote? then HandleVoteRequest(n, m)
    else match n.role
         case Follower => StepFollower(n, m)
         case Leader => StepLeader(cfg, n, m)
         case _ => StepCandidate(cfg, n, m)
  }

  /** A message from an earlier term (src/raft.rs:1423-1485). */
  function StepLower(n: Node, m: Message): Outcome {
    if (n.checkQuorum || n.preVote) && (m.Heartbeat? || m.AppendMsg?) then
      Done(n, {AppendResp(n.id, m.from, n.term, 0, false, 0, 0, 0)})
    else if m.RequestVote? && m.pre then Done(n, {VoteResp(n.id, m.from, n.term, true, true, 0, 0)})
    else Done(n, {})
  }

  /** A pre-vote is for a future term and moves nobody into it (src/raft.rs:1393-1404). */
  predicate KeepsTerm(m: Message) {
    (m.RequestVote? && m.pre) || (m.VoteResp? && m.pre && !m.reject)
  }

  /** step (src/raft.rs:1353-1544). */
  ghost function Step(cfg: JointConfig, n: Node, m: Message): Outcome {
    if m.term == 0 then StepRole(cfg, n, m)
    else if m.term > n.term then
      if KeepsTerm(m) then StepRole(cfg, n, m)
      else StepRole(cfg, BecomeFollower(n, m.term, if m.AppendMsg? || m.Heartbeat? then m.from else INVALID_ID), m)
    else if m.term < n.term then StepLower(n, m)
    else StepRole(cfg, n, m)
  }

  // What a leader does on its own -----------------------------------------------------------------

  /** MsgPropose (src/raft.rs:2070-2151): a leader appends, and dies of an empty batch. */
  function Propose(n: Node, data: seq<int>): Outcome {
    if n.role != Leader then Done(n, {})
    else if data == [] then Fatal
    else Done(AppendEntries(n, data), {})
  }

  /** Whether the notice that (`index`, `term`) is on disk is news about this log (src/raft_log.rs:545-574). */
  predicate IsNotice(n: Node, index: nat, term: nat) {
    n.persisted < index <= |n.log| && TermAt(n.log, index) == term
  }

  /** on_persist_entries (src/raft.rs:1067-1089): a leader counts its own log as far as it is known to be on disk. */
  ghost function Persisted(cfg: JointConfig, n: Node, index: nat, term: nat): Outcome {
    if !IsNotice(n, index, term) then Done(n, {})
    else if n.role != Leader || n.id !in n.progress then Done(n.(persisted := index), {})
    else
      var (p, news) := n.progress[n.id].MaybeUpdate(index);
      var r := SetProgress(n, n.id, p).(persisted := index);
      if news then MaybeCommit(cfg, r) else Done(r, {})
  }

  /** enable_group_commit (src/raft.rs:521-526): turning groups off may let a leader commit. */
  ghost function EnableGroups(cfg: JointConfig, n: Node, enable: bool): Outcome {
    var r := n.(groupCommit := enable);
    if n.role == Leader && !enable then MaybeCommit(cfg, r) else Done(r, {})
  }

  /** Puts each listed peer into its group, in order; unknown peers are skipped. */
  function Assign(progress: map<NodeId, Progress>, ids: seq<(NodeId, nat)>): map<NodeId, Progress> {
    if ids == [] then progress
    else
      var (j, g) := ids[|ids| - 1];
      var ps := Assign(progress, ids[..|ids| - 1]);
      if j in ps then ps[j := ps[j].(group := g)] else ps
  }

  predicate ZeroGroup(ids: seq<(NodeId, nat)>) {
    exists k :: 0 <= k < |ids| && ids[k].1 == 0
  }

  /** assign_commit_groups (src/raft.rs:540-553) dies of a group 0. */
  ghost function AssignGroups(cfg: JointConfig, n: Node, ids: seq<(NodeId, nat)>): Outcome {
    var r := n.(progress := Assign(n.progress, ids));
    if ZeroGroup(ids) then Fatal
    else if n.role == Leader && n.groupCommit then MaybeCommit(cfg, r) else Done(r, {})
  }

  /** clear_commit_group (src/raft.rs:556-560). */
  function ClearGroups(n: Node): Outcome {
    Done(n.(progress := map j | j in n.progress :: n.progress[j].(group := 0)), {})
  }

  /** handle_unreachable (src/raft.rs:2027-2050): a peer that may have missed an append is probed again. */
  function Unreachable(n: Node, peer: NodeId): Outcome {
    if n.role == Leader && peer in n.progress && n.progress[peer].state == Replicate
    then Done(SetProgress(n, peer, n.progress[peer].BecomeProbe()), {}) else Done(n, {})
  }

  /** adjust_max_inflight_msgs (src/raft.rs:2968-2972). */
  function Resize(n: Node, peer: NodeId, cap: nat): Outcome {
    if peer in n.progress
    then Done(SetProgress(n, peer, n.progress[peer].(ins := n.progress[peer].ins.SetCap(cap))), {}) else Done(n, {})
  }

  /**
   maybe_send_append (src/raft.rs:801-859) for a peer that needs no snapshot. The byte limit on a message lets
   through any `count` of the entries that are due, but at least one.
   */
  function SendAppend(n: Node, to: NodeId, allowEmpty: bool, count: nat): Outcome {
    if n.role != Leader || to !in n.progress || to == n.id then Done(n, {})
    else
      var pr := n.progress[to];
      if pr.IsPaused() then Done(n, {})
      else if pr.nextIdx == 0 || pr.state == Snapshot then Fatal
      else
        var due := if pr.nextIdx > |n.log| then [] else n.log[pr.nextIdx - 1..];
        var ents := due[..Min(if count == 0 then 1 else count, |due|)];
        if ents == [] && !allowEmpty then Done(n, {})
        else
          Done(if ents == [] then n else SetProgress(n, to, pr.UpdateState(ents[|ents| - 1].index)),
               {AppendMsg(n.id, to, n.term, pr.nextIdx - 1, TermAt(n.log, pr.nextIdx - 1), ents, n.committed)})
  }

  /** send_heartbeat (src/raft.rs:862-884), with the context of a read that is still queued. */
  function SendHeartbeat(n: Node, to: NodeId, ctx: Option<Ctx>): Outcome {
    if n.role != Leader || to !in n.progress || to == n.id || (ctx.Some? && ctx.value !in n.readOnly.queue)
    then Done(n, {})
    else Done(n, {Heartbeat(n.id, to, n.term, Min(n.progress[to].matched, n.committed), ctx)})
  }

  /** check_quorum fails and the leader steps down within its term (src/raft.rs:2059-2068). */
  function StepDown(n: Node): Outcome {
    Done(if n.role == Leader then BecomeFollower(n, n.term, INVALID_ID) else n, {})
  }

  /** A crash and restart from the term, vote, log and commit index on disk (src/raft.rs:388-396). */
  function Restart(n: Node): Outcome {
    Done(BecomeFollower(n.(persisted := |n.log|), n.term, INVALID_ID).(readStates := []), {})
  }
}
