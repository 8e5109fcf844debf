/**
 What the other messages and events make a node do: which entries it then holds, what it answers and to whom, and how
 its view of a peer changes. Elections are in `Elections`, commits of a leader in `CommitRule`, releases of reads in
 `ReadReplies`.
 */
module Reactions {
  import opened Options
  import opened Quorum
  import opened LogModel
  import opened Numbers
  import opened WindowModel
  import opened ProgressModel
  import opened ReadOnlyModel
  import opened RaftNode
  import opened Backtrack
  import opened ClusterLeader

  /** A message of the leader of the node's term, or of a later one: whoever gets it follows the sender. */
  predicate FromNewLeader(n: Node, m: Message) {
    (m.AppendMsg? || m.Heartbeat?) && m.term >= 1 && (m.term > n.term || (m.term == n.term && n.role != Leader))
  }

  ghost predicate FollowsSender(n: Node, m: Message, n': Node) {
    && n'.role == Follower && n'.term == m.term && n'.leaderId == m.from && n'.id == n.id
    && n'.vote == (if m.term > n.term then INVALID_ID else n.vote) && n'.readStates == n.readStates
    && (n.role != Follower || m.term > n.term ==> n'.readOnly == NoReads() && n'.votes == map[])
  }

  /** The node that handles a message of its leader: already a follower of the sender. */
  function Following(n: Node, m: Message): Node {
    if m.term == n.term && n.role == Follower then n.(leaderId := m.from) else BecomeFollower(n, m.term, m.from)
  }

  lemma FollowsFirst(cfg: JointConfig, n: Node, m: Message)
    requires FromNewLeader(n, m)
    ensures var r := Following(n, m);
            && FollowsSender(n, m, r) && r.log == n.log && r.committed == n.committed && r.persisted == n.persisted
            && Step(cfg, n, m) == if m.AppendMsg? then HandleAppend(r, m) else HandleHeartbeat(r, m)
  {
    hide HandleAppend, HandleHeartbeat, ResetProgress;
  }

  // Appends ---------------------------------------------------------------------------------------

  /** `c` is the index of the first of `es` whose term the log does not have there; 0 if it has them all. */
  ghost predicate FirstDiffers(log: Log, es: Log, c: nat) {
    || (c == 0 && forall j :: 0 <= j < |es| ==> TermAt(log, es[j].index) == es[j].term)
    || exists j :: 0 <= j < |es| && es[j].index == c && TermAt(log, c) != es[j].term
                   && forall i :: 0 <= i < j ==> TermAt(log, es[i].index) == es[i].term
  }

  lemma {:induction false} ConflictMeaning(log: Log, es: Log)
    requires forall j :: 0 <= j < |es| ==> es[j].index > 0
    ensures FirstDiffers(log, es, FindConflict(log, es))
  {
    if es != [] && TermAt(log, es[0].index) == es[0].term {
      var c := FindConflict(log, es[1..]);
      ConflictMeaning(log, es[1..]);
      if c != 0 {
        var j :| 0 <= j < |es[1..]| && es[1..][j].index == c && TermAt(log, c) != es[1..][j].term
                 && forall i :: 0 <= i < j ==> TermAt(log, es[1..][i].index) == es[1..][i].term;
        assert es[j + 1].index == c;
        assert forall i :: 0 < i < j + 1 ==> es[i] == es[1..][i - 1];
      } else {
        assert forall j :: 0 < j < |es| ==> es[j] == es[1..][j - 1];
        OnlyZero(log, es[1..]);
      }
    }
  }

  lemma OnlyZero(log: Log, es: Log)
    requires FirstDiffers(log, es, 0) && forall j :: 0 <= j < |es| ==> es[j].index > 0
    ensures forall j :: 0 <= j < |es| ==> TermAt(log, es[j].index) == es[j].term
  {
  }

  /** The log keeps what is before index `c`, and has the entries of the message from there on. */
  ghost predicate StoredFrom(log: Log, prev: nat, es: Log, c: nat, log': Log) {
    if c == 0 then log' == log
    else prev < c <= prev + |es| && c <= |log| + 1 && log' == log[..c - 1] + es[c - prev - 1..]
  }

  ghost predicate SameStored(n: Node, n': Node) {
    n'.log == n.log && n'.committed == n.committed && n'.persisted == n.persisted
  }

  /** The anchor is there: the log takes everything from the first difference on, and the commit index follows. */
  ghost predicate Stores(n: Node, m: Message, n': Node, out: set<Message>)
    requires m.AppendMsg?
  {
    var last := m.index + |m.entries|;
    && (exists c: nat :: FirstDiffers(n.log, m.entries, c) && StoredFrom(n.log, m.index, m.entries, c, n'.log)
                         && n'.persisted == if c > 0 then Min(n.persisted, c - 1) else n.persisted)
    && n'.committed == Max(n.committed, Min(m.commit, last))
    && out == {AppendResp(n.id, m.from, m.term, last, false, 0, 0, n'.committed)}
  }

  /** The anchor is not there: a refusal with the largest index whose term is not above the anchor's. */
  ghost predicate RefusesWithHint(n: Node, m: Message, out: set<Message>)
    requires m.AppendMsg?
  {
    exists hint: nat ::
      && IsLastUpTo(n.log, Min(m.index, |n.log|), m.logTerm, hint)
      && out == {AppendResp(n.id, m.from, m.term, m.index, true, hint, TermAt(n.log, hint), n.committed)}
  }

  /**
   An append is answered to its sender. Below the commit index the answer is the commit index; otherwise the anchor
   decides.
   */
  ghost predicate AppendsRightly(n: Node, m: Message, n': Node, out: set<Message>)
    requires m.AppendMsg?
  {
    if m.index < n.committed then
      SameStored(n, n') && out == {AppendResp(n.id, m.from, m.term, n.committed, false, 0, 0, n.committed)}
    else if TermAt(n.log, m.index) != m.logTerm then SameStored(n, n') && RefusesWithHint(n, m, out)
    else Stores(n, m, n', out)
  }

  lemma StoresRightly(n: Node, m: Message)
    requires m.AppendMsg? && n.term == m.term && forall j :: 0 <= j < |m.entries| ==> m.entries[j].index > 0
    requires m.index >= n.committed && TermAt(n.log, m.index) == m.logTerm && HandleAppend(n, m).Done?
    ensures Stores(n, m, HandleAppend(n, m).node, HandleAppend(n, m).out)
  {
    hide FindConflict, TermAt, FirstDiffers, LastUpTo;
    ConflictMeaning(n.log, m.entries);
    var c, d := FindConflict(n.log, m.entries), HandleAppend(n, m);
    assert StoredFrom(n.log, m.index, m.entries, c, d.node.log);
  }

  /** As a leader sends it: the entries follow the anchor, and only the start of the log has term 0. */
  ghost predicate Proper(m: Message)
    requires m.AppendMsg?
  {
    && (m.index > 0 ==> m.logTerm > 0)
    && forall j :: 0 <= j < |m.entries| ==> m.entries[j].index == m.index + 1 + j && m.entries[j].term > 0
  }

  /** No append that is properly built kills a node, whatever its log: what is committed is never overwritten. */
  lemma ProperSurvives(n: Node, m: Message)
    requires m.AppendMsg? && Proper(m)
    ensures HandleAppend(n, m).Done?
  {
    hide FindConflict;
    if m.index >= n.committed && TermAt(n.log, m.index) == m.logTerm {
      ConflictMeaning(n.log, m.entries);
      var c := FindConflict(n.log, m.entries);
      if c == 0 {
        OnlyZero(n.log, m.entries);
        assert m.entries != [] ==> TermAt(n.log, m.entries[|m.entries| - 1].index) > 0;
      } else {
        var j :| 0 <= j < |m.entries| && m.entries[j].index == c
                 && forall i :: 0 <= i < j ==> TermAt(n.log, m.entries[i].index) == m.entries[i].term;
        assert j > 0 ==> TermAt(n.log, m.entries[j - 1].index) > 0;
      }
    }
  }

  lemma HandleAppendDoes(n: Node, m: Message)
    requires m.AppendMsg? && n.term == m.term && forall j :: 0 <= j < |m.entries| ==> m.entries[j].index > 0
    ensures var d := HandleAppend(n, m);
            d.Done? ==>
              && AppendsRightly(n, m, d.node, d.out)
              && d.node == n.(log := d.node.log, committed := d.node.committed, persisted := d.node.persisted)
  {
    hide LastUpTo, Stores, TermAt, FindConflict, IsLastUpTo;
    if HandleAppend(n, m).Done? {
      if m.index >= n.committed && TermAt(n.log, m.index) == m.logTerm {
        StoresRightly(n, m);
      } else {
        HintMeaning(n.log, Min(m.index, |n.log|), m.logTerm);
      }
    }
  }

  lemma AppendDoes(cfg: JointConfig, n: Node, m: Message)
    requires FromNewLeader(n, m) && m.AppendMsg? && forall j :: 0 <= j < |m.entries| ==> m.entries[j].index > 0
    ensures var d := Step(cfg, n, m);
            && (d.Done? ==> FollowsSender(n, m, d.node) && AppendsRightly(n, m, d.node, d.out))
            && (Proper(m) ==> d.Done?)
  {
    hide Step, HandleAppend, BecomeFollower, Stores, RefusesWithHint, TermAt;
    FollowsFirst(cfg, n, m);
    var r := Following(n, m);
    HandleAppendDoes(r, m);
    if Proper(m) {
      ProperSurvives(r, m);
    }
    var d := Step(cfg, n, m);
    if d.Done? {
      SameRight(n, r, m, d.node, d.out);
    }
  }

  lemma SameRight(n: Node, r: Node, m: Message, n': Node, out: set<Message>)
    requires m.AppendMsg? && AppendsRightly(r, m, n', out)
    requires r.id == n.id && r.log == n.log && r.committed == n.committed && r.persisted == n.persisted
    ensures AppendsRightly(n, m, n', out)
  {
    hide FirstDiffers, StoredFrom, IsLastUpTo, TermAt;
  }

  /** `i` is the largest index up to `index` whose term is at most `term`. */
  ghost predicate IsLastUpTo(log: Log, index: nat, term: nat, i: nat) {
    i <= index && TermAt(log, i) <= term && forall j :: i < j <= index ==> TermAt(log, j) > term
  }

  lemma HintMeaning(log: Log, index: nat, term: nat)
    requires index <= |log|
    ensures IsLastUpTo(log, index, term, LastUpTo(log, index, term))
  {
    LastUpToMeaning(log, index, term);
  }

  // Heartbeats ------------------------------------------------------------------------------------

  /** A heartbeat raises the commit index as far as it says, dies past the end, and is answered with its context. */
  lemma HeartbeatDoes(cfg: JointConfig, n: Node, m: Message)
    requires FromNewLeader(n, m) && m.Heartbeat?
    ensures var d := Step(cfg, n, m);
            && (d.Fatal? <==> m.commit > n.committed && m.commit > |n.log|)
            && (d.Done? ==>
                  && FollowsSender(n, m, d.node) && d.node.log == n.log && d.node.persisted == n.persisted
                  && d.node.committed == Max(n.committed, m.commit)
                  && d.out == {HeartbeatResp(n.id, m.from, m.term, d.node.committed, m.ctx)})
  {
    hide Step, ResetProgress;
    FollowsFirst(cfg, n, m);
    hide BecomeFollower;
  }

  /** The peer is resumed, one place of a full window is free, and nothing else about it changes but its commit. */
  ghost predicate Resumed(p: Progress, commit: nat, q: Progress) {
    && q.matched == p.matched && q.nextIdx == p.nextIdx && q.state == p.state && q.group == p.group
    && q.recentActive && !q.paused && q.committedIndex == Max(p.committedIndex, commit)
    && q.ins == if p.state == Replicate && p.ins.Full() then p.ins.FreeFirstOne() else p.ins
  }

  /** Counting a read acknowledgement touches only reads, and dies only of a queue that disagrees with its map. */
  lemma AckTouchesReads(cfg: JointConfig, n: Node, from: NodeId, ctx: Ctx)
    ensures var d := CountReadAck(cfg, n, from, ctx);
            && (n.readOnly.Valid() ==> d.Done?)
            && (d.Done? ==> d.node == n.(readOnly := d.node.readOnly, readStates := d.node.readStates))
  {
  }

  ghost predicate OnlyResumes(n: Node, m: Message, d: Outcome)
    requires m.HeartbeatResp? && m.from in n.progress
  {
    && (m.ctx.None? || n.readOnly.Valid() ==> d.Done?)
    && (d.Done? ==>
          && m.from in d.node.progress && Resumed(n.progress[m.from], m.commit, d.node.progress[m.from])
          && d.node == SetProgress(n, m.from, d.node.progress[m.from])
                       .(readOnly := d.node.readOnly, readStates := d.node.readStates)
          && (m.ctx.None? ==> d.out == {} && d.node.readOnly == n.readOnly && d.node.readStates == n.readStates))
  }

  lemma HandlerResumes(cfg: JointConfig, n: Node, m: Message)
    requires m.HeartbeatResp? && m.from in n.progress
    ensures OnlyResumes(n, m, HandleHeartbeatResp(cfg, n, m))
  {
    hide CountReadAck, Window.Full, Window.FreeFirstOne;
    var pr := n.progress[m.from].UpdateCommitted(m.commit).(recentActive := true).Resume();
    var q := if pr.state == Replicate && pr.ins.Full() then pr.(ins := pr.ins.FreeFirstOne()) else pr;
    if m.ctx.Some? {
      AckTouchesReads(cfg, SetProgress(n, m.from, q), m.from, m.ctx.value);
    }
  }

  /** A response resumes the peer that sent it. Only one that names a read does more, and then only to reads. */
  lemma ResponseResumes(cfg: JointConfig, n: Node, m: Message)
    requires m.HeartbeatResp? && n.role == Leader && m.term == n.term >= 1 && m.from in n.progress
    ensures OnlyResumes(n, m, Step(cfg, n, m))
  {
    hide OnlyResumes, HandleHeartbeatResp;
    HandlerResumes(cfg, n, m);
  }

  // What a leader learns from append responses ----------------------------------------------------

  /** An acknowledgement that is no news moves at most the next index. */
  lemma OldAck(cfg: JointConfig, n: Node, m: Message)
    requires m.AppendResp? && !m.reject && n.role == Leader && m.term == n.term >= 1 && m.from in n.progress
    requires m.index <= n.progress[m.from].matched
    ensures var p := n.progress[m.from];
            Step(cfg, n, m)
            == Done(SetProgress(n, m.from, p.(recentActive := true, committedIndex := Max(p.committedIndex, m.commit),
                                              nextIdx := Max(p.nextIdx, m.index + 1))), {})
  {
  }

  /** News makes a probed peer replicate right after it, and frees the window of a replicating one up to it. */
  lemma NewsMovesPeer(p: Progress, index: nat)
    requires index > p.matched && p.state != Snapshot
    ensures var (q, news) := p.MaybeUpdate(index);
            var r := AfterUpdate(q, index);
            && news && r.matched == index && !r.paused && r.state == Replicate
            && (p.state == Probe ==> r.nextIdx == index + 1 && r.ins.items == [])
            && (p.state == Replicate ==> r.nextIdx == Max(p.nextIdx, index + 1) && r.ins == p.ins.FreeTo(index))
  {
  }

  /**
   A rejection: a replicating peer is probed again right after what it is known to hold, unless the rejection is old;
   any other one keeps its state and is sent to from its hint, never below that, and only if it rejects the last probe.
   */
  lemma RejectionDoes(cfg: JointConfig, n: Node, m: Message)
    requires m.AppendResp? && m.reject && n.role == Leader && m.term == n.term >= 1 && m.from in n.progress
    ensures var p, d := n.progress[m.from], Step(cfg, n, m);
            var probe := if m.logTerm > 0 then LastUpTo(n.log, m.rejectHint, m.logTerm) else m.rejectHint;
            && d.Done? && d.out == {} && d.node == SetProgress(n, m.from, d.node.progress[m.from])
            && var q := d.node.progress[m.from];
            && q.matched == p.matched && q.recentActive && q.committedIndex == Max(p.committedIndex, m.commit)
            && if p.state == Replicate then
                 if m.index > p.matched then q.state == Probe && q.nextIdx == p.matched + 1 && !q.paused
                 else q.state == Replicate && q.nextIdx == p.nextIdx && q.ins == p.ins
               else if p.nextIdx == m.index + 1 then
                 q.state == p.state && !q.paused && q.nextIdx == Max(p.matched + 1, Min(m.index, probe + 1))
               else q.state == p.state && q.nextIdx == p.nextIdx && q.paused == p.paused
  {
    hide LastUpTo;
  }

  // Reads -----------------------------------------------------------------------------------------

  /**
   A leader drops a read until it has committed in its own term. A single voter answers at once; otherwise the read is
   queued with the commit index, the node it came from and the leader's own acknowledgement, unless it is queued.
   */
  lemma ReadRequestDoes(cfg: JointConfig, n: Node, from: NodeId, to: NodeId, ctx: Ctx)
    requires n.role == Leader
    ensures var d := Step(cfg, n, ReadIndex(from, to, 0, ctx));
            && d.Done?
            && if TermAt(n.log, n.committed) != n.term || (!cfg.IsSingleton() && ctx in n.readOnly.pending) then
                 d == Done(n, {})
               else if cfg.IsSingleton() then
                 if from == INVALID_ID || from == n.id
                 then d == Done(n.(readStates := n.readStates + [ReadState(n.committed, ctx)]), {})
                 else d == Done(n, {ReadIndexResp(n.id, from, n.term, n.committed, ctx)})
               else
                 && d.out == {} && d.node == n.(readOnly := d.node.readOnly)
                 && d.node.readOnly.queue == n.readOnly.queue + [ctx]
                 && d.node.readOnly.pending
                    == n.readOnly.pending[ctx := ReadStatus(ctx, from, n.committed, {n.id})]
  {
    if cfg.IsSingleton() && TermAt(n.log, n.committed) == n.term {
      var st := ReadStatus(ctx, from, n.committed, {n.id});
      assert LocalReads(n, [st][1..]) == [];
      var out := set x | x in [st] && !IsLocal(n, x) :: ReadResp(n, x);
      assert IsLocal(n, st) ==> out == {};
      assert !IsLocal(n, st) ==> out == {ReadResp(n, st)};
      assert n.readStates + [] == n.readStates;
    }
  }

  /** A follower passes a read on to its leader in the name of whoever made it, or drops it; others drop it. */
  lemma ReadIsRelayed(cfg: JointConfig, n: Node, from: NodeId, to: NodeId, ctx: Ctx)
    requires n.role != Leader
    ensures Step(cfg, n, ReadIndex(from, to, 0, ctx))
            == Done(n, if n.role == Follower && n.leaderId != INVALID_ID
                       then {ReadIndex(if from == INVALID_ID then n.id else from, n.leaderId, 0, ctx)} else {})
  {
  }

  /** A follower keeps the answer, and commits its index if the log has the leader's term there. */
  lemma ReadAnswerKept(cfg: JointConfig, n: Node, m: Message)
    requires m.ReadIndexResp? && n.role == Follower && m.term == n.term >= 1
    ensures Step(cfg, n, m)
            == Done(n.(readStates := n.readStates + [ReadState(m.index, m.req)],
                       committed := if m.index > n.committed && TermAt(n.log, m.index) == n.term then m.index
                                    else n.committed), {})
  {
  }

  // Terms -----------------------------------------------------------------------------------------

  /** A message of an earlier term changes nothing; some senders are told the current term. */
  lemma EarlierTerm(cfg: JointConfig, n: Node, m: Message)
    requires 1 <= m.term < n.term
    ensures Step(cfg, n, m)
            == Done(n, if (n.checkQuorum || n.preVote) && (m.Heartbeat? || m.AppendMsg?)
                       then {AppendResp(n.id, m.from, n.term, 0, false, 0, 0, 0)}
                       else if m.RequestVote? && m.pre then {VoteResp(n.id, m.from, n.term, true, true, 0, 0)} else {})
  {
  }

  /** A response of a later term makes a follower of that term without a leader, and nothing more. */
  lemma LaterResponse(cfg: JointConfig, n: Node, m: Message)
    requires m.term > n.term
    requires m.AppendResp? || m.HeartbeatResp? || (m.VoteResp? && (!m.pre || m.reject))
    ensures var d := Step(cfg, n, m);
            && d.Done? && d.out == {} && d.node.role == Follower && d.node.term == m.term
            && d.node.vote == INVALID_ID && d.node.leaderId == INVALID_ID && d.node.votes == map[]
            && d.node.readOnly == NoReads() && d.node.log == n.log && d.node.committed == n.committed
            && d.node.persisted == n.persisted && d.node.readStates == n.readStates
  {
    hide ResetProgress;
  }

  // What a node does on its own -------------------------------------------------------------------

  /** A leader's proposals are appended in order, with its term and the next indexes. */
  lemma ProposeDoes(n: Node, data: seq<int>)
    requires n.role == Leader && data != []
    ensures var d := Propose(n, data);
            && d.Done? && d.out == {} && d.node == n.(log := d.node.log) && n.log <= d.node.log
            && |d.node.log| == |n.log| + |data|
            && forall k :: 0 <= k < |data| ==> d.node.log[|n.log| + k] == Entry(n.term, |n.log| + 1 + k, data[k])
  {
  }

  /** A heartbeat tells a peer no more than it is known to hold, and carries a read only while that is queued. */
  lemma HeartbeatSent(n: Node, to: NodeId, ctx: Option<Ctx>)
    requires n.role == Leader && to in n.progress && to != n.id
    ensures SendHeartbeat(n, to, ctx)
            == Done(n, if ctx.Some? && ctx.value !in n.readOnly.queue then {}
                       else {Heartbeat(n.id, to, n.term, Min(n.progress[to].matched, n.committed), ctx)})
  {
  }

  /** A probed peer is paused by entries; a replicating one moves on past them, and its window gets their last index. */
  function MovedOn(p: Progress, c: nat): Progress
    requires p.nextIdx >= 1
  {
    if c == 0 then p
    else if p.state == Probe then p.(paused := true)
    else p.(nextIdx := p.nextIdx + c, ins := p.ins.(items := p.ins.items + [p.nextIdx - 1 + c]))
  }

  lemma NothingToSnapshot(n: Node, to: NodeId, allowEmpty: bool, count: nat)
    requires to in n.progress && n.progress[to].state == Snapshot
    ensures n.progress[to].IsPaused() && SendAppend(n, to, allowEmpty, count) == Done(n, {})
  {
  }

  /**
   An append goes out unless the peer is paused or, if it may not be empty, nothing is due. It is anchored right before
   the peer's next index and carries what follows.
   */
  lemma AppendSent(n: Node, to: NodeId, allowEmpty: bool, count: nat)
    requires n.role == Leader && to in n.progress && to != n.id && n.progress[to].nextIdx >= 1
    requires forall k :: 0 <= k < |n.log| ==> n.log[k].index == k + 1
    ensures var p, d := n.progress[to], SendAppend(n, to, allowEmpty, count);
            var c, prev := Due(n, to, count), p.nextIdx - 1;
            && d.Done? && (p.state == Snapshot ==> d == Done(n, {}))
            && if p.IsPaused() || (c == 0 && !allowEmpty) then d == Done(n, {})
               else
                 && d.out == {AppendMsg(n.id, to, n.term, prev, TermAt(n.log, prev),
                                        if c == 0 then [] else n.log[prev..prev + c], n.committed)}
                 && d.node == SetProgress(n, to, MovedOn(p, c))
  {
    hide TermAt, Progress.IsPaused, SendAppend, ClusterLeader.Due;
    var p := n.progress[to];
    if p.state == Snapshot {
      NothingToSnapshot(n, to, allowEmpty, count);
    } else {
      SendShape(n, to, allowEmpty, count);
      assert n.progress[to := p] == n.progress;
    }
  }

  /** Stepping down and restarting keep term, vote, log and commit index; a restart knows all of the log persisted. */
  lemma StepDownDoes(n: Node)
    ensures var d := StepDown(n);
            && d.Done? && d.out == {} && (n.role != Leader ==> d.node == n)
            && (n.role == Leader ==>
                  && d.node.role == Follower && d.node.term == n.term && d.node.vote == n.vote
                  && d.node.log == n.log && d.node.committed == n.committed && d.node.persisted == n.persisted
                  && d.node.leaderId == INVALID_ID && d.node.readOnly == NoReads() && d.node.readStates == n.readStates)
    ensures var d := Restart(n);
            && d.Done? && d.out == {} && d.node.role == Follower && d.node.term == n.term && d.node.vote == n.vote
            && d.node.log == n.log && d.node.committed == n.committed && d.node.persisted == |n.log|
            && d.node.leaderId == INVALID_ID && d.node.readOnly == NoReads() && d.node.readStates == []
            && d.node.votes == map[]
  {
    hide ResetProgress;
  }

  /** A peer's window is full from its new capacity on, and nothing else changes; clearing groups leaves nobody one. */
  lemma ResizeDoes(n: Node, peer: NodeId, cap: nat)
    requires peer in n.progress && |n.progress[peer].ins.items| <= n.progress[peer].ins.cap
    ensures var p, d := n.progress[peer], Resize(n, peer, cap);
            && d.Done? && d.out == {} && d.node == SetProgress(n, peer, p.(ins := d.node.progress[peer].ins))
            && d.node.progress[peer].ins.items == p.ins.items
            && (d.node.progress[peer].ins.Full() <==> |p.ins.items| >= cap)
    ensures var d := ClearGroups(n);
            && d.Done? && d.out == {} && d.node == n.(progress := d.node.progress)
            && d.node.progress.Keys == n.progress.Keys
            && forall j <- n.progress :: d.node.progress[j] == n.progress[j].(group := 0)
  {
    CapacityCounts(n.progress[peer].ins, cap);
  }

  /** A snapshot peer is probed again exactly when it is known to hold as much as the snapshot. */
  lemma SnapshotPeerProbed(p: Progress, index: nat)
    requires p.state == Snapshot && index > p.matched
    ensures var r := AfterUpdate(p.MaybeUpdate(index).0, index);
            && r.matched == index && (r.state == Probe <==> index >= p.pendingSnapshot)
            && (r.state == Probe ==> r.nextIdx == index + 1) && (r.state != Probe ==> r.state == Snapshot)
  {
  }

  /** A peer that is reported lost is probed right after what it is known to hold; others stay as they are. */
  lemma LostPeerProbed(n: Node, peer: NodeId)
    requires n.role == Leader && peer in n.progress
    ensures var p, d := n.progress[peer], Unreachable(n, peer);
            && d.Done? && d.out == {} && d.node == SetProgress(n, peer, d.node.progress[peer])
            && var q := d.node.progress[peer];
            if p.state == Replicate
            then q.state == Probe && q.nextIdx == p.matched + 1 && q.matched == p.matched && !q.paused
                 && q.ins.items == []
            else q == p
  {
    if n.progress[peer].state != Replicate {
      assert n.progress[peer := n.progress[peer]] == n.progress;
    }
  }
}
