/**
 Who gets the answer to a read: every request that is released is answered to the node that made it, and every answer
 goes to a node that asked.
 */
module ReadReplies {
  import opened Options
  import opened Quorum
  import opened ProgressModel
  import opened ReadOnlyModel
  import opened RaftNode
  import opened Cluster
  import opened ClusterRuns
  import opened ClusterTheorems

  predicate Local(n: Node, from: NodeId) {
    from == INVALID_ID || from == n.id
  }

  // A release -------------------------------------------------------------------------------------

  /** Request `st` for context `c` is answered: to its sender, or among the read states if it was made here. */
  predicate Answered(n: Node, st: ReadStatus, c: Ctx, n': Node, out: set<Message>) {
    if Local(n, st.from) then ReadState(st.index, c) in n'.readStates
    else ReadIndexResp(n.id, st.from, n.term, st.index, c) in out
  }

  /** Every message and every new read state answers one of the requests. */
  ghost predicate NothingElse(n: Node, sts: seq<ReadStatus>, n': Node, out: set<Message>) {
    && n.readStates <= n'.readStates
    && (forall m <- out :: exists st :: st in sts && !Local(n, st.from)
                                        && m == ReadIndexResp(n.id, st.from, n.term, st.index, st.ctx))
    && forall r | r in n'.readStates[|n.readStates|..] ::
         exists st :: st in sts && Local(n, st.from) && r == ReadState(st.index, st.ctx)
  }

  lemma {:induction false} LocalReadsHold(n: Node, sts: seq<ReadStatus>)
    ensures forall st | st in sts && Local(n, st.from) :: ReadState(st.index, st.ctx) in LocalReads(n, sts)
    ensures forall r | r in LocalReads(n, sts) ::
              exists st :: st in sts && Local(n, st.from) && r == ReadState(st.index, st.ctx)
  {
    if sts != [] {
      LocalReadsHold(n, sts[1..]);
      assert sts == [sts[0]] + sts[1..];
    }
  }

  lemma ReleaseAnswers(n: Node, sts: seq<ReadStatus>)
    ensures var d := ReleaseReads(n, sts);
            && d.Done? && d.node == n.(readStates := d.node.readStates)
            && (forall st | st in sts :: Answered(n, st, st.ctx, d.node, d.out))
            && NothingElse(n, sts, d.node, d.out)
  {
    LocalReadsHold(n, sts);
    hide LocalReads;
    var d := ReleaseReads(n, sts);
    assert d.node.readStates[|n.readStates|..] == LocalReads(n, sts);
    forall st | st in sts
      ensures Answered(n, st, st.ctx, d.node, d.out)
    {
      assert !Local(n, st.from) ==> ReadResp(n, st) in d.out;
    }
  }

  /** A heartbeat response that tells a leader of its term that the sender still follows it, for read `ctx`. */
  predicate Supports(n: Node, m: Message, ctx: Ctx) {
    && m.HeartbeatResp? && n.role == Leader && m.term == n.term >= 1 && m.from in n.progress && m.ctx == Some(ctx)
    && ctx in n.readOnly.pending
  }

  lemma SupportCounts(cfg: JointConfig, n: Node, m: Message, ctx: Ctx)
    requires Supports(n, m, ctx)
    ensures exists p :: Step(cfg, n, m) == CountReadAck(cfg, SetProgress(n, m.from, p), m.from, ctx)
                        && p.matched == n.progress[m.from].matched
  {
    hide CountReadAck;
    var pr := n.progress[m.from].UpdateCommitted(m.commit).(recentActive := true).Resume();
    var pr' := if pr.state == Replicate && pr.ins.Full() then pr.(ins := pr.ins.FreeFirstOne()) else pr;
    assert Step(cfg, n, m) == CountReadAck(cfg, SetProgress(n, m.from, pr'), m.from, ctx);
  }

  /** The requests up to position `k` of the queue, in order. */
  function UpTo(ro: ReadOnly, k: nat): seq<ReadStatus>
    requires k < |ro.queue| && forall c | c in ro.queue :: c in ro.pending
  {
    seq(k + 1, i requires 0 <= i <= k => ro.pending[ro.queue[i]])
  }

  /**
   Everything up to position `k` of the queue of `n` is answered, remote requests to exactly the node they came from;
   nothing else is answered, and what was queued later stays.
   */
  ghost predicate ReleasedUpTo(n: Node, k: nat, n': Node, out: set<Message>) {
    var q, p := n.readOnly.queue, n.readOnly.pending;
    && k < |q| && (forall c | c in q :: c in p) && n'.readOnly.queue == q[k + 1..]
    && (forall c <- n'.readOnly.pending :: c in p && n'.readOnly.pending[c] == p[c])
    && (forall i :: 0 <= i <= k ==> Answered(n, p[q[i]], q[i], n', out))
    && NothingElse(n, UpTo(n.readOnly, k), n', out)
  }

  /** The same queue with one acknowledgement more. */
  ghost predicate OneAckMore(ro: ReadOnly, ctx: Ctx, from: NodeId, ro': ReadOnly) {
    ctx in ro.pending
    && ro' == ReadOnly(ro.pending[ctx := ro.pending[ctx].(acks := ro.pending[ctx].acks + {from})], ro.queue)
  }

  /** The statuses that are released, with the new acknowledgement, and the queue that is left. */
  lemma ReleasedFacts(ro: ReadOnly, from: NodeId, ctx: Ctx, k: nat)
    requires ro.Valid() && ctx in ro.pending && k < |ro.queue| && ro.queue[k] == ctx
    ensures var ro' := ro.RecvAck(from, ctx);
            && ro'.Valid() && OneAckMore(ro, ctx, from, ro') && |ro'.Released(ctx)| == k + 1
            && (forall i :: 0 <= i <= k ==>
                  var st, st' := ro.pending[ro.queue[i]], ro'.Released(ctx)[i];
                  st'.from == st.from && st'.index == st.index && st'.ctx == st.ctx == ro.queue[i])
            && ro'.Advance(ctx).queue == ro.queue[k + 1..]
            && forall c <- ro'.Advance(ctx).pending :: c in ro.pending && ro'.Advance(ctx).pending[c] == ro.pending[c]
  {
    var ro' := ro.RecvAck(from, ctx);
    ro.RecvAckValid(from, ctx);
    assert Position(ro.queue, ctx) == k;
    LeftAlone(ro', ro.pending, ctx, k);
  }

  lemma AdvanceReleases(n: Node, from: NodeId, ctx: Ctx, k: nat)
    requires n.readOnly.Valid() && ctx in n.readOnly.pending && k < |n.readOnly.queue| && n.readOnly.queue[k] == ctx
    ensures var ro := n.readOnly.RecvAck(from, ctx);
            && ro.Valid() && OneAckMore(n.readOnly, ctx, from, ro)
            && var d := ReleaseReads(n.(readOnly := ro.Advance(ctx)), ro.Released(ctx));
               d.Done? && ReleasedUpTo(n, k, d.node, d.out)
  {
    var q, p := n.readOnly.queue, n.readOnly.pending;
    assert forall c | c in q :: c in p;
    hide ReleaseReads, Answered, NothingElse, ReadOnly.Valid, ReadOnly.Advance, ReadOnly.Released, ReadOnly.RecvAck,
         OneAckMore, ReleasedUpTo;
    ReleasedFacts(n.readOnly, from, ctx, k);
    var ro := n.readOnly.RecvAck(from, ctx);
    var sts, r := ro.Released(ctx), n.(readOnly := ro.Advance(ctx));
    ReleaseAnswers(r, sts);
    var d := ReleaseReads(r, sts);
    AllReleased(n, r, sts, k, d.node, d.out);
  }

  lemma AllReleased(n: Node, r: Node, sts: seq<ReadStatus>, k: nat, n': Node, out: set<Message>)
    requires k < |n.readOnly.queue| && forall c | c in n.readOnly.queue :: c in n.readOnly.pending
    requires r == n.(readOnly := r.readOnly) && n' == r.(readStates := n'.readStates) && |sts| == k + 1
    requires forall i :: 0 <= i <= k ==>
               var st := n.readOnly.pending[n.readOnly.queue[i]];
               sts[i].from == st.from && sts[i].index == st.index && sts[i].ctx == st.ctx == n.readOnly.queue[i]
    requires r.readOnly.queue == n.readOnly.queue[k + 1..]
    requires forall c <- r.readOnly.pending :: c in n.readOnly.pending && r.readOnly.pending[c] == n.readOnly.pending[c]
    requires (forall st | st in sts :: Answered(r, st, st.ctx, n', out)) && NothingElse(r, sts, n', out)
    ensures ReleasedUpTo(n, k, n', out)
  {
    hide Answered, NothingElse;
    var q, p := n.readOnly.queue, n.readOnly.pending;
    forall i | 0 <= i <= k
      ensures Answered(n, p[q[i]], q[i], n', out)
    {
      assert sts[i] in sts;
      SameAnswer(n, r, sts[i], p[q[i]], q[i], n', out);
    }
    Stripped(n, r, sts, UpTo(n.readOnly, k), n', out);
  }

  lemma SameAnswer(n: Node, r: Node, st: ReadStatus, st': ReadStatus, c: Ctx, n': Node, out: set<Message>)
    requires Answered(r, st, st.ctx, n', out) && st.ctx == c && st'.from == st.from && st'.index == st.index
    requires r.id == n.id && r.term == n.term
    ensures Answered(n, st', c, n', out)
  {
  }

  /** What stays queued keeps its status. */
  lemma LeftAlone(ro: ReadOnly, p: map<Ctx, ReadStatus>, ctx: Ctx, k: nat)
    requires ro.Valid() && k < |ro.queue| && Position(ro.queue, ctx) == k && ro.queue[k] == ctx
    requires ro.pending.Keys == p.Keys && forall c <- p :: c != ctx ==> ro.pending[c] == p[c]
    ensures forall c <- ro.Advance(ctx).pending :: c in p && ro.Advance(ctx).pending[c] == p[c]
  {
    forall c <- ro.Advance(ctx).pending
      ensures c != ctx
    {
      assert ro.queue[k] == ctx;
    }
  }

  /** Who answers and what is acknowledged does not matter for what an answer says. */
  lemma Stripped(n: Node, r: Node, sts: seq<ReadStatus>, sts': seq<ReadStatus>, n': Node, out: set<Message>)
    requires NothingElse(r, sts, n', out) && r.id == n.id && r.term == n.term && r.readStates == n.readStates
    requires |sts'| == |sts|
    requires forall i :: 0 <= i < |sts| ==> sts'[i].from == sts[i].from && sts'[i].index == sts[i].index
                                            && sts'[i].ctx == sts[i].ctx
    ensures NothingElse(n, sts', n', out)
  {
    forall m <- out
      ensures exists st :: st in sts' && !Local(n, st.from)
                           && m == ReadIndexResp(n.id, st.from, n.term, st.index, st.ctx)
    {
      var st :| st in sts && !Local(r, st.from) && m == ReadIndexResp(r.id, st.from, r.term, st.index, st.ctx);
      var i :| 0 <= i < |sts| && sts[i] == st;
      assert sts'[i] in sts';
    }
    forall x | x in n'.readStates[|n.readStates|..]
      ensures exists st :: st in sts' && Local(n, st.from) && x == ReadState(st.index, st.ctx)
    {
      var st :| st in sts && Local(r, st.from) && x == ReadState(st.index, st.ctx);
      var i :| 0 <= i < |sts| && sts[i] == st;
      assert sts'[i] in sts';
    }
  }

  lemma AckCounts(cfg: JointConfig, n: Node, from: NodeId, ctx: Ctx, k: nat)
    requires n.readOnly.Valid() && ctx in n.readOnly.pending && k < |n.readOnly.queue| && n.readOnly.queue[k] == ctx
    ensures var d := CountReadAck(cfg, n, from, ctx);
            && d.Done?
            && if IsQuorum(cfg, n.readOnly.pending[ctx].acks + {from}) then ReleasedUpTo(n, k, d.node, d.out)
               else d.out == {} && d.node == n.(readOnly := d.node.readOnly)
                    && OneAckMore(n.readOnly, ctx, from, d.node.readOnly)
  {
    AdvanceReleases(n, from, ctx, k);
    hide IsQuorum, ReleaseReads, ReleasedUpTo, ReadOnly.Valid, ReadOnly.Advance, ReadOnly.Released;
  }

  lemma SameRelease(n: Node, r: Node, k: nat, n': Node, out: set<Message>)
    requires ReleasedUpTo(r, k, n', out) && r == n.(progress := r.progress)
    ensures ReleasedUpTo(n, k, n', out)
  {
    hide NothingElse;
    var q, p := n.readOnly.queue, n.readOnly.pending;
    forall i | 0 <= i <= k
      ensures Answered(n, p[q[i]], q[i], n', out)
    {
      assert Answered(r, p[q[i]], q[i], n', out);
    }
    Stripped(n, r, UpTo(n.readOnly, k), UpTo(n.readOnly, k), n', out);
  }

  /**
   In every run: when a heartbeat response completes a quorum for a queued read, that read and every one queued before
   it is answered with its recorded index; otherwise only the acknowledgement is added.
   */
  lemma QuorumReleases(cfg: JointConfig, run: seq<Cluster>, b: nat, m: Message, ctx: Ctx, k: nat)
    requires IsRun(cfg, run) && b < |run| && Enabled(cfg, run[b], Deliver(m)) && Supports(run[b].nodes[m.to], m, ctx)
    requires var q := run[b].nodes[m.to].readOnly.queue; k < |q| && q[k] == ctx
    ensures var n := run[b].nodes[m.to];
            var d := React(cfg, n, Deliver(m));
            && d.Done?
            && if IsQuorum(cfg, n.readOnly.pending[ctx].acks + {m.from}) then ReleasedUpTo(n, k, d.node, d.out)
               else d.out == {} && d.node.readStates == n.readStates
                    && OneAckMore(n.readOnly, ctx, m.from, d.node.readOnly)
  {
    hide IsRun, Step, IsQuorum, CountReadAck, ReleasedUpTo, ReadOnly.Valid;
    var n := run[b].nodes[m.to];
    QueueOfRun(cfg, run, b, m.to);
    SupportCounts(cfg, n, m, ctx);
    var p :| Step(cfg, n, m) == CountReadAck(cfg, SetProgress(n, m.from, p), m.from, ctx)
             && p.matched == n.progress[m.from].matched;
    var r := SetProgress(n, m.from, p);
    AckCounts(cfg, r, m.from, ctx, k);
    var d := Step(cfg, n, m);
    if IsQuorum(cfg, n.readOnly.pending[ctx].acks + {m.from}) {
      SameRelease(n, r, k, d.node, d.out);
    }
  }

  lemma QueueOfRun(cfg: JointConfig, run: seq<Cluster>, b: nat, i: NodeId)
    requires IsRun(cfg, run) && At(run, b, i) && run[b].nodes[i].role == Leader
    ensures run[b].nodes[i].readOnly.Valid()
  {
    hide IsRun;
    RunSafe(cfg, run, b);
    QueueOfState(cfg, run[b], i);
  }

  lemma QueueOfState(cfg: JointConfig, s: Cluster, i: NodeId)
    requires ClusterInv(cfg, s) && i in s.nodes && s.nodes[i].role == Leader
    ensures s.nodes[i].readOnly.Valid()
  {
    hide ReadOnly.Valid;
  }
}
