/** The queue of pending reads as a value: src/read_only.rs. */
module ReadOnlyModel {
  import opened Quorum

  /** A read request's context. */
  type Ctx = nat

  datatype ReadStatus = ReadStatus(ctx: Ctx, from: NodeId, index: nat, acks: set<NodeId>)

  datatype ReadOnly = ReadOnly(pending: map<Ctx, ReadStatus>, queue: seq<Ctx>) {
    function AddRequest(index: nat, ctx: Ctx, from: NodeId, self: NodeId): ReadOnly {
      if ctx in pending then this
      else ReadOnly(pending[ctx := ReadStatus(ctx, from, index, {self})], queue + [ctx])
    }

    /** Records an acknowledgement of the heartbeat that carried `ctx`; unknown contexts are ignored. */
    function RecvAck(id: NodeId, ctx: Ctx): ReadOnly {
      if ctx in pending then this.(pending := pending[ctx := pending[ctx].(acks := pending[ctx].acks + {id})])
      else this
    }

    /** The queue always agrees with the pending map, so the lookups of `advance` cannot fail. */
    ghost predicate Valid() {
      && (forall c <- pending :: c in queue && pending[c].ctx == c)
      && (forall c | c in queue :: c in pending)
      && (forall i, j :: 0 <= i < j < |queue| ==> queue[i] != queue[j])
    }

    /** The requests that `advance(ctx)` releases: everything queued up to and including `ctx`. */
    function Released(ctx: Ctx): seq<ReadStatus>
      requires Valid()
    {
      var k := Position(queue, ctx);
      if k < |queue| then seq(k + 1, i requires 0 <= i <= k => pending[queue[i]]) else []
    }

    function Advance(ctx: Ctx): ReadOnly {
      var k := Position(queue, ctx);
      if k < |queue| then ReadOnly(pending - (set i | 0 <= i <= k :: queue[i]), queue[k + 1..]) else this
    }

    lemma AddRequestValid(index: nat, ctx: Ctx, from: NodeId, self: NodeId)
      requires Valid()
      ensures AddRequest(index, ctx, from, self).Valid()
    {
      if ctx !in pending {
        assert ctx !in queue;
        assert (queue + [ctx])[|queue|] == ctx;
        forall c <- pending
          ensures c in queue + [ctx]
        {
        }
      }
    }

    lemma RecvAckValid(id: NodeId, ctx: Ctx)
      requires Valid()
      ensures RecvAck(id, ctx).Valid()
    {
    }

    lemma AdvanceValid(ctx: Ctx)
      requires Valid()
      ensures Advance(ctx).Valid()
    {
      var k := Position(queue, ctx);
      if k < |queue| {
        var dropped := set i | 0 <= i <= k :: queue[i];
        var r := Advance(ctx);
        forall c <- r.pending
          ensures c in r.queue
        {
          var i :| 0 <= i < |queue| && queue[i] == c;
          assert i > k;
          assert r.queue[i - k - 1] == c;
        }
        forall c | c in r.queue
          ensures c in r.pending
        {
          var i :| 0 <= i < |r.queue| && r.queue[i] == c;
          assert queue[i + k + 1] == c;
        }
      }
    }
  }

  function NoReads(): ReadOnly {
    ReadOnly(map[], [])
  }

  /** The first position of `x`, or the length if it is absent. */
  function Position(s: seq<Ctx>, x: Ctx): (k: nat)
    ensures k <= |s|
    ensures k < |s| ==> s[k] == x
    ensures forall i :: 0 <= i < k ==> s[i] != x
  {
    if s == [] || s[0] == x then 0 else 1 + Position(s[1..], x)
  }
}

/** The queue of pending reads, updated in place: src/read_only.rs. */
module ReadQueue {
  import opened Options
  import opened Quorum
  import M = ReadOnlyModel

  class ReadOnly {
    var pending: map<M.Ctx, M.ReadStatus>
    var queue: seq<M.Ctx>

    ghost function View(): M.ReadOnly
      reads this
    {
      M.ReadOnly(pending, queue)
    }

    constructor ()
      ensures View() == M.NoReads()
    {
      pending, queue := map[], [];
    }

    method AddRequest(index: nat, ctx: M.Ctx, from: NodeId, self: NodeId)
      modifies this
      ensures View() == old(View()).AddRequest(index, ctx, from, self)
    {
      if ctx in pending {
        return;
      }
      pending := pending[ctx := M.ReadStatus(ctx, from, index, {self})];
      queue := queue + [ctx];
    }

    method RecvAck(id: NodeId, ctx: M.Ctx) returns (acks: Option<set<NodeId>>)
      modifies this
      ensures View() == old(View()).RecvAck(id, ctx)
      ensures acks == if ctx in pending then Some(pending[ctx].acks) else None
    {
      if ctx !in pending {
        return None;
      }
      pending := pending[ctx := pending[ctx].(acks := pending[ctx].acks + {id})];
      return Some(pending[ctx].acks);
    }

    /** The position of `ctx`. The lookup on the way dies when the map misses a queued request; it never does. */
    method Find(ctx: M.Ctx) returns (i: nat)
      requires View().Valid()
      ensures i == M.Position(queue, ctx)
    {
      i := 0;
      while i < |queue| && queue[i] != ctx
        invariant i <= |queue|
        invariant M.Position(queue, ctx) == i + M.Position(queue[i..], ctx)
      {
        assert queue[i] in pending;
        assert queue[i..][1..] == queue[i + 1..];
        i := i + 1;
      }
    }

    /** Pops the first `n` requests of the queue. */
    method Pop(n: nat) returns (rss: seq<M.ReadStatus>)
      requires View().Valid() && n <= |queue|
      modifies this
      ensures queue == old(queue)[n..] && pending == old(pending) - Firsts(old(queue), n)
      ensures |rss| == n
      ensures forall j :: 0 <= j < n ==> old(queue)[j] in old(pending) && rss[j] == old(pending)[old(queue)[j]]
    {
      rss := [];
      ghost var q, p := queue, pending;
      for k := 0 to n
        invariant queue == q[k..] && pending == p - Firsts(q, k)
        invariant |rss| == k && forall j :: 0 <= j < k ==> q[j] in p && rss[j] == p[q[j]]
      {
        var rs := queue[0];
        assert rs == q[k] && rs !in Firsts(q, k);
        rss := rss + [pending[rs]];
        queue, pending := queue[1..], pending - {rs};
        assert Firsts(q, k + 1) == Firsts(q, k) + {rs};
      }
    }

    method Advance(ctx: M.Ctx) returns (rss: seq<M.ReadStatus>)
      requires View().Valid()
      modifies this
      ensures View() == old(View()).Advance(ctx) && rss == old(View()).Released(ctx)
    {
      rss := [];
      var i := Find(ctx);
      if i < |queue| {
        rss := Pop(i + 1);
        assert Firsts(old(queue), i + 1) == set j | 0 <= j <= i :: old(queue)[j];
      }
    }
  }

  ghost function Firsts(q: seq<M.Ctx>, n: nat): set<M.Ctx>
    requires n <= |q|
  {
    set j | 0 <= j < n :: q[j]
  }
}
