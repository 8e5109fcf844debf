/** The leader's budget of uncommitted bytes: UncommittedState in src/raft.rs. */
module Uncommitted {
  import opened LogModel
  import opened LogPages
  import opened AbstractLog

  /** Leading entries up to the tail that the leader found when it was elected cost nothing. */
  function SkipTail(es: seq<Entry>, tail: nat): seq<Entry> {
    if es == [] || es[0].index > tail then es else SkipTail(es[1..], tail)
  }

  class UncommittedState {
    var max: nat
    var size: nat
    var tail: nat
    const bytes: Sizes

    constructor (max: nat, bytes: Sizes)
      ensures this.max == max && size == 0 && tail == 0 && this.bytes == bytes
    {
      this.max, size, tail := max, 0, 0;
      this.bytes := bytes;
    }

    /** An empty proposal, the first one, and one that fits are let in (src/raft.rs:113-133). */
    method MaybeIncrease(es: seq<Entry>) returns (ok: bool)
      modifies this`size
      ensures ok <==> LetIn(max, old(size), Sum(es, bytes))
      ensures size == Increased(max, old(size), Sum(es, bytes))
    {
      if max == NO_LIMIT {
        return true;
      }
      var cost := Sum(es, bytes);
      if cost == 0 || size == 0 || cost + size <= max {
        size := size + cost;
        return true;
      }
      return false;
    }

    /** Delivered entries give their bytes back (src/raft.rs:135-156). */
    method MaybeReduce(es: seq<Entry>) returns (ok: bool)
      modifies this`size
      ensures ok <==> max == NO_LIMIT || Sum(SkipTail(es, tail), bytes) <= old(size)
      ensures size == Reduced(max, old(size), Sum(SkipTail(es, tail), bytes))
    {
      if max == NO_LIMIT || es == [] {
        return true;
      }
      var i := 0;
      while i < |es| && es[i].index <= tail
        invariant i <= |es| && SkipTail(es, tail) == SkipTail(es[i..], tail)
      {
        assert es[i..][1..] == es[i + 1..];
        i := i + 1;
      }
      var cost := Sum(es[i..], bytes);
      if cost > size {
        size := 0;
        return false;
      }
      size := size - cost;
      return true;
    }
  }

  predicate LetIn(max: nat, size: nat, cost: nat) {
    max == NO_LIMIT || cost == 0 || size == 0 || cost + size <= max
  }

  function Increased(max: nat, size: nat, cost: nat): nat {
    if max != NO_LIMIT && LetIn(max, size, cost) then size + cost else size
  }

  function Reduced(max: nat, size: nat, cost: nat): nat {
    if max == NO_LIMIT then size else if cost > size then 0 else size - cost
  }

  // A leadership ----------------------------------------------------------------------------------

  /** What a leadership changes: its log, how far it is committed and delivered, and the budget. */
  datatype Account = Account(log: AbsLog, committed: nat, since: nat, tail: nat, max: nat, size: nat)

  /** become_leader resets the budget and appends an empty entry (src/raft.rs:1254-1282). */
  ghost predicate Begins(s: Account, bytes: Sizes) {
    && s.log.WellFormed() && s.size == 0 && s.log.base <= s.tail && s.log.Last() == s.tail + 1
    && s.log.base <= s.since <= s.committed <= s.tail
    && bytes(s.log.ents[|s.log.ents| - 1]) == 0
  }

  datatype Action = Propose(es: seq<Entry>) | Commit(c: nat) | Deliver(count: nat)

  ghost predicate Acts(s: Account, a: Action, s': Account, bytes: Sizes) {
    match a
    case Propose(es) =>
      && Consecutive(es, s.log.Last() + 1)
      && var cost := Sum(es, bytes);
         s' == if LetIn(s.max, s.size, cost)
               then s.(log := s.log.(ents := s.log.ents + es), size := Increased(s.max, s.size, cost)) else s
    case Commit(c) => s.committed <= c <= s.log.Last() && s' == s.(committed := c)
    case Deliver(count) =>
      && s.log.base <= s.since && s.since + count <= s.committed <= s.log.Last()
      && s' == s.(since := s.since + count, size := Reduced(s.max, s.size, Sum(Charged(s, count), bytes)))
  }

  /** What a delivery of the next `count` entries gives back. */
  function Charged(s: Account, count: nat): seq<Entry>
    requires s.log.base <= s.since && s.since + count <= s.log.Last()
  {
    SkipTail(s.log.Slice(s.since + 1, s.since + count + 1), s.tail)
  }

  /** The entries above both the inherited tail and what was delivered. */
  function Outstanding(s: Account): seq<Entry>
    requires s.log.base <= s.since && s.log.base <= s.tail && s.since <= s.log.Last() && s.tail <= s.log.Last()
  {
    s.log.ents[(if s.since > s.tail then s.since else s.tail) - s.log.base..]
  }

  ghost predicate Conserved(s: Account, bytes: Sizes) {
    && s.log.WellFormed() && s.log.base <= s.since <= s.committed <= s.log.Last()
    && s.log.base <= s.tail <= s.log.Last()
    && s.size == Sum(Outstanding(s), bytes)
  }

  lemma BeginsConserved(s: Account, bytes: Sizes)
    requires Begins(s, bytes)
    ensures Conserved(s, bytes)
  {
    var e := s.log.ents[|s.log.ents| - 1];
    assert Outstanding(s) == [e];
    assert Sum([e], bytes) == bytes(e) + Sum([e][1..], bytes);
  }

  lemma {:induction false} SkipSlice(es: seq<Entry>, first: nat, tail: nat)
    requires Consecutive(es, first)
    ensures SkipTail(es, tail)
            == if tail < first then es else if tail < first + |es| then es[tail + 1 - first..] else []
    decreases |es|
  {
    if es != [] && es[0].index <= tail {
      SkipSlice(es[1..], first + 1, tail);
    }
  }

  /** Delivering gives back exactly the bytes of the outstanding entries that were delivered. */
  lemma DeliverSplits(s: Account, count: nat, bytes: Sizes)
    requires Conserved(s, bytes) && s.since + count <= s.committed
    ensures Outstanding(s) == Charged(s, count) + Outstanding(s.(since := s.since + count))
  {
    hide Sum, SkipTail, AbsLog.WellFormed, Charged;
    ChargedIs(s, count);
    var lo, hi, t := s.since - s.log.base, s.since + count - s.log.base, s.tail - s.log.base;
    if t <= lo {
      Cut(s.log.ents, lo, hi);
    } else if t < hi {
      Cut(s.log.ents, t, hi);
    }
  }

  lemma Cut(ents: seq<Entry>, i: nat, j: nat)
    requires i <= j <= |ents|
    ensures ents[i..] == ents[i..j] + ents[j..]
  {
  }

  lemma ChargedIs(s: Account, count: nat)
    requires s.log.WellFormed() && s.log.base <= s.since && s.since + count <= s.log.Last() && s.log.base <= s.tail
    ensures var lo, hi, t := s.since - s.log.base, s.since + count - s.log.base, s.tail - s.log.base;
            Charged(s, count) == if t <= lo then s.log.ents[lo..hi] else if t < hi then s.log.ents[t..hi] else []
  {
    var lo, hi, t := s.since - s.log.base, s.since + count - s.log.base, s.tail - s.log.base;
    SkipSlice(s.log.ents[lo..hi], s.since + 1, s.tail);
    if lo < t < hi {
      assert s.log.ents[lo..hi][t - lo..] == s.log.ents[t..hi];
    }
  }

  lemma DeliverConserved(s: Account, count: nat, bytes: Sizes)
    requires Conserved(s, bytes) && s.since + count <= s.committed
    ensures var later := s.(since := s.since + count);
            s.size == Sum(Charged(s, count), bytes) + Sum(Outstanding(later), bytes)
  {
    hide SkipTail;
    DeliverSplits(s, count, bytes);
    SumConcat(Charged(s, count), Outstanding(s.(since := s.since + count)), bytes);
  }

  lemma ProposeConserved(s: Account, es: seq<Entry>, s': Account, bytes: Sizes)
    requires Conserved(s, bytes) && s.max != NO_LIMIT && Acts(s, Propose(es), s', bytes)
    ensures Conserved(s', bytes)
  {
    if LetIn(s.max, s.size, Sum(es, bytes)) {
      assert Outstanding(s') == Outstanding(s) + es;
      SumConcat(Outstanding(s), es, bytes);
    }
  }

  /** The underflow branch is never taken, and the size stays exact. */
  lemma ActsConserved(s: Account, a: Action, s': Account, bytes: Sizes)
    requires Conserved(s, bytes) && s.max != NO_LIMIT && Acts(s, a, s', bytes)
    ensures Conserved(s', bytes) && s'.max == s.max && s'.tail == s.tail
    ensures a.Deliver? ==> Sum(Charged(s, a.count), bytes) <= s.size
  {
    hide Sum, SkipTail;
    if a.Propose? {
      ProposeConserved(s, a.es, s', bytes);
    } else if a.Deliver? {
      DeliverConserved(s, a.count, bytes);
    }
  }

  ghost predicate IsAccount(ss: seq<Account>, actions: seq<Action>, bytes: Sizes) {
    && |ss| == |actions| + 1 && Begins(ss[0], bytes)
    && forall k :: 0 <= k < |actions| ==> Acts(ss[k], actions[k], ss[k + 1], bytes)
  }

  /** Throughout a leadership with a limit, the uncommitted size is the bytes of the outstanding entries. */
  lemma {:induction false} SizeIsConserved(ss: seq<Account>, actions: seq<Action>, bytes: Sizes, k: nat)
    requires IsAccount(ss, actions, bytes) && k < |ss| && ss[0].max != NO_LIMIT
    ensures Conserved(ss[k], bytes) && ss[k].max == ss[0].max && ss[k].tail == ss[0].tail
  {
    hide Acts, Begins, Conserved;
    if k == 0 {
      BeginsConserved(ss[0], bytes);
    } else {
      SizeIsConserved(ss, actions, bytes, k - 1);
      assert Acts(ss[k - 1], actions[k - 1], ss[k - 1 + 1], bytes);
      ActsConserved(ss[k - 1], actions[k - 1], ss[k], bytes);
    }
  }

  /**
   A proposal is dropped exactly when there is a limit, it costs something, something that costs is outstanding, and
   both together are over the limit; so a first one is let in however large it is. What is let in is appended whole.
   */
  lemma DroppedExactly(s: Account, es: seq<Entry>, s': Account, bytes: Sizes)
    requires Conserved(s, bytes) && Acts(s, Propose(es), s', bytes) && es != []
    ensures var owed, cost := Sum(Outstanding(s), bytes), Sum(es, bytes);
            && (s'.log == s.log <==> s.max != NO_LIMIT && cost > 0 && owed > 0 && owed + cost > s.max)
            && (s'.log != s.log ==> s'.log.ents == s.log.ents + es)
            && (s'.log == s.log ==> s' == s)
  {
    hide Sum, Outstanding;
    assert |s.log.ents + es| > |s.log.ents|;
  }

  /** Action `j` let in a proposal while nothing was outstanding, and `size` is at most what it costs. */
  ghost predicate FromOne(ss: seq<Account>, actions: seq<Action>, bytes: Sizes, j: nat, size: nat) {
    j < |actions| && j < |ss| && actions[j].Propose? && ss[j].size == 0 && size <= Sum(actions[j].es, bytes)
  }

  /**
   Throughout a leadership the size is within the limit, or all of it is owed to one proposal that was let in while
   nothing was outstanding.
   */
  lemma {:induction false} LimitIsKept(ss: seq<Account>, actions: seq<Action>, bytes: Sizes, k: nat)
    requires IsAccount(ss, actions, bytes) && k < |ss| && ss[0].max != NO_LIMIT
    ensures ss[k].size <= ss[0].max || exists j :: 0 <= j < k && FromOne(ss, actions, bytes, j, ss[k].size)
  {
    if k > 0 {
      LimitIsKept(ss, actions, bytes, k - 1);
      SizeIsConserved(ss, actions, bytes, k - 1);
      hide Conserved, Begins, Outstanding, SkipTail, Sum;
      assert Acts(ss[k - 1], actions[k - 1], ss[k - 1 + 1], bytes);
      if ss[k].size > ss[0].max {
        if ss[k].size <= ss[k - 1].size {
          var j :| 0 <= j < k - 1 && FromOne(ss, actions, bytes, j, ss[k - 1].size);
          assert FromOne(ss, actions, bytes, j, ss[k].size);
        } else {
          assert FromOne(ss, actions, bytes, k - 1, ss[k].size);
        }
      }
    }
  }
}
