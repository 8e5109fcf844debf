/** The index a configuration has committed: src/quorum/majority.rs:79-183 and src/quorum/joint.rs:47-51. */
module CommittedIndex {
  import opened Quorum

  const U64_MAX: nat := 0xFFFF_FFFF_FFFF_FFFF

  /** A voter's acknowledged index and its commit group; group 0 means "no group" (src/quorum.rs:35-38). */
  datatype Index = Index(index: nat, group: nat)

  type Acks = map<NodeId, Index>

  function AckOf(acks: Acks, v: NodeId): Index {
    if v in acks then acks[v] else Index(0, 0)
  }

  function AtLeast(voters: set<NodeId>, acks: Acks, n: nat): set<NodeId> {
    set v | v in voters && AckOf(acks, v).index >= n
  }

  /** Two members of `s` belong to two distinct groups. */
  ghost predicate TwoGroups(acks: Acks, s: set<NodeId>) {
    exists u, v :: u in s && v in s && AckOf(acks, u).group != 0 && AckOf(acks, v).group != 0
                   && AckOf(acks, u).group != AckOf(acks, v).group
  }

  // What is computed ------------------------------------------------------------------------------

  /** The largest index up to `hi` that a majority has acknowledged. */
  ghost function MajorityIndexUpTo(voters: set<NodeId>, acks: Acks, hi: nat): (n: nat)
    ensures n <= hi
  {
    if hi == 0 || HasMajority(voters, AtLeast(voters, acks, hi)) then hi
    else MajorityIndexUpTo(voters, acks, hi - 1)
  }

  ghost function MajorityIndex(voters: set<NodeId>, acks: Acks): nat {
    MajorityIndexUpTo(voters, acks, U64_MAX)
  }

  /** The largest index up to `hi` that a majority and two distinct groups have acknowledged. */
  ghost function GroupIndexUpTo(voters: set<NodeId>, acks: Acks, hi: nat): (n: nat)
    ensures n <= hi
  {
    if hi == 0
       || (HasMajority(voters, AtLeast(voters, acks, hi)) && TwoGroups(acks, AtLeast(voters, acks, hi)))
    then hi
    else GroupIndexUpTo(voters, acks, hi - 1)
  }

  /** The smallest index any voter has acknowledged, or `hi` if that is smaller. */
  ghost function LeastIndexUpTo(voters: set<NodeId>, acks: Acks, hi: nat): (n: nat)
    ensures n <= hi
  {
    if hi == 0 || voters <= AtLeast(voters, acks, hi) then hi else LeastIndexUpTo(voters, acks, hi - 1)
  }

  ghost predicate AllGrouped(voters: set<NodeId>, acks: Acks) {
    forall v <- voters :: AckOf(acks, v).group != 0
  }

  /** The committed index of one half, and whether two groups backed it. An empty half never holds back. */
  ghost function HalfIndex(voters: set<NodeId>, useGroups: bool, acks: Acks): (nat, bool) {
    if voters == {} then (U64_MAX, true)
    else if !useGroups then (MajorityIndex(voters, acks), false)
    else if TwoGroups(acks, voters) then (GroupIndexUpTo(voters, acks, U64_MAX), true)
    else if AllGrouped(voters, acks) then (MajorityIndex(voters, acks), false)
    else (LeastIndexUpTo(voters, acks, U64_MAX), false)
  }

  ghost function JointIndex(cfg: JointConfig, useGroups: bool, acks: Acks): (nat, bool) {
    var (i, gi) := HalfIndex(cfg.incoming, useGroups, acks);
    var (o, go) := HalfIndex(cfg.outgoing, useGroups, acks);
    (if i < o then i else o, gi && go)
  }

  // What it means ---------------------------------------------------------------------------------

  lemma {:induction false} MajorityIndexAcked(voters: set<NodeId>, acks: Acks, hi: nat)
    ensures HasMajority(voters, AtLeast(voters, acks, MajorityIndexUpTo(voters, acks, hi)))
  {
    if hi == 0 {
      assert AtLeast(voters, acks, 0) == voters;
      assert voters * voters == voters;
    } else if !HasMajority(voters, AtLeast(voters, acks, hi)) {
      MajorityIndexAcked(voters, acks, hi - 1);
    }
  }

  lemma {:induction false} GroupIndexAcked(voters: set<NodeId>, acks: Acks, hi: nat)
    requires TwoGroups(acks, voters)
    ensures var s := AtLeast(voters, acks, GroupIndexUpTo(voters, acks, hi));
            HasMajority(voters, s) && TwoGroups(acks, s)
  {
    if hi == 0 {
      assert AtLeast(voters, acks, 0) == voters;
      assert voters * voters == voters;
    } else if !(HasMajority(voters, AtLeast(voters, acks, hi)) && TwoGroups(acks, AtLeast(voters, acks, hi))) {
      GroupIndexAcked(voters, acks, hi - 1);
    }
  }

  lemma {:induction false} LeastIndexAcked(voters: set<NodeId>, acks: Acks, hi: nat)
    ensures voters <= AtLeast(voters, acks, LeastIndexUpTo(voters, acks, hi))
  {
    if hi > 0 && !(voters <= AtLeast(voters, acks, hi)) {
      LeastIndexAcked(voters, acks, hi - 1);
    }
  }

  /** Whichever rule applies, a majority of each half has acknowledged the committed index. */
  lemma HalfIndexAcked(voters: set<NodeId>, useGroups: bool, acks: Acks)
    ensures HasMajority(voters, AtLeast(voters, acks, HalfIndex(voters, useGroups, acks).0))
  {
    var n := HalfIndex(voters, useGroups, acks).0;
    if voters == {} {
    } else if n == MajorityIndex(voters, acks) {
      MajorityIndexAcked(voters, acks, U64_MAX);
    } else if TwoGroups(acks, voters) {
      GroupIndexAcked(voters, acks, U64_MAX);
    } else {
      LeastIndexAcked(voters, acks, U64_MAX);
      assert voters * AtLeast(voters, acks, n) == voters;
    }
  }

  /** A quorum of the joint configuration has acknowledged the joint committed index. */
  lemma JointIndexAcked(cfg: JointConfig, useGroups: bool, acks: Acks, s: set<NodeId>)
    requires forall v | v in cfg.Ids() && AckOf(acks, v).index >= JointIndex(cfg, useGroups, acks).0 :: v in s
    ensures IsQuorum(cfg, s)
  {
    var n := JointIndex(cfg, useGroups, acks).0;
    JointHalfAcked(cfg.incoming, useGroups, acks, n, s);
    JointHalfAcked(cfg.outgoing, useGroups, acks, n, s);
  }

  lemma JointHalfAcked(voters: set<NodeId>, useGroups: bool, acks: Acks, n: nat, s: set<NodeId>)
    requires n <= HalfIndex(voters, useGroups, acks).0
    requires forall v | v in voters && AckOf(acks, v).index >= n :: v in s
    ensures HasMajority(voters, s)
  {
    HalfIndexAcked(voters, useGroups, acks);
    MajorityGrows(voters, AtLeast(voters, acks, HalfIndex(voters, useGroups, acks).0), s);
  }

  /** The majority index is the largest index that a majority has acknowledged. */
  lemma {:induction false} MajorityIndexLargest(voters: set<NodeId>, acks: Acks, hi: nat, n: nat)
    requires n <= hi && HasMajority(voters, AtLeast(voters, acks, n))
    ensures n <= MajorityIndexUpTo(voters, acks, hi)
    decreases hi
  {
    if n < hi && !HasMajority(voters, AtLeast(voters, acks, hi)) {
      MajorityIndexLargest(voters, acks, hi - 1, n);
    }
  }

  lemma {:induction false} GroupIndexLargest(voters: set<NodeId>, acks: Acks, hi: nat, n: nat)
    requires n <= hi && HasMajority(voters, AtLeast(voters, acks, n)) && TwoGroups(acks, AtLeast(voters, acks, n))
    ensures n <= GroupIndexUpTo(voters, acks, hi)
    decreases hi
  {
    if n < hi {
      GroupIndexLargest(voters, acks, hi - 1, n);
    }
  }

  lemma {:induction false} LeastIndexLargest(voters: set<NodeId>, acks: Acks, hi: nat, n: nat)
    requires n <= hi && voters <= AtLeast(voters, acks, n)
    ensures n <= LeastIndexUpTo(voters, acks, hi)
    decreases hi
  {
    if n < hi {
      LeastIndexLargest(voters, acks, hi - 1, n);
    }
  }

  // How it is computed ----------------------------------------------------------------------------

  /** `ids` lists every voter once, and `a` holds their acknowledgements in that order. */
  ghost predicate Lists(voters: set<NodeId>, acks: Acks, ids: seq<NodeId>, a: seq<Index>) {
    && |ids| == |a| == |voters|
    && (forall k :: 0 <= k < |ids| ==> ids[k] in voters && a[k] == AckOf(acks, ids[k]))
    && (forall i, j :: 0 <= i < j < |ids| ==> ids[i] != ids[j])
    && (forall v <- voters :: v in ids)
  }

  ghost predicate Descending(a: seq<Index>) {
    forall i, j :: 0 <= i <= j < |a| ==> a[i].index >= a[j].index
  }

  function SetOf(s: seq<NodeId>): set<NodeId> {
    set v | v in s
  }

  lemma {:induction false} DistinctSize(ids: seq<NodeId>)
    requires forall i, j :: 0 <= i < j < |ids| ==> ids[i] != ids[j]
    ensures |SetOf(ids)| == |ids|
  {
    if ids != [] {
      var n := |ids| - 1;
      DistinctSize(ids[..n]);
      assert SetOf(ids) == SetOf(ids[..n]) + {ids[n]};
    }
  }

  /** `ids` lists the voters outside `rest`. */
  ghost predicate Partial(voters: set<NodeId>, rest: set<NodeId>, acks: Acks, ids: seq<NodeId>, a: seq<Index>) {
    rest <= voters && Lists(voters - rest, acks, ids, a)
  }

  lemma ListOne(voters: set<NodeId>, rest: set<NodeId>, acks: Acks, ids: seq<NodeId>, a: seq<Index>, v: NodeId)
    requires Partial(voters, rest, acks, ids, a) && v in rest
    ensures Partial(voters, rest - {v}, acks, ids + [v], a + [AckOf(acks, v)])
  {
    assert voters - (rest - {v}) == (voters - rest) + {v};
    assert (ids + [v])[|ids|] == v;
    forall u <- voters - rest
      ensures u in ids + [v]
    {
    }
  }

  lemma RestSize(voters: set<NodeId>, rest: set<NodeId>)
    requires rest <= voters
    ensures |voters - rest| + |rest| == |voters|
  {
    assert voters == (voters - rest) + rest;
  }

  /** Any order of the voters is accepted: the source iterates over a hash set. */
  method Collect(voters: set<NodeId>, acks: Acks) returns (a: array<Index>, ghost ids: seq<NodeId>)
    ensures fresh(a) && Lists(voters, acks, ids, a[..])
  {
    hide Lists;
    a := new Index[|voters|];
    ids := [];
    var rest, k := voters, 0;
    NoneListed(voters, acks);
    RestSize(voters, rest);
    while rest != {}
      invariant k <= a.Length && k == |voters - rest| && rest <= voters
      invariant Lists(voters - rest, acks, ids, a[..k])
      decreases rest
    {
      var v :| v in rest;
      RestSize(voters, rest);
      RestSize(voters, rest - {v});
      ListOne(voters, rest, acks, ids, a[..k], v);
      a[k] := AckOf(acks, v);
      assert a[..k + 1] == a[..k] + [AckOf(acks, v)];
      ids, rest, k := ids + [v], rest - {v}, k + 1;
    }
    assert voters - rest == voters;
    assert a[..k] == a[..];
  }

  lemma NoneListed(voters: set<NodeId>, acks: Acks)
    ensures Lists(voters - voters, acks, [], [])
  {
  }

  lemma SwapLists(voters: set<NodeId>, acks: Acks, ids: seq<NodeId>, a: seq<Index>, i: nat, j: nat)
    requires Lists(voters, acks, ids, a) && i < j < |a|
    ensures Lists(voters, acks, ids[i := ids[j]][j := ids[i]], a[i := a[j]][j := a[i]])
  {
    var ids' := ids[i := ids[j]][j := ids[i]];
    forall v <- voters
      ensures v in ids'
    {
      var k :| 0 <= k < |ids| && ids[k] == v;
      assert ids'[if k == i then j else if k == j then i else k] == v;
    }
  }

  /** Sorts by index, largest first, and carries the list of voters along. */
  method SortDescending(a: array<Index>, ghost voters: set<NodeId>, ghost acks: Acks, ghost ids: seq<NodeId>)
    returns (ghost sorted: seq<NodeId>)
    requires Lists(voters, acks, ids, a[..])
    modifies a
    ensures Lists(voters, acks, sorted, a[..]) && Descending(a[..])
  {
    hide Lists;
    sorted := ids;
    var i := 0;
    while i < a.Length
      invariant 0 <= i <= a.Length
      invariant Lists(voters, acks, sorted, a[..])
      invariant forall x, y :: 0 <= x < y < i ==> a[x].index >= a[y].index
    {
      var j := i;
      while j > 0 && a[j - 1].index < a[j].index
        invariant 0 <= j <= i
        invariant Lists(voters, acks, sorted, a[..])
        invariant forall x, y :: 0 <= x < y <= i && y != j ==> a[x].index >= a[y].index
      {
        ListsLength(voters, acks, sorted, a[..]);
        SwapLists(voters, acks, sorted, a[..], j - 1, j);
        ghost var before := a[..];
        a[j - 1], a[j] := a[j], a[j - 1];
        assert a[..] == before[j - 1 := before[j]][j := before[j - 1]];
        sorted := sorted[j - 1 := sorted[j]][j := sorted[j - 1]];
        j := j - 1;
      }
      i := i + 1;
    }
  }

  lemma ListsLength(voters: set<NodeId>, acks: Acks, ids: seq<NodeId>, a: seq<Index>)
    requires Lists(voters, acks, ids, a)
    ensures |ids| == |a| == |voters|
  {
  }

  /** In a descending list, a majority has reached `n` exactly when the majority-th element has. */
  lemma MajorityAt(voters: set<NodeId>, acks: Acks, ids: seq<NodeId>, a: seq<Index>, n: nat)
    requires voters != {} && Lists(voters, acks, ids, a) && Descending(a)
    ensures Majority(|voters|) <= |a|
    ensures HasMajority(voters, AtLeast(voters, acks, n)) <==> a[Majority(|voters|) - 1].index >= n
  {
    assert voters * AtLeast(voters, acks, n) == AtLeast(voters, acks, n);
    if a[Majority(|voters|) - 1].index >= n {
      ReachedBy(voters, acks, ids, a, Majority(|voters|), n);
    } else {
      NotReachedBy(voters, acks, ids, a, Majority(|voters|), n);
    }
  }

  lemma ReachedBy(voters: set<NodeId>, acks: Acks, ids: seq<NodeId>, a: seq<Index>, q: nat, n: nat)
    requires Lists(voters, acks, ids, a) && Descending(a) && 1 <= q <= |a| && a[q - 1].index >= n
    ensures |AtLeast(voters, acks, n)| >= q
  {
    DistinctSize(ids[..q]);
    SubsetSize(SetOf(ids[..q]), AtLeast(voters, acks, n));
  }

  lemma NotReachedBy(voters: set<NodeId>, acks: Acks, ids: seq<NodeId>, a: seq<Index>, q: nat, n: nat)
    requires Lists(voters, acks, ids, a) && Descending(a) && 1 <= q <= |a| && a[q - 1].index < n
    ensures |AtLeast(voters, acks, n)| < q
  {
    var s := AtLeast(voters, acks, n);
    DistinctSize(ids[..q - 1]);
    forall v <- s
      ensures v in SetOf(ids[..q - 1])
    {
      var k :| 0 <= k < |ids| && ids[k] == v;
      assert k < q - 1;
    }
    SubsetSize(s, SetOf(ids[..q - 1]));
  }

  ghost predicate Bounded(voters: set<NodeId>, acks: Acks) {
    forall v <- voters :: AckOf(acks, v).index <= U64_MAX
  }

  lemma MajorityIndexAt(voters: set<NodeId>, acks: Acks, ids: seq<NodeId>, a: seq<Index>)
    requires voters != {} && Bounded(voters, acks) && Lists(voters, acks, ids, a) && Descending(a)
    ensures Majority(|voters|) <= |a|
    ensures MajorityIndex(voters, acks) == a[Majority(|voters|) - 1].index
  {
    var m := MajorityIndex(voters, acks);
    MajorityAt(voters, acks, ids, a, m);
    MajorityIndexAcked(voters, acks, U64_MAX);
    var n := a[Majority(|voters|) - 1].index;
    MajorityAt(voters, acks, ids, a, n);
    assert n <= U64_MAX by {
      assert ids[Majority(|voters|) - 1] in voters;
    }
    MajorityIndexLargest(voters, acks, U64_MAX, n);
  }

  lemma LeastIndexAt(voters: set<NodeId>, acks: Acks, ids: seq<NodeId>, a: seq<Index>)
    requires voters != {} && Bounded(voters, acks) && Lists(voters, acks, ids, a) && Descending(a)
    ensures LeastIndexUpTo(voters, acks, U64_MAX) == a[|a| - 1].index
  {
    var n := a[|a| - 1].index;
    var last := ids[|a| - 1];
    assert last in voters && AckOf(acks, last).index == n;
    LeastIndexAcked(voters, acks, U64_MAX);
    assert last in AtLeast(voters, acks, LeastIndexUpTo(voters, acks, U64_MAX));
    forall v <- voters
      ensures v in AtLeast(voters, acks, n)
    {
      var k :| 0 <= k < |ids| && ids[k] == v;
    }
    LeastIndexLargest(voters, acks, U64_MAX, n);
  }

  /** The first `k` voters carry no group but `g`. */
  ghost predicate OneGroup(a: seq<Index>, k: nat, g: nat) {
    k <= |a| && forall i :: 0 <= i < k ==> a[i].group == 0 || a[i].group == g
  }

  /** The group that is being compared against has reached whatever both the quorum and position `k` reached. */
  ghost predicate Checked(a: seq<Index>, q: nat, k: nat, g: nat) {
    && k <= |a| && q < |a|
    && (g == 0 ==> a[q].group == 0)
    && (g != 0 ==> a[q].group == g || exists i :: 0 <= i < k && a[i].group == g)
  }

  lemma TwoGroupsBelow(voters: set<NodeId>, acks: Acks, ids: seq<NodeId>, a: seq<Index>, k: nat, g: nat, n: nat)
    requires Lists(voters, acks, ids, a) && Descending(a) && OneGroup(a, k, g)
    requires k < |a| ==> n > a[k].index
    ensures !TwoGroups(acks, AtLeast(voters, acks, n))
  {
    forall u, v | u in AtLeast(voters, acks, n) && v in AtLeast(voters, acks, n)
                  && AckOf(acks, u).group != 0 && AckOf(acks, v).group != 0
      ensures AckOf(acks, u).group == AckOf(acks, v).group
    {
      var i :| 0 <= i < |ids| && ids[i] == u;
      var j :| 0 <= j < |ids| && ids[j] == v;
      assert i < k && j < k;
    }
  }

  lemma TwoGroupsAt(voters: set<NodeId>, acks: Acks, ids: seq<NodeId>, a: seq<Index>, q: nat, k: nat, g: nat, n: nat)
    requires Lists(voters, acks, ids, a) && Descending(a) && Checked(a, q, k, g)
    requires k < |a| && g != 0 && a[k].group != 0 && a[k].group != g
    requires n <= a[k].index && n <= a[q].index
    ensures TwoGroups(acks, AtLeast(voters, acks, n))
  {
    var i := q;
    if a[q].group != g {
      i :| 0 <= i < k && a[i].group == g;
    }
    assert ids[i] in AtLeast(voters, acks, n) && ids[k] in AtLeast(voters, acks, n);
  }

  /** The position where the scan stops gives the largest index backed by a majority and by two groups. */
  lemma GroupIndexAt(voters: set<NodeId>, acks: Acks, ids: seq<NodeId>, a: seq<Index>, k: nat, g: nat)
    requires voters != {} && Bounded(voters, acks) && Lists(voters, acks, ids, a) && Descending(a)
    requires Majority(|voters|) <= |a|
    requires OneGroup(a, k, g) && Checked(a, Majority(|voters|) - 1, k, g)
    requires k < |a| && g != 0 && a[k].group != 0 && a[k].group != g
    ensures TwoGroups(acks, voters)
    ensures var qi := a[Majority(|voters|) - 1].index;
            GroupIndexUpTo(voters, acks, U64_MAX) == if a[k].index < qi then a[k].index else qi
  {
    var q := Majority(|voters|) - 1;
    var n := if a[k].index < a[q].index then a[k].index else a[q].index;
    TwoGroupsAt(voters, acks, ids, a, q, k, g, n);
    assert TwoGroups(acks, voters);
    MajorityAt(voters, acks, ids, a, n);
    assert n <= U64_MAX by {
      assert ids[q] in voters;
    }
    GroupIndexLargest(voters, acks, U64_MAX, n);
    GroupIndexAcked(voters, acks, U64_MAX);
    var m := GroupIndexUpTo(voters, acks, U64_MAX);
    MajorityAt(voters, acks, ids, a, m);
    if m > a[k].index {
      TwoGroupsBelow(voters, acks, ids, a, k, g, m);
    }
  }

  lemma ScanEnds(voters: set<NodeId>, acks: Acks, ids: seq<NodeId>, a: seq<Index>, g: nat)
    requires Lists(voters, acks, ids, a) && Descending(a) && OneGroup(a, |a|, g)
    ensures !TwoGroups(acks, voters)
    ensures AllGrouped(voters, acks) <==> forall i :: 0 <= i < |a| ==> a[i].group != 0
  {
    TwoGroupsBelow(voters, acks, ids, a, |a|, g, 0);
    assert AtLeast(voters, acks, 0) == voters;
    if forall i :: 0 <= i < |a| ==> a[i].group != 0 {
      forall v <- voters
        ensures AckOf(acks, v).group != 0
      {
        var k :| 0 <= k < |ids| && ids[k] == v;
      }
    } else {
      var i :| 0 <= i < |a| && a[i].group == 0;
      assert ids[i] in voters;
    }
  }

  /** The scan over the sorted array (src/quorum/majority.rs:111-132). */
  method ScanGroups(a: array<Index>, ghost voters: set<NodeId>, ghost acks: Acks, ghost ids: seq<NodeId>)
    returns (n: nat, grouped: bool)
    requires voters != {} && Bounded(voters, acks) && Lists(voters, acks, ids, a[..]) && Descending(a[..])
    requires a.Length == |voters|
    ensures (n, grouped) == HalfIndex(voters, true, acks)
  {
    hide Lists, TwoGroups, AllGrouped, GroupIndexUpTo, MajorityIndexUpTo, LeastIndexUpTo, Bounded, Checked;
    var q := Majority(a.Length) - 1;
    var checkedGroup := a[q].group;
    var singleGroup := true;
    var k := 0;
    assert Checked(a[..], q, 0, checkedGroup) by { FirstChecked(a[..], q); }
    while k < a.Length
      invariant 0 <= k <= a.Length
      invariant OneGroup(a[..], k, checkedGroup) && Checked(a[..], q, k, checkedGroup)
      invariant singleGroup <==> forall i :: 0 <= i < k ==> a[i].group != 0
    {
      var m := a[k];
      NextChecked(a[..], q, k, checkedGroup);
      if m.group == 0 {
        singleGroup := false;
      } else if checkedGroup == 0 {
        checkedGroup := m.group;
      } else if checkedGroup != m.group {
        GroupIndexAt(voters, acks, ids, a[..], k, checkedGroup);
        return if m.index < a[q].index then m.index else a[q].index, true;
      }
      k := k + 1;
    }
    ScanEnds(voters, acks, ids, a[..], checkedGroup);
    if singleGroup {
      MajorityIndexAt(voters, acks, ids, a[..]);
      return a[q].index, false;
    } else {
      LeastIndexAt(voters, acks, ids, a[..]);
      return a[a.Length - 1].index, false;
    }
  }

  lemma FirstChecked(a: seq<Index>, q: nat)
    requires q < |a|
    ensures Checked(a, q, 0, a[q].group)
  {
  }

  lemma NextChecked(a: seq<Index>, q: nat, k: nat, g: nat)
    requires k < |a| && Checked(a, q, k, g)
    ensures Checked(a, q, k + 1, g)
    ensures g == 0 && a[k].group != 0 ==> Checked(a, q, k + 1, a[k].group)
  {
  }

  /** The smaller of the two halves' indexes (src/quorum/joint.rs:47-51). */
  method ComputeJoint(cfg: JointConfig, useGroups: bool, acks: Acks) returns (c: nat)
    requires forall j <- acks :: acks[j].index <= U64_MAX
    ensures c == JointIndex(cfg, useGroups, acks).0
  {
    hide HalfIndex;
    var i, _ := Compute(cfg.incoming, useGroups, acks);
    var o, _ := Compute(cfg.outgoing, useGroups, acks);
    c := if i < o then i else o;
  }

  /** Collect, sort, pick (src/quorum/majority.rs:79-133): the result does not depend on the order of the voters. */
  method Compute(voters: set<NodeId>, useGroups: bool, acks: Acks) returns (n: nat, grouped: bool)
    requires Bounded(voters, acks)
    ensures (n, grouped) == HalfIndex(voters, useGroups, acks)
  {
    if voters == {} {
      return U64_MAX, true;
    }
    hide Lists, TwoGroups, AllGrouped, Bounded;
    ghost var ids;
    var a;
    a, ids := Collect(voters, acks);
    ids := SortDescending(a, voters, acks, ids);
    ListsLength(voters, acks, ids, a[..]);
    if useGroups {
      n, grouped := ScanGroups(a, voters, acks, ids);
    } else {
      MajorityIndexAt(voters, acks, ids, a[..]);
      n, grouped := a[Majority(a.Length) - 1].index, false;
    }
  }
}
