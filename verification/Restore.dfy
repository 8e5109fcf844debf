/** Rebuilding a configuration from its description: src/confchange/restore.rs and proto/src/confstate.rs. */
module Restore {
  import opened Quorum
  import opened ConfModel
  import opened Changer

  datatype ConfState = ConfState(voters: seq<NodeId>, learners: seq<NodeId>, votersOutgoing: seq<NodeId>,
                                 learnersNext: seq<NodeId>, autoLeave: bool)

  function Elements(s: seq<NodeId>): set<NodeId> {
    set x | x in s
  }

  /** `cs` is what to_conf_state may give for `c`: its sets listed in some order (src/tracker.rs:159-168). */
  ghost predicate Describes(cs: ConfState, c: Configuration) {
    && Elements(cs.voters) == c.voters.incoming && Elements(cs.votersOutgoing) == c.voters.outgoing
    && Elements(cs.learners) == c.learners && Elements(cs.learnersNext) == c.learnersNext
    && cs.autoLeave == c.autoLeave
  }

  // conf_state_eq ---------------------------------------------------------------------------------

  /** eq_without_order (proto/src/confstate.rs:5-17). */
  predicate EqWithoutOrder(a: seq<NodeId>, b: seq<NodeId>) {
    (forall x | x in a :: x in b) && (forall x | x in b :: x in a)
  }

  predicate ConfStateEq(a: ConfState, b: ConfState) {
    || a == b
    || (EqWithoutOrder(a.voters, b.voters) && EqWithoutOrder(a.learners, b.learners)
        && EqWithoutOrder(a.votersOutgoing, b.votersOutgoing) && EqWithoutOrder(a.learnersNext, b.learnersNext)
        && a.autoLeave == b.autoLeave)
  }

  lemma EqIsSameSet(a: seq<NodeId>, b: seq<NodeId>)
    ensures EqWithoutOrder(a, b) <==> Elements(a) == Elements(b)
  {
    if Elements(a) == Elements(b) {
      forall x
        ensures x in a <==> x in b
      {
        assert x in a <==> x in Elements(a);
        assert x in b <==> x in Elements(b);
      }
    }
  }

  /** Two descriptions are equal exactly when they describe the same configuration. */
  lemma EqMeansSame(a: ConfState, b: ConfState, c: Configuration)
    requires Describes(a, c)
    ensures ConfStateEq(a, b) <==> Describes(b, c)
  {
    hide EqWithoutOrder, Elements;
    EqIsSameSet(a.voters, b.voters);
    EqIsSameSet(a.learners, b.learners);
    EqIsSameSet(a.votersOutgoing, b.votersOutgoing);
    EqIsSameSet(a.learnersNext, b.learnersNext);
  }

  // The changes that rebuild a configuration ------------------------------------------------------

  function All(ids: seq<NodeId>, kind: ChangeType): seq<Single> {
    seq(|ids|, k requires 0 <= k < |ids| => Single(ids[k], kind))
  }

  function IncomingChanges(cs: ConfState): seq<Single> {
    All(cs.votersOutgoing, RemoveNode) + All(cs.voters, AddNode) + All(cs.learners, AddLearnerNode)
    + All(cs.learnersNext, AddLearnerNode)
  }

  /** One loop of to_conf_change_single: every id becomes one change of the same kind. */
  method Push(changes: seq<Single>, ids: seq<NodeId>, kind: ChangeType) returns (r: seq<Single>)
    ensures r == changes + All(ids, kind)
  {
    r := changes;
    for i := 0 to |ids|
      invariant r == changes + All(ids[..i], kind)
    {
      r := r + [Single(ids[i], kind)];
    }
    assert ids[..|ids|] == ids;
  }

  /** to_conf_change_single (src/confchange/restore.rs:14-85). */
  method ToConfChangeSingle(cs: ConfState) returns (outgoing: seq<Single>, incoming: seq<Single>)
    ensures outgoing == All(cs.votersOutgoing, AddNode) && incoming == IncomingChanges(cs)
  {
    outgoing := Push([], cs.votersOutgoing, AddNode);
    incoming := Push([], cs.votersOutgoing, RemoveNode);
    incoming := Push(incoming, cs.voters, AddNode);
    incoming := Push(incoming, cs.learners, AddLearnerNode);
    incoming := Push(incoming, cs.learnersNext, AddLearnerNode);
  }

  lemma {:induction false} ApplyConcat(d: Draft, a: seq<Single>, b: seq<Single>)
    ensures d.ApplyAll(a + b) == d.ApplyAll(a).ApplyAll(b)
    decreases |a|
  {
    if a == [] {
      assert a + b == b;
    } else {
      assert (a + b)[0] == a[0] && (a + b)[1..] == a[1..] + b;
      ApplyConcat(d.Apply(a[0]), a[1..], b);
    }
  }

  lemma AllTail(ids: seq<NodeId>, kind: ChangeType)
    requires ids != []
    ensures All(ids, kind)[0] == Single(ids[0], kind) && All(ids, kind)[1..] == All(ids[1..], kind)
    ensures Elements(ids) == {ids[0]} + Elements(ids[1..])
  {
    assert ids == [ids[0]] + ids[1..];
  }

  lemma {:induction false} RemovesAll(d: Draft, ids: seq<NodeId>)
    requires Sound(d) && Elements(ids) <= d.cfg.voters.outgoing && d.cfg.learners == {} && d.cfg.learnersNext == {}
    ensures var d' := d.ApplyAll(All(ids, RemoveNode));
            Sound(d') && d'.cfg == d.cfg.(voters := d.cfg.voters.(incoming := d.cfg.voters.incoming - Elements(ids)))
    decreases |ids|
  {
    if ids == [] {
      assert d.cfg.voters.incoming - Elements(ids) == d.cfg.voters.incoming;
    } else {
      AllTail(ids, RemoveNode);
      assert ids[0] in Elements(ids);
      var e := d.Apply(Single(ids[0], RemoveNode));
      ApplySound(d, Single(ids[0], RemoveNode));
      assert d.Has(ids[0]) && e.cfg == d.cfg.(voters := d.cfg.voters.(incoming := d.cfg.voters.incoming - {ids[0]}));
      RemovesAll(e, ids[1..]);
      assert d.cfg.voters.incoming - {ids[0]} - Elements(ids[1..]) == d.cfg.voters.incoming - Elements(ids);
    }
  }

  lemma {:induction false} AddsAll(d: Draft, ids: seq<NodeId>)
    requires Sound(d) && INVALID_ID !in ids && Elements(ids) !! d.cfg.learners && Elements(ids) !! d.cfg.learnersNext
    ensures var d' := d.ApplyAll(All(ids, AddNode));
            Sound(d') && d'.cfg == d.cfg.(voters := d.cfg.voters.(incoming := d.cfg.voters.incoming + Elements(ids)))
    decreases |ids|
  {
    if ids == [] {
      assert d.cfg.voters.incoming + Elements(ids) == d.cfg.voters.incoming;
    } else {
      AllTail(ids, AddNode);
      assert ids[0] in Elements(ids);
      var e := d.Apply(Single(ids[0], AddNode));
      ApplySound(d, Single(ids[0], AddNode));
      assert d.cfg.learners - {ids[0]} == d.cfg.learners && d.cfg.learnersNext - {ids[0]} == d.cfg.learnersNext;
      assert e.cfg == d.cfg.(voters := d.cfg.voters.(incoming := d.cfg.voters.incoming + {ids[0]}));
      AddsAll(e, ids[1..]);
      assert d.cfg.voters.incoming + {ids[0]} + Elements(ids[1..]) == d.cfg.voters.incoming + Elements(ids);
    }
  }

  lemma {:induction false} LearnersAll(d: Draft, ids: seq<NodeId>)
    requires Sound(d) && INVALID_ID !in ids
    requires Elements(ids) !! d.cfg.voters.incoming && Elements(ids) !! d.cfg.voters.outgoing
    ensures var d' := d.ApplyAll(All(ids, AddLearnerNode));
            Sound(d') && d'.cfg == d.cfg.(learners := d.cfg.learners + Elements(ids))
    decreases |ids|
  {
    if ids == [] {
      assert d.cfg.learners + Elements(ids) == d.cfg.learners;
    } else {
      AllTail(ids, AddLearnerNode);
      assert ids[0] in Elements(ids);
      var e := d.Apply(Single(ids[0], AddLearnerNode));
      ApplySound(d, Single(ids[0], AddLearnerNode));
      assert d.Has(ids[0]) <==> ids[0] in d.cfg.learners;
      assert ids[0] in d.cfg.learners ==> d.cfg.learners + {ids[0]} == d.cfg.learners;
      assert e.cfg == d.cfg.(learners := d.cfg.learners + {ids[0]});
      LearnersAll(e, ids[1..]);
      assert d.cfg.learners + {ids[0]} + Elements(ids[1..]) == d.cfg.learners + Elements(ids);
    }
  }

  lemma {:induction false} StagesAll(d: Draft, ids: seq<NodeId>)
    requires Sound(d) && Elements(ids) <= d.cfg.voters.outgoing && Elements(ids) !! d.cfg.voters.incoming
    ensures var d' := d.ApplyAll(All(ids, AddLearnerNode));
            Sound(d') && d'.cfg == d.cfg.(learnersNext := d.cfg.learnersNext + Elements(ids))
    decreases |ids|
  {
    if ids == [] {
      assert d.cfg.learnersNext + Elements(ids) == d.cfg.learnersNext;
    } else {
      AllTail(ids, AddLearnerNode);
      assert ids[0] in Elements(ids);
      var e := d.Apply(Single(ids[0], AddLearnerNode));
      ApplySound(d, Single(ids[0], AddLearnerNode));
      assert d.Has(ids[0]) && ids[0] !in d.cfg.learners;
      assert d.cfg.voters.incoming - {ids[0]} == d.cfg.voters.incoming && d.cfg.learners - {ids[0]} == d.cfg.learners;
      assert e.cfg == d.cfg.(learnersNext := d.cfg.learnersNext + {ids[0]});
      StagesAll(e, ids[1..]);
      assert d.cfg.learnersNext + {ids[0]} + Elements(ids[1..]) == d.cfg.learnersNext + Elements(ids);
    }
  }

  // Restoring -------------------------------------------------------------------------------------

  /** `c` is a configuration that changes can reach (`ConfModel.AlwaysGood`), and `cs` describes it. */
  ghost predicate Restorable(cs: ConfState, c: Configuration) {
    Good(c, c.Members()) && (c == NOBODY || c.voters.incoming != {}) && Describes(cs, c)
  }

  /** Only voters, as when a configuration is built up one voter at a time. */
  function OnlyVoters(ids: set<NodeId>): Configuration {
    Configuration(JointConfig(ids, {}), {}, {}, false)
  }

  lemma OneMore(a: set<NodeId>, id: NodeId)
    ensures |SymmetricDifference(a + {id}, a)| <= 1 && |SymmetricDifference(a, a)| <= 1
  {
    assert SymmetricDifference(a + {id}, a) <= {id};
    SubsetSize(SymmetricDifference(a + {id}, a), {id});
    assert SymmetricDifference(a, a) == {};
  }

  lemma AddOne(cfg: Configuration, progress: set<NodeId>, id: NodeId)
    requires Good(cfg, progress) && !cfg.Joint() && id != INVALID_ID && id !in cfg.learners
    ensures var r := Simple(cfg, progress, [Single(id, AddNode)]);
            && r.Ok? && Good(r.value.cfg, Applied(progress, r.value.changes))
            && r.value.cfg == cfg.(voters := cfg.voters.(incoming := cfg.voters.incoming + {id}))
  {
    hide Sound, Simple, Applied, CheckInvariants, SymmetricDifference;
    SimpleExactly(cfg, progress, [Single(id, AddNode)]);
    GoodParts(cfg, progress);
    AddsAll(Draft(cfg, [], progress), [id]);
    assert All([id], AddNode) == [Single(id, AddNode)] && Elements([id]) == {id};
    OneMore(cfg.voters.incoming, id);
  }

  lemma LearnerOne(cfg: Configuration, progress: set<NodeId>, id: NodeId)
    requires Good(cfg, progress) && !cfg.Joint() && cfg.voters.incoming != {}
    requires id != INVALID_ID && id !in cfg.voters.incoming
    ensures var r := Simple(cfg, progress, [Single(id, AddLearnerNode)]);
            && r.Ok? && Good(r.value.cfg, Applied(progress, r.value.changes))
            && r.value.cfg == cfg.(learners := cfg.learners + {id})
  {
    hide Sound, Simple, Applied, CheckInvariants, SymmetricDifference;
    SimpleExactly(cfg, progress, [Single(id, AddLearnerNode)]);
    GoodParts(cfg, progress);
    LearnersAll(Draft(cfg, [], progress), [id]);
    assert All([id], AddLearnerNode) == [Single(id, AddLearnerNode)] && Elements([id]) == {id};
    OneMore(cfg.voters.incoming, id);
  }

  lemma DescribedIds(cs: ConfState, c: Configuration)
    requires Restorable(cs, c)
    ensures INVALID_ID !in cs.voters && INVALID_ID !in cs.learners && INVALID_ID !in cs.votersOutgoing
    ensures c.learners !! (c.voters.incoming + c.voters.outgoing)
    ensures c.learnersNext <= c.voters.outgoing && c.learnersNext !! c.voters.incoming
  {
    assert INVALID_ID !in c.Members();
    assert INVALID_ID in cs.voters ==> INVALID_ID in Elements(cs.voters);
    assert INVALID_ID in cs.learners ==> INVALID_ID in Elements(cs.learners);
    assert INVALID_ID in cs.votersOutgoing ==> INVALID_ID in Elements(cs.votersOutgoing);
  }

  /** On top of the outgoing voters, the incoming changes give back the joint configuration. */
  lemma JointRebuilt(cs: ConfState, c: Configuration)
    requires Restorable(cs, c) && c.Joint()
    requires Good(OnlyVoters(c.voters.outgoing), c.voters.outgoing)
    ensures var r := EnterJoint(OnlyVoters(c.voters.outgoing), c.voters.outgoing, cs.autoLeave, IncomingChanges(cs));
            r.Ok? && r.value.cfg == c && Applied(c.voters.outgoing, r.value.changes) == c.Members()
  {
    hide Sound, EnterJoint, Applied, Draft.ApplyAll, Draft.Has, CheckInvariants;
    var o := c.voters.outgoing;
    var b := OnlyVoters(o);
    DescribedIds(cs, c);
    EnterExactly(b, o, cs.autoLeave, IncomingChanges(cs));
    DoubledSound(b, o);
    assert b.voters.outgoing + b.voters.incoming == o;
    var d0 := Draft(Configuration(JointConfig(o, o), {}, {}, false), [], o);
    assert d0.cfg == b.(voters := JointConfig(b.voters.incoming, b.voters.outgoing + b.voters.incoming));
    var x1, x2, x3, x4 := All(cs.votersOutgoing, RemoveNode), All(cs.voters, AddNode), All(cs.learners, AddLearnerNode),
                          All(cs.learnersNext, AddLearnerNode);
    RemovesAll(d0, cs.votersOutgoing);
    var d1 := d0.ApplyAll(x1);
    assert o - Elements(cs.votersOutgoing) == {};
    AddsAll(d1, cs.voters);
    var d2 := d1.ApplyAll(x2);
    assert {} + Elements(cs.voters) == c.voters.incoming;
    LearnersAll(d2, cs.learners);
    var d3 := d2.ApplyAll(x3);
    assert {} + Elements(cs.learners) == c.learners;
    StagesAll(d3, cs.learnersNext);
    var d4 := d3.ApplyAll(x4);
    assert {} + Elements(cs.learnersNext) == c.learnersNext;
    ApplyConcat(d0, x1, x2);
    ApplyConcat(d0, x1 + x2, x3);
    ApplyConcat(d0, x1 + x2 + x3, x4);
    assert d0.ApplyAll(IncomingChanges(cs)) == d4;
    ApplyAllSound(d0, IncomingChanges(cs));
    AutoLeaveSound(d4, cs.autoLeave);
    SoundApplied(d4.(cfg := d4.cfg.(autoLeave := cs.autoLeave)));
  }

  /** How far the one-by-one changes of a configuration that is not joint have come after `i` of them. */
  function Partial(cs: ConfState, i: nat): Configuration
    requires i <= |cs.voters| + |cs.learners|
  {
    if i <= |cs.voters| then OnlyVoters(Elements(cs.voters[..i]))
    else OnlyVoters(Elements(cs.voters)).(learners := Elements(cs.learners[..i - |cs.voters|]))
  }

  lemma ElementsNext(s: seq<NodeId>, i: nat)
    requires i < |s|
    ensures Elements(s[..i + 1]) == Elements(s[..i]) + {s[i]} && s[i] in Elements(s) && Elements(s[..i]) <= Elements(s)
  {
    assert s[..i + 1] == s[..i] + [s[i]];
  }

  lemma PartialNext(cs: ConfState, c: Configuration, i: nat, progress: set<NodeId>)
    requires Restorable(cs, c) && !c.Joint() && i < |cs.voters| + |cs.learners|
    requires Good(Partial(cs, i), progress)
    ensures var cc := if i < |cs.voters| then Single(cs.voters[i], AddNode)
                      else Single(cs.learners[i - |cs.voters|], AddLearnerNode);
            var r := Simple(Partial(cs, i), progress, [cc]);
            r.Ok? && r.value.cfg == Partial(cs, i + 1) && Good(r.value.cfg, Applied(progress, r.value.changes))
  {
    hide Good, Simple, Applied, Elements;
    DescribedIds(cs, c);
    if i < |cs.voters| {
      ElementsNext(cs.voters, i);
      AddOne(Partial(cs, i), progress, cs.voters[i]);
    } else {
      var k := i - |cs.voters|;
      ElementsNext(cs.learners, k);
      assert cs.voters[..|cs.voters|] == cs.voters;
      assert k == 0 ==> Elements(cs.learners[..0]) == {} by { NoElements(cs.learners[..0]); }
      assert k == 0 ==> Partial(cs, i) == OnlyVoters(Elements(cs.voters)).(learners := Elements(cs.learners[..k]));
      LearnerOne(Partial(cs, i), progress, cs.learners[k]);
    }
  }

  lemma NoElements(s: seq<NodeId>)
    ensures Elements(s) == {} <==> s == []
  {
    if s != [] {
      assert s[0] in Elements(s);
    }
  }

  /** simple on one change, then apply_conf. */
  method SimpleStep(t: ProgressTracker, cc: Single, next: nat) returns (r: Result<()>)
    modifies t
    ensures var s := Simple(old(t.conf), old(t.progress.Keys), [cc]);
            && (r.Ok? <==> s.Ok?)
            && (r.Ok? ==> t.conf == s.value.cfg && t.progress.Keys == Applied(old(t.progress.Keys), s.value.changes))
  {
    var got := RunSimple(t, [cc]);
    if got.Err? {
      return Err(got.error);
    }
    t.ApplyConf(got.value.0, got.value.1, next);
    return Ok(());
  }

  /** The loop for a configuration that is not joint. */
  method RestoreSimple(t: ProgressTracker, next: nat, cs: ConfState, incoming: seq<Single>, ghost c: Configuration)
    returns (r: Result<()>)
    requires t.conf == NOBODY && t.progress == map[]
    requires incoming == IncomingChanges(cs)
    modifies t
    ensures Restorable(cs, c) && !c.Joint() ==> r.Ok? && t.conf == c && t.progress.Keys == c.Members()
  {
    hide Good, Simple, Applied, Elements;
    ghost var expected := Restorable(cs, c) && !c.Joint();
    if expected {
      NothingElse(cs, c);
    }
    EmptyGood();
    assert t.progress.Keys == {};
    for i := 0 to |incoming|
      invariant expected ==> i <= |cs.voters| + |cs.learners| && t.conf == Partial(cs, i)
      invariant expected ==> Good(t.conf, t.progress.Keys)
    {
      if expected {
        PartialNext(cs, c, i, t.progress.Keys);
      }
      var got := SimpleStep(t, incoming[i], next);
      if got.Err? {
        return got;
      }
    }
    if expected {
      PartialDone(cs, c, t.progress.Keys);
    }
    return Ok(());
  }

  lemma EmptyGood()
    ensures Good(NOBODY, {}) && forall cs: ConfState :: Partial(cs, 0) == NOBODY
  {
    forall cs: ConfState
      ensures Partial(cs, 0) == NOBODY
    {
      assert Elements(cs.voters[..0]) == {};
    }
  }

  lemma NothingElse(cs: ConfState, c: Configuration)
    requires Restorable(cs, c) && !c.Joint()
    ensures cs.votersOutgoing == [] && cs.learnersNext == []
    ensures IncomingChanges(cs) == All(cs.voters, AddNode) + All(cs.learners, AddLearnerNode)
  {
    NoElements(cs.votersOutgoing);
    NoElements(cs.learnersNext);
  }

  lemma PartialDone(cs: ConfState, c: Configuration, progress: set<NodeId>)
    requires Restorable(cs, c) && !c.Joint()
    requires Good(Partial(cs, |cs.voters| + |cs.learners|), progress)
    ensures Partial(cs, |cs.voters| + |cs.learners|) == c && progress == c.Members()
  {
    assert cs.voters[..|cs.voters|] == cs.voters && cs.learners[..|cs.learners|] == cs.learners;
    NoElements(cs.learners);
    assert Partial(cs, |cs.voters| + |cs.learners|) == c;
    forall x
      ensures x in progress <==> x in c.Members()
    {
      assert Draft(c, [], progress).Has(x) <==> x in progress;
    }
  }

  /** The loop that first builds up the outgoing voters, and the change that enters the joint configuration. */
  method RestoreJoint(t: ProgressTracker, next: nat, cs: ConfState, outgoing: seq<Single>, incoming: seq<Single>,
                      ghost c: Configuration) returns (r: Result<()>)
    requires t.conf == NOBODY && t.progress == map[]
    requires outgoing == All(cs.votersOutgoing, AddNode) && incoming == IncomingChanges(cs)
    modifies t
    ensures Restorable(cs, c) && c.Joint() ==> r.Ok? && t.conf == c && t.progress.Keys == c.Members()
  {
    hide Good, Simple, Applied, Elements, EnterJoint;
    ghost var expected := Restorable(cs, c) && c.Joint();
    EmptyGood();
    assert t.progress.Keys == {};
    if expected {
      DescribedIds(cs, c);
      NoElements(cs.votersOutgoing[..0]);
    }
    for i := 0 to |outgoing|
      invariant expected ==> t.conf == OnlyVoters(Elements(cs.votersOutgoing[..i])) && Good(t.conf, t.progress.Keys)
    {
      if expected {
        ElementsNext(cs.votersOutgoing, i);
        AddOne(t.conf, t.progress.Keys, cs.votersOutgoing[i]);
      }
      var got := SimpleStep(t, outgoing[i], next);
      if got.Err? {
        return got;
      }
    }
    if expected {
      assert cs.votersOutgoing[..|outgoing|] == cs.votersOutgoing;
      GoodVoters(c.voters.outgoing, t.progress.Keys);
      JointRebuilt(cs, c);
    }
    var got := RunEnterJoint(t, cs.autoLeave, incoming);
    if got.Err? {
      return Err(got.error);
    }
    t.ApplyConf(got.value.0, got.value.1, next);
    return Ok(());
  }

  lemma GoodVoters(ids: set<NodeId>, progress: set<NodeId>)
    requires Good(OnlyVoters(ids), progress)
    ensures progress == ids
  {
    forall x
      ensures x in progress <==> x in ids
    {
      assert Draft(OnlyVoters(ids), [], progress).Has(x) <==> x in progress;
    }
  }

  /**
   restore (src/confchange/restore.rs:91-107) of an empty tracker from the description of any reachable
   configuration succeeds and gives that configuration back, with a progress for exactly its members.
   */
  method RestoreTracker(t: ProgressTracker, next: nat, cs: ConfState, ghost c: Configuration) returns (r: Result<()>)
    requires t.conf == NOBODY && t.progress == map[]
    modifies t
    ensures Restorable(cs, c) ==> r.Ok? && t.conf == c && t.progress.Keys == c.Members()
  {
    hide Good, Restorable;
    ghost var expected := Restorable(cs, c);
    var outgoing, incoming := ToConfChangeSingle(cs);
    if expected {
      OutgoingIffJoint(cs, c);
    }
    if outgoing == [] {
      r := RestoreSimple(t, next, cs, incoming, c);
    } else {
      r := RestoreJoint(t, next, cs, outgoing, incoming, c);
    }
  }

  lemma OutgoingIffJoint(cs: ConfState, c: Configuration)
    requires Restorable(cs, c)
    ensures c.Joint() <==> cs.votersOutgoing != []
  {
    NoElements(cs.votersOutgoing);
  }

  /** The description of any configuration that some sequence of changes reaches can be restored. */
  lemma ReachedIsRestorable(ss: seq<Tracked>, chs: seq<Change>, k: nat, cs: ConfState)
    requires IsHistory(ss, chs) && k < |ss| && Describes(cs, ss[k].cfg)
    ensures Restorable(cs, ss[k].cfg) && ss[k].progress == ss[k].cfg.Members()
  {
    AlwaysGood(ss, chs, k);
    hide IsHistory, Describes;
    forall x
      ensures x in ss[k].progress <==> x in ss[k].cfg.Members()
    {
      assert Draft(ss[k].cfg, [], ss[k].progress).Has(x) <==> x in ss[k].progress;
    }
  }

  /** Whatever changes led to a configuration, restoring its description gives back it and who has a progress. */
  method RestoreReached(t: ProgressTracker, next: nat, cs: ConfState, ghost ss: seq<Tracked>, ghost chs: seq<Change>,
                        ghost k: nat) returns (r: Result<()>)
    requires t.conf == NOBODY && t.progress == map[]
    requires IsHistory(ss, chs) && k < |ss| && Describes(cs, ss[k].cfg)
    modifies t
    ensures r.Ok? && t.conf == ss[k].cfg && t.progress.Keys == ss[k].progress
  {
    ReachedIsRestorable(ss, chs, k, cs);
    hide IsHistory, Restorable, Describes;
    r := RestoreTracker(t, next, cs, ss[k].cfg);
  }

  /** So the node's closing comparison of the two descriptions (src/raft.rs:377-386) never fails. */
  lemma RestoreIsNotFatal(cs: ConfState, c: Configuration, now: ConfState)
    requires Restorable(cs, c) && Describes(now, c)
    ensures ConfStateEq(now, cs)
  {
    hide Restorable, ConfStateEq;
    assert Describes(cs, c) by { RestorableDescribes(cs, c); }
    EqMeansSame(now, cs, c);
  }

  lemma RestorableDescribes(cs: ConfState, c: Configuration)
    requires Restorable(cs, c)
    ensures Describes(cs, c)
  {
  }
}
