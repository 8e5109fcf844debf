/** Configuration changes on values: src/confchange/changer.rs and the Configuration of src/tracker.rs. */
module ConfModel {
  import opened Options
  import opened Quorum

  datatype Configuration = Configuration(voters: JointConfig, learners: set<NodeId>, learnersNext: set<NodeId>,
                                         autoLeave: bool)
  {
    function Members(): set<NodeId> {
      voters.incoming + voters.outgoing + learners
    }

    predicate Joint() {
      voters.outgoing != {}
    }
  }

  const NOBODY := Configuration(JointConfig({}, {}), {}, {}, false)

  datatype ChangeType = AddNode | RemoveNode | AddLearnerNode

  datatype Single = Single(id: NodeId, kind: ChangeType)

  /** One entry of the change list: a progress is to be added or removed. */
  datatype MapChange = MapChange(id: NodeId, add: bool)

  datatype ConfError =
    | AlreadyJoint | NotJoint | NoVoters | RemovedAllVoters | TooManyChanges | BrokenInvariant

  datatype Result<T> = Ok(value: T) | Err(error: ConfError)

  // The change list -------------------------------------------------------------------------------

  function LastChange(changes: seq<MapChange>, id: NodeId): Option<bool> {
    if changes == [] then None
    else if changes[|changes| - 1].id == id then Some(changes[|changes| - 1].add)
    else LastChange(changes[..|changes| - 1], id)
  }

  /** A configuration in the making, with the progress changes it asks for on top of `base`. */
  datatype Draft = Draft(cfg: Configuration, changes: seq<MapChange>, base: set<NodeId>) {
    /** IncrChangeMap::contains (src/confchange/changer.rs:27-33). */
    predicate Has(id: NodeId) {
      var last := LastChange(changes, id);
      if last.Some? then last.value else id in base
    }

    function Push(id: NodeId, add: bool): Draft {
      this.(changes := changes + [MapChange(id, add)])
    }

    lemma PushHas(id: NodeId, add: bool, x: NodeId)
      ensures Push(id, add).Has(x) <==> if x == id then add else Has(x)
    {
      assert (changes + [MapChange(id, add)])[..|changes|] == changes;
    }

    function InitProgress(id: NodeId, learner: bool): Draft {
      (if learner then this.(cfg := cfg.(learners := cfg.learners + {id}))
       else this.(cfg := cfg.(voters := cfg.voters.(incoming := cfg.voters.incoming + {id})))).Push(id, true)
    }

    function MakeVoter(id: NodeId): Draft {
      if !Has(id) then InitProgress(id, false)
      else this.(cfg := Configuration(cfg.voters.(incoming := cfg.voters.incoming + {id}), cfg.learners - {id},
                                      cfg.learnersNext - {id}, cfg.autoLeave))
    }

    function MakeLearner(id: NodeId): Draft {
      if !Has(id) then InitProgress(id, true)
      else if id in cfg.learners then this
      else
        var voters, staged := cfg.voters.(incoming := cfg.voters.incoming - {id}), id in cfg.voters.outgoing;
        this.(cfg := Configuration(voters, if staged then cfg.learners - {id} else cfg.learners + {id},
                                   if staged then cfg.learnersNext + {id} else cfg.learnersNext - {id}, cfg.autoLeave))
    }

    function Remove(id: NodeId): Draft {
      if !Has(id) then this
      else
        var d := this.(cfg := Configuration(cfg.voters.(incoming := cfg.voters.incoming - {id}), cfg.learners - {id},
                                            cfg.learnersNext - {id}, cfg.autoLeave));
        if id in cfg.voters.outgoing then d else d.Push(id, false)
    }

    function Apply(cc: Single): Draft {
      if cc.id == INVALID_ID then this
      else match cc.kind
           case AddNode => MakeVoter(cc.id)
           case AddLearnerNode => MakeLearner(cc.id)
           case RemoveNode => Remove(cc.id)
    }

    function ApplyAll(ccs: seq<Single>): Draft
      decreases |ccs|
    {
      if ccs == [] then this else Apply(ccs[0]).ApplyAll(ccs[1..])
    }
  }

  /** check_invariants (src/confchange/changer.rs:286-350). */
  predicate CheckInvariants(d: Draft) {
    var c := d.cfg;
    && (forall id <- c.voters.Ids() :: d.Has(id))
    && (forall id <- c.learners :: d.Has(id) && id !in c.voters.outgoing && id !in c.voters.incoming)
    && (forall id <- c.learnersNext :: d.Has(id) && id in c.voters.outgoing)
    && (!c.Joint() ==> c.learnersNext == {} && !c.autoLeave)
  }

  // The three changes -----------------------------------------------------------------------------

  function Simple(cfg: Configuration, progress: set<NodeId>, ccs: seq<Single>): Result<Draft> {
    var start := Draft(cfg, [], progress);
    if cfg.Joint() then Err(AlreadyJoint)
    else if !CheckInvariants(start) then Err(BrokenInvariant)
    else
      var d := start.ApplyAll(ccs);
      if d.cfg.voters.incoming == {} then Err(RemovedAllVoters)
      else if |SymmetricDifference(d.cfg.voters.incoming, cfg.voters.incoming)| > 1 then Err(TooManyChanges)
      else if !CheckInvariants(d) then Err(BrokenInvariant)
      else Ok(d)
  }

  function SymmetricDifference(a: set<NodeId>, b: set<NodeId>): set<NodeId> {
    (a - b) + (b - a)
  }

  function EnterJoint(cfg: Configuration, progress: set<NodeId>, autoLeave: bool, ccs: seq<Single>): Result<Draft> {
    var start := Draft(cfg, [], progress);
    if cfg.Joint() then Err(AlreadyJoint)
    else if !CheckInvariants(start) then Err(BrokenInvariant)
    else if cfg.voters.incoming == {} then Err(NoVoters)
    else
      var both := JointConfig(cfg.voters.incoming, cfg.voters.outgoing + cfg.voters.incoming);
      var doubled := start.(cfg := cfg.(voters := both));
      var d := doubled.ApplyAll(ccs);
      if d.cfg.voters.incoming == {} then Err(RemovedAllVoters)
      else
        var d' := d.(cfg := d.cfg.(autoLeave := autoLeave));
        if !CheckInvariants(d') then Err(BrokenInvariant) else Ok(d')
  }

  /** Drops the progress of every outgoing voter that is left with no role. */
  function Drop(d: Draft, ids: seq<NodeId>): Draft {
    if ids == [] then d
    else
      var id := ids[|ids| - 1];
      var r := Drop(d, ids[..|ids| - 1]);
      if id in d.cfg.voters.incoming || id in d.cfg.learners then r else r.Push(id, false)
  }

  /** leave_joint, with the outgoing voters in any order. */
  function LeaveJoint(cfg: Configuration, progress: set<NodeId>, order: seq<NodeId>): Result<Draft> {
    var start := Draft(cfg, [], progress);
    if !cfg.Joint() then Err(NotJoint)
    else if !CheckInvariants(start) then Err(BrokenInvariant)
    else
      var merged := start.(cfg := cfg.(learners := cfg.learners + cfg.learnersNext, learnersNext := {}));
      var d := Drop(merged, order);
      var d' := d.(cfg := d.cfg.(voters := d.cfg.voters.(outgoing := {}), autoLeave := false));
      if !CheckInvariants(d') then Err(BrokenInvariant) else Ok(d')
  }

  /** `ids` lists the set `s`, in any order. */
  ghost predicate Enumerates(ids: seq<NodeId>, s: set<NodeId>) {
    forall x :: x in ids <==> x in s
  }

  // The invariant ---------------------------------------------------------------------------------

  /**
   Learners are no voters, staged learners are outgoing voters only, and exactly the members have a progress. Nobody
   has the id 0.
   */
  ghost predicate Sound(d: Draft) {
    var c := d.cfg;
    && c.learners !! (c.voters.incoming + c.voters.outgoing)
    && c.learnersNext <= c.voters.outgoing && c.learnersNext !! c.voters.incoming
    && INVALID_ID !in c.Members()
    && forall id :: d.Has(id) <==> id in c.Members()
  }

  /** A configuration that is in force, with the ids that have a progress. */
  ghost predicate Good(cfg: Configuration, progress: set<NodeId>) {
    && Sound(Draft(cfg, [], progress))
    && (cfg.Joint() ==> cfg.voters.incoming != {})
    && (!cfg.Joint() ==> cfg.learnersNext == {} && !cfg.autoLeave)
  }

  lemma PushSound(d: Draft, id: NodeId, add: bool, cfg: Configuration)
    requires forall x :: x != id ==> (d.Has(x) <==> x in cfg.Members())
    requires add <==> id in cfg.Members()
    ensures forall x :: d.(cfg := cfg).Push(id, add).Has(x) <==> x in cfg.Members()
  {
    hide LastChange;
    forall x
      ensures d.(cfg := cfg).Push(id, add).Has(x) <==> x in cfg.Members()
    {
      d.(cfg := cfg).PushHas(id, add, x);
    }
  }

  lemma MakeVoterSound(d: Draft, id: NodeId)
    requires Sound(d) && id != INVALID_ID
    ensures Sound(d.MakeVoter(id))
  {
    hide LastChange;
    var d' := d.MakeVoter(id);
    if !d.Has(id) {
      PushSound(d, id, true, d'.cfg);
    } else {
      assert forall x :: d'.Has(x) <==> d.Has(x);
    }
  }

  lemma MakeLearnerSound(d: Draft, id: NodeId)
    requires Sound(d) && id != INVALID_ID
    ensures Sound(d.MakeLearner(id))
  {
    hide LastChange;
    var d' := d.MakeLearner(id);
    if !d.Has(id) {
      PushSound(d, id, true, d'.cfg);
    } else {
      assert forall x :: d'.Has(x) <==> d.Has(x);
    }
  }

  lemma RemoveSound(d: Draft, id: NodeId)
    requires Sound(d)
    ensures Sound(d.Remove(id))
  {
    hide LastChange;
    var d' := d.Remove(id);
    if d.Has(id) && id !in d.cfg.voters.outgoing {
      PushSound(d, id, false, d'.cfg);
    } else {
      assert forall x :: d'.Has(x) <==> d.Has(x);
    }
  }

  lemma ApplySound(d: Draft, cc: Single)
    requires Sound(d)
    ensures Sound(d.Apply(cc)) && d.Apply(cc).cfg.voters.outgoing == d.cfg.voters.outgoing
    ensures d.Apply(cc).cfg.autoLeave == d.cfg.autoLeave && d.Apply(cc).base == d.base
  {
    hide Sound, Draft.Has;
    if cc.id != INVALID_ID {
      match cc.kind
      case AddNode => MakeVoterSound(d, cc.id);
      case AddLearnerNode => MakeLearnerSound(d, cc.id);
      case RemoveNode => RemoveSound(d, cc.id);
    }
  }

  lemma {:induction false} ApplyAllSound(d: Draft, ccs: seq<Single>)
    requires Sound(d)
    ensures var d' := d.ApplyAll(ccs);
            Sound(d') && d'.cfg.voters.outgoing == d.cfg.voters.outgoing && d'.cfg.autoLeave == d.cfg.autoLeave
            && d'.base == d.base
    decreases |ccs|
  {
    hide Sound, Draft.Apply;
    if ccs != [] {
      ApplySound(d, ccs[0]);
      ApplyAllSound(d.Apply(ccs[0]), ccs[1..]);
    }
  }

  lemma SoundChecks(d: Draft)
    requires Sound(d) && (!d.cfg.Joint() ==> d.cfg.learnersNext == {} && !d.cfg.autoLeave)
    ensures CheckInvariants(d)
  {
    hide LastChange;
  }

  // Applying the change list ----------------------------------------------------------------------

  /** The ids that have a progress once the changes are applied in order (src/tracker.rs:370-387). */
  function Applied(base: set<NodeId>, changes: seq<MapChange>): set<NodeId> {
    if changes == [] then base
    else
      var c := changes[|changes| - 1];
      var r := Applied(base, changes[..|changes| - 1]);
      if c.add then r + {c.id} else r - {c.id}
  }

  /** The change list and its lookup agree: `contains` foretells what applying will give. */
  lemma {:induction false} AppliedIsHas(d: Draft, id: NodeId)
    ensures id in Applied(d.base, d.changes) <==> d.Has(id)
    decreases |d.changes|
  {
    if d.changes != [] {
      AppliedIsHas(d.(changes := d.changes[..|d.changes| - 1]), id);
    }
  }

  lemma SoundApplied(d: Draft)
    requires Sound(d)
    ensures Sound(Draft(d.cfg, [], Applied(d.base, d.changes))) && Applied(d.base, d.changes) == d.cfg.Members()
  {
    hide Applied;
    var k := Applied(d.base, d.changes);
    forall id
      ensures id in k <==> id in d.cfg.Members()
    {
      AppliedIsHas(d, id);
    }
    assert forall id :: Draft(d.cfg, [], k).Has(id) <==> id in k;
  }

  // When changes are accepted ---------------------------------------------------------------------

  lemma GoodParts(cfg: Configuration, progress: set<NodeId>)
    requires Good(cfg, progress)
    ensures Sound(Draft(cfg, [], progress)) && CheckInvariants(Draft(cfg, [], progress))
  {
    hide Sound, CheckInvariants;
    SoundChecks(Draft(cfg, [], progress));
  }

  /**
   A simple change is refused only in a joint configuration, when it would leave no voter, or when it changes more
   than one voter. The closing check never fails.
   */
  lemma SimpleExactly(cfg: Configuration, progress: set<NodeId>, ccs: seq<Single>)
    requires Good(cfg, progress)
    ensures var r := Simple(cfg, progress, ccs);
            var d := Draft(cfg, [], progress).ApplyAll(ccs);
            && (r.Ok? <==> !cfg.Joint() && d.cfg.voters.incoming != {}
                           && |SymmetricDifference(d.cfg.voters.incoming, cfg.voters.incoming)| <= 1)
            && (r.Ok? ==> r.value == d && Sound(d) && !d.cfg.Joint() && Good(d.cfg, Applied(progress, d.changes)))
            && (r.Err? ==> r.error != BrokenInvariant)
  {
    hide CheckInvariants, Sound, SymmetricDifference, Draft.ApplyAll, Applied, Draft.Has;
    GoodParts(cfg, progress);
    var d := Draft(cfg, [], progress).ApplyAll(ccs);
    ApplyAllSound(Draft(cfg, [], progress), ccs);
    if !cfg.Joint() {
      assert d.cfg.learnersNext == {} by { SoundNext(d); }
      SoundChecks(d);
      SoundApplied(d);
    }
  }

  lemma SoundNext(d: Draft)
    requires Sound(d)
    ensures d.cfg.learnersNext <= d.cfg.voters.outgoing
  {
  }

  lemma DoubledSound(cfg: Configuration, progress: set<NodeId>)
    requires Good(cfg, progress) && !cfg.Joint()
    ensures var both := JointConfig(cfg.voters.incoming, cfg.voters.outgoing + cfg.voters.incoming);
            Sound(Draft(cfg.(voters := both), [], progress))
  {
    hide LastChange;
    var both := JointConfig(cfg.voters.incoming, cfg.voters.outgoing + cfg.voters.incoming);
    var d := Draft(cfg.(voters := both), [], progress);
    assert d.cfg.Members() == cfg.Members();
    assert forall x :: d.Has(x) <==> Draft(cfg, [], progress).Has(x);
  }

  /** Entering a joint configuration is refused only from a joint or voterless one, or when no voter would be left. */
  lemma EnterExactly(cfg: Configuration, progress: set<NodeId>, autoLeave: bool, ccs: seq<Single>)
    requires Good(cfg, progress)
    ensures var r := EnterJoint(cfg, progress, autoLeave, ccs);
            var start := cfg.(voters := JointConfig(cfg.voters.incoming, cfg.voters.outgoing + cfg.voters.incoming));
            var d := Draft(start, [], progress).ApplyAll(ccs);
            && (r.Ok? <==> !cfg.Joint() && cfg.voters.incoming != {} && d.cfg.voters.incoming != {})
            && (r.Ok? ==> r.value == d.(cfg := d.cfg.(autoLeave := autoLeave)) && Sound(r.value)
                          && r.value.cfg.voters.outgoing == cfg.voters.incoming
                          && Good(r.value.cfg, Applied(progress, r.value.changes)))
            && (r.Err? ==> r.error != BrokenInvariant)
  {
    hide CheckInvariants, Sound, Draft.ApplyAll, Applied, Draft.Has;
    GoodParts(cfg, progress);
    if !cfg.Joint() && cfg.voters.incoming != {} {
      var start := cfg.(voters := JointConfig(cfg.voters.incoming, cfg.voters.outgoing + cfg.voters.incoming));
      DoubledSound(cfg, progress);
      ApplyAllSound(Draft(start, [], progress), ccs);
      var d := Draft(start, [], progress).ApplyAll(ccs);
      var d' := d.(cfg := d.cfg.(autoLeave := autoLeave));
      AutoLeaveSound(d, autoLeave);
      assert d'.cfg.voters.outgoing == cfg.voters.incoming;
      SoundChecks(d');
      SoundApplied(d');
    }
  }

  lemma AutoLeaveSound(d: Draft, autoLeave: bool)
    requires Sound(d)
    ensures Sound(d.(cfg := d.cfg.(autoLeave := autoLeave)))
  {
    hide LastChange;
    var d' := d.(cfg := d.cfg.(autoLeave := autoLeave));
    assert d'.cfg.Members() == d.cfg.Members();
    assert forall x :: d'.Has(x) <==> d.Has(x);
  }

  lemma {:induction false} DropHas(d: Draft, ids: seq<NodeId>, x: NodeId)
    ensures Drop(d, ids).cfg == d.cfg && Drop(d, ids).base == d.base
    ensures Drop(d, ids).Has(x) <==>
              d.Has(x) && !(x in ids && x !in d.cfg.voters.incoming && x !in d.cfg.learners)
    decreases |ids|
  {
    hide LastChange;
    if ids != [] {
      var n := |ids| - 1;
      DropHas(d, ids[..n], x);
      Drop(d, ids[..n]).PushHas(ids[n], false, x);
    }
  }

  lemma LeftSound(cfg: Configuration, progress: set<NodeId>, order: seq<NodeId>)
    requires Good(cfg, progress) && Enumerates(order, cfg.voters.outgoing)
    ensures var merged := Draft(cfg.(learners := cfg.learners + cfg.learnersNext, learnersNext := {}), [], progress);
            var d := Drop(merged, order);
            var left := Configuration(JointConfig(cfg.voters.incoming, {}), cfg.learners + cfg.learnersNext, {}, false);
            && d.cfg == merged.cfg && d.base == progress
            && Sound(d.(cfg := left))
  {
    hide LastChange, Drop;
    var merged := Draft(cfg.(learners := cfg.learners + cfg.learnersNext, learnersNext := {}), [], progress);
    var d := Drop(merged, order);
    var left := Configuration(JointConfig(cfg.voters.incoming, {}), cfg.learners + cfg.learnersNext, {}, false);
    DropHas(merged, order, 0);
    forall x
      ensures d.(cfg := left).Has(x) <==> x in left.Members()
    {
      DropHas(merged, order, x);
      assert d.(cfg := left).Has(x) <==> d.Has(x);
      assert merged.Has(x) <==> Draft(cfg, [], progress).Has(x);
    }
  }

  /** Leaving always succeeds from a joint configuration, and only from one. */
  lemma LeaveExactly(cfg: Configuration, progress: set<NodeId>, order: seq<NodeId>)
    requires Good(cfg, progress) && Enumerates(order, cfg.voters.outgoing)
    ensures var r := LeaveJoint(cfg, progress, order);
            && (r.Ok? <==> cfg.Joint())
            && (r.Ok? ==>
                  && r.value.cfg == Configuration(JointConfig(cfg.voters.incoming, {}),
                                                  cfg.learners + cfg.learnersNext, {}, false)
                  && Sound(r.value) && Good(r.value.cfg, Applied(progress, r.value.changes)))
  {
    hide CheckInvariants, Sound, Drop, Applied, Draft.Has;
    GoodParts(cfg, progress);
    if cfg.Joint() {
      LeftSound(cfg, progress, order);
      var merged := Draft(cfg.(learners := cfg.learners + cfg.learnersNext, learnersNext := {}), [], progress);
      var d := Drop(merged, order);
      var d' := d.(cfg := d.cfg.(voters := d.cfg.voters.(outgoing := {}), autoLeave := false));
      SoundChecks(d');
      SoundApplied(d');
    }
  }

  // All sequences of changes ----------------------------------------------------------------------

  datatype Change =
    | DoSimple(ccs: seq<Single>)
    | DoEnter(autoLeave: bool, ccs: seq<Single>)
    | DoLeave(order: seq<NodeId>)

  function Outcome(cfg: Configuration, progress: set<NodeId>, ch: Change): Result<Draft> {
    match ch
    case DoSimple(ccs) => Simple(cfg, progress, ccs)
    case DoEnter(autoLeave, ccs) => EnterJoint(cfg, progress, autoLeave, ccs)
    case DoLeave(order) => LeaveJoint(cfg, progress, order)
  }

  datatype Tracked = Tracked(cfg: Configuration, progress: set<NodeId>)

  /** An accepted change takes effect; a refused one changes nothing. */
  ghost predicate Changes(s: Tracked, ch: Change, s': Tracked) {
    && (ch.DoLeave? ==> Enumerates(ch.order, s.cfg.voters.outgoing))
    && var r := Outcome(s.cfg, s.progress, ch);
       if r.Ok? then s' == Tracked(r.value.cfg, Applied(s.progress, r.value.changes)) else s' == s
  }

  ghost predicate IsHistory(ss: seq<Tracked>, chs: seq<Change>) {
    && |ss| == |chs| + 1 && ss[0] == Tracked(NOBODY, {})
    && forall k :: 0 <= k < |chs| ==> Changes(ss[k], chs[k], ss[k + 1])
  }

  lemma ChangesGood(s: Tracked, ch: Change, s': Tracked)
    requires Good(s.cfg, s.progress) && Changes(s, ch, s')
    ensures Good(s'.cfg, s'.progress)
    ensures s' == s || s'.cfg.voters.incoming != {}
    ensures Outcome(s.cfg, s.progress, ch) != Err(BrokenInvariant)
    ensures ch.DoLeave? && s.cfg.Joint() ==> Outcome(s.cfg, s.progress, ch).Ok?
  {
    assert s.cfg.Joint() ==> s.cfg.voters.incoming != {};
    hide Good, Sound, Simple, EnterJoint, LeaveJoint, Applied, Draft.ApplyAll;
    match ch
    case DoSimple(ccs) => SimpleExactly(s.cfg, s.progress, ccs);
    case DoEnter(autoLeave, ccs) => EnterExactly(s.cfg, s.progress, autoLeave, ccs);
    case DoLeave(order) =>
      LeaveExactly(s.cfg, s.progress, order);
      assert Outcome(s.cfg, s.progress, ch) != Err(BrokenInvariant) by {
        if s.cfg.Joint() {
        } else {
          assert LeaveJoint(s.cfg, s.progress, order) == Err(NotJoint) by { LeaveNotJoint(s.cfg, s.progress, order); }
        }
      }
  }

  lemma LeaveNotJoint(cfg: Configuration, progress: set<NodeId>, order: seq<NodeId>)
    requires !cfg.Joint()
    ensures LeaveJoint(cfg, progress, order) == Err(NotJoint)
  {
  }

  /**
   Over all sequences of changes from the empty configuration: learners are disjoint from both halves, staged
   learners are outgoing and not incoming, and exactly the members have a progress.
   */
  lemma {:induction false} AlwaysGood(ss: seq<Tracked>, chs: seq<Change>, k: nat)
    requires IsHistory(ss, chs) && k < |ss|
    ensures Good(ss[k].cfg, ss[k].progress) && (ss[k].cfg == NOBODY || ss[k].cfg.voters.incoming != {})
  {
    hide Changes;
    if k > 0 {
      hide Good;
      AlwaysGood(ss, chs, k - 1);
      assert Changes(ss[k - 1], chs[k - 1], ss[k - 1 + 1]);
      ChangesGood(ss[k - 1], chs[k - 1], ss[k]);
    }
  }

  // Quorum overlap --------------------------------------------------------------------------------

  /** Majorities of two voter sets that differ in at most one voter share a voter. */
  lemma NeighboursMeet(was: set<NodeId>, now: set<NodeId>, s: set<NodeId>, t: set<NodeId>) returns (v: NodeId)
    requires was != {} && now != {} && |SymmetricDifference(was, now)| <= 1
    requires HasMajority(was, s) && HasMajority(now, t)
    ensures v in was && v in now && v in s && v in t
  {
    var both := was * now;
    var a, b := both * s, both * t;
    SplitSize(was, now, s);
    SplitSize(now, was, t);
    assert now * was == both;
    assert |SymmetricDifference(was, now)| == |was - now| + |now - was|;
    SubsetSize(a + b, both);
    assert |a| + |b| == |a + b| + |a * b|;
    assert a * b != {};
    v :| v in a * b;
  }

  lemma SplitSize(x: set<NodeId>, y: set<NodeId>, s: set<NodeId>)
    ensures |x| == |x * y| + |x - y| && |x * s| <= |x * y * s| + |x - y|
  {
    assert x == x * y + (x - y);
    assert x * s == x * y * s + (x - y) * s;
    SubsetSize((x - y) * s, x - y);
  }

  /**
   Every set that wins a vote before an accepted change shares a voter with every set that wins one after it, for
   every change from a configuration that has voters.
   */
  lemma QuorumsOverlap(s: Tracked, ch: Change, s': Tracked, votes: map<NodeId, bool>, votes': map<NodeId, bool>)
    returns (v: NodeId)
    requires Good(s.cfg, s.progress) && s.cfg.voters.incoming != {} && Changes(s, ch, s')
    requires JointVote(s.cfg.voters, votes) == Won && JointVote(s'.cfg.voters, votes') == Won
    ensures v in votes && votes[v] && v in votes' && votes'[v]
    ensures v in s.cfg.voters.Ids() && v in s'.cfg.voters.Ids()
  {
    hide Good, Sound, Simple, EnterJoint, LeaveJoint, Applied, Draft.ApplyAll, HasMajority, SymmetricDifference,
         JointVote;
    JointVoteMeaning(s.cfg.voters, votes);
    JointVoteMeaning(s'.cfg.voters, votes');
    var g, g' := Granted(votes), Granted(votes');
    var c, c' := s.cfg.voters, s'.cfg.voters;
    if Outcome(s.cfg, s.progress, ch).Err? {
      v := QuorumsMeet(c, g, g');
    } else {
      match ch
      case DoSimple(ccs) =>
        SimpleExactly(s.cfg, s.progress, ccs);
        v := NeighboursMeet(c'.incoming, c.incoming, g', g);
      case DoEnter(autoLeave, ccs) =>
        EnterExactly(s.cfg, s.progress, autoLeave, ccs);
        v := MajoritiesMeet(c.incoming, g, g');
      case DoLeave(order) =>
        LeaveExactly(s.cfg, s.progress, order);
        v := MajoritiesMeet(c.incoming, g, g');
    }
  }
}
