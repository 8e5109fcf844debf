/** What configuration changes do to the roles of every single id: src/confchange/changer.rs. */
module ConfRoles {
  import opened Quorum
  import opened ConfModel

  /** Where an id stands. */
  datatype Roles = Roles(incoming: bool, outgoing: bool, learner: bool, staged: bool)

  function RolesOf(c: Configuration, id: NodeId): Roles {
    Roles(id in c.voters.incoming, id in c.voters.outgoing, id in c.learners, id in c.learnersNext)
  }

  /** The roles a change asks for: a learner that is still an outgoing voter waits until that is over. */
  function Asked(kind: ChangeType, outgoing: bool): Roles {
    match kind
    case AddNode => Roles(true, outgoing, false, false)
    case AddLearnerNode => Roles(false, outgoing, !outgoing, outgoing)
    case RemoveNode => Roles(false, outgoing, false, false)
  }

  /** One change gives its id the roles it asks for and leaves every other id alone; id 0 stands for nobody. */
  lemma ApplyRoles(d: Draft, cc: Single, id: NodeId)
    requires Sound(d)
    ensures RolesOf(d.Apply(cc).cfg, id)
            == if cc.id == id != INVALID_ID then Asked(cc.kind, id in d.cfg.voters.outgoing) else RolesOf(d.cfg, id)
  {
    hide LastChange;
    assert d.Has(cc.id) <==> cc.id in d.cfg.Members();
  }

  /** Change `k` is the last one of the list that concerns `id`. */
  ghost predicate LastOf(ccs: seq<Single>, id: NodeId, k: nat) {
    k < |ccs| && ccs[k].id == id && forall i :: k < i < |ccs| ==> ccs[i].id != id
  }

  ghost predicate Concerns(ccs: seq<Single>, id: NodeId) {
    exists k: nat :: LastOf(ccs, id, k)
  }

  /** Of a list the last change of an id decides, and an id that none concerns keeps its roles. */
  lemma {:induction false} ApplyAllRoles(d: Draft, ccs: seq<Single>, id: NodeId)
    requires Sound(d) && id != INVALID_ID
    ensures forall k: nat :: LastOf(ccs, id, k) ==>
              RolesOf(d.ApplyAll(ccs).cfg, id) == Asked(ccs[k].kind, id in d.cfg.voters.outgoing)
    ensures !Concerns(ccs, id) ==> RolesOf(d.ApplyAll(ccs).cfg, id) == RolesOf(d.cfg, id)
    decreases |ccs|
  {
    hide Sound, Draft.Apply;
    if ccs != [] {
      var e, rest := d.Apply(ccs[0]), ccs[1..];
      ApplySound(d, ccs[0]);
      ApplyRoles(d, ccs[0], id);
      ApplyAllRoles(e, rest, id);
      assert d.ApplyAll(ccs) == e.ApplyAll(rest);
      forall k: nat | LastOf(ccs, id, k)
        ensures RolesOf(d.ApplyAll(ccs).cfg, id) == Asked(ccs[k].kind, id in d.cfg.voters.outgoing)
      {
        if k > 0 {
          assert LastOf(rest, id, k - 1);
        } else {
          NoneAfter(ccs, id);
        }
      }
      if !Concerns(ccs, id) {
        NotFirst(ccs, id);
      }
    }
  }

  lemma NoneAfter(ccs: seq<Single>, id: NodeId)
    requires ccs != [] && LastOf(ccs, id, 0)
    ensures !Concerns(ccs[1..], id)
  {
    forall k: nat
      ensures !LastOf(ccs[1..], id, k)
    {
      assert k + 1 < |ccs| ==> ccs[1..][k] == ccs[k + 1];
    }
  }

  lemma NotFirst(ccs: seq<Single>, id: NodeId)
    requires ccs != [] && !Concerns(ccs, id)
    ensures ccs[0].id != id && !Concerns(ccs[1..], id)
  {
    forall k: nat
      ensures !LastOf(ccs[1..], id, k)
    {
      assert !LastOf(ccs, id, k + 1);
    }
    SomeLast(ccs, id);
  }

  /** An id that some change concerns has a last one. */
  lemma {:induction false} SomeLast(ccs: seq<Single>, id: NodeId)
    ensures Concerns(ccs, id) <==> exists i :: 0 <= i < |ccs| && ccs[i].id == id
    decreases |ccs|
  {
    if ccs != [] {
      var n := |ccs| - 1;
      SomeLast(ccs[..n], id);
      if ccs[n].id == id {
        assert LastOf(ccs, id, n);
      } else if Concerns(ccs[..n], id) {
        var k: nat :| LastOf(ccs[..n], id, k);
        assert LastOf(ccs, id, k);
      }
    }
  }

  /** What becomes of the roles of `id` when a list of changes takes effect on configuration `c`. */
  ghost predicate Decided(c: Configuration, ccs: seq<Single>, id: NodeId, c': Configuration) {
    && (forall k: nat :: LastOf(ccs, id, k) ==> RolesOf(c', id) == Asked(ccs[k].kind, id in c.voters.outgoing))
    && (!Concerns(ccs, id) ==> RolesOf(c', id) == RolesOf(c, id))
  }

  /** An accepted simple change gives every id what its last change asks for. */
  lemma SimpleRoles(cfg: Configuration, progress: set<NodeId>, ccs: seq<Single>, id: NodeId)
    requires Good(cfg, progress) && Simple(cfg, progress, ccs).Ok? && id != INVALID_ID
    ensures Decided(cfg, ccs, id, Simple(cfg, progress, ccs).value.cfg)
    ensures Simple(cfg, progress, ccs).value.cfg.autoLeave == cfg.autoLeave
  {
    hide Sound, Simple, Draft.ApplyAll, SymmetricDifference, Applied, LastOf, Concerns;
    SimpleExactly(cfg, progress, ccs);
    GoodParts(cfg, progress);
    ApplyAllRoles(Draft(cfg, [], progress), ccs, id);
    ApplyAllSound(Draft(cfg, [], progress), ccs);
  }

  /** So does entering a joint configuration, with every voter so far among the outgoing ones. */
  lemma EnterRoles(cfg: Configuration, progress: set<NodeId>, autoLeave: bool, ccs: seq<Single>, id: NodeId)
    requires Good(cfg, progress) && EnterJoint(cfg, progress, autoLeave, ccs).Ok? && id != INVALID_ID
    ensures var both := cfg.(voters := JointConfig(cfg.voters.incoming, cfg.voters.incoming));
            var c := EnterJoint(cfg, progress, autoLeave, ccs).value.cfg;
            Decided(both, ccs, id, c) && c.autoLeave == autoLeave
  {
    hide Sound, EnterJoint, Draft.ApplyAll, Applied, LastOf, Concerns;
    EnterExactly(cfg, progress, autoLeave, ccs);
    DoubledSound(cfg, progress);
    var start := cfg.(voters := JointConfig(cfg.voters.incoming, cfg.voters.outgoing + cfg.voters.incoming));
    assert cfg.voters.outgoing + cfg.voters.incoming == cfg.voters.incoming;
    ApplyAllRoles(Draft(start, [], progress), ccs, id);
  }

  /** Leaving it keeps the incoming voters and the learners, and makes learners of those that waited. */
  lemma LeaveRoles(cfg: Configuration, progress: set<NodeId>, order: seq<NodeId>, id: NodeId)
    requires Good(cfg, progress) && Enumerates(order, cfg.voters.outgoing) && LeaveJoint(cfg, progress, order).Ok?
    ensures var was := RolesOf(cfg, id);
            RolesOf(LeaveJoint(cfg, progress, order).value.cfg, id)
            == Roles(was.incoming, false, was.learner || was.staged, false)
  {
    hide Sound, LeaveJoint, Applied;
    LeaveExactly(cfg, progress, order);
  }

  /** After any accepted change exactly the ids with a role have a progress. */
  lemma ProgressFollows(s: Tracked, ch: Change, s': Tracked, id: NodeId)
    requires Good(s.cfg, s.progress) && Changes(s, ch, s')
    ensures id in s'.progress <==> RolesOf(s'.cfg, id) != Roles(false, false, false, false)
  {
    ChangesGood(s, ch, s');
    hide Changes, LastChange;
    assert Draft(s'.cfg, [], s'.progress).Has(id) <==> id in s'.progress;
  }
}
