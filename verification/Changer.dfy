/** The tracker and its changer, updated in place: src/tracker.rs and src/confchange/changer.rs. */
module Changer {
  import opened Quorum
  import opened ConfModel
  import M = ProgressModel

  class ProgressTracker {
    var conf: Configuration
    var progress: map<NodeId, M.Progress>
    const maxInflight: nat

    constructor (maxInflight: nat)
      ensures conf == NOBODY && progress == map[] && this.maxInflight == maxInflight
    {
      conf, progress := NOBODY, map[];
      this.maxInflight := maxInflight;
    }

    /** The progress of a peer that has just been added. */
    function Newcomer(next: nat): (p: M.Progress)
      ensures p.matched == 0 && p.nextIdx == next && p.state == M.Probe && !p.paused && p.recentActive && p.group == 0
      ensures p.ins.items == [] && p.ins.cap == maxInflight && p.ins.incomingCap.None?
    {
      M.NewProgress(next, maxInflight).(recentActive := true)
    }

    /** apply_conf (src/tracker.rs:370-387): untouched peers keep their progress, added ones start afresh. */
    method ApplyConf(cfg: Configuration, changes: seq<MapChange>, next: nat)
      modifies this
      ensures conf == cfg && progress.Keys == Applied(old(progress.Keys), changes)
      ensures forall id <- progress ::
                progress[id] == match LastChange(changes, id)
                                case Some(_) => Newcomer(next)
                                case None => (if id in old(progress) then old(progress)[id] else Newcomer(next))
    {
      conf := cfg;
      assert changes[..0] == [];
      for i := 0 to |changes|
        invariant conf == cfg && progress.Keys == Applied(old(progress.Keys), changes[..i])
        invariant forall id <- progress :: LastChange(changes[..i], id).Some? ==> progress[id] == Newcomer(next)
        invariant forall id <- progress :: LastChange(changes[..i], id).None? ==>
                                             id in old(progress) && progress[id] == old(progress)[id]
      {
        assert changes[..i + 1][..i] == changes[..i];
        var c := changes[i];
        if c.add {
          progress := progress[c.id := Newcomer(next)];
        } else {
          progress := progress - {c.id};
        }
      }
      assert changes[..|changes|] == changes;
    }
  }

  /** A copied configuration under change, with its list of progress changes. */
  class Working {
    var cfg: Configuration
    var changes: seq<MapChange>
    const base: set<NodeId>

    ghost function View(): Draft
      reads this
    {
      Draft(cfg, changes, base)
    }

    constructor (cfg: Configuration, base: set<NodeId>)
      ensures View() == Draft(cfg, [], base)
    {
      this.cfg, changes, this.base := cfg, [], base;
    }

    /** Looks for the last change of `id` from the end of the list. */
    method Contains(id: NodeId) returns (b: bool)
      ensures b == View().Has(id)
    {
      var i := |changes|;
      assert changes[..i] == changes;
      while i > 0 && changes[i - 1].id != id
        invariant 0 <= i <= |changes| && LastChange(changes, id) == LastChange(changes[..i], id)
      {
        assert changes[..i][..i - 1] == changes[..i - 1];
        i := i - 1;
      }
      b := if i > 0 then changes[i - 1].add else id in base;
    }

    method InitProgress(id: NodeId, learner: bool)
      modifies this
      ensures View() == old(View()).InitProgress(id, learner)
    {
      if learner {
        cfg := cfg.(learners := cfg.learners + {id});
      } else {
        cfg := cfg.(voters := cfg.voters.(incoming := cfg.voters.incoming + {id}));
      }
      changes := changes + [MapChange(id, true)];
    }

    method MakeVoter(id: NodeId)
      modifies this
      ensures View() == old(View()).MakeVoter(id)
    {
      var known := Contains(id);
      if !known {
        InitProgress(id, false);
        return;
      }
      cfg := cfg.(voters := cfg.voters.(incoming := cfg.voters.incoming + {id}));
      cfg := cfg.(learners := cfg.learners - {id}, learnersNext := cfg.learnersNext - {id});
    }

    method MakeLearner(id: NodeId)
      modifies this
      ensures View() == old(View()).MakeLearner(id)
    {
      var known := Contains(id);
      if !known {
        InitProgress(id, true);
        return;
      }
      if id in cfg.learners {
        return;
      }
      cfg := cfg.(voters := cfg.voters.(incoming := cfg.voters.incoming - {id}));
      cfg := cfg.(learners := cfg.learners - {id}, learnersNext := cfg.learnersNext - {id});
      if id in cfg.voters.outgoing {
        cfg := cfg.(learnersNext := cfg.learnersNext + {id});
        assert old(cfg).learnersNext - {id} + {id} == old(cfg).learnersNext + {id};
      } else {
        cfg := cfg.(learners := cfg.learners + {id});
        assert old(cfg).learners - {id} + {id} == old(cfg).learners + {id};
      }
    }

    method Remove(id: NodeId)
      modifies this
      ensures View() == old(View()).Remove(id)
    {
      var known := Contains(id);
      if !known {
        return;
      }
      cfg := cfg.(voters := cfg.voters.(incoming := cfg.voters.incoming - {id}));
      cfg := cfg.(learners := cfg.learners - {id}, learnersNext := cfg.learnersNext - {id});
      if id !in cfg.voters.outgoing {
        changes := changes + [MapChange(id, false)];
      }
    }

    /** apply (src/confchange/changer.rs:163-186). */
    method Apply(ccs: seq<Single>) returns (ok: bool)
      modifies this
      ensures View() == old(View()).ApplyAll(ccs) && (ok <==> cfg.voters.incoming != {})
    {
      for i := 0 to |ccs|
        invariant View().ApplyAll(ccs[i..]) == old(View()).ApplyAll(ccs)
      {
        var cc := ccs[i];
        assert ccs[i..][0] == cc && ccs[i..][1..] == ccs[i + 1..];
        if cc.id != INVALID_ID {
          match cc.kind {
            case AddNode => MakeVoter(cc.id);
            case AddLearnerNode => MakeLearner(cc.id);
            case RemoveNode => Remove(cc.id);
          }
        }
      }
      return cfg.voters.incoming != {};
    }
  }

  /** The in-place result `r` is the value result `s`: the same error, or its configuration and change list. */
  ghost predicate Gives(r: Result<(Configuration, seq<MapChange>)>, s: Result<Draft>) {
    && (r.Ok? <==> s.Ok?) && (r.Err? ==> r.error == s.error)
    && (r.Ok? ==> r.value == (s.value.cfg, s.value.changes))
  }

  /** simple (src/confchange/changer.rs:136-158). */
  method RunSimple(t: ProgressTracker, ccs: seq<Single>) returns (r: Result<(Configuration, seq<MapChange>)>)
    ensures Gives(r, Simple(t.conf, t.progress.Keys, ccs))
  {
    if t.conf.Joint() {
      return Err(AlreadyJoint);
    }
    if !CheckInvariants(Draft(t.conf, [], t.progress.Keys)) {
      return Err(BrokenInvariant);
    }
    var w := new Working(t.conf, t.progress.Keys);
    var ok := w.Apply(ccs);
    if !ok {
      return Err(RemovedAllVoters);
    }
    if |SymmetricDifference(w.cfg.voters.incoming, t.conf.voters.incoming)| > 1 {
      return Err(TooManyChanges);
    }
    if !CheckInvariants(Draft(w.cfg, w.changes, w.base)) {
      return Err(BrokenInvariant);
    }
    return Ok((w.cfg, w.changes));
  }

  /** enter_joint (src/confchange/changer.rs:68-91). */
  method RunEnterJoint(t: ProgressTracker, autoLeave: bool, ccs: seq<Single>)
    returns (r: Result<(Configuration, seq<MapChange>)>)
    ensures Gives(r, EnterJoint(t.conf, t.progress.Keys, autoLeave, ccs))
  {
    if t.conf.Joint() {
      return Err(AlreadyJoint);
    }
    if !CheckInvariants(Draft(t.conf, [], t.progress.Keys)) {
      return Err(BrokenInvariant);
    }
    if t.conf.voters.incoming == {} {
      return Err(NoVoters);
    }
    var w := new Working(t.conf, t.progress.Keys);
    w.cfg := w.cfg.(voters := w.cfg.voters.(outgoing := w.cfg.voters.outgoing + w.cfg.voters.incoming));
    var ok := w.Apply(ccs);
    if !ok {
      return Err(RemovedAllVoters);
    }
    w.cfg := w.cfg.(autoLeave := autoLeave);
    if !CheckInvariants(Draft(w.cfg, w.changes, w.base)) {
      return Err(BrokenInvariant);
    }
    return Ok((w.cfg, w.changes));
  }

  /** leave_joint (src/confchange/changer.rs:106-130); the outgoing voters come in an order of their own. */
  method RunLeaveJoint(t: ProgressTracker) returns (r: Result<(Configuration, seq<MapChange>)>)
    ensures exists order :: Gives(r, LeaveJoint(t.conf, t.progress.Keys, order))
                            && (CheckInvariants(Draft(t.conf, [], t.progress.Keys)) ==>
                                  Enumerates(order, t.conf.voters.outgoing))
  {
    ghost var order := [];
    if !t.conf.Joint() {
      assert LeaveJoint(t.conf, t.progress.Keys, order) == Err(NotJoint);
      return Err(NotJoint);
    }
    if !CheckInvariants(Draft(t.conf, [], t.progress.Keys)) {
      assert LeaveJoint(t.conf, t.progress.Keys, order) == Err(BrokenInvariant);
      return Err(BrokenInvariant);
    }
    var cfg, changes := t.conf, [];
    var learners := cfg.learners + cfg.learnersNext;
    cfg := cfg.(learners := learners, learnersNext := {});
    ghost var merged := Draft(cfg, [], t.progress.Keys);
    var todo := cfg.voters.outgoing;
    while todo != {}
      invariant todo <= cfg.voters.outgoing && Enumerates(order, cfg.voters.outgoing - todo)
      invariant Drop(merged, order) == merged.(changes := changes)
      decreases |todo|
    {
      var id :| id in todo;
      todo := todo - {id};
      if id !in cfg.voters.incoming && id !in cfg.learners {
        changes := changes + [MapChange(id, false)];
      }
      assert (order + [id])[..|order|] == order;
      order := order + [id];
    }
    cfg := cfg.(voters := cfg.voters.(outgoing := {}), autoLeave := false);
    if !CheckInvariants(Draft(cfg, changes, t.progress.Keys)) {
      r := Err(BrokenInvariant);
    } else {
      r := Ok((cfg, changes));
    }
    assert Gives(r, LeaveJoint(t.conf, t.progress.Keys, order));
  }

  /** What a committed configuration-change entry asks for. */
  datatype Wanted = Leave | Enter(autoLeave: bool, ccs: seq<Single>) | Simply(ccs: seq<Single>)

  /**
   apply_conf_change (src/raft.rs:2812-2823): an accepted change takes effect, a refused one changes nothing, and the
   configuration stays good either way.
   */
  method ApplyConfChange(t: ProgressTracker, w: Wanted, next: nat) returns (r: Result<()>)
    requires Good(t.conf, t.progress.Keys)
    modifies t
    ensures Good(t.conf, t.progress.Keys)
    ensures exists ch :: Asks(w, ch)
                         && Changes(Tracked(old(t.conf), old(t.progress.Keys)), ch, Tracked(t.conf, t.progress.Keys))
    ensures r.Err? ==> t.conf == old(t.conf) && t.progress == old(t.progress)
    ensures w.Leave? && old(t.conf).Joint() ==> r.Ok?
  {
    hide Good, Sound, Simple, EnterJoint, LeaveJoint, Applied, CheckInvariants;
    ghost var s := Tracked(t.conf, t.progress.Keys);
    GoodParts(t.conf, t.progress.Keys);
    var got;
    ghost var ch;
    match w {
      case Leave =>
        got := RunLeaveJoint(t);
        ghost var order :| Gives(got, LeaveJoint(t.conf, t.progress.Keys, order))
                           && Enumerates(order, t.conf.voters.outgoing);
        ch := DoLeave(order);
      case Enter(autoLeave, ccs) =>
        got := RunEnterJoint(t, autoLeave, ccs);
        ch := DoEnter(autoLeave, ccs);
      case Simply(ccs) =>
        got := RunSimple(t, ccs);
        ch := DoSimple(ccs);
    }
    if got.Err? {
      assert Asks(w, ch) && Changes(s, ch, s);
      ChangesGood(s, ch, s);
      return Err(got.error);
    }
    t.ApplyConf(got.value.0, got.value.1, next);
    assert Asks(w, ch) && Changes(s, ch, Tracked(t.conf, t.progress.Keys));
    ChangesGood(s, ch, Tracked(t.conf, t.progress.Keys));
    return Ok(());
  }

  ghost predicate Asks(w: Wanted, ch: Change) {
    match w
    case Leave => ch.DoLeave?
    case Enter(autoLeave, ccs) => ch == DoEnter(autoLeave, ccs)
    case Simply(ccs) => ch == DoSimple(ccs)
  }
}
