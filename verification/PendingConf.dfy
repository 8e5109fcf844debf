/** At most one configuration change at a time: how a leader screens proposals (src/raft.rs). */
module PendingConf {
  import opened Options

  /** What is proposed. `wantLeave` is an empty change, which asks to leave the joint configuration. */
  datatype Proposal = Data | ConfChange(wantLeave: bool) | Garbled

  /**
   A leadership: for every log entry whether it is a configuration change, how many entries the leader inherited,
   how far it has applied, and the last index at which a change may be pending.
   */
  datatype Leadership = Leadership(log: seq<bool>, inherited: nat, applied: nat, pending: nat,
                                   joint: bool, autoLeave: bool)
  {
    predicate HasPendingConf() {
      pending > applied
    }

    /** Whether a change may be appended now (src/raft.rs:2112-2122). */
    predicate Admits(wantLeave: bool) {
      !HasPendingConf() && (joint <==> wantLeave)
    }
  }

  /** What is left of a batch: for each entry whether it is still a change; nothing if one cannot be read. */
  datatype Screened = Screened(pending: nat, kinds: Option<seq<bool>>)

  /** Screens the proposals from position `i` on; those before it are `kinds`. */
  function ScreenFrom(s: Leadership, ps: seq<Proposal>, i: nat, kinds: seq<bool>): Screened
    requires i <= |ps|
    decreases |ps| - i
  {
    if i == |ps| then Screened(s.pending, Some(kinds))
    else
      match ps[i]
      case Garbled => Screened(s.pending, None)
      case Data => ScreenFrom(s, ps, i + 1, kinds + [false])
      case ConfChange(wantLeave) =>
        if s.Admits(wantLeave) then ScreenFrom(s.(pending := |s.log| + i + 1), ps, i + 1, kinds + [true])
        else ScreenFrom(s, ps, i + 1, kinds + [false])
  }

  /** The loop of src/raft.rs:2091-2139: a change that is not admitted becomes an empty normal entry. */
  method Screen(s: Leadership, ps: seq<Proposal>) returns (r: Screened)
    ensures r == ScreenFrom(s, ps, 0, [])
  {
    var pending: nat, kinds := s.pending, [];
    for i := 0 to |ps|
      invariant ScreenFrom(s, ps, 0, []) == ScreenFrom(s.(pending := pending), ps, i, kinds)
    {
      if ps[i].Garbled? {
        return Screened(pending, None);
      }
      var isChange := false;
      if ps[i].ConfChange? {
        isChange := s.(pending := pending).Admits(ps[i].wantLeave);
        if isChange {
          pending := |s.log| + i + 1;
        }
      }
      kinds := kinds + [isChange];
    }
    r := Screened(pending, Some(kinds));
  }

  // A leadership ----------------------------------------------------------------------------------

  datatype Action =
    | Propose(ps: seq<Proposal>, letIn: bool)
    | Apply(to: nat)
    | Reconfigure(joint: bool, autoLeave: bool)

  /**
   A batch is screened and then appended, unless it is unreadable or the size limit drops it; the pending index
   stays moved even then (src/raft.rs:2124-2147).
   */
  function AfterPropose(s: Leadership, ps: seq<Proposal>, letIn: bool): Leadership {
    var r := ScreenFrom(s, ps, 0, []);
    s.(pending := r.pending, log := if letIn && r.kinds.Some? then s.log + r.kinds.value else s.log)
  }

  /** Applying may start the automatic exit from a joint configuration (src/raft.rs:980-1012). */
  function AfterApply(s: Leadership, to: nat): Leadership {
    var t := s.(applied := to);
    if s.autoLeave && s.applied <= s.pending && to >= s.pending
    then t.(log := s.log + [true], pending := |s.log| + 1) else t
  }

  ghost predicate Acts(s: Leadership, a: Action, s': Leadership) {
    match a
    case Propose(ps, letIn) => s' == AfterPropose(s, ps, letIn)
    case Apply(to) => s.applied <= to <= |s.log| && s' == AfterApply(s, to)
    case Reconfigure(joint, autoLeave) => s' == s.(joint := joint, autoLeave := autoLeave)
  }

  /** become_leader: the tail it inherits may hold changes, so all of it counts as pending (src/raft.rs:1265-1282). */
  ghost predicate Begins(s: Leadership) {
    && |s.log| == s.inherited + 1 && !s.log[s.inherited] && s.pending == s.inherited && s.applied <= s.inherited
  }

  /** Index `i` is a configuration change that this leader appended. */
  predicate OwnChange(s: Leadership, i: int) {
    s.inherited < i <= |s.log| && s.log[i - 1]
  }

  /** At most one own change lies above `applied`, and there is none at all before the inherited tail is applied. */
  ghost predicate OnePending(s: Leadership) {
    && (forall i, j :: OwnChange(s, i) && OwnChange(s, j) && i > s.applied && j > s.applied ==> i == j)
    && (forall i :: OwnChange(s, i) ==> s.inherited <= s.applied)
  }

  ghost predicate Inv(s: Leadership) {
    && s.applied <= |s.log| && s.inherited <= s.pending && s.inherited < |s.log|
    && (forall i :: OwnChange(s, i) ==> i <= s.pending)
    && OnePending(s)
  }

  /** Of a batch at most one entry stays a change, at the new pending index, and only if none was pending. */
  lemma {:induction false} ScreensOne(s: Leadership, ps: seq<Proposal>, i: nat, kinds: seq<bool>)
    requires i == |kinds| <= |ps|
    ensures var r := ScreenFrom(s, ps, i, kinds);
            && (r.pending == s.pending || (!s.HasPendingConf() && |s.log| + i < r.pending <= |s.log| + |ps|))
            && (r.kinds.Some? ==>
                  && |r.kinds.value| == |ps| && r.kinds.value[..i] == kinds
                  && forall k :: i <= k < |ps| && r.kinds.value[k] ==>
                       r.pending != s.pending && |s.log| + k + 1 == r.pending)
    requires s.applied <= |s.log|
    decreases |ps| - i
  {
    if i < |ps| && !ps[i].Garbled? {
      var isChange := ps[i].ConfChange? && s.Admits(ps[i].wantLeave);
      var t := if isChange then s.(pending := |s.log| + i + 1) else s;
      ScreensOne(t, ps, i + 1, kinds + [isChange]);
      var r := ScreenFrom(t, ps, i + 1, kinds + [isChange]);
      if r.kinds.Some? {
        assert r.kinds.value[..i + 1][..i] == kinds;
        assert r.kinds.value[i] == r.kinds.value[..i + 1][i];
      }
    }
  }

  lemma ProposeKeeps(s: Leadership, ps: seq<Proposal>, letIn: bool)
    requires Inv(s)
    ensures Inv(AfterPropose(s, ps, letIn))
  {
    ScreensOne(s, ps, 0, []);
    hide ScreenFrom;
    var s' := AfterPropose(s, ps, letIn);
    forall i | OwnChange(s', i)
      ensures i <= |s.log| ==> OwnChange(s, i)
      ensures i > |s.log| ==> i == s'.pending && !s.HasPendingConf()
    {
    }
  }

  lemma ApplyKeeps(s: Leadership, to: nat)
    requires Inv(s) && s.applied <= to <= |s.log|
    ensures Inv(AfterApply(s, to))
  {
    var s' := AfterApply(s, to);
    forall i | OwnChange(s', i)
      ensures i <= |s.log| ==> OwnChange(s, i)
    {
    }
  }

  /**
   Applying up to `to` appends the exit from an auto-leave configuration exactly when it reaches the pending index, and
   then that exit is the pending change; otherwise nothing but the applied index moves.
   */
  lemma LeavesWhenApplied(s: Leadership, to: nat, wantLeave: bool)
    requires s.applied <= to <= |s.log| && s.inherited < |s.log|
    ensures var s' := AfterApply(s, to);
            && s'.applied == to && s.log <= s'.log && s' == s.(applied := to, log := s'.log, pending := s'.pending)
            && (s'.log != s.log <==> s.autoLeave && s.applied <= s.pending <= to)
            && (s'.log != s.log ==> |s'.log| == |s.log| + 1 && OwnChange(s', |s'.log|) && s'.pending == |s'.log|
                                    && s'.HasPendingConf() && !s'.Admits(wantLeave))
            && (s'.log == s.log ==> s'.pending == s.pending)
  {
    assert |s.log + [true]| == |s.log| + 1;
  }

  lemma ActsKeeps(s: Leadership, a: Action, s': Leadership)
    requires Inv(s) && Acts(s, a, s')
    ensures Inv(s')
  {
    match a
    case Propose(ps, letIn) => ProposeKeeps(s, ps, letIn);
    case Apply(to) => ApplyKeeps(s, to);
    case Reconfigure(_, _) =>
      forall i | OwnChange(s', i)
        ensures OwnChange(s, i)
      {
      }
  }

  ghost predicate IsReign(ss: seq<Leadership>, actions: seq<Action>) {
    && |ss| == |actions| + 1 && Begins(ss[0])
    && forall k :: 0 <= k < |actions| ==> Acts(ss[k], actions[k], ss[k + 1])
  }

  /** At every point of a leadership at most one own change is unapplied, batches and automatic exits included. */
  lemma {:induction false} AtMostOnePending(ss: seq<Leadership>, actions: seq<Action>, k: nat)
    requires IsReign(ss, actions) && k < |ss|
    ensures Inv(ss[k]) && OnePending(ss[k])
  {
    hide Acts;
    if k > 0 {
      AtMostOnePending(ss, actions, k - 1);
      assert Acts(ss[k - 1], actions[k - 1], ss[k - 1 + 1]);
      ActsKeeps(ss[k - 1], actions[k - 1], ss[k]);
    }
  }

  // Batches that are dropped ----------------------------------------------------------------------

  /** Nothing up to position `n` of the batch is unreadable. */
  predicate Readable(ps: seq<Proposal>, n: nat)
    requires n <= |ps|
  {
    forall k :: 0 <= k < n ==> !ps[k].Garbled?
  }

  /** Position `k` holds a change that the leader admits, and everything before it can be read. */
  predicate AdmittedAt(s: Leadership, ps: seq<Proposal>, k: nat) {
    k < |ps| && Readable(ps, k) && ps[k].ConfChange? && s.Admits(ps[k].wantLeave)
  }

  /**
   The pending index moves exactly when the batch has such a change, and then to the first one, which is also the one
   entry that stays a change.
   */
  lemma {:induction false} ScreenMoves(s: Leadership, ps: seq<Proposal>, i: nat, kinds: seq<bool>)
    requires s.applied <= |s.log| && i == |kinds| <= |ps| && Readable(ps, i)
    requires forall k :: 0 <= k < i ==> !AdmittedAt(s, ps, k)
    ensures var r := ScreenFrom(s, ps, i, kinds);
            && (r.pending != s.pending <==> exists k :: i <= k < |ps| && AdmittedAt(s, ps, k))
            && (r.kinds.None? <==> !Readable(ps, |ps|))
            && forall k | i <= k < |ps| && AdmittedAt(s, ps, k) && (forall j :: i <= j < k ==> !AdmittedAt(s, ps, j)) ::
                 r.pending == |s.log| + k + 1 && (r.kinds.Some? ==> |r.kinds.value| == |ps| && r.kinds.value[k])
    decreases |ps| - i
  {
    if i < |ps| {
      ReadableNext(s, ps, i);
      hide Readable, AdmittedAt;
      if ps[i].Garbled? {
      } else if ps[i].ConfChange? && s.Admits(ps[i].wantLeave) {
        Settled(s.(pending := |s.log| + i + 1), ps, i + 1, kinds + [true]);
        assert (kinds + [true])[i];
      } else {
        ScreenMoves(s, ps, i + 1, kinds + [false]);
      }
    }
  }

  lemma ReadableNext(s: Leadership, ps: seq<Proposal>, i: nat)
    requires i < |ps| && Readable(ps, i)
    ensures ps[i].Garbled? ==> !Readable(ps, |ps|) && forall k :: i <= k < |ps| ==> !AdmittedAt(s, ps, k)
    ensures !ps[i].Garbled? ==> Readable(ps, i + 1)
    ensures AdmittedAt(s, ps, i) <==> ps[i].ConfChange? && s.Admits(ps[i].wantLeave)
  {
  }

  /** While a change is pending the rest of the batch moves nothing. */
  lemma {:induction false} Settled(s: Leadership, ps: seq<Proposal>, i: nat, kinds: seq<bool>)
    requires s.HasPendingConf() && i == |kinds| <= |ps| && Readable(ps, i)
    ensures var r := ScreenFrom(s, ps, i, kinds);
            && r.pending == s.pending && (r.kinds.None? <==> !Readable(ps, |ps|))
            && (r.kinds.Some? ==> kinds <= r.kinds.value && |r.kinds.value| == |ps|)
    decreases |ps| - i
  {
    if i < |ps| && !ps[i].Garbled? {
      Settled(s, ps, i + 1, kinds + [false]);
    }
  }

  /**
   The pending index moves although nothing is appended exactly when the batch has a change that is admitted, with
   everything before it readable, and the batch is then dropped: for its size, or for an unreadable entry further on.
   */
  lemma DroppedBatchBlocks(s: Leadership, ps: seq<Proposal>, letIn: bool)
    requires Inv(s)
    ensures var s' := AfterPropose(s, ps, letIn);
            s'.pending != s.pending && s'.log == s.log
            <==> (exists k :: 0 <= k < |ps| && AdmittedAt(s, ps, k)) && (!letIn || !Readable(ps, |ps|))
  {
    ScreenMoves(s, ps, 0, []);
    ScreensOne(s, ps, 0, []);
    hide ScreenFrom;
    var r := ScreenFrom(s, ps, 0, []);
    if letIn && r.kinds.Some? && ps != [] {
      assert |s.log + r.kinds.value| > |s.log|;
    }
  }

  /** A change is admitted again exactly when everything up to the pending index is applied and the direction fits. */
  lemma AdmittedAgain(s: Leadership, ps: seq<Proposal>, letIn: bool, to: nat, wantLeave: bool)
    ensures var s' := AfterPropose(s, ps, letIn);
            s'.(applied := to).Admits(wantLeave) <==> to >= s'.pending && (s.joint <==> wantLeave)
  {
  }

  /** The two ways to drop a batch: for its size, and for an unreadable entry behind an admitted change. */
  lemma DroppedBatches(s: Leadership, wantLeave: bool)
    requires Inv(s) && s.Admits(wantLeave)
    ensures var s' := AfterPropose(s, [ConfChange(wantLeave)], false);
            s'.log == s.log && s'.pending == |s.log| + 1 && !s'.Admits(wantLeave)
    ensures var s' := AfterPropose(s, [ConfChange(wantLeave), Garbled], true);
            s'.log == s.log && s'.pending == |s.log| + 1 && !s'.Admits(wantLeave)
  {
    var ps, qs := [ConfChange(wantLeave)], [ConfChange(wantLeave), Garbled];
    assert AdmittedAt(s, ps, 0) && AdmittedAt(s, qs, 0);
    ScreenMoves(s, ps, 0, []);
    ScreenMoves(s, qs, 0, []);
    assert qs[1].Garbled?;
  }
}
