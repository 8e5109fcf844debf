/** One peer's replication progress as a value: src/tracker/progress.rs. */
module ProgressModel {
  import opened WindowModel

  const INVALID_INDEX: nat := 0

  datatype ProgressState = Probe | Replicate | Snapshot

  datatype Progress = Progress(
    matched: nat,
    nextIdx: nat,
    state: ProgressState,
    paused: bool,
    pendingSnapshot: nat,
    pendingRequestSnapshot: nat,
    recentActive: bool,
    ins: Window,
    group: nat,
    committedIndex: nat)
  {
    function ResetState(st: ProgressState): Progress {
      this.(paused := false, pendingSnapshot := 0, state := st, ins := ins.Reset())
    }

    function Reset(next: nat): Progress {
      this.(matched := 0, nextIdx := next, state := Probe, paused := false, pendingSnapshot := 0,
            pendingRequestSnapshot := INVALID_INDEX, recentActive := false, ins := ins.Reset())
    }

    function BecomeProbe(): Progress {
      var next := if state == Snapshot && matched < pendingSnapshot then pendingSnapshot + 1 else matched + 1;
      ResetState(Probe).(nextIdx := next)
    }

    function BecomeReplicate(): Progress {
      ResetState(Replicate).(nextIdx := matched + 1)
    }

    function BecomeSnapshot(index: nat): Progress {
      ResetState(Snapshot).(pendingSnapshot := index)
    }

    predicate IsSnapshotCaughtUp() {
      state == Snapshot && matched >= pendingSnapshot
    }

    function Resume(): Progress {
      this.(paused := false)
    }

    function Pause(): Progress {
      this.(paused := true)
    }

    /** The peer reports that it matches up to `n`; the flag says whether that was news. */
    function MaybeUpdate(n: nat): (Progress, bool) {
      var p := if matched < n then this.(matched := n, paused := false) else this;
      (if p.nextIdx < n + 1 then p.(nextIdx := n + 1) else p, matched < n)
    }

    function UpdateCommitted(c: nat): Progress {
      if c > committedIndex then this.(committedIndex := c) else this
    }

    /** The peer rejected an append at `rejected`; the flag says whether the rejection was current. */
    function MaybeDecrTo(rejected: nat, hint: nat, requestSnapshot: nat): (Progress, bool) {
      if state == Replicate then
        if rejected < matched || (rejected == matched && requestSnapshot == INVALID_INDEX) then (this, false)
        else if requestSnapshot == INVALID_INDEX then (this.(nextIdx := matched + 1), true)
        else (this.(pendingRequestSnapshot := requestSnapshot), true)
      else if (nextIdx == 0 || nextIdx - 1 != rejected) && requestSnapshot == INVALID_INDEX then (this, false)
      else if requestSnapshot == INVALID_INDEX then
        var next := if rejected < hint + 1 then rejected else hint + 1;
        (this.(nextIdx := if next < matched + 1 then matched + 1 else next, paused := false), true)
      else if pendingRequestSnapshot == INVALID_INDEX then
        (this.(pendingRequestSnapshot := requestSnapshot, paused := false), true)
      else (this.(paused := false), true)
    }

    predicate IsPaused() {
      match state
      case Probe => paused
      case Replicate => ins.Full()
      case Snapshot => true
    }

    /** Entries up to `last` have been sent. */
    function UpdateState(last: nat): Progress
      requires state != Snapshot
    {
      if state == Replicate then this.(nextIdx := last + 1, ins := ins.Add(last)) else Pause()
    }
  }

  function NewProgress(next: nat, cap: nat): Progress {
    Progress(0, next, Probe, false, 0, INVALID_INDEX, false, Empty(cap), 0, 0)
  }

  /** After a snapshot a peer is probed past it, however little it is known to hold; otherwise right after its match. */
  lemma ProbedAfter(p: Progress)
    ensures var q := p.BecomeProbe();
            && q.state == Probe && !q.paused && q.matched == p.matched && q.pendingSnapshot == 0 && q.ins.items == []
            && q.nextIdx - 1 >= p.matched && (p.state == Snapshot ==> q.nextIdx - 1 >= p.pendingSnapshot)
            && (q.nextIdx - 1 == p.matched || (p.state == Snapshot && q.nextIdx - 1 == p.pendingSnapshot))
  {
  }

  /** A rejection that asks for a snapshot is noted unless it is old or one is noted already. */
  lemma SnapshotRequested(p: Progress, rejected: nat, hint: nat, request: nat)
    requires request != INVALID_INDEX
    ensures var (q, current) := p.MaybeDecrTo(rejected, hint, request);
            && q.matched == p.matched && q.nextIdx == p.nextIdx && q.state == p.state
            && (current <==> p.state != Replicate || rejected >= p.matched)
            && q.pendingRequestSnapshot
               == (if current && (p.state == Replicate || p.pendingRequestSnapshot == INVALID_INDEX) then request
                   else p.pendingRequestSnapshot)
            && (current && p.state != Replicate ==> !q.paused)
  {
  }

  /** A peer that is sent a snapshot gets nothing else until it is known to hold as much as the snapshot. */
  lemma SnapshotAwaited(p: Progress, index: nat, n: nat)
    ensures var q := p.BecomeSnapshot(index);
            && q.state == Snapshot && q.pendingSnapshot == index && q.matched == p.matched && q.nextIdx == p.nextIdx
            && q.ins.items == [] && q.IsPaused()
            && (q.MaybeUpdate(n).0.IsSnapshotCaughtUp() <==> n >= index || p.matched >= index)
  {
  }

  /** Sending is held back by a probe that is not answered yet, by a full window, and by a snapshot under way. */
  lemma PausedExactly(p: Progress)
    ensures !p.IsPaused() <==>
              || (p.state == Probe && !p.paused)
              || (p.state == Replicate && |p.ins.items| != p.ins.cap
                  && (p.ins.incomingCap.Some? ==> |p.ins.items| < p.ins.incomingCap.value))
  {
  }
}
