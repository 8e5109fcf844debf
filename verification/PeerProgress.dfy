/** One peer's replication progress, updated in place: src/tracker/progress.rs. */
module PeerProgress {
  import opened Ring
  import M = ProgressModel

  class Progress {
    var matched: nat
    var nextIdx: nat
    var state: M.ProgressState
    var paused: bool
    var pendingSnapshot: nat
    var pendingRequestSnapshot: nat
    var recentActive: bool
    const ins: Inflights
    var group: nat
    var committedIndex: nat

    ghost predicate Valid()
      reads this, ins
    {
      ins.Valid()
    }

    ghost function View(): M.Progress
      requires Valid()
      reads this, ins
    {
      M.Progress(matched, nextIdx, state, paused, pendingSnapshot, pendingRequestSnapshot, recentActive, ins.View(),
                 group, committedIndex)
    }

    constructor (next: nat, capacity: nat)
      ensures Valid() && fresh(ins) && View() == M.NewProgress(next, capacity)
    {
      var window := new Inflights(capacity);
      matched, nextIdx, state, paused := 0, next, M.Probe, false;
      pendingSnapshot, pendingRequestSnapshot, recentActive := 0, M.INVALID_INDEX, false;
      ins, group, committedIndex := window, 0, 0;
    }

    method ResetState(st: M.ProgressState)
      requires Valid()
      modifies this, ins
      ensures Valid() && View() == old(View()).ResetState(st)
    {
      paused, pendingSnapshot, state := false, 0, st;
      ins.Reset();
    }

    method Reset(next: nat)
      requires Valid()
      modifies this, ins
      ensures Valid() && View() == old(View()).Reset(next)
    {
      matched, nextIdx, state, paused := 0, next, M.Probe, false;
      pendingSnapshot, pendingRequestSnapshot, recentActive := 0, M.INVALID_INDEX, false;
      ins.Reset();
    }

    method BecomeProbe()
      requires Valid()
      modifies this, ins
      ensures Valid() && View() == old(View()).BecomeProbe()
    {
      if state == M.Snapshot {
        var pending := pendingSnapshot;
        ResetState(M.Probe);
        nextIdx := if matched < pending then pending + 1 else matched + 1;
      } else {
        ResetState(M.Probe);
        nextIdx := matched + 1;
      }
    }

    method BecomeReplicate()
      requires Valid()
      modifies this, ins
      ensures Valid() && View() == old(View()).BecomeReplicate()
    {
      ResetState(M.Replicate);
      nextIdx := matched + 1;
    }

    method BecomeSnapshot(index: nat)
      requires Valid()
      modifies this, ins
      ensures Valid() && View() == old(View()).BecomeSnapshot(index)
    {
      ResetState(M.Snapshot);
      pendingSnapshot := index;
    }

    method MaybeUpdate(n: nat) returns (news: bool)
      requires Valid()
      modifies this
      ensures Valid() && (View(), news) == old(View()).MaybeUpdate(n)
    {
      news := matched < n;
      if news {
        matched, paused := n, false;
      }
      if nextIdx < n + 1 {
        nextIdx := n + 1;
      }
    }

    method UpdateCommitted(c: nat)
      requires Valid()
      modifies this
      ensures Valid() && View() == old(View()).UpdateCommitted(c)
    {
      if c > committedIndex {
        committedIndex := c;
      }
    }

    method MaybeDecrTo(rejected: nat, hint: nat, requestSnapshot: nat) returns (current: bool)
      requires Valid()
      modifies this
      ensures Valid() && (View(), current) == old(View()).MaybeDecrTo(rejected, hint, requestSnapshot)
    {
      if state == M.Replicate {
        if rejected < matched || (rejected == matched && requestSnapshot == M.INVALID_INDEX) {
          return false;
        }
        if requestSnapshot == M.INVALID_INDEX {
          nextIdx := matched + 1;
        } else {
          pendingRequestSnapshot := requestSnapshot;
        }
        return true;
      }
      if (nextIdx == 0 || nextIdx - 1 != rejected) && requestSnapshot == M.INVALID_INDEX {
        return false;
      }
      if requestSnapshot == M.INVALID_INDEX {
        nextIdx := if rejected < hint + 1 then rejected else hint + 1;
        if nextIdx < matched + 1 {
          nextIdx := matched + 1;
        }
      } else if pendingRequestSnapshot == M.INVALID_INDEX {
        pendingRequestSnapshot := requestSnapshot;
      }
      paused := false;
      return true;
    }

    predicate IsPaused()
      requires Valid()
      reads this, ins
      ensures IsPaused() == View().IsPaused()
    {
      match state
      case Probe => paused
      case Replicate => ins.Full()
      case Snapshot => true
    }

    /** Dies on a full window and in the Snapshot state. */
    method UpdateState(last: nat)
      requires Valid() && state != M.Snapshot && (state == M.Replicate ==> !ins.Full())
      modifies this, ins
      ensures Valid() && View() == old(View()).UpdateState(last)
    {
      if state == M.Replicate {
        nextIdx := last + 1;
        ins.Add(last);
      } else {
        paused := true;
      }
    }
  }
}
