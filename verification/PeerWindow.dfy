/** What a leader always knows about a peer, whatever it hears from it: src/tracker/progress.rs under src/raft.rs. */
module PeerWindow {
  import opened WindowModel
  import opened ProgressModel
  import opened RaftNode
  import opened Ring

  /** What happens to a peer's progress while its leader leads. */
  datatype Event =
    | Acked(index: nat)
    | Rejected(index: nat, hint: nat)
    | Sent(last: nat)
    | Beat
    | SnapshotSent(index: nat)
    | SnapshotReported(ok: bool)
    | Unreachable
    | Resized(cap: nat)

  ghost predicate Increasing(s: seq<nat>) {
    forall i, j :: 0 <= i < j < |s| ==> s[i] < s[j]
  }

  /**
   The next index is past the matched one; the window holds increasing indexes strictly between the two, within its
   capacity, and only while replicating.
   */
  ghost predicate Ordered(p: Progress) {
    && p.matched < p.nextIdx && |p.ins.items| <= p.ins.cap
    && (p.ins.incomingCap.Some? ==> p.ins.items != [] && p.ins.incomingCap.value < p.ins.cap)
    && (p.state != Replicate ==> p.ins.items == [])
    && Increasing(p.ins.items) && forall i :: 0 <= i < |p.ins.items| ==> p.matched < p.ins.items[i] < p.nextIdx
  }

  /** A new leader starts every peer after its own last entry. */
  lemma ResetOrdered(p: Progress, next: nat)
    requires next >= 1
    ensures Ordered(p.Reset(next))
  {
  }

  function AfterAck(p: Progress, index: nat): Progress {
    var (q, news) := p.MaybeUpdate(index);
    if news then AfterUpdate(q, index) else q
  }

  function AfterReject(p: Progress, index: nat, hint: nat): Progress {
    var (q, current) := p.MaybeDecrTo(index, hint, INVALID_INDEX);
    if current && q.state == Replicate then q.BecomeProbe() else q
  }

  function AfterBeat(p: Progress): Progress {
    var q := p.Resume();
    if q.state == Replicate && q.ins.Full() then q.(ins := q.ins.FreeFirstOne()) else q
  }

  /** handle_snapshot_status (src/raft.rs:1987-2024): the peer is probed again, and paused until it answers. */
  function AfterSnapshotReport(p: Progress, ok: bool): Progress {
    if p.state != Snapshot then p
    else (if ok then p.BecomeProbe() else p.(pendingSnapshot := 0).BecomeProbe())
         .Pause().(pendingRequestSnapshot := INVALID_INDEX)
  }

  ghost predicate Happens(p: Progress, e: Event, p': Progress) {
    match e
    case Acked(index) => p' == AfterAck(p, index)
    case Rejected(index, hint) => p' == AfterReject(p, index, hint)
    case Sent(last) => !p.IsPaused() && last >= p.nextIdx && p' == p.UpdateState(last)
    case Beat => p' == AfterBeat(p)
    case SnapshotSent(index) => p' == p.BecomeSnapshot(index)
    case SnapshotReported(ok) => p' == AfterSnapshotReport(p, ok)
    case Unreachable => p' == if p.state == Replicate then p.BecomeProbe() else p
    case Resized(cap) => p' == p.(ins := p.ins.SetCap(cap))
  }

  /** Freeing keeps the later part of the window, so what is left is above what was freed. */
  lemma FreeOrdered(w: Window, to: nat, lo: nat, hi: nat)
    requires Increasing(w.items) && |w.items| <= w.cap
    requires w.incomingCap.Some? ==> w.items != [] && w.incomingCap.value < w.cap
    requires forall i :: 0 <= i < |w.items| ==> lo < w.items[i] < hi
    ensures var v := w.FreeTo(to);
            && Increasing(v.items) && |v.items| <= v.cap
            && (v.incomingCap.Some? ==> v.items != [] && v.incomingCap.value < v.cap)
            && forall i :: 0 <= i < |v.items| ==> lo < v.items[i] < hi && to < v.items[i]
  {
    if w.items != [] && w.items[0] <= to {
      var k := FreesLongestPrefix(w.items, to);
      assert DropUpTo(w.items, to) == w.items[k..];
    }
  }

  lemma AckOrdered(p: Progress, index: nat)
    requires Ordered(p)
    ensures Ordered(AfterAck(p, index)) && AfterAck(p, index).matched >= p.matched
  {
    hide DropUpTo;
    FreeOrdered(p.ins, index, p.matched, p.nextIdx);
  }

  lemma BeatOrdered(p: Progress)
    requires Ordered(p)
    ensures Ordered(AfterBeat(p)) && AfterBeat(p).matched == p.matched
  {
    hide DropUpTo;
    if p.ins.items != [] {
      FreeOrdered(p.ins, p.ins.items[0], p.matched, p.nextIdx);
    }
  }

  lemma HappensOrdered(p: Progress, e: Event, p': Progress)
    requires Ordered(p) && Happens(p, e, p')
    ensures Ordered(p') && p.matched <= p'.matched
  {
    hide AfterAck, AfterBeat, Ordered;
    match e
    case Acked(index) =>
      AckOrdered(p, index);
    case Rejected(index, hint) =>
      RejectOrdered(p, index, hint);
    case Sent(last) =>
      SentOrdered(p, last);
    case Beat =>
      BeatOrdered(p);
    case SnapshotSent(index) =>
      RestOrdered(p, index, true);
    case SnapshotReported(ok) =>
      RestOrdered(p, 0, ok);
    case Unreachable =>
      RestOrdered(p, 0, true);
    case Resized(cap) =>
      ResizeOrdered(p, cap);
  }

  lemma RejectOrdered(p: Progress, index: nat, hint: nat)
    requires Ordered(p)
    ensures Ordered(AfterReject(p, index, hint)) && AfterReject(p, index, hint).matched == p.matched
  {
  }

  lemma SentOrdered(p: Progress, last: nat)
    requires Ordered(p) && !p.IsPaused() && last >= p.nextIdx
    ensures Ordered(p.UpdateState(last)) && p.UpdateState(last).matched == p.matched
  {
  }

  /** A smaller capacity waits until the window has drained (src/tracker/inflights.rs:51-80). */
  lemma ResizeOrdered(p: Progress, cap: nat)
    requires Ordered(p)
    ensures Ordered(p.(ins := p.ins.SetCap(cap)))
  {
  }

  lemma RestOrdered(p: Progress, index: nat, ok: bool)
    requires Ordered(p)
    ensures Ordered(p.BecomeSnapshot(index)) && p.BecomeSnapshot(index).matched == p.matched
    ensures Ordered(AfterSnapshotReport(p, ok)) && AfterSnapshotReport(p, ok).matched == p.matched
    ensures Ordered(p.BecomeProbe()) && p.BecomeProbe().matched == p.matched
  {
  }

  /** What happens to one peer's progress from the start of a leadership on. */
  ghost predicate IsTenure(ps: seq<Progress>, es: seq<Event>) {
    && |ps| == |es| + 1 && (exists p: Progress, next: nat :: next >= 1 && ps[0] == p.Reset(next))
    && forall i :: 0 <= i < |es| ==> Happens(ps[i], es[i], ps[i + 1])
  }

  /** Throughout a leadership every peer's progress is ordered, and `matched` never goes back. */
  lemma {:induction false} AlwaysOrdered(ps: seq<Progress>, es: seq<Event>, j: nat)
    requires IsTenure(ps, es) && j < |ps|
    ensures Ordered(ps[j]) && forall i :: 0 <= i <= j ==> ps[i].matched <= ps[j].matched
  {
    hide Ordered, Happens;
    if j == 0 {
      var p: Progress, next: nat :| next >= 1 && ps[0] == p.Reset(next);
      ResetOrdered(p, next);
    } else {
      AlwaysOrdered(ps, es, j - 1);
      assert Happens(ps[j - 1], es[j - 1], ps[j - 1 + 1]);
      HappensOrdered(ps[j - 1], es[j - 1], ps[j]);
    }
  }
}
