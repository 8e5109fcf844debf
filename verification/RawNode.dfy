/** The ready/advance pipeline around one node's log: src/raw_node.rs. */
module RawNode {
  import opened Options
  import opened Quorum
  import opened CommittedIndex
  import opened LogModel
  import opened Numbers
  import opened LogPages
  import opened AbstractLog
  import opened TwoLayerLog
  import opened DeliveryModel
  import opened ReadyRecords
  import M = ProgressModel
  import N = RaftNode

  datatype HardState = HardState(term: nat, vote: nat, commit: nat)

  /** `ss` is the role part of the soft state, if it has changed. */
  datatype Ready = Ready(number: nat, ss: Option<N.Role>, hs: Option<HardState>, snapshot: Option<Snap>,
                         entries: seq<Entry>, committedEntries: seq<Entry>)

  datatype LightReady = LightReady(commitIndex: Option<nat>, committedEntries: seq<Entry>)

  /** What a leader of `term` commits: the joint index of `prs`, if it is news and has the leader's term. */
  ghost function LeaderCommit(cfg: JointConfig, groups: bool, prs: map<NodeId, M.Progress>, v: AbsLog, committed: nat,
                              term: nat): nat
  {
    var c := JointIndex(cfg, groups, N.Matched(prs)).0;
    if c > committed && v.TermOf(c) == term then c else committed
  }

  /** The progress after `j` is known to have everything up to `index`, and whether that was news to node `id`. */
  function Updated(prs: map<NodeId, M.Progress>, id: NodeId, j: NodeId, index: nat): (map<NodeId, M.Progress>, bool)
    requires j in prs
  {
    var (p, news) := prs[j].MaybeUpdate(index);
    (prs[j := if news && j != id then N.AfterUpdate(p, index) else p], news)
  }

  /** `es` is the page of the log's entries up to `upTo` that starts after `since` or, if later, the base. */
  ghost predicate IsPage(es: seq<Entry>, v: AbsLog, since: nat, upTo: nat, pageSize: nat, bytes: Sizes) {
    var from := Max(since, v.base);
    es != [] && from < upTo <= v.Last() && es == LimitSize(v.Slice(from + 1, upTo + 1), Some(pageSize), bytes)
  }

  class RawNode {
    const id: NodeId
    const cfg: JointConfig
    const log: RaftLog
    var role: N.Role
    var term: nat
    var vote: nat
    var prs: map<NodeId, M.Progress>
    var groupCommit: bool
    var prevRole: N.Role
    var prevHs: HardState
    var maxNumber: nat
    var records: seq<ReadyRecord>
    var commitSince: nat
    var pageSize: nat
    /** All the application was handed, and every move of the log and the stream since the start. */
    ghost var trace: seq<Delivery>
    ghost const start: Flow
    ghost var moves: seq<Move>

    /** What the pipeline is about, as a value. */
    ghost function State(): Flow
      requires log.Layered()
      reads this, log, log.store, log.unstable
    {
      Flow(log.View(), log.committed, log.unstable.snap, commitSince, trace)
    }

    ghost predicate Valid()
      reads this, log, log.store, log.unstable
    {
      && log.Valid() && RecordsOk(records, log.committed, log.unstable.offset) && id in prs
      && Starts(start) && Leads(start, moves, State())
    }

    constructor (id: NodeId, cfg: JointConfig, prs: map<NodeId, M.Progress>, log: RaftLog, applied: nat, term: nat,
                 vote: nat, pageSize: nat)
      requires log.Valid() && log.unstable.snap.None? && applied <= log.committed && id in prs
      ensures Valid() && this.log == log && commitSince == applied && trace == [] && start == State()
      ensures role == prevRole == N.Follower && records == [] && maxNumber == 0
      ensures this.id == id && this.cfg == cfg && this.prs == prs && !groupCommit
    {
      this.id, this.cfg, this.prs, groupCommit := id, cfg, prs, false;
      this.log, commitSince, this.pageSize := log, applied, pageSize;
      this.term, this.vote, role, prevRole := term, vote, N.Follower, N.Follower;
      prevHs := HardState(term, vote, log.committed);
      maxNumber, records := 0, [];
      trace, moves, start := [], [], Flow(log.View(), log.committed, None, applied, []);
    }

    /** Every entry reached the application at most once and in order, and none was left out. */
    lemma HandedOnce()
      requires Valid()
      ensures forall i, j :: 0 <= i < j < |trace| && trace[i].Applied? && trace[j].Applied? ==>
                               trace[i].entry.index < trace[j].entry.index
      ensures forall x :: From(start) < x <= commitSince ==> Brought(trace, x)
      ensures Truthful(trace, log.View(), log.committed)
    {
      DeliveredOnce(start, moves, State());
    }

    lemma InOrder()
      requires Valid()
      ensures log.Layered() && FlowOk(From(start), State())
    {
      StartsOk(start);
      AlwaysInStep(From(start), start, moves, State());
    }

    lemma WithinLog()
      requires Valid()
      ensures log.Layered() && log.Deliverable() <= log.committed
      ensures log.View().base <= log.committed <= log.View().Last()
      ensures log.unstable.snap.Some? ==> log.View().base == log.unstable.snap.value.index
      ensures log.unstable.offset <= log.View().Last() + 1
    {
    }

    // What raft does between readies --------------------------------------------------------------

    /** The node handles an append; `died` is what `ClusterTheorems.PanicsExactly` rules out for appends. */
    method HandleAppend(idx: nat, logTerm: nat, commit: nat, es: seq<Entry>) returns (died: bool)
      requires Valid() && Consecutive(es, idx + 1)
      modifies log, log.unstable, this`moves
      ensures var m := AbstractLog.MaybeAppend(old(log.View()), old(log.committed), idx, logTerm, commit, es);
              && (died <==> m.Broken?)
              && (m.Refused? ==> Valid() && log.View() == old(log.View()) && log.committed == old(log.committed)
                                 && log.persisted == old(log.persisted))
              && (m.Stored? ==> Valid() && log.View() == m.log && log.committed == m.committed
                                && log.persisted == if m.conflict > 0 && old(log.persisted) > m.conflict - 1
                                                    then m.conflict - 1 else old(log.persisted))
      ensures !died ==> log.limit == old(log.limit) && log.unstable.snap == old(log.unstable.snap)
    {
      hide Leads, Becomes, Starts, MaybeAppend, RaftLog.View, RaftLog.Layered, Kept;
      WithinLog();
      ghost var f := State();
      ghost var m := AbstractLog.MaybeAppend(f.log, f.committed, idx, logTerm, commit, es);
      var _, d := log.MaybeAppend(idx, logTerm, commit, es);
      died := d;
      if m.Stored? {
        AppendMoves(f, idx, logTerm, commit, es);
        LeadsOn(start, moves, f, Appends(Kept(f.log, idx, es)), f.(log := m.log));
        moves := moves + [Appends(Kept(f.log, idx, es))];
        LeadsOn(start, moves, f.(log := m.log), Commits(m.committed), State());
        moves := moves + [Commits(m.committed)];
      }
    }

    /** The leader appends at the end of its log. */
    method LeaderAppend(es: seq<Entry>)
      requires Valid() && Consecutive(es, log.View().Last() + 1)
      modifies log, log.unstable, this`moves
      ensures Valid() && log.View() == old(log.View()).Replace(es) && log.committed == old(log.committed)
      ensures log.unstable.snap == old(log.unstable.snap) && log.persisted == old(log.persisted)
    {
      hide Leads, Starts, RaftLog.View, RaftLog.Layered, AbsLog.Replace;
      WithinLog();
      ghost var f := State();
      log.Append(es);
      LeadsOn(start, moves, f, Appends(es), State());
      moves := moves + [Appends(es)];
    }

    method CommitTo(c: nat)
      requires Valid() && c <= log.View().Last()
      modifies log`committed, this`moves
      ensures Valid() && log.View() == old(log.View()) && log.committed == Max(c, old(log.committed))
    {
      hide Leads, Starts, RaftLog.View, RaftLog.Layered;
      WithinLog();
      ghost var f := State();
      log.CommitTo(c);
      LeadsOn(start, moves, f, Commits(log.committed), State());
      moves := moves + [Commits(log.committed)];
    }

    /** The node is a follower that the snapshot says is a member, and the snapshot reaches the commit index. */
    predicate Eligible(s: Snap, member: bool)
      reads this, log
    {
      s.index >= log.committed && role == N.Follower && member
    }

    /**
     restore (src/raft.rs:2618-2702). A snapshot the log already agrees with only moves the commit index, unless the
     node asked for one.
     */
    method Restore(s: Snap, requested: bool, member: bool) returns (took: bool, died: bool)
      requires Valid()
      modifies this`role, this`term, this`vote, this`prs, this`moves, log`committed, log`persisted, log`limit,
               log.unstable
      ensures var agrees := !requested && old(log.View()).TermOf(s.index) == s.term;
              && (died <==> old(Eligible(s, member)) && agrees && s.index > old(log.View()).Last())
              && (!died ==>
                    Valid() && log.committed == if old(Eligible(s, member)) then s.index else old(log.committed))
              && (took <==> old(Eligible(s, member)) && !agrees)
              && (took ==> log.View() == OfSnap(s) && log.unstable.snap == Some(s)
                           && log.persisted == Min(old(log.persisted), old(log.committed)))
              && (!took && !died ==> log.View() == old(log.View()) && log.unstable.snap == old(log.unstable.snap)
                                     && log.persisted == old(log.persisted))
      ensures log.limit == if s.index >= old(log.committed) && old(role) != N.Follower then 0 else old(log.limit)
    {
      hide Leads, Starts, RaftLog.View, RaftLog.Layered, RaftLog.Valid, RecordsOk;
      WithinLog();
      if s.index < log.committed {
        return false, false;
      }
      if role != N.Follower {
        BecomeFollower(term + 1);
        return false, false;
      }
      if !member {
        return false, false;
      }
      if !requested && log.MatchTerm(s.index, s.term) {
        if s.index > log.LastIndex() {
          return false, true;
        }
        CommitTo(s.index);
        return false, false;
      }
      Replace(s);
      return true, false;
    }

    /** The log becomes the snapshot, which is pending from then on. */
    method Replace(s: Snap)
      requires Valid() && s.index >= log.committed
      modifies this`moves, log`committed, log`persisted, log.unstable
      ensures Valid() && log.View() == OfSnap(s) && log.unstable.snap == Some(s) && log.committed == s.index
      ensures log.persisted == Min(old(log.persisted), old(log.committed))
    {
      hide Leads, Starts, RaftLog.View, RaftLog.Layered;
      WithinLog();
      ghost var f := State();
      log.Restore(s);
      log.SnapBase();
      LeadsOn(start, moves, f, Restores(s), State());
      moves := moves + [Restores(s)];
    }

    /** reset (src/raft.rs:1015-1044): the vote survives only within its term. */
    method Reset(newTerm: nat)
      requires Valid()
      modifies this`term, this`vote, this`prs
      ensures Valid() && term == newTerm && vote == if newTerm == old(term) then old(vote) else INVALID_ID
      ensures prs == N.Restarted(old(prs), id, log.View().Last(), log.persisted, log.committed)
    {
      hide Leads, Starts;
      if term != newTerm {
        term, vote := newTerm, INVALID_ID;
      }
      prs := N.Restarted(prs, id, log.LastIndex(), log.persisted, log.committed);
      assert State() == old(State());
    }

    /** become_follower (src/raft.rs:1155-1168): a follower may not apply ahead of what is persisted, for now. */
    method BecomeFollower(newTerm: nat)
      requires Valid()
      modifies this`role, this`term, this`vote, this`prs, log`limit
      ensures Valid() && role == N.Follower && term == newTerm && log.limit == 0
      ensures vote == if newTerm == old(term) then old(vote) else INVALID_ID
      ensures prs == N.Restarted(old(prs), id, log.View().Last(), log.persisted, log.committed)
    {
      hide Leads, Starts, RaftLog.View, RaftLog.Layered;
      Reset(newTerm);
      role, log.limit := N.Follower, 0;
      assert State() == old(State());
    }

    /** become_candidate (src/raft.rs:1183-1199). */
    method BecomeCandidate() returns (died: bool)
      requires Valid()
      modifies this`role, this`term, this`vote, this`prs
      ensures died <==> old(role) == N.Leader
      ensures Valid()
      ensures !died ==> role == N.Candidate && term == old(term) + 1 && vote == id
    {
      hide Leads, Starts, RaftLog.View, RaftLog.Layered, N.Restarted;
      died := role == N.Leader;
      if !died {
        Reset(term + 1);
        vote, role := id, N.Candidate;
      }
    }

    /**
     become_leader (src/raft.rs:1233-1284): dies of a follower and exactly when part of the log is not known to be
     persisted. Otherwise the log gets one empty entry, and the node replicates to itself.
     */
    method BecomeLeader() returns (died: bool)
      requires Valid()
      modifies this`role, this`term, this`vote, this`prs, this`moves, log, log.unstable
      ensures died <==> old(role) == N.Follower || old(log.persisted) != old(log.View()).Last()
      ensures !died ==>
                && Valid() && role == N.Leader && term == old(term) && vote == old(vote)
                && log.View() == old(log.View()).Replace([Entry(term, old(log.View()).Last() + 1, 0)])
                && log.persisted == old(log.persisted) && log.committed == old(log.committed)
                && prs[id].matched == log.persisted && prs[id].state == M.Replicate
    {
      hide Leads, Starts, RaftLog.View, RaftLog.Layered, RaftLog.Valid, RecordsOk, AbsLog.Replace;
      WithinLog();
      died := role == N.Follower || log.persisted != log.LastIndex();
      if !died {
        Reset(term);
        role, prs := N.Leader, prs[id := prs[id].BecomeReplicate()];
        LeaderAppend([Entry(term, log.LastIndex() + 1, 0)]);
      }
    }

    /** set_max_apply_unpersisted_log_limit (src/raft.rs:614-616) asks for no role. */
    method SetLimit(limit: nat)
      requires Valid()
      modifies log`limit
      ensures Valid() && log.limit == limit
    {
      log.limit := limit;
    }

    // Readies -------------------------------------------------------------------------------------

    function Hs(): HardState
      reads this, log
    {
      HardState(term, vote, log.committed)
    }

    /** A pending snapshot was just handed out, and nothing is due after it: what ready asserts. */
    ghost predicate Cleared()
      requires log.Valid()
      reads this, log, log.store, log.unstable
    {
      log.unstable.snap.Some? ==> commitSince == log.unstable.snap.value.index && !log.HasNextEntriesSince(commitSince)
    }

    /** Committed entries for the application: the next page after where it stands (src/raw_node.rs:461-481). */
    method GenLightReady() returns (es: seq<Entry>)
      requires Valid() && Cleared()
      modifies this`commitSince, this`trace, this`moves
      ensures Valid() && trace == old(trace) + Each(es)
      ensures es == [] <==> !log.HasNextEntriesSince(old(commitSince))
      ensures es != [] ==> IsPage(es, log.View(), old(commitSince), log.Deliverable(), pageSize, log.store.bytes)
                           && commitSince == es[|es| - 1].index
      ensures es == [] ==> commitSince == old(commitSince)
      ensures commitSince >= old(commitSince)
    {
      hide Valid, IsPage, RaftLog.View, RaftLog.Layered, RaftLog.Deliverable, RaftLog.HasNextEntriesSince;
      es := NextPage();
      if es == [] {
        EachNone(trace);
      } else {
        WithinLog();
        PageFacts(es, log.View(), commitSince, log.Deliverable(), pageSize, log.store.bytes);
        assert commitSince < es[|es| - 1].index;
        Deliver(es);
      }
    }

    /** What next_entries_since gives for the application's position. */
    method NextPage() returns (es: seq<Entry>)
      requires Valid() && Cleared()
      ensures es == [] <==> !log.HasNextEntriesSince(commitSince)
      ensures es != [] ==> IsPage(es, log.View(), commitSince, log.Deliverable(), pageSize, log.store.bytes)
      ensures es != [] ==> log.unstable.snap.None?
    {
      hide Leads, Starts, LimitSize, RaftLog.View, RaftLog.Layered, RaftLog.Valid, RaftLog.HasNextEntriesSince,
           RaftLog.Deliverable, RecordsOk;
      WithinLog();
      DueMeaning(log, commitSince);
      var next := log.NextEntriesSince(commitSince, Some(pageSize));
      if next.None? {
        return [];
      }
      es := next.value;
      var from := Max(commitSince, log.FirstIndex() - 1);
      LimitNonEmpty(log.View().Slice(from + 1, log.Deliverable() + 1), Some(pageSize), log.store.bytes);
    }

    /**
     With a pending snapshot something is due after it exactly when the commit index and what may be applied both
     reach past it. With limit 0 that never happens: nothing after a pending snapshot counts as persisted.
     */
    lemma NothingPastSnapshot()
      requires Valid() && log.unstable.snap.Some?
      ensures var i := log.unstable.snap.value.index;
              log.HasNextEntriesSince(i) <==> i < log.committed && i < log.persisted + log.limit
      ensures log.limit == 0 ==> !log.HasNextEntriesSince(log.unstable.snap.value.index)
    {
    }

    /** Hands the entries right after the application's position to it. */
    method Deliver(es: seq<Entry>)
      requires Valid() && log.unstable.snap.None?
      requires var from := Max(commitSince, log.View().base);
               es != [] && from + |es| <= log.committed && es == log.View().Slice(from + 1, from + |es| + 1)
      modifies this`commitSince, this`trace, this`moves
      ensures Valid() && trace == old(trace) + Each(es) && commitSince == es[|es| - 1].index
    {
      hide Leads, Starts, Each, RaftLog.View, RaftLog.Layered;
      WithinLog();
      ghost var f := State();
      assert es[|es| - 1].index == From(f) + |es|;
      commitSince := es[|es| - 1].index;
      trace := trace + Each(es);
      LeadsOn(start, moves, f, HandsEntries(|es|), State());
      moves := moves + [HandsEntries(|es|)];
    }

    /** The Ready in hand describes all that is unstable, and its record is the last one. */
    ghost predicate Open(rd: Ready)
      reads this, log, log.unstable
    {
      && records != [] && records[|records| - 1] == ReadyRecord(rd.number, LastOf(rd.entries), rd.snapshot)
      && rd.number == maxNumber && rd.snapshot == log.unstable.snap && rd.entries == log.unstable.ents
      && (rd.snapshot.Some? ==> commitSince == rd.snapshot.value.index)
      && rd.ss == (if role == prevRole then None else Some(role))
      && rd.hs == (if Hs() == prevHs then None else Some(Hs()))
    }

    /** The snapshot, if there is one, moves the application's position; `died` if anything is due after it. */
    method HandSnapshot() returns (died: bool)
      requires Valid()
      modifies this`commitSince, this`trace, this`moves
      ensures died <==> log.unstable.snap.Some? && log.HasNextEntriesSince(log.unstable.snap.value.index)
      ensures Valid() && (!died ==> Cleared())
      ensures log.unstable.snap.None? ==> commitSince == old(commitSince) && trace == old(trace)
      ensures log.unstable.snap.Some? ==>
                var i := log.unstable.snap.value.index;
                old(commitSince) <= commitSince == i && trace == old(trace) + [Snapshot(i)]
    {
      hide Leads, Starts, RaftLog.View, RaftLog.Layered, RaftLog.Valid, RaftLog.HasNextEntriesSince, Position,
           RecordsOk;
      died := false;
      if log.unstable.snap.Some? {
        var i := log.unstable.snap.value.index;
        InOrder();
        ghost var f := State();
        assert commitSince <= i;
        commitSince := i;
        trace := trace + [Snapshot(i)];
        LeadsOn(start, moves, f, HandsSnapshot, State());
        moves := moves + [HandsSnapshot];
        died := log.HasNextEntriesSince(commitSince);
      }
    }

    /** Numbers the Ready; a node that has just become leader drops its older records, which must carry nothing. */
    method BeginReady() returns (died: bool)
      requires Valid()
      modifies this`maxNumber, this`records
      ensures died <==> prevRole != N.Leader && role == N.Leader && exists r :: r in old(records) && Carries(r)
      ensures Valid() && maxNumber == old(maxNumber) + 1
      ensures records == if prevRole != N.Leader && role == N.Leader then [] else old(records)
    {
      hide Leads, Starts;
      maxNumber, died := maxNumber + 1, false;
      if prevRole != N.Leader && role == N.Leader {
        died := exists r :: r in records && Carries(r);
        records := [];
      }
    }

    /**
     ready (src/raw_node.rs:491-563). It dies exactly when a new leader still has records of entries or a snapshot, or
     when committed entries may be applied past a pending snapshot.
     */
    method TakeReady() returns (rd: Ready, died: bool)
      requires Valid()
      modifies this`maxNumber, this`records, this`commitSince, this`trace, this`moves
      ensures died <==>
              || (prevRole != N.Leader && role == N.Leader && exists r :: r in old(records) && Carries(r))
              || (log.unstable.snap.Some? && log.unstable.snap.value.index < log.committed
                  && log.unstable.snap.value.index < log.persisted + log.limit)
      ensures !died ==> Valid() && Open(rd) && rd.number == old(maxNumber) + 1
      ensures !died ==> trace == old(trace) + (if rd.snapshot.Some? then [Snapshot(rd.snapshot.value.index)] else [])
                                 + Each(rd.committedEntries)
      ensures !died && rd.snapshot.Some? ==> rd.committedEntries == []
      ensures !died && rd.snapshot.None? && rd.committedEntries != [] ==>
                IsPage(rd.committedEntries, log.View(), old(commitSince), log.Deliverable(), pageSize, log.store.bytes)
      ensures !died && rd.snapshot.None? ==> (rd.committedEntries == [] <==> !log.HasNextEntriesSince(old(commitSince)))
      ensures !died ==> commitSince >= old(commitSince)
    {
      hide Valid, RaftLog.View, RaftLog.Layered, RaftLog.HasNextEntriesSince, RaftLog.Deliverable, Each, IsPage, LastOf,
           Carries;
      var snapshot, entries := log.unstable.snap, log.unstable.ents;
      rd := Ready(0, None, None, None, [], []);
      if snapshot.Some? {
        NothingPastSnapshot();
      }
      died := BeginReady();
      if died {
        return;
      }
      var ss := if role != prevRole then Some(role) else None;
      var hs := if Hs() != prevHs then Some(Hs()) else None;
      died := HandSnapshot();
      if died {
        return;
      }
      assert trace == old(trace) + if snapshot.Some? then [Snapshot(snapshot.value.index)] else [];
      var es := GenLightReady();
      AddRecord(ReadyRecord(maxNumber, LastOf(entries), snapshot));
      rd := Ready(maxNumber, ss, hs, snapshot, entries, es);
    }

    method AddRecord(r: ReadyRecord)
      requires Valid() && (r.snapshot.Some? ==> r.snapshot == log.unstable.snap)
      modifies this`records
      ensures Valid() && records == old(records) + [r]
    {
      hide Leads, Starts;
      records := records + [r];
    }

    /** The application writes a Ready to storage: first the snapshot, then the entries. */
    method WriteReady(rd: Ready)
      requires Valid() && Open(rd) && (rd.snapshot.Some? ==> log.store.base < rd.snapshot.value.index)
      modifies log.store
      ensures Valid() && Open(rd) && log.View() == old(log.View()) && log.SnapStored() && log.EntriesStored()
    {
      hide Leads, Starts, RecordsOk, RaftLog.View, RaftLog.Layered, RaftLog.SnapStored, RaftLog.EntriesStored;
      if rd.snapshot.Some? {
        WriteSnapshot(rd.snapshot.value);
      }
      WriteEntries();
    }

    method WriteSnapshot(s: Snap)
      requires log.Layered() && log.unstable.snap == Some(s) && log.store.base < s.index
      modifies log.store
      ensures log.Layered() && log.View() == old(log.View())
      ensures log.store.base == s.index && log.store.baseTerm == s.term && log.store.ents == []
    {
      var _ := log.store.ApplySnapshot(s);
    }

    method WriteEntries()
      requires log.Layered()
      requires log.unstable.snap.Some? ==>
                 log.store.base == log.unstable.snap.value.index && log.store.baseTerm == log.unstable.snap.value.term
                 && log.store.ents == []
      modifies log.store
      ensures log.Layered() && log.View() == old(log.View()) && log.SnapStored() && log.EntriesStored()
    {
      var store := log.store;
      StoredTail(store.base, store.baseTerm, store.ents, log.unstable.offset, log.unstable.ents);
      hide AbsLog.Replace;
      log.store.Append(log.unstable.ents);
    }

    /** What is in storage now stops being unstable; the log stays what it was. */
    method Stabilise(record: ReadyRecord)
      requires log.Valid() && log.SnapStored() && log.EntriesStored()
      requires record.snapshot == log.unstable.snap && record.lastEntry == LastOf(log.unstable.ents)
      modifies log.unstable
      ensures log.Valid() && log.View() == old(log.View()) && log.unstable.snap.None? && log.unstable.ents == []
      ensures log.unstable.offset >= old(log.unstable.offset)
    {
      LastUnstable(log);
      hide RaftLog.View, RaftLog.Layered, RaftLog.Valid;
      if record.snapshot.Some? {
        log.StableSnap(record.snapshot.value.index);
      }
      if record.lastEntry.Some? {
        log.StableEntries(record.lastEntry.value.0, record.lastEntry.value.1);
      }
    }

    method CommitReady(rd: Ready)
      requires Valid() && Open(rd) && log.SnapStored() && log.EntriesStored()
      modifies this`prevRole, this`prevHs, this`moves, log.unstable
      ensures Valid() && log.View() == old(log.View()) && prevHs == Hs() && prevRole == role
      ensures log.unstable.snap.None? && log.unstable.ents == []
    {
      hide Leads, Starts, RaftLog.View, RaftLog.Layered, RaftLog.Valid, RecordsOk, LastOf, RaftLog.SnapStored,
           RaftLog.EntriesStored;
      var record := records[|records| - 1];
      assert record.number == rd.number;
      if rd.ss.Some? {
        prevRole := rd.ss.value;
      }
      if rd.hs.Some? {
        prevHs := rd.hs.value;
      }
      KeepRecord(record);
    }

    /** What storage has taken of the last record is no longer unstable. */
    method KeepRecord(record: ReadyRecord)
      requires Valid() && log.SnapStored() && log.EntriesStored()
      requires record.snapshot == log.unstable.snap && record.lastEntry == LastOf(log.unstable.ents)
      requires record.snapshot.Some? ==> commitSince == record.snapshot.value.index
      modifies this`moves, log.unstable
      ensures Valid() && log.View() == old(log.View()) && log.unstable.snap.None? && log.unstable.ents == []
    {
      hide Leads, Starts, RaftLog.View, RaftLog.Layered, RaftLog.Valid, RecordsOk, LastOf, RaftLog.SnapStored,
           RaftLog.EntriesStored;
      WithinLog();
      ghost var f, offset := State(), log.unstable.offset;
      Stabilise(record);
      RecordsMore(records, log.committed, offset, log.unstable.offset);
      log.ValidParts();
      LeadsOn(start, moves, f, Stabilises, State());
      moves := moves + [Stabilises];
    }

    /** Drops the records up to `number` and finds the last snapshot among them and the last entry after it. */
    method TakeRecords(number: nat) returns (d: Drained)
      requires Valid()
      modifies this`records
      ensures Valid()
      ensures var n := Front(old(records), number); d == Drain(old(records)[..n]) && records == old(records)[n..]
      ensures d.snapIndex > 0 ==> d.snapIndex <= log.committed && d.snapIndex < log.unstable.offset
    {
      hide Leads, Starts, RaftLog.View, RaftLog.Layered, RaftLog.Valid;
      d := Drained(0, 0, 0);
      ghost var k := 0;
      while records != [] && records[0].number <= number
        invariant Valid()
        invariant k <= |old(records)| && records == old(records)[k..] && d == Drain(old(records)[..k])
        invariant Front(old(records), number) == k + Front(records, number)
        invariant d.snapIndex > 0 ==> d.snapIndex <= log.committed && d.snapIndex < log.unstable.offset
        decreases |records|
      {
        var record := records[0];
        records := records[1..];
        if record.snapshot.Some? {
          d := Drained(record.snapshot.value.index, 0, 0);
        }
        if record.lastEntry.Some? {
          d := d.(index := record.lastEntry.value.0, term := record.lastEntry.value.1);
        }
        assert old(records)[..k + 1][..k] == old(records)[..k];
        k := k + 1;
      }
    }

    /** How far the log is persisted once records that amount to `d` are. */
    function PersistedBy(d: Drained): nat
      reads log, log.store, log.unstable
    {
      var snapped := Max(log.persisted, d.snapIndex);
      if snapped < d.index < log.FirstUpdate() && log.store.Term(d.index) == Ok(d.term) then d.index else snapped
    }

    /** Indexes are 64-bit numbers. */
    ghost predicate InRange()
      requires log.Layered()
      reads this, log.store, log.unstable
    {
      log.View().Last() <= U64_MAX && forall j <- prs :: prs[j].matched <= U64_MAX
    }

    /** What the node commits, if it leads, once its peers' progress is `ps`. */
    ghost function CommitBy(ps: map<NodeId, M.Progress>): nat
      requires log.Layered()
      reads this`term, this`groupCommit, log, log.store, log.unstable
    {
      LeaderCommit(cfg, groupCommit, ps, log.View(), log.committed, term)
    }

    /** Whether records that amount to `d` bring entries that were not known to be persisted. */
    predicate BringsEntries(d: Drained)
      reads log, log.store, log.unstable
    {
      PersistedBy(d) > Max(log.persisted, d.snapIndex)
    }

    /**
     on_persist_ready (src/raw_node.rs:630-656). On a leader newly persisted entries move its own matched index, and
     that may complete a quorum.
     */
    method OnPersistReady(number: nat)
      requires Valid() && InRange() && (role == N.Leader ==> term > 0)
      modifies this`records, this`moves, this`prs, log`persisted, log`committed
      ensures Valid() && InRange() && log.View() == old(log.View()) && log.committed >= old(log.committed)
      ensures records == old(records)[Front(old(records), number)..]
      ensures var d := Drain(old(records)[..Front(old(records), number)]);
              && log.persisted == old(PersistedBy(d)) >= old(log.persisted)
              && N.Matched(prs) == N.Matched(if role == N.Leader && old(BringsEntries(d))
                                             then Updated(old(prs), id, id, d.index).0 else old(prs))
              && log.committed == if role == N.Leader && old(BringsEntries(d)) && Updated(old(prs), id, id, d.index).1
                                  then old(CommitBy(Updated(prs, id, id, d.index).0)) else old(log.committed)
      ensures forall i: nat, t: nat :: old(LastWritten(number, i, t)) ==> log.persisted == i
    {
      hide Leads, Starts, RaftLog.View, RaftLog.Layered, RaftLog.Valid, RecordsOk, Drain, Front, Storage.Term, CommitBy,
           N.Matched, Updated, PersistedBy, LastWritten;
      forall i: nat, t: nat | LastWritten(number, i, t)
        ensures PersistedBy(Drain(records[..Front(records, number)])) == i
      {
        LastWrittenCounts(number, i, t);
      }
      var d := TakeRecords(number);
      Persist(d);
    }

    /**
     The last record up to `number` ends with entry (`i`, `t`), which storage has, nothing unstable is about to replace
     it, and it lies above what is persisted and above the snapshots of those records.
     */
    ghost predicate LastWritten(number: nat, i: nat, t: nat)
      reads this`records, log, log.store, log.unstable
    {
      var rs := records[..Front(records, number)];
      && rs != [] && rs[|rs| - 1].lastEntry == Some((i, t))
      && log.persisted < i < log.FirstUpdate() && log.store.Term(i) == Ok(t)
      && forall r | r in rs && r.snapshot.Some? :: r.snapshot.value.index < i
    }

    /** Then its last entry is how far the log counts as persisted. */
    lemma LastWrittenCounts(number: nat, i: nat, t: nat)
      requires LastWritten(number, i, t)
      ensures PersistedBy(Drain(records[..Front(records, number)])) == i
    {
      hide Storage.Term, Front;
      var rs := records[..Front(records, number)];
      DrainedLast(rs, i, t);
    }

    method Persist(d: Drained)
      requires Valid() && InRange() && (role == N.Leader ==> term > 0)
      requires d.snapIndex > 0 ==> d.snapIndex <= log.committed && d.snapIndex < log.unstable.offset
      modifies this`moves, this`prs, log`persisted, log`committed
      ensures Valid() && InRange() && log.View() == old(log.View()) && log.committed >= old(log.committed)
      ensures log.persisted == old(PersistedBy(d)) >= old(log.persisted)
      ensures N.Matched(prs) == N.Matched(if role == N.Leader && old(BringsEntries(d))
                                          then Updated(old(prs), id, id, d.index).0 else old(prs))
      ensures log.committed == if role == N.Leader && old(BringsEntries(d)) && Updated(old(prs), id, id, d.index).1
                               then old(CommitBy(Updated(prs, id, id, d.index).0)) else old(log.committed)
    {
      hide Leads, Starts, RaftLog.View, RaftLog.Layered, RaftLog.Valid, RecordsOk, Storage.Term, N.Matched, JointIndex;
      WithinLog();
      if d.snapIndex != 0 {
        var _ := log.MaybePersistSnap(d.snapIndex);
      }
      if d.index != 0 {
        var update := log.MaybePersist(d.index, d.term);
        if update && role == N.Leader {
          FirstUpdateWithin();
          CountPeer(id, d.index);
        }
      }
    }

    lemma FirstUpdateWithin()
      requires log.Valid()
      ensures log.Layered() && log.FirstUpdate() <= log.View().Last() + 1
    {
    }

    /** A peer, or the node itself, is known to have everything up to `index`; if that is news, it may commit. */
    method CountPeer(j: NodeId, index: nat)
      requires Valid() && InRange() && j in prs && term > 0 && index <= U64_MAX
      modifies this`moves, this`prs, log`committed
      ensures Valid() && InRange() && log.View() == old(log.View())
      ensures N.Matched(prs) == N.Matched(Updated(old(prs), id, j, index).0)
      ensures log.committed == if Updated(old(prs), id, j, index).1 then old(CommitBy(Updated(prs, id, j, index).0))
                               else old(log.committed)
    {
      hide Leads, Starts, RaftLog.View, RaftLog.Layered, RaftLog.Valid, RecordsOk, JointIndex;
      var (updated, news) := Updated(prs, id, j, index);
      SetPrs(updated);
      if news {
        CommitQuorum();
      }
    }

    method SetPrs(updated: map<NodeId, M.Progress>)
      requires Valid() && id in updated
      modifies this`prs
      ensures Valid() && prs == updated && State() == old(State())
    {
      hide Leads, Starts;
      prs := updated;
      assert State() == old(State());
    }

    /** maybe_commit (src/raft.rs:946-957): the jointly committed index, if it has the leader's term. */
    method CommitQuorum()
      requires Valid() && InRange() && term > 0
      modifies this`moves, this`prs, log`committed
      ensures Valid() && InRange() && log.View() == old(log.View()) && N.Matched(prs) == N.Matched(old(prs))
      ensures log.committed == old(CommitBy(prs))
    {
      hide Leads, Starts, RaftLog.View, RaftLog.Layered, JointIndex, RecordsOk;
      WithinLog();
      var c := ComputeJoint(cfg, groupCommit, N.Matched(prs));
      var moved := CommitIndex(c);
      if moved {
        SetPrs(prs[id := prs[id].UpdateCommitted(c)]);
      }
    }

    method CommitIndex(c: nat) returns (moved: bool)
      requires Valid() && term > 0
      modifies this`moves, log`committed
      ensures Valid() && log.View() == old(log.View())
      ensures moved <==> c > old(log.committed) && log.View().TermOf(c) == term
      ensures log.committed == if moved then c else old(log.committed)
    {
      hide Leads, Starts, RaftLog.View, RaftLog.Layered;
      WithinLog();
      ghost var f := State();
      var m, _ := log.MaybeCommit(c, term);
      moved := m;
      LeadsOn(start, moves, f, Commits(log.committed), State());
      moves := moves + [Commits(log.committed)];
    }

    /** handle_append_response (src/raft.rs:1760-1871) for an acknowledgement, without the appends that follow it. */
    method HandleAck(from: NodeId, index: nat)
      requires Valid() && InRange() && index <= U64_MAX && (role == N.Leader ==> term > 0)
      modifies this`moves, this`prs, log`committed
      ensures Valid() && InRange() && log.View() == old(log.View())
      ensures if role == N.Leader && from in old(prs) then
                && N.Matched(prs) == N.Matched(Updated(old(prs), id, from, index).0)
                && log.committed == (if Updated(old(prs), id, from, index).1
                                     then old(CommitBy(Updated(prs, id, from, index).0)) else old(log.committed))
              else prs == old(prs) && log.committed == old(log.committed)
    {
      hide Leads, Starts, RaftLog.View, RaftLog.Layered, RaftLog.Valid, RecordsOk, CommitBy, Updated, N.Matched;
      if role == N.Leader && from in prs {
        CountPeer(from, index);
      }
    }

    /** advance_append (src/raw_node.rs:682-700). The hard state differs from the last one only by the commit index. */
    method AdvanceAppend(rd: Ready) returns (light: LightReady)
      requires Valid() && InRange() && Open(rd) && log.SnapStored() && log.EntriesStored()
      requires role == N.Leader ==> term > 0
      modifies this`prevRole, this`prevHs, this`records, this`commitSince, this`trace, this`moves, this`prs,
               log`persisted, log`committed, log.unstable
      ensures Valid() && log.View() == old(log.View()) && trace == old(trace) + Each(light.committedEntries)
      ensures prevHs == Hs() && commitSince >= old(commitSince) && log.committed >= old(log.committed)
      ensures light.commitIndex == if log.committed > old(log.committed) then Some(log.committed) else None
    {
      hide Leads, Starts, RaftLog.View, RaftLog.Layered, RaftLog.Valid, RecordsOk, Each, Drain, Front, PersistedBy,
           IsPage, Updated, CommitBy, N.Matched, BringsEntries, RaftLog.HasNextEntriesSince, RaftLog.Deliverable;
      CommitReady(rd);
      OnPersistReady(maxNumber);
      var es := GenLightReady();
      var hs := Hs();
      light := LightReady(None, es);
      if hs.commit > prevHs.commit {
        light := light.(commitIndex := Some(hs.commit));
        prevHs := prevHs.(commit := hs.commit);
      } else {
        assert hs.commit == prevHs.commit;
      }
      assert hs == prevHs;
    }

    /** The asynchronous form: storage can read the writes, and on_persist_ready follows later. */
    method AdvanceAppendAsync(rd: Ready)
      requires Valid() && Open(rd) && log.SnapStored() && log.EntriesStored()
      modifies this`prevRole, this`prevHs, this`moves, log.unstable
      ensures Valid() && log.View() == old(log.View()) && prevHs == Hs() && prevRole == role
      ensures log.unstable.snap.None? && log.unstable.ents == []
    {
      CommitReady(rd);
    }

    /** applied_to (src/raft_log.rs:327-343): dies outside what is applied already and what is committed. */
    method AdvanceApplyTo(applied: nat) returns (died: bool)
      requires Valid()
      modifies log`applied
      ensures died <==> applied > 0 && !(old(log.applied) <= applied <= log.committed)
      ensures Valid() && log.View() == old(log.View())
      ensures log.applied == if died || applied == 0 then old(log.applied) else applied
    {
      hide Leads, Starts;
      if applied > 0 && !(log.applied <= applied <= log.committed) {
        return true;
      }
      log.AppliedTo(applied);
      return false;
    }

    /**
     advance (src/raw_node.rs:667-672): the Ready was persisted and applied, so what it delivered is applied. It dies
     exactly when the application has already reported more than it was handed.
     */
    method Advance(rd: Ready) returns (light: LightReady, died: bool)
      requires Valid() && InRange() && Open(rd) && log.SnapStored() && log.EntriesStored()
      requires role == N.Leader ==> term > 0
      modifies this`prevRole, this`prevHs, this`records, this`commitSince, this`trace, this`moves, this`prs, log,
               log.unstable
      ensures Valid() && log.View() == old(log.View()) && trace == old(trace) + Each(light.committedEntries)
      ensures died <==> 0 < old(commitSince) < old(log.applied)
      ensures log.applied == if died || old(commitSince) == 0 then old(log.applied) else old(commitSince)
    {
      hide Leads, Starts, RaftLog.View, RaftLog.Layered, RaftLog.Valid, Each, Position, RecordsOk;
      var applied := commitSince;
      InOrder();
      light := AdvanceAppend(rd);
      died := AdvanceApplyTo(applied);
    }
  }

  /** The assertion in ready fails: a limit set on a follower lets entries after a pending snapshot be applied. */
  method SnapshotAssertionFails(bytes: Sizes, pageSize: nat) returns (died: bool)
    ensures died
  {
    hide RawNode.Valid, RaftLog.Valid, RaftLog.View, RaftLog.Layered, AbstractLog.MaybeAppend,
         RaftLog.HasNextEntriesSince, RawNode.Open, IsPage, RawNode.State;
    var store := new Storage(bytes);
    var log := new RaftLog(store);
    var node := new RawNode(1, JointConfig({1}, {}), map[1 := M.NewProgress(1, 256)], log, 0, 1, 0, pageSize);
    assert log.View().TermOf(10) == 0;
    var _, _ := node.Restore(Snap(10, 1), false, true);
    var es := [Entry(1, 11, 0), Entry(1, 12, 0)];
    AppendAfterSnapshot(es);
    var _ := node.HandleAppend(10, 1, 12, es);
    node.SetLimit(100);
    var _, d := node.TakeReady();
    died := d;
  }

  lemma AppendAfterSnapshot(es: seq<Entry>)
    requires es == [Entry(1, 11, 0), Entry(1, 12, 0)]
    ensures MaybeAppend(OfSnap(Snap(10, 1)), 10, 10, 1, 12, es) == Stored(AbsLog(10, 1, es), 12, 11, 12)
  {
    assert es[0..] == es;
  }

  lemma DueMeaning(log: RaftLog, since: nat)
    requires log.Valid()
    ensures log.Layered() && (log.HasNextEntriesSince(since) <==> Max(since, log.View().base) < log.Deliverable())
    ensures log.HasNextEntriesSince(since) <==> exists i :: IsDue(log, since, i)
  {
    if log.HasNextEntriesSince(since) {
      assert IsDue(log, since, log.Deliverable());
    }
  }

  /** Entry `i` is committed, within what may be applied, and not yet handed out or compacted. */
  ghost predicate IsDue(log: RaftLog, since: nat, i: int)
    requires log.Layered()
    reads log, log.store, log.unstable
  {
    since < i <= log.committed && log.View().base < i <= log.persisted + log.limit
  }

  lemma PageFacts(es: seq<Entry>, v: AbsLog, since: nat, upTo: nat, pageSize: nat, bytes: Sizes)
    requires v.WellFormed() && IsPage(es, v, since, upTo, pageSize, bytes)
    ensures var from := Max(since, v.base);
            && from + |es| <= upTo && from + |es| <= v.Last() && es[|es| - 1].index == from + |es|
            && es == v.Slice(from + 1, from + |es| + 1)
  {
    hide LimitSize;
    LimitNonEmpty(v.Slice(Max(since, v.base) + 1, upTo + 1), Some(pageSize), bytes);
  }

  lemma LastUnstable(log: RaftLog)
    requires log.Valid()
    ensures log.unstable.ents != [] ==>
              LastOf(log.unstable.ents) == Some((log.View().Last(), log.View().TermOf(log.View().Last())))
    ensures log.unstable.offset <= log.View().Last() + 1
  {
  }

  /** Writing the unstable entries leaves storage up to their offset alone and puts them after it. */
  lemma StoredTail(base: nat, baseTerm: nat, st: seq<Entry>, offset: nat, u: seq<Entry>)
    requires base < offset <= base + |st| + 1 && Consecutive(u, offset)
    requires u == [] ==> offset == base + |st| + 1
    ensures var v, k := AbsLog(base, baseTerm, st).Replace(u), offset - base - 1;
            && v == AbsLog(base, baseTerm, st[..k] + u) && k <= |v.ents|
            && v.ents[..k] == st[..k] && v.ents[k..] == u
  {
    if u == [] {
      assert st[..|st|] + u == st;
    }
  }

  lemma {:induction false} DrainedLast(rs: seq<ReadyRecord>, i: nat, t: nat)
    requires rs != [] && rs[|rs| - 1].lastEntry == Some((i, t)) && i > 0
    requires forall r | r in rs && r.snapshot.Some? :: r.snapshot.value.index < i
    ensures Drain(rs).index == i && Drain(rs).term == t && Drain(rs).snapIndex < i
  {
    SnapshotBelow(rs, i);
  }

  lemma {:induction false} SnapshotBelow(rs: seq<ReadyRecord>, i: nat)
    requires i > 0 && forall r | r in rs && r.snapshot.Some? :: r.snapshot.value.index < i
    ensures Drain(rs).snapIndex < i
  {
    if rs != [] {
      SnapshotBelow(rs[..|rs| - 1], i);
    }
  }

  /** A peer's matched index follows what it is known to have, and no other peer's moves. */
  lemma UpdatedMeaning(prs: map<NodeId, M.Progress>, id: NodeId, j: NodeId, index: nat, v: NodeId)
    requires j in prs && v in prs
    ensures var (ps, news) := Updated(prs, id, j, index);
            && ps.Keys == prs.Keys && (news <==> index > prs[j].matched)
            && ps[v].matched == (if v == j then Max(index, prs[v].matched) else prs[v].matched)
            && ps[v].group == prs[v].group
  {
  }

  lemma EachNone(trace: seq<Delivery>)
    ensures trace + Each([]) == trace
  {
  }
}
