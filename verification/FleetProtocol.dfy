/** Every move of a controller process keeps the invariant, and so does every run. */
module FleetProtocol {
  import opened RecoveryTypes
  import opened Engine
  import opened EngineSafety
  import opened Fleet
  import opened FleetSafety
  import opened Wrappers

  // ------------------------------------------------------------- leaving and moving on

  lemma QuitKeeps(c: Config, s: State, pid: nat)
    requires FleetInv(c, s)
    ensures FleetInv(c, Quit(s, pid))
  {
    NetworkMoved(c, s, Quit(s, pid));
    hide Inv;
    hide Later;
    hide SitesSound;
    hide RepliesSound;
    hide Sound;
    hide ProcSound;
    hide HistorySound;
    Kept(c, s, Quit(s, pid));
  }

  lemma SameHistoryLater(c: Config, s: State, t: State, q: nat, p: Process)
    requires ProcSound(c, s, q, p) && |s.sites| == |c.plans| && Later(s, t) && t.history == s.history
    ensures ProcSound(c, t, q, p)
  {
    ProcLater(c, s, t, q, p);
  }

  lemma SameHistory(c: Config, s: State, t: State)
    requires t.row == s.row && t.history == s.history && t.sites == s.sites
    ensures HistorySound(t) == HistorySound(s) && Shaped(c, t) == Shaped(c, s)
    ensures Shaped(c, s) ==> |s.sites| == |c.plans|
  {
  }

  lemma GoIs(s: State, pid: nat, p: Process)
    ensures Go(s, pid, p) == s.(procs := s.procs[pid := p])
  {
  }

  lemma GoKeeps(c: Config, s: State, pid: nat, p: Process)
    requires FleetInv(c, s) && ProcSound(c, s, pid, p)
    ensures FleetInv(c, Go(s, pid, p))
  {
    hide *;
    var t := Go(s, pid, p);
    GoIs(s, pid, p);
    Parts(c, s);
    SameHistory(c, s, t);
    NetworkMoved(c, s, t);
    SoundLater(c, s, t, s.row);
    forall q <- t.procs ensures ProcSound(c, t, q, t.procs[q]) {
      SameHistoryLater(c, s, t, q, t.procs[q]);
    }
    Whole(c, t);
  }

  // ------------------------------------------------------------- saving

  function Saved(s: State, pid: nat, row: Batch, h: History): State {
    s.(row := row, history := h.(writer := h.writer[row.revision := pid]))
  }

  /** The row that a process asks to store. */
  function Proposed(s: State, p: Process, to: BatchStatus): Batch {
    Batch(to, p.work.outcomes, s.row.revision + 1)
  }

  /** What the history must look like after the row has been stored. */
  ghost predicate Recorded(s: State, row: Batch, pid: nat, h: History) {
    var t := Saved(s, pid, row, h);
    && HistorySound(t)
    && |h.repairedAt| == |h.repairsSent| == |h.applies| == |h.recovers| == |row.outcomes|
    && forall q <- s.procs :: Holds(s, q, s.procs[q]) ==> Holds(t, q, s.procs[q])
  }

  lemma SavedIs(c: Config, s: State, pid: nat, row: Batch, h: History)
    requires SitesSound(c, s) && RepliesSound(s) && row.revision == s.row.revision + 1 && Follows(s.row, row)
    ensures var t := Saved(s, pid, row, h);
      && SitesSound(c, t) && RepliesSound(t) && Later(s, t)
      && t.row == row && t.procs == s.procs && t.sites == s.sites && t.nextProc == s.nextProc
  {
    hide Inv;
  }

  lemma SavedShape(c: Config, s: State, pid: nat, row: Batch, h: History)
    requires Shaped(c, s) && Recorded(s, row, pid, h) && |row.outcomes| == |c.plans|
    ensures var t := Saved(s, pid, row, h);
      && Shaped(c, t) && HistorySound(t)
      && forall q <- s.procs :: Holds(s, q, s.procs[q]) ==> Holds(t, q, s.procs[q])
  {
    hide HistorySound;
    hide Holds;
  }

  lemma SoundLength(c: Config, s: State, b: Batch)
    requires Sound(c, s, b)
    ensures |b.outcomes| == |c.plans|
  {
  }

  lemma SavedKeeps(c: Config, s: State, pid: nat, row: Batch, h: History)
    requires FleetInv(c, s) && row.revision == s.row.revision + 1
    requires Sound(c, s, row) && Follows(s.row, row)
    requires Recorded(s, row, pid, h)
    ensures FleetInv(c, Saved(s, pid, row, h))
  {
    hide *;
    var t := Saved(s, pid, row, h);
    Parts(c, s);
    SoundLength(c, s, row);
    SavedIs(c, s, pid, row, h);
    SavedShape(c, s, pid, row, h);
    SameHistory(c, s, s);
    SoundLater(c, s, t, row);
    ProcsLater(c, s, t);
    Whole(c, t);
  }

  lemma SaveRowIs(s: State, pid: nat, p: Process, to: BatchStatus, saving: Saving, h: History, next: Option<ControlPoint>)
    ensures SaveRow(s, pid, p, to, saving, h, next) ==
      if saving.Rejected? || p.base.revision != s.row.revision then Quit(s, pid)
      else
        var row := Proposed(s, p, to);
        if saving.Unacknowledged? || next.None? then Quit(Saved(s, pid, row, h), pid)
        else Go(Saved(s, pid, row, h), pid, Process(row, row, next.value, p.ceiling))
  {
    hide Quit;
    hide Go;
  }

  lemma SameBase(c: Config, s: State, pid: nat)
    requires FleetInv(c, s) && pid in s.procs
    ensures s.procs[pid].base.revision == s.row.revision ==> s.procs[pid].base == s.row
  {
    Parts(c, s);
    hide FleetInv;
    hide Sound;
    hide Sees;
    hide Knows;
    hide Holds;
  }

  lemma ProposedRevision(s: State, p: Process, to: BatchStatus)
    ensures Proposed(s, p, to).revision == s.row.revision + 1
  {
  }

  /** A guarded save by a process whose proposal is sound. */
  lemma SaveKeeps(c: Config, s: State, pid: nat, to: BatchStatus, saving: Saving, h: History, next: Option<ControlPoint>)
    requires FleetInv(c, s) && pid in s.procs
    requires s.procs[pid].base == s.row ==>
      var p, row := s.procs[pid], Proposed(s, s.procs[pid], to);
      && Sound(c, s, row) && Follows(s.row, row) && Recorded(s, row, pid, h)
      && (next.Some? ==> ProcSound(c, Saved(s, pid, row, h), pid, Process(row, row, next.value, p.ceiling)))
    ensures FleetInv(c, SaveRow(s, pid, s.procs[pid], to, saving, h, next))
  {
    hide *;
    var p, row := s.procs[pid], Proposed(s, s.procs[pid], to);
    SameBase(c, s, pid);
    ProposedRevision(s, p, to);
    SaveRowIs(s, pid, p, to, saving, h, next);
    if saving.Rejected? || p.base.revision != s.row.revision {
      QuitKeeps(c, s, pid);
    } else {
      SavedKeeps(c, s, pid, row, h);
      if saving.Unacknowledged? || next.None? {
        QuitKeeps(c, Saved(s, pid, row, h), pid);
      } else {
        GoKeeps(c, Saved(s, pid, row, h), pid, Process(row, row, next.value, p.ceiling));
      }
    }
  }

  // ------------------------------------------------------------- what a save may change

  lemma EvidenceRecorded(c: Config, s: State, pid: nat, row: Batch)
    requires FleetInv(c, s) && row.revision == s.row.revision + 1 && SameEvidence(row, s.row)
    ensures Recorded(s, row, pid, s.history)
  {
    hide Sound;
    hide SitesSound;
    hide RepliesSound;
    hide Bounded;
    hide ProcSound;
  }

  function RepairsRecorded(s: State, i: nat): History
    requires i < |s.history.repairedAt|
  {
    s.history.(repairedAt := s.history.repairedAt[i := s.history.repairedAt[i] + {s.row.revision + 1}])
  }

  function DispatchesRecorded(s: State, i: nat): History {
    s.history.(dispatchedAt := s.history.dispatchedAt[i := s.row.revision + 1])
  }

  lemma DispatchHistory(c: Config, s: State, pid: nat, row: Batch, i: nat)
    requires Shaped(c, s) && HistorySound(s) && row.revision == s.row.revision + 1
    requires i < |s.row.outcomes| && !s.row.outcomes[i].dispatched
    requires row.outcomes == s.row.outcomes[i := Outcome(true, Unknown, s.row.outcomes[i].repairs)]
    ensures HistorySound(Saved(s, pid, row, DispatchesRecorded(s, i)))
    ensures i !in s.history.dispatchedAt
  {
  }

  lemma DispatchHolds(c: Config, s: State, pid: nat, row: Batch, i: nat, q: nat)
    requires Shaped(c, s) && HistorySound(s) && row.revision == s.row.revision + 1
    requires i !in s.history.dispatchedAt && q in s.procs && Holds(s, q, s.procs[q])
    ensures Holds(Saved(s, pid, row, DispatchesRecorded(s, i)), q, s.procs[q])
  {
  }

  /** A dispatch is recorded once, in a revision that nobody else wrote. */
  lemma DispatchRecorded(c: Config, s: State, pid: nat, row: Batch, i: nat)
    requires FleetInv(c, s) && row.revision == s.row.revision + 1
    requires i < |s.row.outcomes| && !s.row.outcomes[i].dispatched
    requires row.outcomes == s.row.outcomes[i := Outcome(true, Unknown, s.row.outcomes[i].repairs)]
    ensures Recorded(s, row, pid, DispatchesRecorded(s, i))
  {
    Parts(c, s);
    hide FleetInv;
    hide HistorySound;
    hide Holds;
    hide Sound;
    hide SitesSound;
    hide RepliesSound;
    hide ProcSound;
    DispatchHistory(c, s, pid, row, i);
    forall q <- s.procs | Holds(s, q, s.procs[q]) ensures Holds(Saved(s, pid, row, DispatchesRecorded(s, i)), q, s.procs[q]) {
      DispatchHolds(c, s, pid, row, i, q);
    }
  }

  lemma RepairHistory(c: Config, s: State, pid: nat, row: Batch, i: nat)
    requires Shaped(c, s) && HistorySound(s) && row.revision == s.row.revision + 1
    requires i < |s.row.outcomes| && OneMoreRepair(row, s.row, i)
    ensures HistorySound(Saved(s, pid, row, RepairsRecorded(s, i)))
  {
    assert s.row.revision + 1 !in s.history.repairedAt[i];
  }

  lemma RepairHolds(c: Config, s: State, pid: nat, row: Batch, i: nat, q: nat)
    requires Shaped(c, s) && HistorySound(s) && row.revision == s.row.revision + 1
    requires i < |s.row.outcomes| && q in s.procs && Holds(s, q, s.procs[q])
    ensures Holds(Saved(s, pid, row, RepairsRecorded(s, i)), q, s.procs[q])
  {
  }

  lemma RepairRecorded(c: Config, s: State, pid: nat, row: Batch, i: nat)
    requires FleetInv(c, s) && row.revision == s.row.revision + 1
    requires i < |s.row.outcomes| && OneMoreRepair(row, s.row, i)
    ensures Recorded(s, row, pid, RepairsRecorded(s, i))
  {
    Parts(c, s);
    hide FleetInv;
    hide HistorySound;
    hide Holds;
    hide Sound;
    hide SitesSound;
    hide RepliesSound;
    hide ProcSound;
    RepairHistory(c, s, pid, row, i);
    forall q <- s.procs | Holds(s, q, s.procs[q]) ensures Holds(Saved(s, pid, row, RepairsRecorded(s, i)), q, s.procs[q]) {
      RepairHolds(c, s, pid, row, i, q);
    }
  }

  // ------------------------------------------------------------- sends

  function ApplySent(h: History, i: nat): History
    requires i < |h.applies|
  {
    h.(applies := h.applies[i := h.applies[i] + 1])
  }

  function RecoverSent(h: History, i: nat, r: nat): History
    requires i < |h.recovers| && i < |h.repairsSent|
  {
    h.(recovers := h.recovers[i := h.recovers[i] + 1], repairsSent := h.repairsSent[i := h.repairsSent[i] + {r}])
  }

  /** The permission to apply entry `i` is held by one process and used once. */
  lemma ApplyUsesPermission(c: Config, s: State, pid: nat, i: nat, t: State)
    requires FleetInv(c, s) && pid in s.procs && s.procs[pid].at == SendApply(i)
    requires i < |s.history.applies| && t.row == s.row && t.history == ApplySent(s.history, i)
    ensures HistorySound(t)
    ensures forall q <- s.procs | q != pid :: Holds(t, q, s.procs[q])
  {
    hide Sound;
    hide SitesSound;
    hide RepliesSound;
    hide Knows;
    hide Sees;
    assert ProcSound(c, s, pid, s.procs[pid]);
    forall q <- s.procs | q != pid ensures Holds(t, q, s.procs[q]) {
      assert ProcSound(c, s, q, s.procs[q]);
    }
  }

  lemma RecoverUsesPermission(c: Config, s: State, pid: nat, i: nat, t: State)
    requires FleetInv(c, s) && pid in s.procs && s.procs[pid].at == SendRecover(i)
    requires i < |s.history.recovers| && i < |s.history.repairsSent|
    requires t.row == s.row && t.history == RecoverSent(s.history, i, s.procs[pid].base.revision)
    ensures HistorySound(t)
    ensures forall q <- s.procs | q != pid :: Holds(t, q, s.procs[q])
  {
    hide Sound;
    hide SitesSound;
    hide RepliesSound;
    hide Knows;
    hide Sees;
    assert ProcSound(c, s, pid, s.procs[pid]);
    forall q <- s.procs | q != pid ensures Holds(t, q, s.procs[q]) {
      assert ProcSound(c, s, q, s.procs[q]);
    }
  }

  /** A process that has just saved `row` and goes on at `at`. */
  lemma SavedProcess(c: Config, s: State, pid: nat, row: Batch, h: History, q: Process)
    requires FleetInv(c, s) && pid < s.nextProc && row.revision == s.row.revision + 1
    requires Sound(c, s, row) && Follows(s.row, row)
    requires q.base == row && q.work == row && q.ceiling <= c.repairLimit
    requires Knows(c, q) && Sees(c, s, q) && Holds(Saved(s, pid, row, h), pid, q)
    ensures ProcSound(c, Saved(s, pid, row, h), pid, q)
  {
    var t := Saved(s, pid, row, h);
    assert |row.outcomes| == |c.plans| && Bounded(c, row);
    hide Knows;
    hide Holds;
    assert Later(s, t);
    SoundLater(c, s, t, row);
    SeesLater(c, s, t, q);
    hide Sound;
    hide Sees;
  }

  /** A process that changes its working copy and its control point. */
  lemma WorkKeeps(c: Config, s: State, pid: nat, work: Batch, at: ControlPoint)
    requires FleetInv(c, s) && pid in s.procs
    requires |work.outcomes| == |c.plans| && Bounded(c, work)
    requires var q := s.procs[pid].(work := work, at := at); Knows(c, q) && Sees(c, s, q) && Holds(s, pid, q)
    ensures FleetInv(c, Go(s, pid, s.procs[pid].(work := work, at := at)))
  {
    assert ProcSound(c, s, pid, s.procs[pid]);
    hide Sound;
    hide Knows;
    hide Sees;
    hide Holds;
    GoKeeps(c, s, pid, s.procs[pid].(work := work, at := at));
  }

  /** What a process brings to its next step. */
  lemma ProcessFacts(c: Config, s: State, pid: nat)
    requires FleetInv(c, s) && pid in s.procs
    ensures Shaped(c, s)
    ensures var p := s.procs[pid];
      && pid < s.nextProc && p.ceiling <= c.repairLimit
      && |p.base.outcomes| == |p.work.outcomes| == |c.plans| == |s.sites|
      && Sound(c, s, p.base) && Bounded(c, p.work) && Follows(p.base, s.row)
      && (p.base.revision == s.row.revision ==> p.base == s.row)
      && Knows(c, p) && Sees(c, s, p) && Holds(s, pid, p)
  {
    assert ProcSound(c, s, pid, s.procs[pid]);
    hide Knows;
    hide Sees;
    hide Holds;
  }

  lemma ProcessShape(c: Config, s: State, pid: nat)
    requires FleetInv(c, s) && pid in s.procs
    ensures Shaped(c, s) && |s.procs[pid].work.outcomes| == |c.plans|
  {
    hide SitesSound;
    hide RepliesSound;
    hide HistorySound;
    hide Sound;
    assert ProcSound(c, s, pid, s.procs[pid]);
  }

  // ------------------------------------------------------------- control points: apply

  lemma PreInspects(c: Config, s: State, p: Process, i: nat)
    requires Knows(c, p) && Sees(c, s, p) && p.at == PreInspect(i)
    ensures i < |c.plans| && var q := p.(at := if i + 1 < |c.plans| then PreInspect(i + 1) else Inspect(0)); Knows(c, q) && Sees(c, s, q)
  {
  }

  lemma PreInspectKeeps(c: Config, s: State, pid: nat, saving: Saving, reached: bool)
    requires FleetInv(c, s) && pid in s.procs && s.procs[pid].at.PreInspect?
    ensures FleetInv(c, AdvanceApply(s, pid, s.procs[pid], saving, reached))
  {
    hide FleetInv;
    hide Sound;
    hide Bounded;
    hide Knows;
    hide Sees;
    var p := s.procs[pid];
    var i := p.at.i;
    QuitKeeps(c, s, pid);
    ProcessFacts(c, s, pid);
    PreInspects(c, s, p, i);
    if reached && StatusOf(s, i) == Ready {
      WorkKeeps(c, s, pid, p.work, if i + 1 < |s.sites| then PreInspect(i + 1) else Inspect(0));
    }
  }

  lemma Inspects(c: Config, s: State, p: Process, i: nat)
    requires Knows(c, p) && Sees(c, s, p) && p.at == Inspect(i) && Bounded(c, p.work) && |p.work.outcomes| == |c.plans|
    ensures i < |c.plans| && var q := p.(at := LastSave(RolloutStopped)); Knows(c, q) && Sees(c, s, q)
    ensures
      var work := WithOutcome(p.work, i, Outcome(true, Unknown, p.work.outcomes[i].repairs));
      var q := p.(work := work, at := Dispatch(i));
      Bounded(c, work) && Knows(c, q) && Sees(c, s, q)
  {
  }

  lemma InspectKeeps(c: Config, s: State, pid: nat, saving: Saving, reached: bool)
    requires FleetInv(c, s) && pid in s.procs && s.procs[pid].at.Inspect?
    ensures FleetInv(c, AdvanceApply(s, pid, s.procs[pid], saving, reached))
  {
    hide FleetInv;
    hide Sound;
    hide Bounded;
    hide Knows;
    hide Sees;
    var p := s.procs[pid];
    var i := p.at.i;
    ProcessFacts(c, s, pid);
    Inspects(c, s, p, i);
    if !reached || StatusOf(s, i) != Ready {
      WorkKeeps(c, s, pid, p.work, LastSave(RolloutStopped));
    } else {
      WorkKeeps(c, s, pid, WithOutcome(p.work, i, Outcome(true, Unknown, p.work.outcomes[i].repairs)), Dispatch(i));
    }
  }

  lemma DispatchIsSound(c: Config, s: State, b: Batch, row: Batch, i: nat)
    requires Sound(c, s, b) && i < |c.plans| && DispatchedBelow(b, i)
    requires row.status == BatchApplying
    requires row.outcomes == b.outcomes[i := Outcome(true, Unknown, b.outcomes[i].repairs)]
    ensures Sound(c, s, row) && DispatchedBelow(row, i + 1)
  {
  }

  /** Having recorded its dispatch, the process may send entry `i` once. */
  lemma DispatchPermits(c: Config, s: State, pid: nat, row: Batch, i: nat, q: Process)
    requires FleetInv(c, s) && i < |c.plans| && RollsOut(s.row.status) && DispatchedBelow(s.row, i)
    requires CommittedBelow(s.row, i)
    requires row == Batch(BatchApplying, s.row.outcomes[i := Outcome(true, Unknown, s.row.outcomes[i].repairs)], s.row.revision + 1)
    requires Truthful(s, row) && q.base == q.work == row && q.at == SendApply(i)
    ensures Knows(c, q) && Sees(c, s, q)
    ensures Holds(Saved(s, pid, row, s.history.(dispatchedAt := s.history.dispatchedAt[i := s.row.revision + 1])), pid, q)
  {
    hide Sound;
    hide SitesSound;
    hide RepliesSound;
    hide ProcSound;
    hide Truthful;
  }

  lemma DispatchKeeps(c: Config, s: State, pid: nat, saving: Saving, reached: bool)
    requires FleetInv(c, s) && pid in s.procs && s.procs[pid].at.Dispatch?
    ensures FleetInv(c, AdvanceApply(s, pid, s.procs[pid], saving, reached))
  {
    var p := s.procs[pid];
    var i := p.at.i;
    ProcessFacts(c, s, pid);
    var h := s.history.(dispatchedAt := s.history.dispatchedAt[i := s.row.revision + 1]);
    if p.base == s.row {
      var row := Proposed(s, p, BatchApplying);
      DispatchIsSound(c, s, s.row, row, i);
      DispatchRecorded(c, s, pid, row, i);
      DispatchPermits(c, s, pid, row, i, Process(row, row, SendApply(i), p.ceiling));
      hide Sound;
      SavedProcess(c, s, pid, row, h, Process(row, row, SendApply(i), p.ceiling));
    }
    hide FleetInv;
    hide Sound;
    hide ProcSound;
    SaveKeeps(c, s, pid, BatchApplying, saving, h, Some(SendApply(i)));
  }

  lemma SentIsLater(s: State, t: State)
    requires t.sites == s.sites && t.row == s.row && s.calls <= t.calls && t.nextProc == s.nextProc
    ensures Later(s, t)
  {
    FollowsSelf(s.row);
    hide Follows;
  }

  lemma ProcWhole(c: Config, s: State, pid: nat, p: Process)
    requires pid < s.nextProc && p.ceiling <= c.repairLimit
    requires Sound(c, s, p.base) && |p.work.outcomes| == |c.plans| && Bounded(c, p.work)
    requires p.base.revision <= s.row.revision && (p.base.revision == s.row.revision ==> p.base == s.row)
    requires Follows(p.base, s.row)
    requires Knows(c, p) && Sees(c, s, p) && Holds(s, pid, p)
    ensures ProcSound(c, s, pid, p)
  {
    hide Sound;
    hide Bounded;
    hide Follows;
    hide Knows;
    hide Sees;
    hide Holds;
  }

  lemma MovedProcess(c: Config, s: State, t: State, pid: nat, q: Process)
    requires FleetInv(c, s) && pid in s.procs
    requires t.sites == s.sites && t.row == s.row && s.calls <= t.calls && t.nextProc == s.nextProc
    requires q == s.procs[pid].(at := q.at)
    requires Knows(c, q) && Sees(c, t, q) && Holds(t, pid, q)
    ensures ProcSound(c, t, pid, q)
  {
    hide *;
    ProcessFacts(c, s, pid);
    NotAhead(c, s, pid);
    SentIsLater(s, t);
    SoundLater(c, s, t, q.base);
    ProcWhole(c, t, pid, q);
  }

  lemma NotAhead(c: Config, s: State, pid: nat)
    requires FleetInv(c, s) && pid in s.procs
    ensures s.procs[pid].base.revision <= s.row.revision
  {
    Parts(c, s);
    hide FleetInv;
    hide Sound;
    hide Sees;
    hide Knows;
    hide Holds;
  }

  lemma SendKeeps(c: Config, s: State, pid: nat, t: State, q: Process)
    requires FleetInv(c, s) && pid in s.procs && Shaped(c, t) && HistorySound(t)
    requires t.sites == s.sites && t.row == s.row && s.calls <= t.calls && t.nextProc == s.nextProc
    requires t.replies == s.replies
    requires t.procs == s.procs[pid := q] && q == s.procs[pid].(at := q.at)
    requires forall k <- s.procs | k != pid :: Holds(t, k, s.procs[k])
    requires Knows(c, q) && Sees(c, t, q) && Holds(t, pid, q)
    ensures FleetInv(c, t)
  {
    hide Sound;
    hide ProcSound;
    hide Inv;
    hide HistorySound;
    hide Holds;
    hide Knows;
    hide Sees;
    assert SitesSound(c, t) && RepliesSound(t);
    assert Later(s, t);
    SoundLater(c, s, t, s.row);
    MovedProcess(c, s, t, pid, q);
    hide Later;
    hide Shaped;
    forall k <- t.procs ensures ProcSound(c, t, k, t.procs[k]) {
      if k != pid {
        assert ProcSound(c, s, k, s.procs[k]);
        ProcLater(c, s, t, k, s.procs[k]);
      }
    }
  }

  lemma SameTruth(s: State, t: State, b: Batch)
    requires Truthful(s, b) && t.sites == s.sites
    ensures Truthful(t, b)
  {
  }

  lemma SameRecord(s: State, a: Batch, b: Batch)
    requires Truthful(s, a) && a.outcomes == b.outcomes
    ensures Truthful(s, b)
  {
  }

  lemma AwaitsApply(c: Config, s: State, pid: nat, p: Process, i: nat, call: nat)
    requires Knows(c, p) && p.at == SendApply(i) && Truthful(s, p.work) && call < |s.calls| && s.calls[call].i == i
    ensures i < |c.plans| && Knows(c, p.(at := AwaitApply(i, call))) && Sees(c, s, p.(at := AwaitApply(i, call)))
    ensures Holds(s, pid, p.(at := AwaitApply(i, call)))
  {
    hide Truthful;
  }

  lemma SendApplyIs(s: State, pid: nat, p: Process, i: nat, saving: Saving, reached: bool)
    requires |p.work.outcomes| == |s.sites| == |s.history.applies| && p.at == SendApply(i) && i < |s.sites|
    ensures AdvanceApply(s, pid, p, saving, reached) == Sent(s, pid, p.(at := AwaitApply(i, |s.calls|)), Message(i, false), ApplySent(s.history, i))
  {
  }

  /** A message has been sent, and its sender waits for the answer. */
  function Sent(s: State, pid: nat, q: Process, m: Message, h: History): State {
    s.(calls := s.calls + [m], inFlight := s.inFlight + {|s.calls|}, history := h, procs := s.procs[pid := q])
  }

  lemma SentIs(s: State, pid: nat, q: Process, m: Message, h: History)
    ensures var t := Sent(s, pid, q, m, h);
      && t.sites == s.sites && t.row == s.row && s.calls <= t.calls && t.nextProc == s.nextProc && t.replies == s.replies
      && t.procs == s.procs[pid := q] && t.history == h && |s.calls| < |t.calls| && t.calls[|s.calls|] == m
  {
  }

  lemma SentShape(c: Config, s: State, t: State)
    requires Shaped(c, s) && t.row == s.row && t.sites == s.sites
    requires
      || (exists i: nat :: i < |s.history.applies| && t.history == ApplySent(s.history, i))
      || (exists i: nat, r :: i < |s.history.recovers| && i < |s.history.repairsSent| && t.history == RecoverSent(s.history, i, r))
    ensures Shaped(c, t)
  {
  }

  lemma Knowing(c: Config, s: State, pid: nat)
    requires FleetInv(c, s) && pid in s.procs
    ensures var p := s.procs[pid];
      && Knows(c, p) && Sees(c, s, p) && Holds(s, pid, p) && Truthful(s, p.work) && Bounded(c, p.work)
      && |p.work.outcomes| == |s.sites| == |c.plans| && Shaped(c, s)
      && |s.history.applies| == |s.history.recovers| == |s.history.repairsSent| == |s.history.repairedAt| == |c.plans|
  {
    ProcessFacts(c, s, pid);
    hide FleetInv;
    hide Knows;
    hide Holds;
    hide Bounded;
    hide Truthful;
    hide Sound;
  }

  lemma SendApplyKeeps(c: Config, s: State, pid: nat, saving: Saving, reached: bool)
    requires FleetInv(c, s) && pid in s.procs && s.procs[pid].at.SendApply?
    ensures FleetInv(c, AdvanceApply(s, pid, s.procs[pid], saving, reached))
  {
    hide *;
    Knowing(c, s, pid);
    var p := s.procs[pid];
    var i := p.at.i;
    var q := p.(at := AwaitApply(i, |s.calls|));
    InRange(c, p);
    var t := Sent(s, pid, q, Message(i, false), ApplySent(s.history, i));
    SendApplyIs(s, pid, p, i, saving, reached);
    SentIs(s, pid, q, Message(i, false), ApplySent(s.history, i));
    SentShape(c, s, t);
    ApplyUsesPermission(c, s, pid, i, t);
    SameTruth(s, t, p.work);
    AwaitsApply(c, t, pid, p, i, |s.calls|);
    SendKeeps(c, s, pid, t, q);
  }

  lemma InRange(c: Config, p: Process)
    requires Knows(c, p) && (p.at.SendApply? || p.at.SendRecover?)
    ensures p.at.i < |c.plans|
  {
  }

  /** Recording the state that a reply carried. */
  lemma ReplyIsTrue(c: Config, s: State, work: Batch, i: nat, call: nat)
    requires RepliesSound(s) && Truthful(s, work) && Bounded(c, work) && i < |work.outcomes|
    requires call in s.replies && call < |s.calls| && s.calls[call].i == i
    ensures Truthful(s, WithState(work, i, s.replies[call])) && Bounded(c, WithState(work, i, s.replies[call]))
    ensures SameEvidence(WithState(work, i, s.replies[call]), work)
    ensures s.replies[call] == Recovered ==> AtRecovered(s, i)
  {
  }

  lemma RepliedApply(c: Config, s: State, p: Process, i: nat, call: nat, st: Status)
    requires Knows(c, p) && Sees(c, s, p) && p.at == AwaitApply(i, call) && |p.work.outcomes| == |c.plans|
    ensures i < |c.plans| && call < |s.calls| && s.calls[call].i == i && Truthful(s, p.work)
    ensures var q := p.(at := LastSave(BatchUnknown)); Knows(c, q) && Sees(c, s, q)
    ensures Truthful(s, WithState(p.work, i, st)) ==>
      var q := p.(work := WithState(p.work, i, st),
            at := if st == Committed then RecordApplied(i) else LastSave(RolloutStopped));
      Knows(c, q) && Sees(c, s, q)
  {
    hide Truthful;
  }

  lemma AwaitApplyIs(s: State, pid: nat, p: Process, i: nat, call: nat, saving: Saving, reached: bool)
    requires |p.work.outcomes| == |s.sites| == |s.history.applies| && p.at == AwaitApply(i, call) && i < |s.sites|
    ensures AdvanceApply(s, pid, p, saving, reached) ==
      if !reached || call !in s.replies then Go(s, pid, p.(at := LastSave(BatchUnknown)))
      else
        Go(s, pid, p.(work := WithState(p.work, i, s.replies[call]),
              at := if s.replies[call] == Committed then RecordApplied(i) else LastSave(RolloutStopped)))
  {
    hide Go;
  }

  lemma AwaitApplyKeeps(c: Config, s: State, pid: nat, saving: Saving, reached: bool)
    requires FleetInv(c, s) && pid in s.procs && s.procs[pid].at.AwaitApply?
    ensures FleetInv(c, AdvanceApply(s, pid, s.procs[pid], saving, reached))
  {
    hide *;
    Knowing(c, s, pid);
    Parts(c, s);
    var p := s.procs[pid];
    var i, call := p.at.i, p.at.call;
    RepliedApply(c, s, p, i, call, Unknown);
    AwaitApplyIs(s, pid, p, i, call, saving, reached);
    if !reached || call !in s.replies {
      MayGo(s, pid, p.(at := LastSave(BatchUnknown)));
      WorkKeeps(c, s, pid, p.work, LastSave(BatchUnknown));
    } else {
      var st := s.replies[call];
      var at := if st == Committed then RecordApplied(i) else LastSave(RolloutStopped);
      ReplyIsTrue(c, s, p.work, i, call);
      RepliedApply(c, s, p, i, call, st);
      WithStateLength(p.work, i, st);
      MayGo(s, pid, p.(work := WithState(p.work, i, st), at := at));
      WorkKeeps(c, s, pid, WithState(p.work, i, st), at);
    }
  }

  /** Only a process about to send needs permission. */
  lemma MayGo(s: State, pid: nat, p: Process)
    requires !p.at.SendApply? && !p.at.SendRecover?
    ensures Holds(s, pid, p)
  {
  }

  lemma WithStateLength(b: Batch, i: nat, st: Status)
    requires i < |b.outcomes|
    ensures |WithState(b, i, st).outcomes| == |b.outcomes|
  {
  }

  /** A save that records neither a dispatch nor a repair. */
  lemma EvidenceSaveKeeps(c: Config, s: State, pid: nat, to: BatchStatus, saving: Saving, next: Option<ControlPoint>)
    requires FleetInv(c, s) && pid in s.procs
    requires s.procs[pid].base == s.row ==>
      var p, row := s.procs[pid], Proposed(s, s.procs[pid], to);
      && SameEvidence(p.work, s.row) && Meaningful(s, row) && (RollsOut(s.row.status) || !RollsOut(to))
      && (next.Some? ==> var q := Process(row, row, next.value, p.ceiling);
                         Knows(c, q) && Sees(c, s, q) && !next.value.SendApply? && !next.value.SendRecover?)
    ensures FleetInv(c, SaveRow(s, pid, s.procs[pid], to, saving, s.history, next))
  {
    var p, row := s.procs[pid], Proposed(s, s.procs[pid], to);
    ProcessFacts(c, s, pid);
    if p.base == s.row {
      EvidenceIsSound(c, s, p, row);
      EvidenceRecorded(c, s, pid, row);
      hide FleetInv;
      hide Sound;
      hide Bounded;
      hide Meaningful;
      hide SameEvidence;
      if next.Some? {
        var q := Process(row, row, next.value, p.ceiling);
        hide Knows;
        hide Sees;
        SavedProcess(c, s, pid, row, s.history, q);
      }
    }
    hide *;
    SaveKeeps(c, s, pid, to, saving, s.history, next);
  }

  lemma EvidenceIsSound(c: Config, s: State, p: Process, row: Batch)
    requires Sound(c, s, p.base) && SameEvidence(p.work, p.base) && Truthful(s, p.work)
    requires row.outcomes == p.work.outcomes && Meaningful(s, row)
    requires RollsOut(p.base.status) || !RollsOut(row.status)
    ensures Sound(c, s, row) && Follows(p.base, row)
  {
  }

  lemma RecordAppliedKeeps(c: Config, s: State, pid: nat, saving: Saving, reached: bool)
    requires FleetInv(c, s) && pid in s.procs && (s.procs[pid].at.RecordApplied? || s.procs[pid].at.FinishApply?)
    ensures FleetInv(c, AdvanceApply(s, pid, s.procs[pid], saving, reached))
  {
    hide FleetInv;
    hide Sound;
    hide Bounded;
    hide Truthful;
    hide HistorySound;
    ProcessFacts(c, s, pid);
    var p := s.procs[pid];
    match p.at
    case RecordApplied(i) =>
      SameRecord(s, p.work, Proposed(s, p, BatchApplying));
      EvidenceSaveKeeps(c, s, pid, BatchApplying, saving, Some(if i + 1 < |s.sites| then Inspect(i + 1) else FinishApply));
    case FinishApply =>
      EvidenceSaveKeeps(c, s, pid, BatchCommitted, saving, None);
  }

  lemma LastSaveKeeps(c: Config, s: State, pid: nat, saving: Saving)
    requires FleetInv(c, s) && pid in s.procs && s.procs[pid].at.LastSave?
    ensures FleetInv(c, SaveRow(s, pid, s.procs[pid], s.procs[pid].at.to, saving, s.history, None))
  {
    hide FleetInv;
    hide Sound;
    hide Bounded;
    hide Truthful;
    hide HistorySound;
    ProcessFacts(c, s, pid);
    EvidenceSaveKeeps(c, s, pid, s.procs[pid].at.to, saving, None);
  }

  // ------------------------------------------------------------- control points: reconcile

  /** Recording what an inspection showed. */
  lemma InspectionIsTrue(c: Config, s: State, work: Batch, i: nat, st: Status)
    requires Truthful(s, work) && Bounded(c, work) && i < |work.outcomes| == |s.sites|
    requires SitesSound(c, s) && |c.plans| == |s.sites|
    requires st == Unknown || st == StatusOf(s, i)
    ensures Truthful(s, WithState(work, i, st)) && Bounded(c, WithState(work, i, st))
    ensures SameEvidence(WithState(work, i, st), work)
  {
    hide Inv;
  }

  lemma ReconcileSkips(c: Config, s: State, p: Process, i: nat, to: ControlPoint)
    requires Knows(c, p) && Sees(c, s, p) && p.at.ReconcileEntry? && p.at.i == i && |p.work.outcomes| == |c.plans|
    requires
      || (i >= |c.plans| && to == LastSave(if p.at.problem then BatchUnknown else if p.at.allCommitted then BatchCommitted
                                           else if p.at.allRecovered then BatchRecovered else RolloutStopped))
      || (i < |c.plans| && !p.work.outcomes[i].dispatched && to == ReconcileEntry(i + 1, false, p.at.allRecovered, p.at.problem))
    requires |s.sites| == |c.plans|
    ensures Knows(c, p.(at := to)) && Sees(c, s, p.(at := to))
  {
  }

  lemma ReconcileSkipKeeps(c: Config, s: State, pid: nat, reached: bool)
    requires FleetInv(c, s) && pid in s.procs && s.procs[pid].at.ReconcileEntry?
    requires s.procs[pid].at.i >= |s.sites| || !Dispatched(s.procs[pid].work, s.procs[pid].at.i)
    ensures |s.procs[pid].work.outcomes| == |s.sites|
    ensures FleetInv(c, AdvanceReconcile(s, pid, s.procs[pid], reached))
  {
    hide FleetInv;
    hide Sound;
    hide Bounded;
    hide Knows;
    hide Sees;
    var p := s.procs[pid];
    var ReconcileEntry(i, allCommitted, allRecovered, problem) := p.at;
    var to := if i < |s.sites| then ReconcileEntry(i + 1, false, allRecovered, problem)
              else LastSave(if problem then BatchUnknown else if allCommitted then BatchCommitted
                            else if allRecovered then BatchRecovered else RolloutStopped);
    ProcessFacts(c, s, pid);
    ReconcileSkips(c, s, p, i, to);
    WorkKeeps(c, s, pid, p.work, to);
  }

  /** What reconciliation has established of the entries before `i`, it establishes of `i`. */
  lemma ReconcileKnows(c: Config, s: State, p: Process, i: nat, seen: Status, to: ControlPoint)
    requires Knows(c, p) && Sees(c, s, p) && p.at.ReconcileEntry? && p.at.i == i && i < |p.work.outcomes|
    requires p.work.outcomes[i].dispatched
    requires to.ReconcileEntry? && to.i == i + 1
    requires to.allCommitted == (p.at.allCommitted && seen == Committed)
    requires to.allRecovered == (p.at.allRecovered && seen == Recovered)
    requires Truthful(s, WithState(p.work, i, seen))
    ensures var q := p.(work := WithState(p.work, i, seen), at := to); Knows(c, q) && Sees(c, s, q)
  {
    hide Truthful;
  }

  lemma ReconcileReadIs(s: State, pid: nat, p: Process, reached: bool)
    requires p.at.ReconcileEntry? && |p.work.outcomes| == |s.sites| && p.at.i < |s.sites| && Dispatched(p.work, p.at.i)
    ensures var seen := if !reached || StatusOf(s, p.at.i) == Ready then Unknown else StatusOf(s, p.at.i);
      AdvanceReconcile(s, pid, p, reached) ==
        Go(s, pid, p.(work := WithState(p.work, p.at.i, seen),
                      at := ReconcileEntry(p.at.i + 1, p.at.allCommitted && seen == Committed,
                                           p.at.allRecovered && seen == Recovered, p.at.problem || !reached)))
  {
    hide Go;
  }

  lemma ReconcileReadKeeps(c: Config, s: State, pid: nat, reached: bool)
    requires FleetInv(c, s) && pid in s.procs && s.procs[pid].at.ReconcileEntry?
    requires s.procs[pid].at.i < |s.sites| && Dispatched(s.procs[pid].work, s.procs[pid].at.i)
    ensures |s.procs[pid].work.outcomes| == |s.sites|
    ensures FleetInv(c, AdvanceReconcile(s, pid, s.procs[pid], reached))
  {
    hide *;
    Knowing(c, s, pid);
    Parts(c, s);
    var p := s.procs[pid];
    var i := p.at.i;
    DispatchedOutcome(p.work, i);
    var seen := if !reached || StatusOf(s, i) == Ready then Unknown else StatusOf(s, i);
    var to := ReconcileEntry(i + 1, p.at.allCommitted && seen == Committed, p.at.allRecovered && seen == Recovered, p.at.problem || !reached);
    ReconcileReadIs(s, pid, p, reached);
    InspectionIsTrue(c, s, p.work, i, seen);
    ReconcileKnows(c, s, p, i, seen, to);
    WithStateLength(p.work, i, seen);
    MayGo(s, pid, p.(work := WithState(p.work, i, seen), at := to));
    WorkKeeps(c, s, pid, WithState(p.work, i, seen), to);
  }

  lemma DispatchedOutcome(b: Batch, i: nat)
    requires Dispatched(b, i)
    ensures i < |b.outcomes| && b.outcomes[i].dispatched
  {
  }

  // ------------------------------------------------------------- control points: recover

  lemma RepairSkipKeeps(c: Config, s: State, pid: nat, at: ControlPoint)
    requires FleetInv(c, s) && pid in s.procs && s.procs[pid].at.InspectRepair?
    requires var left := s.procs[pid].at.left;
      || (left == 0 && at == FinishRecover)
      || (left > 0 && !Dispatched(s.procs[pid].work, left - 1) && at == InspectRepair(left - 1))
      || at in {LastSave(BatchUnknown), LastSave(BatchRecoveryFailed)}
    ensures FleetInv(c, Go(s, pid, s.procs[pid].(at := at)))
  {
    hide FleetInv;
    hide Sound;
    hide Bounded;
    hide Truthful;
    hide SameEvidence;
    ProcessFacts(c, s, pid);
    WorkKeeps(c, s, pid, s.procs[pid].work, at);
  }

  lemma RepairedAlready(c: Config, s: State, p: Process, i: nat)
    requires Knows(c, p) && Sees(c, s, p) && p.at == InspectRepair(i + 1) && i < |p.work.outcomes| && AtRecovered(s, i)
    requires Truthful(s, WithState(p.work, i, Recovered))
    ensures var q := p.(work := WithState(p.work, i, Recovered), at := InspectRepair(i)); Knows(c, q) && Sees(c, s, q)
  {
    hide Truthful;
  }

  lemma RepairedAlreadyKeeps(c: Config, s: State, pid: nat, i: nat)
    requires FleetInv(c, s) && pid in s.procs && s.procs[pid].at == InspectRepair(i + 1)
    requires i < |s.procs[pid].work.outcomes|
    requires AtRecovered(s, i)
    ensures FleetInv(c, Go(s, pid, s.procs[pid].(work := WithState(s.procs[pid].work, i, Recovered), at := InspectRepair(i))))
  {
    assert StatusOf(s, i) == Recovered;
    hide *;
    Knowing(c, s, pid);
    Parts(c, s);
    var p := s.procs[pid];
    InspectionIsTrue(c, s, p.work, i, Recovered);
    RepairedAlready(c, s, p, i);
    WithStateLength(p.work, i, Recovered);
    MayGo(s, pid, p.(work := WithState(p.work, i, Recovered), at := InspectRepair(i)));
    WorkKeeps(c, s, pid, WithState(p.work, i, Recovered), InspectRepair(i));
  }

  lemma OrderRepairKeeps(c: Config, s: State, pid: nat, i: nat)
    requires FleetInv(c, s) && pid in s.procs && s.procs[pid].at == InspectRepair(i + 1)
    requires Dispatched(s.procs[pid].work, i) && s.procs[pid].work.outcomes[i].repairs < s.procs[pid].ceiling
    ensures FleetInv(c, Go(s, pid, s.procs[pid].(
              work := WithOutcome(s.procs[pid].work, i, Outcome(true, Unknown, s.procs[pid].work.outcomes[i].repairs + 1)),
              at := RecordRepair(i))))
  {
    hide FleetInv;
    hide Sound;
    ProcessFacts(c, s, pid);
    var p := s.procs[pid];
    WorkKeeps(c, s, pid, WithOutcome(p.work, i, Outcome(true, Unknown, p.work.outcomes[i].repairs + 1)), RecordRepair(i));
  }

  lemma LeftToRepair(c: Config, s: State, pid: nat)
    requires FleetInv(c, s) && pid in s.procs && s.procs[pid].at.InspectRepair?
    ensures s.procs[pid].at.left <= |s.sites| == |s.procs[pid].work.outcomes|
  {
    hide FleetInv;
    hide Sees;
    hide Sound;
    hide Bounded;
    ProcessFacts(c, s, pid);
  }

  lemma InspectRepairKeeps(c: Config, s: State, pid: nat, saving: Saving, reached: bool)
    requires FleetInv(c, s) && pid in s.procs && s.procs[pid].at.InspectRepair?
    ensures FleetInv(c, AdvanceRecover(s, pid, s.procs[pid], saving, reached))
  {
    hide FleetInv;
    LeftToRepair(c, s, pid);
    ProcessShape(c, s, pid);
    var p := s.procs[pid];
    if p.at.left == 0 {
      RepairSkipKeeps(c, s, pid, FinishRecover);
    } else {
      var i := p.at.left - 1;
      if !p.work.outcomes[i].dispatched {
        RepairSkipKeeps(c, s, pid, InspectRepair(i));
      } else if !reached {
        RepairSkipKeeps(c, s, pid, LastSave(BatchUnknown));
      } else if StatusOf(s, i) == Recovered {
        RepairedAlreadyKeeps(c, s, pid, i);
      } else if p.work.outcomes[i].repairs >= p.ceiling {
        RepairSkipKeeps(c, s, pid, LastSave(BatchRecoveryFailed));
      } else {
        OrderRepairKeeps(c, s, pid, i);
      }
    }
  }

  lemma RepairIsSound(c: Config, s: State, p: Process, row: Batch, i: nat)
    requires Sound(c, s, p.base) && OneMoreRepair(p.work, p.base, i) && Truthful(s, p.work) && Bounded(c, p.work)
    requires row.outcomes == p.work.outcomes && row.status == BatchRollingBack
    ensures Sound(c, s, row) && Follows(p.base, row) && OneMoreRepair(row, p.base, i)
  {
  }

  /** Having recorded a repair, the process may send it once. */
  lemma RepairPermits(c: Config, s: State, pid: nat, row: Batch, i: nat, q: Process)
    requires FleetInv(c, s) && i < |s.row.outcomes| && row.revision == s.row.revision + 1
    requires row.status == BatchRollingBack
    requires Truthful(s, row) && DispatchedRecovered(s, row, i + 1) && q.base == q.work == row && q.at == SendRecover(i)
    ensures Knows(c, q) && Sees(c, s, q)
    ensures Holds(Saved(s, pid, row, RepairsRecorded(s, i)), pid, q)
  {
    hide Sound;
    hide SitesSound;
    hide RepliesSound;
    hide ProcSound;
    hide Truthful;
  }

  lemma RecordRepairKeeps(c: Config, s: State, pid: nat, saving: Saving, reached: bool)
    requires FleetInv(c, s) && pid in s.procs && s.procs[pid].at.RecordRepair?
    ensures FleetInv(c, AdvanceRecover(s, pid, s.procs[pid], saving, reached))
  {
    hide FleetInv;
    hide Sound;
    hide Bounded;
    hide HistorySound;
    hide OneMoreRepair;
    hide Truthful;
    var p := s.procs[pid];
    var i := p.at.i;
    ProcessFacts(c, s, pid);
    var h := RepairsRecorded(s, i);
    if p.base == s.row {
      var row := Proposed(s, p, BatchRollingBack);
      RepairIsSound(c, s, p, row, i);
      SameRecord(s, p.work, row);
      RepairRecorded(c, s, pid, row, i);
      RepairPermits(c, s, pid, row, i, Process(row, row, SendRecover(i), p.ceiling));
      SavedProcess(c, s, pid, row, h, Process(row, row, SendRecover(i), p.ceiling));
    }
    SaveKeeps(c, s, pid, BatchRollingBack, saving, h, Some(SendRecover(i)));
  }

  lemma AwaitsRecover(c: Config, s: State, t: State, pid: nat, p: Process, i: nat, call: nat)
    requires Knows(c, p) && p.at == SendRecover(i) && Sees(c, s, p) && t.sites == s.sites
    requires call < |t.calls| && t.calls[call].i == i
    ensures i < |c.plans|
    ensures var q := p.(at := AwaitRecover(i, call)); Knows(c, q) && Sees(c, t, q) && Holds(t, pid, q)
  {
    SameTruth(s, t, p.work);
    hide Truthful;
  }

  lemma SendRecoverIs(s: State, pid: nat, p: Process, i: nat, saving: Saving, reached: bool)
    requires |p.work.outcomes| == |s.sites| == |s.history.recovers| == |s.history.repairsSent| == |s.history.repairedAt|
    requires p.at == SendRecover(i) && i < |s.sites|
    ensures AdvanceRecover(s, pid, p, saving, reached) ==
      Sent(s, pid, p.(at := AwaitRecover(i, |s.calls|)), Message(i, true), RecoverSent(s.history, i, p.base.revision))
  {
  }

  lemma SendRecoverKeeps(c: Config, s: State, pid: nat, saving: Saving, reached: bool)
    requires FleetInv(c, s) && pid in s.procs && s.procs[pid].at.SendRecover?
    ensures FleetInv(c, AdvanceRecover(s, pid, s.procs[pid], saving, reached))
  {
    hide *;
    Knowing(c, s, pid);
    var p := s.procs[pid];
    var i := p.at.i;
    var q := p.(at := AwaitRecover(i, |s.calls|));
    InRange(c, p);
    var h := RecoverSent(s.history, i, p.base.revision);
    var t := Sent(s, pid, q, Message(i, true), h);
    SendRecoverIs(s, pid, p, i, saving, reached);
    SentIs(s, pid, q, Message(i, true), h);
    SentShape(c, s, t);
    RecoverUsesPermission(c, s, pid, i, t);
    AwaitsRecover(c, s, t, pid, p, i, |s.calls|);
    SendKeeps(c, s, pid, t, q);
  }

  lemma RepliedRecover(c: Config, s: State, p: Process, i: nat, call: nat, st: Status)
    requires Knows(c, p) && Sees(c, s, p) && p.at == AwaitRecover(i, call) && |p.work.outcomes| == |c.plans|
    ensures i < |c.plans| && call < |s.calls| && s.calls[call].i == i && Truthful(s, p.work)
    ensures var q := p.(at := LastSave(BatchUnknown)); Knows(c, q) && Sees(c, s, q)
    ensures Truthful(s, WithState(p.work, i, st)) && (st == Recovered ==> AtRecovered(s, i)) ==>
      var q := p.(work := WithState(p.work, i, st),
            at := if st == Recovered then RecordRecovered(i) else LastSave(BatchRecoveryFailed));
      Knows(c, q) && Sees(c, s, q)
  {
    hide Truthful;
  }

  lemma AwaitRecoverIs(s: State, pid: nat, p: Process, i: nat, call: nat, saving: Saving, reached: bool)
    requires |p.work.outcomes| == |s.sites| == |s.history.recovers| == |s.history.repairsSent| == |s.history.repairedAt|
    requires p.at == AwaitRecover(i, call) && i < |s.sites|
    ensures AdvanceRecover(s, pid, p, saving, reached) ==
      if !reached || call !in s.replies then Go(s, pid, p.(at := LastSave(BatchUnknown)))
      else
        Go(s, pid, p.(work := WithState(p.work, i, s.replies[call]),
              at := if s.replies[call] == Recovered then RecordRecovered(i) else LastSave(BatchRecoveryFailed)))
  {
    hide Go;
  }

  lemma AwaitRecoverKeeps(c: Config, s: State, pid: nat, saving: Saving, reached: bool)
    requires FleetInv(c, s) && pid in s.procs && s.procs[pid].at.AwaitRecover?
    ensures FleetInv(c, AdvanceRecover(s, pid, s.procs[pid], saving, reached))
  {
    hide *;
    Knowing(c, s, pid);
    Parts(c, s);
    var p := s.procs[pid];
    var i, call := p.at.i, p.at.call;
    RepliedRecover(c, s, p, i, call, Unknown);
    AwaitRecoverIs(s, pid, p, i, call, saving, reached);
    if !reached || call !in s.replies {
      MayGo(s, pid, p.(at := LastSave(BatchUnknown)));
      WorkKeeps(c, s, pid, p.work, LastSave(BatchUnknown));
    } else {
      var st := s.replies[call];
      var at := if st == Recovered then RecordRecovered(i) else LastSave(BatchRecoveryFailed);
      ReplyIsTrue(c, s, p.work, i, call);
      RepliedRecover(c, s, p, i, call, st);
      WithStateLength(p.work, i, st);
      MayGo(s, pid, p.(work := WithState(p.work, i, st), at := at));
      WorkKeeps(c, s, pid, WithState(p.work, i, st), at);
    }
  }

  lemma RecordRecoveredKeeps(c: Config, s: State, pid: nat, saving: Saving, reached: bool)
    requires FleetInv(c, s) && pid in s.procs && (s.procs[pid].at.RecordRecovered? || s.procs[pid].at.FinishRecover?)
    ensures FleetInv(c, AdvanceRecover(s, pid, s.procs[pid], saving, reached))
  {
    hide FleetInv;
    hide Sound;
    hide Bounded;
    hide Truthful;
    hide HistorySound;
    ProcessFacts(c, s, pid);
    var p := s.procs[pid];
    match p.at
    case RecordRecovered(i) =>
      SameRecord(s, p.work, Proposed(s, p, BatchRollingBack));
      EvidenceSaveKeeps(c, s, pid, BatchRollingBack, saving, Some(InspectRepair(i)));
    case FinishRecover => EvidenceSaveKeeps(c, s, pid, BatchRecovered, saving, None);
  }
}
