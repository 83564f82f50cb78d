/** What the fleet protocol promises over every run, whatever is lost, late, killed or
    crashed, and however many controllers run at once. */
module FleetTheorems {
  import opened RecoveryTypes
  import opened Engine
  import opened EngineSafety
  import opened Fleet
  import opened FleetSafety
  import opened FleetProtocol
  import opened Wrappers

  lemma LaunchKeeps(c: Config, s: State, job: Job, ceiling: nat)
    requires FleetInv(c, s)
    ensures FleetInv(c, DoLaunch(c, s, job, ceiling))
  {
    hide Sound;
    hide SitesSound;
    hide RepliesSound;
    hide HistorySound;
    hide ProcSound;
    var t := s.(nextProc := s.nextProc + 1);
    NewPidKeeps(c, s);
    var u := DoLaunch(c, s, job, ceiling);
    if u != s {
      var p := u.procs[s.nextProc];
      FreshIsSound(c, t, p);
      hide FleetInv;
      GoKeeps(c, t, s.nextProc, p);
    }
  }

  lemma NewPidKeeps(c: Config, s: State)
    requires FleetInv(c, s)
    ensures FleetInv(c, s.(nextProc := s.nextProc + 1))
  {
    var t := s.(nextProc := s.nextProc + 1);
    FollowsSelf(s.row);
    assert SitesSound(c, t) && RepliesSound(t) && Later(s, t) by { hide Inv; }
    hide Later;
    hide SitesSound;
    hide RepliesSound;
    hide Sound;
    hide ProcSound;
    hide HistorySound;
    Kept(c, s, t);
  }

  /** A process that has just read the row. */
  lemma FreshIsSound(c: Config, s: State, p: Process)
    requires FleetInv(c, s) && s.nextProc > 0 && p.base == p.work == s.row && p.ceiling <= c.repairLimit
    requires
      || (p.at == PreInspect(0) && s.row.status == BatchReady)
      || (p.at == ReconcileEntry(0, true, true, false) && s.row.status != BatchReady)
      || (p.at == InspectRepair(|s.sites|) && s.row.status != BatchReady)
    ensures ProcSound(c, s, s.nextProc - 1, p)
  {
    assert Sound(c, s, s.row);
    hide SitesSound;
    hide RepliesSound;
    hide HistorySound;
  }

  lemma AdvanceKeeps(c: Config, s: State, pid: nat, saving: Saving, reached: bool)
    requires FleetInv(c, s)
    ensures FleetInv(c, DoAdvance(c, s, pid, saving, reached))
  {
    hide FleetInv;
    hide AdvanceApply;
    hide AdvanceReconcile;
    hide AdvanceRecover;
    hide SaveRow;
    if pid in s.procs {
      ProcessFacts(c, s, pid);
      match s.procs[pid].at
      case PreInspect(_) => PreInspectKeeps(c, s, pid, saving, reached);
      case Inspect(_) => InspectKeeps(c, s, pid, saving, reached);
      case Dispatch(_) => DispatchKeeps(c, s, pid, saving, reached);
      case SendApply(_) => SendApplyKeeps(c, s, pid, saving, reached);
      case AwaitApply(_, _) => AwaitApplyKeeps(c, s, pid, saving, reached);
      case RecordApplied(_) => RecordAppliedKeeps(c, s, pid, saving, reached);
      case FinishApply => RecordAppliedKeeps(c, s, pid, saving, reached);
      case ReconcileEntry(i, _, _, _) =>
        if i < |s.sites| && Dispatched(s.procs[pid].work, i) { ReconcileReadKeeps(c, s, pid, reached); }
        else { ReconcileSkipKeeps(c, s, pid, reached); }
      case InspectRepair(_) => InspectRepairKeeps(c, s, pid, saving, reached);
      case RecordRepair(_) => RecordRepairKeeps(c, s, pid, saving, reached);
      case SendRecover(_) => SendRecoverKeeps(c, s, pid, saving, reached);
      case AwaitRecover(_, _) => AwaitRecoverKeeps(c, s, pid, saving, reached);
      case RecordRecovered(_) => RecordRecoveredKeeps(c, s, pid, saving, reached);
      case FinishRecover => RecordRecoveredKeeps(c, s, pid, saving, reached);
      case LastSave(_) => LastSaveKeeps(c, s, pid, saving);
    }
  }

  /** Every event of every party keeps the invariant. */
  lemma DoKeeps(c: Config, s: State, e: Event)
    requires FleetInv(c, s)
    ensures FleetInv(c, Do(c, s, e))
  {
    hide FleetInv;
    hide DoLaunch;
    hide DoAdvance;
    match e
    case Launch(job, ceiling) => LaunchKeeps(c, s, job, ceiling);
    case Kill(pid) => QuitKeeps(c, s, pid);
    case Advance(pid, saving, reached) => AdvanceKeeps(c, s, pid, saving, reached);
    case _ => TargetEventKeeps(c, s, e);
  }

  /** A batch as it is first stored: reviewed, undispatched, over targets in any sound state. */
  ghost predicate Initial(c: Config, s: State) {
    var n, h := |c.plans|, s.history;
    && Shaped(c, s) && (forall p <- c.plans :: ValidPlan(p))
    && s.row.status == BatchReady && s.procs == map[] && s.calls == [] && s.replies == map[]
    && (forall i: nat | i < n :: s.row.outcomes[i] == Outcome(false, Ready, 0))
    && (forall i: nat | i < n ::
          && Inv(c.plans[i], s.sites[i].machine) && s.sites[i].serving.None?
          && s.sites[i].committed == (StatusOf(s, i) == Committed))
    && h.writer == map[] && h.dispatchedAt == map[]
    && (forall i: nat | i < n :: h.repairedAt[i] == {} && h.repairsSent[i] == {} && h.applies[i] == 0 && h.recovers[i] == 0)
  }

  lemma InitialIsSound(c: Config, s: State)
    requires Initial(c, s)
    ensures FleetInv(c, s)
  {
    hide Inv;
  }

  /** The invariant holds after any run from the initial state. */
  lemma {:induction false} RunKeeps(c: Config, s: State, events: seq<Event>)
    requires FleetInv(c, s)
    ensures FleetInv(c, Run(c, s, events))
    decreases |events|
  {
    hide FleetInv;
    hide Do;
    if events != [] {
      DoKeeps(c, s, events[0]);
      RunKeeps(c, Do(c, s, events[0]), events[1..]);
    }
  }

  // ------------------------------------------------------------- time only moves forward

  /** The status that a control point would save, if it saves one. */
  function Saves(at: ControlPoint): Option<BatchStatus> {
    match at
    case Dispatch(_) => Some(BatchApplying)
    case RecordApplied(_) => Some(BatchApplying)
    case FinishApply => Some(BatchCommitted)
    case RecordRepair(_) => Some(BatchRollingBack)
    case RecordRecovered(_) => Some(BatchRollingBack)
    case FinishRecover => Some(BatchRecovered)
    case LastSave(to) => Some(to)
    case _ => None
  }

  lemma SaveFollows(c: Config, s: State, p: Process)
    requires Knows(c, p) && Saves(p.at).Some? && |p.work.outcomes| == |p.base.outcomes|
    ensures Follows(p.base, Proposed(s, p, Saves(p.at).value))
  {
  }

  lemma SaveIsLater(s: State, pid: nat, p: Process, to: BatchStatus, saving: Saving, h: History, next: Option<ControlPoint>)
    requires p.base.revision == s.row.revision ==> Follows(s.row, Proposed(s, p, to))
    ensures Later(s, SaveRow(s, pid, p, to, saving, h, next))
  {
  }

  lemma UnsavedApplyIsLater(s: State, pid: nat, p: Process, saving: Saving, reached: bool)
    requires Saves(p.at).None? && |p.work.outcomes| == |s.sites| == |s.history.applies|
    ensures Later(s, AdvanceApply(s, pid, p, saving, reached))
    ensures p.at.ReconcileEntry? ==> Later(s, AdvanceReconcile(s, pid, p, reached))
  {
    hide SaveRow;
    hide AdvanceRecover;
    FollowsSelf(s.row);
  }

  lemma UnsavedRecoverIsLater(s: State, pid: nat, p: Process, saving: Saving, reached: bool)
    requires Saves(p.at).None? && |p.work.outcomes| == |s.sites|
    requires |s.history.recovers| == |s.history.repairsSent| == |s.history.repairedAt| == |s.sites|
    ensures Later(s, AdvanceRecover(s, pid, p, saving, reached))
  {
    hide SaveRow;
    hide AdvanceApply;
    FollowsSelf(s.row);
  }

  lemma AdvanceIsLater(c: Config, s: State, pid: nat, saving: Saving, reached: bool)
    requires FleetInv(c, s)
    ensures Later(s, DoAdvance(c, s, pid, saving, reached))
  {
    hide FleetInv;
    hide Sound;
    hide Bounded;
    hide Sees;
    hide Holds;
    hide Knows;
    hide Later;
    hide SaveRow;
    LaterSelf(s, pid);
    if pid in s.procs {
      var p := s.procs[pid];
      ProcessFacts(c, s, pid);
      if Saves(p.at).Some? {
        SaveFollows(c, s, p);
        forall h, next ensures Later(s, SaveRow(s, pid, p, Saves(p.at).value, saving, h, next)) {
          SaveIsLater(s, pid, p, Saves(p.at).value, saving, h, next);
        }
        SavedIsLater(c, s, pid, saving, reached);
      } else {
        hide AdvanceApply;
        hide AdvanceReconcile;
        hide AdvanceRecover;
        UnsavedApplyIsLater(s, pid, p, saving, reached);
        UnsavedRecoverIsLater(s, pid, p, saving, reached);
      }
    }
  }

  lemma LaterSelf(s: State, pid: nat)
    ensures Later(s, s) && Later(s, Quit(s, pid))
  {
  }

  lemma SavedIsLater(c: Config, s: State, pid: nat, saving: Saving, reached: bool)
    requires pid in s.procs && Shaped(c, s) && |s.procs[pid].work.outcomes| == |c.plans| && Saves(s.procs[pid].at).Some?
    requires forall h, next :: Later(s, SaveRow(s, pid, s.procs[pid], Saves(s.procs[pid].at).value, saving, h, next))
    requires Later(s, Quit(s, pid))
    ensures Later(s, DoAdvance(c, s, pid, saving, reached))
  {
    hide SaveRow;
    hide Later;
  }

  lemma DoIsLater(c: Config, s: State, e: Event)
    requires FleetInv(c, s)
    ensures Later(s, Do(c, s, e))
  {
    hide FleetInv;
    match e
    case Launch(job, ceiling) => FollowsSelf(s.row);
    case Kill(pid) => FollowsSelf(s.row);
    case Advance(pid, saving, reached) => AdvanceIsLater(c, s, pid, saving, reached);
    case _ => TargetEventKeeps(c, s, e);
  }

  lemma {:induction false} RunIsLater(c: Config, s: State, events: seq<Event>)
    requires FleetInv(c, s)
    ensures Later(s, Run(c, s, events))
    decreases |events|
  {
    hide FleetInv;
    hide Do;
    if events != [] {
      var t := Do(c, s, events[0]);
      DoKeeps(c, s, events[0]);
      DoIsLater(c, s, events[0]);
      RunIsLater(c, t, events[1..]);
      LaterTrans(s, t, Run(c, t, events[1..]));
    }
  }

  // ------------------------------------------------------------- results

  lemma Reachable(c: Config, s: State, events: seq<Event>) returns (t: State)
    requires Initial(c, s)
    ensures t == Run(c, s, events) && FleetInv(c, t)
  {
    InitialIsSound(c, s);
    hide FleetInv;
    RunKeeps(c, s, events);
    t := Run(c, s, events);
  }

  /** Entry `i` was dispatched, its target has put every file back, and its operation is over. */
  ghost predicate Withdrawn(c: Config, s: State, i: nat) {
    && i < |c.plans| && AtRecovered(s, i)
    && RestoredFrom(c.plans[i], s.sites[i].machine.world.disk, 0)
    && RunsBefore(c.plans[i], s.sites[i].machine.world)
  }

  /** Nothing was ever sent to entry `i`. */
  predicate NeverSent(s: State, i: nat) {
    && i < |s.history.applies| && s.history.applies[i] == 0
    && i < |s.history.recovers| && s.history.recovers[i] == 0
  }

  lemma RecoveredIsWithdrawn(c: Config, s: State, i: nat)
    requires FleetInv(c, s) && AtRecovered(s, i)
    ensures Withdrawn(c, s, i)
  {
    hide Sound;
    hide ProcSound;
    hide RepliesSound;
    hide HistorySound;
    hide Control;
    assert Inv(c.plans[i], s.sites[i].machine);
  }

  lemma UndispatchedIsNeverSent(c: Config, s: State, i: nat)
    requires FleetInv(c, s) && i < |c.plans| && !Dispatched(s.row, i)
    ensures NeverSent(s, i)
  {
    hide ProcSound;
    hide SitesSound;
    hide RepliesSound;
    var h := s.history;
    assert |h.repairedAt[i]| == 0 && h.repairsSent[i] <= h.repairedAt[i];
    assert h.repairedAt[i] == {};
    assert h.repairsSent[i] == {};
  }

  /** What recovery of the batch in state `s` has made final in the later state `t`. */
  ghost predicate FinallyRecovered(c: Config, s: State, t: State) {
    && !RollsOut(t.row.status)
    && (forall i: nat | i < |c.plans| :: Dispatched(t.row, i) == Dispatched(s.row, i))
    && (forall i: nat | i < |c.plans| && Dispatched(s.row, i) :: Withdrawn(c, t, i))
    && (forall i: nat | i < |c.plans| && !Dispatched(s.row, i) :: NeverSent(t, i))
  }

  lemma FinalFrom(c: Config, s: State, after: seq<Event>)
    requires FleetInv(c, s) && s.row.status == BatchRecovered
    ensures FinallyRecovered(c, s, Run(c, s, after))
  {
    assert DispatchedRecovered(s, s.row, 0) && |s.row.outcomes| == |c.plans| == |s.sites|;
    hide FleetInv;
    hide Withdrawn;
    hide NeverSent;
    hide Run;
    RunKeeps(c, s, after);
    RunIsLater(c, s, after);
    var t := Run(c, s, after);
    forall i: nat | i < |c.plans|
      ensures Dispatched(t.row, i) == Dispatched(s.row, i)
      ensures if Dispatched(s.row, i) then Withdrawn(c, t, i) else NeverSent(t, i)
    {
      if Dispatched(s.row, i) {
        assert AtRecovered(s, i);
        RecoveredIsWithdrawn(c, t, i);
      } else {
        UndispatchedIsNeverSent(c, t, i);
      }
    }
  }

  /** Fleet recovery is final. Once a batch has been saved as recovered, every dispatched
      target has its original files and keeps them whatever commands are still in flight or
      issued later; every other target was never sent anything, and the batch never again
      dispatches or rolls out. */
  lemma FleetRecoveryIsFinal(c: Config, s0: State, before: seq<Event>, after: seq<Event>)
    requires Initial(c, s0)
    requires Run(c, s0, before).row.status == BatchRecovered
    ensures FinallyRecovered(c, Run(c, s0, before), Run(c, Run(c, s0, before), after))
  {
    var s := Reachable(c, s0, before);
    FinalFrom(c, s, after);
  }

  lemma SaveSendsNothing(s: State, pid: nat, p: Process, to: BatchStatus, saving: Saving, h: History,
          next: Option<ControlPoint>)
    requires h.applies == s.history.applies && h.recovers == s.history.recovers
    ensures SaveRow(s, pid, p, to, saving, h, next).history.applies == s.history.applies
    ensures SaveRow(s, pid, p, to, saving, h, next).history.recovers == s.history.recovers
  {
  }

  /** What one step of a process sends: nothing, or one message to its entry. */
  ghost predicate SendsOwn(c: Config, s: State, t: State, p: Process) {
    && (if p.at.SendApply? then t.history == s.history || (p.at.i < |s.history.applies| && t.history == ApplySent(s.history, p.at.i))
        else t.history.applies == s.history.applies)
    && (if p.at.SendRecover? then
          || t.history == s.history
          || (p.at.i < |s.history.recovers| == |s.history.repairsSent| && t.history == RecoverSent(s.history, p.at.i, p.base.revision))
        else t.history.recovers == s.history.recovers)
  }

  lemma SentOwn(c: Config, s: State, pid: nat, p: Process, i: nat, call: nat)
    requires Shaped(c, s) && i < |s.sites|
    ensures p.at == SendApply(i) ==> SendsOwn(c, s, Sent(s, pid, p.(at := AwaitApply(i, call)), Message(i, false), ApplySent(s.history, i)), p)
    ensures p.at == SendRecover(i) ==>
              SendsOwn(c, s, Sent(s, pid, p.(at := AwaitRecover(i, call)), Message(i, true), RecoverSent(s.history, i, p.base.revision)), p)
  {
  }

  lemma SendsNothing(c: Config, s: State, t: State, p: Process)
    requires t.history.applies == s.history.applies && t.history.recovers == s.history.recovers
    requires p.at.SendApply? || p.at.SendRecover? ==> t.history == s.history
    ensures SendsOwn(c, s, t, p)
  {
  }

  lemma ApplyWithoutSend(s: State, pid: nat, p: Process, saving: Saving, reached: bool)
    requires |p.work.outcomes| == |s.sites| == |s.history.applies| && (p.at.SendApply? ==> p.at.i >= |s.sites|)
    ensures var t := AdvanceApply(s, pid, p, saving, reached);
      && t.history.applies == s.history.applies && t.history.recovers == s.history.recovers
      && (p.at.SendApply? || p.at.SendRecover? ==> t.history == s.history)
  {
    hide AdvanceRecover;
    match p.at
    case Dispatch(i) =>
      SaveSendsNothing(s, pid, p, BatchApplying, saving,
            s.history.(dispatchedAt := s.history.dispatchedAt[i := s.row.revision + 1]), Some(SendApply(i)));
      hide SaveRow;
    case _ =>
  }

  lemma ReconcileWithoutSend(s: State, pid: nat, p: Process, reached: bool)
    requires |p.work.outcomes| == |s.sites| && p.at.ReconcileEntry?
    ensures AdvanceReconcile(s, pid, p, reached).history == s.history
  {
  }

  lemma ApplySendsOwn(c: Config, s: State, pid: nat, p: Process, saving: Saving, reached: bool)
    requires Shaped(c, s) && |p.work.outcomes| == |s.sites|
    ensures SendsOwn(c, s, AdvanceApply(s, pid, p, saving, reached), p)
    ensures p.at.ReconcileEntry? ==> SendsOwn(c, s, AdvanceReconcile(s, pid, p, reached), p)
  {
    hide AdvanceApply;
    hide AdvanceReconcile;
    hide SendsOwn;
    if p.at.SendApply? && p.at.i < |s.sites| {
      SendApplyIs(s, pid, p, p.at.i, saving, reached);
      SentOwn(c, s, pid, p, p.at.i, |s.calls|);
    } else {
      ApplyWithoutSend(s, pid, p, saving, reached);
      SendsNothing(c, s, AdvanceApply(s, pid, p, saving, reached), p);
      if p.at.ReconcileEntry? {
        ReconcileWithoutSend(s, pid, p, reached);
        SendsNothing(c, s, AdvanceReconcile(s, pid, p, reached), p);
      }
    }
  }

  lemma RecoverWithoutSend(s: State, pid: nat, p: Process, saving: Saving, reached: bool)
    requires |p.work.outcomes| == |s.sites| == |s.history.recovers| == |s.history.repairsSent| == |s.history.repairedAt|
    requires p.at.SendRecover? ==> p.at.i >= |s.sites|
    ensures var t := AdvanceRecover(s, pid, p, saving, reached);
      && t.history.applies == s.history.applies && t.history.recovers == s.history.recovers
      && (p.at.SendApply? || p.at.SendRecover? ==> t.history == s.history)
  {
    hide AdvanceApply;
    match p.at
    case RecordRepair(i) =>
      if i < |s.sites| {
        SaveSendsNothing(s, pid, p, BatchRollingBack, saving, RepairsRecorded(s, i), Some(SendRecover(i)));
        hide SaveRow;
      }
    case _ =>
  }

  lemma RecoverSendsOwn(c: Config, s: State, pid: nat, p: Process, saving: Saving, reached: bool)
    requires Shaped(c, s) && |p.work.outcomes| == |s.sites|
    ensures SendsOwn(c, s, AdvanceRecover(s, pid, p, saving, reached), p)
  {
    hide AdvanceRecover;
    hide SendsOwn;
    if p.at.SendRecover? && p.at.i < |s.sites| {
      SendRecoverIs(s, pid, p, p.at.i, saving, reached);
      SentOwn(c, s, pid, p, p.at.i, |s.calls|);
    } else {
      RecoverWithoutSend(s, pid, p, saving, reached);
      SendsNothing(c, s, AdvanceRecover(s, pid, p, saving, reached), p);
    }
  }

  /** Only a process with permission sends, and it sends one message. */
  lemma OnlySendSends(c: Config, s: State, pid: nat, saving: Saving, reached: bool)
    requires Shaped(c, s)
    ensures var t := DoAdvance(c, s, pid, saving, reached);
      if pid in s.procs then SendsOwn(c, s, t, s.procs[pid]) else t == s
  {
    if pid in s.procs && |s.procs[pid].work.outcomes| == |c.plans| {
      var p := s.procs[pid];
      ApplySendsOwn(c, s, pid, p, saving, reached);
      RecoverSendsOwn(c, s, pid, p, saving, reached);
      if p.at.LastSave? {
        SaveSendsNothing(s, pid, p, p.at.to, saving, s.history, None);
      }
      hide SaveRow;
      hide AdvanceApply;
      hide AdvanceReconcile;
      hide AdvanceRecover;
    }
  }

  lemma OthersSendNothing(c: Config, s: State, e: Event)
    requires !e.Advance?
    ensures Do(c, s, e).history == s.history
  {
    hide Step;
    hide Begin;
  }

  /** At most one apply is ever sent to a target, only to a target whose dispatch is durable,
      and dispatch follows the order of the plan. A committed batch has committed everywhere. */
  lemma AtMostOnceDispatch(c: Config, s0: State, events: seq<Event>)
    requires Initial(c, s0)
    ensures var s := Run(c, s0, events);
      && |s.history.applies| == |s.sites| == |s.row.outcomes| == |c.plans|
      && (forall i: nat | i < |c.plans| :: s.history.applies[i] <= 1)
      && (forall i: nat | i < |c.plans| :: s.history.applies[i] == 1 ==> Dispatched(s.row, i))
      && DispatchedIsPrefix(s.row)
      && (s.row.status == BatchCommitted ==>
            forall i: nat | i < |c.plans| ::
              Dispatched(s.row, i) && s.row.outcomes[i].state == Committed && s.sites[i].committed)
  {
    var s := Reachable(c, s0, events);
    hide ProcSound;
    hide SitesSound;
    hide RepliesSound;
  }

  /** Every entry before `i` is on record as dispatched and has committed. */
  ghost predicate CommittedBefore(s: State, i: nat) {
    forall j: nat | j < i :: Dispatched(s.row, j) && j < |s.sites| && s.sites[j].committed
  }

  lemma SenderKnows(c: Config, s: State, pid: nat, i: nat)
    requires FleetInv(c, s) && pid in s.procs && s.procs[pid].at == SendApply(i)
    ensures i < |s.history.applies| && s.history.applies[i] == 0 && Dispatched(s.row, i) && CommittedBefore(s, i)
  {
    ProcessFacts(c, s, pid);
    hide ProcSound;
    hide SitesSound;
    hide RepliesSound;
  }

  lemma HistoryShape(c: Config, s: State)
    requires FleetInv(c, s)
    ensures |s.history.applies| == |s.history.recovers| == |c.plans| && Shaped(c, s)
  {
    Parts(c, s);
    hide FleetInv;
  }

  /** Who sends an apply, or a recover, to entry `i`. */
  lemma ApplySender(c: Config, s: State, e: Event, i: nat)
    requires Shaped(c, s) && i < |s.history.applies| == |Do(c, s, e).history.applies|
    requires Do(c, s, e).history.applies[i] != s.history.applies[i]
    ensures e.Advance? && e.pid in s.procs && s.procs[e.pid].at == SendApply(i)
    ensures Do(c, s, e).history.applies[i] == s.history.applies[i] + 1
  {
    if e.Advance? {
      OnlySendSends(c, s, e.pid, e.saving, e.reached);
      hide DoAdvance;
    } else {
      OthersSendNothing(c, s, e);
      hide Do;
    }
  }

  lemma RecoverSender(c: Config, s: State, e: Event, i: nat)
    requires Shaped(c, s) && i < |s.history.recovers| == |Do(c, s, e).history.recovers|
    requires Do(c, s, e).history.recovers[i] != s.history.recovers[i]
    ensures e.Advance? && e.pid in s.procs && s.procs[e.pid].at == SendRecover(i)
    ensures Do(c, s, e).history.recovers[i] == s.history.recovers[i] + 1
  {
    if e.Advance? {
      OnlySendSends(c, s, e.pid, e.saving, e.reached);
      hide DoAdvance;
    } else {
      OthersSendNothing(c, s, e);
      hide Do;
    }
  }

  /** When an apply is sent to entry `i`, it is the first, its dispatch is on record, and
      every earlier entry has committed. */
  lemma SendsInOrder(c: Config, s0: State, events: seq<Event>, e: Event, i: nat)
    requires Initial(c, s0) && i < |c.plans|
    ensures var s, t := Run(c, s0, events), Do(c, Run(c, s0, events), e);
      && |s.history.applies| == |t.history.applies| == |c.plans|
      && (t.history.applies[i] != s.history.applies[i] ==>
            s.history.applies[i] == 0 && t.history.applies[i] == 1 && Dispatched(s.row, i) && CommittedBefore(s, i))
  {
    var s := Reachable(c, s0, events);
    hide *;
    var t := Do(c, s, e);
    DoKeeps(c, s, e);
    HistoryShape(c, s);
    HistoryShape(c, t);
    if t.history.applies[i] != s.history.applies[i] {
      ApplySender(c, s, e, i);
      SenderKnows(c, s, e.pid, i);
    }
  }

  /** Every later entry that was dispatched has been put back. */
  ghost predicate RecoveredAfter(s: State, i: nat) {
    forall j: nat | i < j && Dispatched(s.row, j) :: AtRecovered(s, j)
  }

  lemma RepairerKnows(c: Config, s: State, pid: nat, i: nat)
    requires FleetInv(c, s) && pid in s.procs && s.procs[pid].at == SendRecover(i)
    ensures i < |s.row.outcomes| && i < |s.history.recovers| && i < |s.history.repairsSent| && Dispatched(s.row, i)
    ensures RecoveredAfter(s, i)
    ensures s.procs[pid].base.revision !in s.history.repairsSent[i]
  {
    ProcessFacts(c, s, pid);
    var p := s.procs[pid];
    hide ProcSound;
    hide SitesSound;
    hide RepliesSound;
    var r := p.base.revision;
    assert |s.history.repairedAt[i]| > 0 by { assert r in s.history.repairedAt[i]; }
    assert SameDispatch(p.base, s.row);
  }

  lemma SubsetIsSmaller<T>(a: set<T>, b: set<T>)
    requires a <= b
    ensures |a| <= |b|
  {
    assert b == a + (b - a);
  }

  /** Repair is bounded: recover calls to an entry never exceed the repairs on record for
      it, which never exceed the limit of the plan; only dispatched entries are repaired. */
  lemma RepairIsBounded(c: Config, s0: State, events: seq<Event>, i: nat)
    requires Initial(c, s0) && i < |c.plans|
    ensures var s := Run(c, s0, events);
      && |s.history.recovers| == |s.row.outcomes| == |c.plans|
      && s.history.recovers[i] <= s.row.outcomes[i].repairs <= c.repairLimit
      && (s.row.outcomes[i].repairs > 0 ==> Dispatched(s.row, i))
  {
    var s := Reachable(c, s0, events);
    hide ProcSound;
    hide SitesSound;
    hide RepliesSound;
    var h := s.history;
    assert h.repairsSent[i] <= h.repairedAt[i] && h.recovers[i] == |h.repairsSent[i]|;
    SubsetIsSmaller(h.repairsSent[i], h.repairedAt[i]);
  }

  /** Repair runs backwards: when a recover call is sent to entry `i`, every dispatched
      entry after it has already been put back. */
  lemma RepairsInReverse(c: Config, s0: State, events: seq<Event>, e: Event, i: nat)
    requires Initial(c, s0) && i < |c.plans|
    ensures var s, t := Run(c, s0, events), Do(c, Run(c, s0, events), e);
      && |s.history.recovers| == |t.history.recovers| == |c.plans|
      && (t.history.recovers[i] != s.history.recovers[i] ==>
            t.history.recovers[i] == s.history.recovers[i] + 1 && Dispatched(s.row, i) && RecoveredAfter(s, i))
  {
    var s := Reachable(c, s0, events);
    hide *;
    var t := Do(c, s, e);
    DoKeeps(c, s, e);
    HistoryShape(c, s);
    HistoryShape(c, t);
    if t.history.recovers[i] != s.history.recovers[i] {
      RecoverSender(c, s, e, i);
      RepairerKnows(c, s, e.pid, i);
    }
  }

  // ------------------------------------------------------------- reconciliation

  predicate Reconciling(at: ControlPoint) {
    at.ReconcileEntry? || at.LastSave?
  }

  /** Other processes stay as they are. */
  predicate OthersStay(s: State, t: State, pid: nat) {
    s.procs - {pid} == t.procs - {pid}
  }

  ghost predicate OnlyReads(s: State, t: State, pid: nat) {
    && SameEvidence(t.row, s.row) && t.calls == s.calls && t.sites == s.sites
    && (pid in t.procs ==> Reconciling(t.procs[pid].at)) && OthersStay(s, t, pid)
  }

  lemma LastSaveReads(s: State, pid: nat, p: Process, to: BatchStatus, saving: Saving)
    requires pid in s.procs && (p.base.revision == s.row.revision ==> SameEvidence(p.work, s.row))
    ensures OnlyReads(s, SaveRow(s, pid, p, to, saving, s.history, None), pid)
  {
  }

  lemma ReconcileEntryReads(s: State, pid: nat, p: Process, reached: bool)
    requires pid in s.procs && p.at.ReconcileEntry? && |p.work.outcomes| == |s.sites|
    ensures OnlyReads(s, AdvanceReconcile(s, pid, p, reached), pid)
  {
  }

  lemma ReconcilerKnows(c: Config, s: State, pid: nat)
    requires FleetInv(c, s) && pid in s.procs && Reconciling(s.procs[pid].at)
    ensures var p := s.procs[pid]; p.base.revision == s.row.revision ==> SameEvidence(p.work, s.row)
  {
    hide FleetInv;
    hide Sees;
    hide Sound;
    ProcessFacts(c, s, pid);
  }

  lemma ReconcilerAdvances(c: Config, s: State, pid: nat, saving: Saving, reached: bool)
    requires Shaped(c, s) && pid in s.procs && |s.procs[pid].work.outcomes| == |c.plans| && Reconciling(s.procs[pid].at)
    ensures var p := s.procs[pid];
      Do(c, s, Advance(pid, saving, reached)) ==
        if p.at.LastSave? then SaveRow(s, pid, p, p.at.to, saving, s.history, None) else AdvanceReconcile(s, pid, p, reached)
  {
    hide SaveRow;
    hide AdvanceReconcile;
    hide AdvanceApply;
    hide AdvanceRecover;
  }

  lemma EitherReconciles(at: ControlPoint)
    requires Reconciling(at)
    ensures at.ReconcileEntry? || at.LastSave?
  {
  }

  /** A step of reconciliation changes no dispatch, no repair, and sends nothing. */
  lemma ReconcileOnlyReads(c: Config, s: State, pid: nat, saving: Saving, reached: bool)
    requires FleetInv(c, s) && pid in s.procs && Reconciling(s.procs[pid].at)
    ensures OnlyReads(s, Do(c, s, Advance(pid, saving, reached)), pid)
  {
    hide *;
    Knowing(c, s, pid);
    ReconcilerKnows(c, s, pid);
    ReconcilerAdvances(c, s, pid, saving, reached);
    var p := s.procs[pid];
    EitherReconciles(p.at);
    if p.at.LastSave? {
      LastSaveReads(s, pid, p, p.at.to, saving);
    } else {
      ReconcileEntryReads(s, pid, p, reached);
    }
  }
}
