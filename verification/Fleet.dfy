/** The fleet controller (recovery/fleet.go) over the transaction machine of each target.
    Any number of controller processes run at once and die anywhere; they share one durable
    batch row that is saved by comparing revisions (state/store_batch.go). A call to a target
    may be lost, executed at any later time, or executed with its response lost; operators may
    act on a target directly. Each event is one primitive of one party. */
module Fleet {
  import opened RecoveryTypes
  import opened Engine
  import opened Wrappers

  datatype BatchStatus =
    | BatchReady
    | BatchApplying
    | BatchCommitted
    | BatchUnknown
    | RolloutStopped
    | BatchRollingBack
    | BatchRecovered
    | BatchRecoveryFailed

  /** What the controller has recorded of one entry. */
  datatype Outcome = Outcome(dispatched: bool, state: Status, repairs: nat)

  datatype Batch = Batch(status: BatchStatus, outcomes: seq<Outcome>, revision: nat)

  datatype ControlPoint =
    | PreInspect(i: nat)
    | Inspect(i: nat)
    | Dispatch(i: nat)
    | SendApply(i: nat)
    | AwaitApply(i: nat, call: nat)
    | RecordApplied(i: nat)
    | FinishApply
    | ReconcileEntry(i: nat, allCommitted: bool, allRecovered: bool, problem: bool)
    | InspectRepair(left: nat)
    | RecordRepair(i: nat)
    | SendRecover(i: nat)
    | AwaitRecover(i: nat, call: nat)
    | RecordRecovered(i: nat)
    | FinishRecover
    | LastSave(to: BatchStatus)

  /** A controller process: the row as it last read or saved it, its working copy, and the
      repair ceiling it runs under. */
  datatype Process = Process(base: Batch, work: Batch, at: ControlPoint, ceiling: nat)

  datatype Message = Message(i: nat, recover: bool)

  /** A target: its transaction machine, the call it is serving, and whether its operation
      has ever been committed. */
  datatype Site = Site(machine: Machine, serving: Option<nat>, committed: bool)

  /** What has happened, for stating results: who wrote each revision, which revision
      recorded each dispatch and each repair, and what was sent. */
  datatype History = History(
    writer: map<nat, nat>,
    dispatchedAt: map<nat, nat>,
    repairedAt: seq<set<nat>>,
    repairsSent: seq<set<nat>>,
    applies: seq<nat>,
    recovers: seq<nat>)

  datatype Config = Config(plans: seq<Plan>, repairLimit: nat)

  datatype State = State(
    row: Batch,
    procs: map<nat, Process>,
    nextProc: nat,
    sites: seq<Site>,
    calls: seq<Message>,
    inFlight: set<nat>,
    replies: map<nat, Status>,
    history: History)

  datatype Saving = Acknowledged | Rejected | Unacknowledged

  datatype Job = ApplyBatch | ReconcileBatch | RecoverBatch

  datatype Event =
    | Launch(job: Job, ceiling: nat)
    | Kill(pid: nat)
    | Advance(pid: nat, saving: Saving, reached: bool)
    | Deliver(call: nat, accepted: bool)
    | Lose(call: nat)
    | Respond(i: nat)
    | TargetStep(i: nat, fate: Fate)
    | TargetCrash(i: nat)
    | Operator(i: nat, request: Call)

  // ------------------------------------------------------------- controller

  function Quit(s: State, pid: nat): State {
    s.(procs := s.procs - {pid})
  }

  function Go(s: State, pid: nat, p: Process): State {
    s.(procs := s.procs[pid := p])
  }

  /** A guarded update of the row: only a process that holds the current revision changes it. */
  function SaveRow(s: State, pid: nat, p: Process, to: BatchStatus, saving: Saving, h: History,
          next: Option<ControlPoint>): State {
    if saving.Rejected? || p.base.revision != s.row.revision then Quit(s, pid)
    else
      var row := Batch(to, p.work.outcomes, s.row.revision + 1);
      var saved := s.(row := row, history := h.(writer := h.writer[row.revision := pid]));
      if saving.Unacknowledged? || next.None? then Quit(saved, pid)
      else Go(saved, pid, Process(row, row, next.value, p.ceiling))
  }

  function WithOutcome(b: Batch, i: nat, o: Outcome): Batch
    requires i < |b.outcomes|
  {
    b.(outcomes := b.outcomes[i := o])
  }

  function WithState(b: Batch, i: nat, st: Status): Batch
    requires i < |b.outcomes|
  {
    WithOutcome(b, i, b.outcomes[i].(state := st))
  }

  function StatusOf(s: State, i: nat): Status
    requires i < |s.sites|
  {
    s.sites[i].machine.world.status
  }

  function NewCall(s: State): nat { |s.calls| }

  function SendTo(s: State, pid: nat, p: Process, m: Message, h: History, next: ControlPoint): State {
    Go(s.(calls := s.calls + [m], inFlight := s.inFlight + {NewCall(s)}, history := h), pid, p.(at := next))
  }

  function AdvanceApply(s: State, pid: nat, p: Process, saving: Saving, reached: bool): State
    requires |p.work.outcomes| == |s.sites| == |s.history.applies|
  {
    var n := |s.sites|;
    match p.at
    case PreInspect(i) =>
      if i >= n || !reached || StatusOf(s, i) != Ready then Quit(s, pid)
      else Go(s, pid, p.(at := if i + 1 < n then PreInspect(i + 1) else Inspect(0)))
    case Inspect(i) =>
      if i >= n || !reached || StatusOf(s, i) != Ready then Go(s, pid, p.(at := LastSave(RolloutStopped)))
      else Go(s, pid, p.(work := WithOutcome(p.work, i, Outcome(true, Unknown, p.work.outcomes[i].repairs)), at := Dispatch(i)))
    case Dispatch(i) =>
      SaveRow(s, pid, p, BatchApplying, saving,
            s.history.(dispatchedAt := s.history.dispatchedAt[i := s.row.revision + 1]), Some(SendApply(i)))
    case SendApply(i) =>
      if i >= n then Quit(s, pid)
      else SendTo(s, pid, p, Message(i, false),
            s.history.(applies := s.history.applies[i := s.history.applies[i] + 1]), AwaitApply(i, NewCall(s)))
    case AwaitApply(i, call) =>
      if i >= n || !reached || call !in s.replies then Go(s, pid, p.(at := LastSave(BatchUnknown)))
      else
        var work := WithState(p.work, i, s.replies[call]);
        Go(s, pid, p.(work := work,
              at := if s.replies[call] == Committed then RecordApplied(i) else LastSave(RolloutStopped)))
    case RecordApplied(i) =>
      SaveRow(s, pid, p, BatchApplying, saving, s.history, Some(if i + 1 < n then Inspect(i + 1) else FinishApply))
    case FinishApply => SaveRow(s, pid, p, BatchCommitted, saving, s.history, None)
    case _ => s
  }

  function AdvanceReconcile(s: State, pid: nat, p: Process, reached: bool): State
    requires p.at.ReconcileEntry? && |p.work.outcomes| == |s.sites|
  {
    var ReconcileEntry(i, allCommitted, allRecovered, problem) := p.at;
    if i >= |s.sites| then
      Go(s, pid, p.(at := LastSave(if problem then BatchUnknown else if allCommitted then BatchCommitted
                                   else if allRecovered then BatchRecovered else RolloutStopped)))
    else if !p.work.outcomes[i].dispatched then Go(s, pid, p.(at := ReconcileEntry(i + 1, false, allRecovered, problem)))
    else
      // Ready after a dispatch is still unknown: the command may yet arrive.
      var seen := if !reached || StatusOf(s, i) == Ready then Unknown else StatusOf(s, i);
      Go(s, pid, p.(work := WithState(p.work, i, seen),
                    at := ReconcileEntry(i + 1, allCommitted && seen == Committed, allRecovered && seen == Recovered, problem || !reached)))
  }

  function AdvanceRecover(s: State, pid: nat, p: Process, saving: Saving, reached: bool): State
    requires |p.work.outcomes| == |s.sites| == |s.history.recovers| == |s.history.repairsSent| == |s.history.repairedAt|
  {
    var n := |s.sites|;
    match p.at
    case InspectRepair(left) =>
      if left == 0 then Go(s, pid, p.(at := FinishRecover))
      else if left > n then Quit(s, pid)
      else
        var i := left - 1;
        var o := p.work.outcomes[i];
        if !o.dispatched then Go(s, pid, p.(at := InspectRepair(i)))
        else if !reached then Go(s, pid, p.(at := LastSave(BatchUnknown)))
        else if StatusOf(s, i) == Recovered then Go(s, pid, p.(work := WithState(p.work, i, Recovered), at := InspectRepair(i)))
        else if o.repairs >= p.ceiling then Go(s, pid, p.(at := LastSave(BatchRecoveryFailed)))
        else Go(s, pid, p.(work := WithOutcome(p.work, i, Outcome(true, Unknown, o.repairs + 1)), at := RecordRepair(i)))
    case RecordRepair(i) =>
      if i >= n then Quit(s, pid)
      else SaveRow(s, pid, p, BatchRollingBack, saving,
                   s.history.(repairedAt := s.history.repairedAt[i := s.history.repairedAt[i] + {s.row.revision + 1}]), Some(SendRecover(i)))
    case SendRecover(i) =>
      if i >= n then Quit(s, pid)
      else
        var h := s.history;
        SendTo(s, pid, p, Message(i, true),
               h.(recovers := h.recovers[i := h.recovers[i] + 1], repairsSent := h.repairsSent[i := h.repairsSent[i] + {p.base.revision}]),
               AwaitRecover(i, NewCall(s)))
    case AwaitRecover(i, call) =>
      if i >= n || !reached || call !in s.replies then Go(s, pid, p.(at := LastSave(BatchUnknown)))
      else
        var work := WithState(p.work, i, s.replies[call]);
        Go(s, pid, p.(work := work,
              at := if s.replies[call] == Recovered then RecordRecovered(i) else LastSave(BatchRecoveryFailed)))
    case RecordRecovered(i) => SaveRow(s, pid, p, BatchRollingBack, saving, s.history, Some(InspectRepair(i)))
    case FinishRecover => SaveRow(s, pid, p, BatchRecovered, saving, s.history, None)
    case _ => s
  }

  predicate Shaped(c: Config, s: State) {
    var n, h := |c.plans|, s.history;
    && n > 0
    && |s.row.outcomes| == |s.sites| == n
    && |h.repairedAt| == |h.repairsSent| == |h.applies| == |h.recovers| == n
  }

  function DoAdvance(c: Config, s: State, pid: nat, saving: Saving, reached: bool): State {
    if pid !in s.procs || !Shaped(c, s) || |s.procs[pid].work.outcomes| != |c.plans| then s
    else
      var p := s.procs[pid];
      match p.at
      case LastSave(to) => SaveRow(s, pid, p, to, saving, s.history, None)
      case ReconcileEntry(_, _, _, _) => AdvanceReconcile(s, pid, p, reached)
      case InspectRepair(_) => AdvanceRecover(s, pid, p, saving, reached)
      case RecordRepair(_) => AdvanceRecover(s, pid, p, saving, reached)
      case SendRecover(_) => AdvanceRecover(s, pid, p, saving, reached)
      case AwaitRecover(_, _) => AdvanceRecover(s, pid, p, saving, reached)
      case RecordRecovered(_) => AdvanceRecover(s, pid, p, saving, reached)
      case FinishRecover => AdvanceRecover(s, pid, p, saving, reached)
      case _ => AdvanceApply(s, pid, p, saving, reached)
  }

  /** A new process reads the row; most states refuse at once. */
  function DoLaunch(c: Config, s: State, job: Job, ceiling: nat): State {
    var at :=
      match job
      case ApplyBatch => if s.row.status == BatchReady then Some(PreInspect(0)) else None
      case ReconcileBatch => if s.row.status == BatchReady then None else Some(ReconcileEntry(0, true, true, false))
      case RecoverBatch => if s.row.status in {BatchReady, BatchRecovered} then None else Some(InspectRepair(|s.sites|));
    if at.None? then s
    else
      var lowered := if ceiling < c.repairLimit then ceiling else c.repairLimit;
      s.(procs := s.procs[s.nextProc := Process(s.row, s.row, at.value, lowered)], nextProc := s.nextProc + 1)
  }

  // ------------------------------------------------------------- targets

  function MoveSite(s: State, i: nat, m: Machine, serving: Option<nat>): State
    requires i < |s.sites|
  {
    s.(sites := s.sites[i := Site(m, serving, s.sites[i].committed || m.world.status == Committed)])
  }

  function Requested(m: Message, accepted: bool): Call {
    if m.recover then Recover(accepted) else Apply(true, accepted)
  }

  function Do(c: Config, s: State, e: Event): State {
    match e
    case Launch(job, ceiling) => DoLaunch(c, s, job, ceiling)
    case Kill(pid) => Quit(s, pid)
    case Advance(pid, saving, reached) => DoAdvance(c, s, pid, saving, reached)
    case Deliver(call, accepted) =>
      if call !in s.inFlight || call >= |s.calls| || !Shaped(c, s) || s.calls[call].i >= |s.sites| then s
      else
        var i := s.calls[call].i;
        var left := s.(inFlight := s.inFlight - {call});
        // A target whose executor lock is held refuses the call.
        if !s.sites[i].machine.pc.Idle? then left
        else MoveSite(left, i, Start(c.plans[i], s.sites[i].machine.world, Requested(s.calls[call], accepted)), Some(call))
    case Lose(call) => s.(inFlight := s.inFlight - {call})
    case Respond(i) =>
      if i < |s.sites| && s.sites[i].machine.pc.Idle? && s.sites[i].serving.Some? then
        MoveSite(s.(replies := s.replies[s.sites[i].serving.value := StatusOf(s, i)]), i, s.sites[i].machine, None)
      else s
    case TargetStep(i, fate) =>
      if Shaped(c, s) && i < |s.sites| then MoveSite(s, i, Step(c.plans[i], s.sites[i].machine, fate), s.sites[i].serving) else s
    case TargetCrash(i) =>
      if i < |s.sites| then MoveSite(s, i, s.sites[i].machine.(pc := Idle(false)), None) else s
    case Operator(i, request) =>
      if Shaped(c, s) && i < |s.sites| && s.sites[i].machine.pc.Idle? then
        MoveSite(s, i, Start(c.plans[i], s.sites[i].machine.world, request), None)
      else s
  }

  function Run(c: Config, s: State, events: seq<Event>): State
    decreases |events|
  {
    if events == [] then s else Run(c, Do(c, s, events[0]), events[1..])
  }
}
