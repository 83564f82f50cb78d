/** What requests to a managed SSH listener achieve: an application, a confirmation, a watchdog's
    or an operator's rollback and a start, left undisturbed or with one primitive that fails. */
module SshOutcomes {
  import opened Ssh
  import opened SshSafety
  import opened SshTheorems
  import opened Wrappers

  // ------------------------------------------------------------- undisturbed runs

  /** The lock holder goes on without a failure, time passes, and supervisors beat. */
  predicate Undisturbing(e: Event) {
    e == Step(Good) || e.Pass? || e.Beat?
  }

  predicate Smooth(events: seq<Event>) {
    forall e <- events :: Undisturbing(e)
  }

  function Work(events: seq<Event>): nat {
    if events == [] then 0 else Work(events[1..]) + if events[0].Step? then 1 else 0
  }

  function Waited(events: seq<Event>): nat {
    if events == [] then 0 else Waited(events[1..]) + match events[0] case Pass(ticks) => ticks case _ => 0
  }

  function Listening(h: Host, name: string): Option<string> {
    if name in h.listeners then Some(h.listeners[name]) else None
  }

  function PendingAt(h: Host, name: string): Option<Ref> {
    if name in h.guards then h.guards[name] else None
  }

  /** Nothing but operation `o` and the service `name` has changed. */
  ghost predicate OnlyThat(h0: Host, h: Host, o: nat, name: string) {
    && h.boot == h0.boot && |h.status| == |h0.status|
    && (forall p: nat | p < |h.status| && p != o :: h.status[p] == h0.status[p])
    && (forall n: string | n != name ::
          FileOf(h, n) == FileOf(h0, n) && Listening(h, n) == Listening(h0, n) && PendingAt(h, n) == PendingAt(h0, n))
    && h0.guards.Keys <= h.guards.Keys
  }

  /** What a process is about. */
  datatype Task =
    | Trial(o: nat, ref: Ref)
    | Undoing(o: nat, agent: Agent)
    | Serving(name: string)
    | Deciding(o: nat, ref: Ref)
    | Stopping(o: nat, to: SshStatus)

  /** The service `name` has this file, listener and guard. */
  predicate Has(h: Host, name: string, file: string, listener: string, guard: Option<Ref>) {
    FileOf(h, name) == Some(file) && Listening(h, name) == Some(listener) && name in h.guards && h.guards[name] == guard
  }

  /** An application of `o` in which nothing has failed; `first` is what its listener ran. */
  predicate Trying(ops: Plans, h: Host, o: nat, ref: Ref, first: string)
    requires o < |ops| == |h.status|
  {
    var name, st := ops[o].name, h.status[o];
    var before, after := ops[o].before, ops[o].after;
    match h.pc
    case AtApply(p, at) =>
      && p == o
      && (match at
          case Arm(r) => r == ref && st == SshStatus.Ready && Has(h, name, before, first, None)
          case RecordDeadline => st == SshStatus.Ready && Has(h, name, before, first, Some(ref))
          case SaveArmed => st == SshStatus.Ready && Has(h, name, before, first, Some(ref))
          case SaveApplying => st == Armed && Has(h, name, before, first, Some(ref))
          case Install => st == Applying && Has(h, name, before, first, Some(ref))
          case CheckInstalled => st == Applying && Has(h, name, after, first, Some(ref))
          case Reload => st == Applying && Has(h, name, after, first, Some(ref))
          case ProbeNew => st == Applying && Has(h, name, after, after, Some(ref))
          case RecordReload => st == Applying && Has(h, name, after, after, Some(ref))
          case CheckAfter => st == Applying && Has(h, name, after, after, Some(ref)) && o in h.reloaded && h.reloaded[o] == h.boot
          case SaveAwaiting => st == Applying && Has(h, name, after, after, Some(ref)) && o in h.reloaded && h.reloaded[o] == h.boot
          case GiveUp(_) => false)
    case Idle =>
      && st == AwaitingConfirmation && Has(h, name, after, after, Some(ref)) && o in h.reloaded && h.reloaded[o] == h.boot
    case _ => false
  }

  /** The row of an operation that is being rolled back: its own guard, or for an operator's
      rollback perhaps none. */
  predicate OwnRow(ops: Plans, h: Host, o: nat, agent: Agent)
    requires o < |ops|
  {
    && ops[o].name in h.guards
    && (PendingAt(h, ops[o].name).Some? ==> PendingAt(h, ops[o].name).value.op == o)
    && (agent.Startup? ==> agent.ref.op == o && PendingAt(h, ops[o].name) == Some(agent.ref))
  }

  predicate InEither(ops: Plans, h: Host, o: nat)
    requires o < |ops|
  {
    FileOf(h, ops[o].name) in {Some(ops[o].before), Some(ops[o].after)}
  }

  /** A listener that is there to be reloaded, or is yet to be started. */
  predicate Staffed(ops: Plans, h: Host, o: nat, agent: Agent)
    requires o < |ops|
  {
    HasMaster(agent) ==> Listening(h, ops[o].name).Some?
  }

  /** A start for a restoration adds one launch, of the original. */
  predicate LaunchedOnce(ops: Plans, h0: Host, h: Host, o: nat)
    requires o < |ops|
  {
    h.history.launches == h0.history.launches + [Launch(ops[o].name, ops[o].before, h.history.confirmed.Keys)]
  }

  /** Where an undisturbed rollback ends: the original file, and, once there is a listener for
      it, a recovered operation, a listener of the original, and no guard. */
  predicate Restored(ops: Plans, h0: Host, h: Host, o: nat, agent: Agent)
    requires o < |ops| == |h.status|
  {
    if agent == Operator(false) then
      h.status[o] == RollingBack && FileOf(h, ops[o].name) == Some(ops[o].before) && OwnRow(ops, h, o, agent)
    else
      && h.status[o] == Recovered && Has(h, ops[o].name, ops[o].before, ops[o].before, None)
      && (agent.Startup? ==> LaunchedOnce(ops, h0, h, o))
  }

  /** A rollback of `o` in which nothing has failed. */
  predicate GoingBack(ops: Plans, h0: Host, h: Host, o: nat, agent: Agent)
    requires o < |ops| == |h.status|
  {
    var name, st, before := ops[o].name, h.status[o], ops[o].before;
    match h.pc
    case AtRollback(p, a, at) =>
      && p == o && a == agent && OwnRow(ops, h, o, agent) && Staffed(ops, h, o, agent)
      && (agent.Startup? ==> h.history.launches == h0.history.launches)
      && (match at
          case SaveRollingBack => InEither(ops, h, o)
          case VerifyInputs => st == RollingBack && InEither(ops, h, o)
          case Restore => st == RollingBack && InEither(ops, h, o)
          case CheckBefore => st == RollingBack && FileOf(h, name) == Some(before)
          case ReloadOld => st == RollingBack && FileOf(h, name) == Some(before) && HasMaster(agent)
          case ProbeOld => st == RollingBack && FileOf(h, name) == Some(before) && Listening(h, name) == Some(before) && HasMaster(agent)
          case SaveRecovered => st == RollingBack && FileOf(h, name) == Some(before) && Listening(h, name) == Some(before) && HasMaster(agent)
          case ClearSettled => st == Recovered && FileOf(h, name) == Some(before) && Listening(h, name) == Some(before) && HasMaster(agent)
          case SaveFailed => false)
    case AtBoot(n, at) =>
      && n == name && agent.Startup? && FileOf(h, name) == Some(before)
      && (match at
          case Start(r) =>
            r == Some(agent.ref) && st == RollingBack && OwnRow(ops, h, o, agent) && h.history.launches == h0.history.launches
          case Probe(r) =>
            && r == Some(agent.ref) && st == RollingBack && OwnRow(ops, h, o, agent)
            && Listening(h, name) == Some(before) && LaunchedOnce(ops, h0, h, o)
          case SaveStarted(r) =>
            && r == agent.ref && st == RollingBack && OwnRow(ops, h, o, agent)
            && Listening(h, name) == Some(before) && LaunchedOnce(ops, h0, h, o)
          case ClearStarted(r) =>
            && r == agent.ref && st == Recovered && OwnRow(ops, h, o, agent)
            && Listening(h, name) == Some(before) && LaunchedOnce(ops, h0, h, o)
          case Heartbeat => st == Recovered && Has(h, name, before, before, None) && LaunchedOnce(ops, h0, h, o)
          case _ => false)
    case Idle => Restored(ops, h0, h, o, agent)
    case _ => false
  }

  /** A start of `name` with nothing to restore. */
  predicate ComingUp(h0: Host, h: Host, name: string) {
    && FileOf(h, name).Some? && FileOf(h, name) == FileOf(h0, name) && h.status == h0.status
    && match h.pc
       case AtBoot(n, at) =>
         && n == name
         && (match at
             case ClearFirst(ref) => PendingAt(h, name) == Some(ref)
             case Start(r) => r == None && PendingAt(h, name) == None
             case Probe(r) => r == None && PendingAt(h, name) == None && Listening(h, name) == FileOf(h, name)
             case Heartbeat => PendingAt(h, name) == None && Listening(h, name) == FileOf(h, name)
             case _ => false)
       case Idle => name in h.guards && PendingAt(h, name) == None && Listening(h, name) == FileOf(h, name)
       case _ => false
  }

  /** A confirmation of `o` in which nothing has failed, while the deadline has not passed. */
  predicate Confirms(ops: Plans, h: Host, o: nat, ref: Ref)
    requires o < |ops| == |h.status|
  {
    var st, name, after := h.status[o], ops[o].name, ops[o].after;
    && FileOf(h, name) == Some(after) && Listening(h, name).Some? && name in h.guards
    && match h.pc
       case AtConfirm(p, r, at) =>
         && p == o && r == ref && h.guards[name] == Some(ref)
         && (match at
             case Prove => st == AwaitingConfirmation
             case Resample => st == AwaitingConfirmation
             case SaveCommitted(sampled) => st == AwaitingConfirmation
             case ClearGuard => st == Committed && o in h.history.confirmed)
       case Idle => st == Committed && h.guards[name] == None && o in h.history.confirmed
       case _ => false
  }

  /** After a failure: only the outcome `to` is still to be recorded. */
  predicate Stops(ops: Plans, h0: Host, h: Host, o: nat, to: SshStatus)
    requires o < |ops| == |h.status|
  {
    var name := ops[o].name;
    && FileOf(h, name) == FileOf(h0, name) && Listening(h, name) == Listening(h0, name) && PendingAt(h, name) == PendingAt(h0, name)
    && match h.pc
       case AtRollback(p, _, at) => p == o && at == SaveFailed && to == RecoveryFailed
       case AtApply(p, at) => p == o && at.GiveUp? && to == if at.stale then h.status[o] else Unknown
       case Idle => h.status[o] == to
       case _ => false
  }

  ghost predicate OnTrack(ops: Plans, h0: Host, h: Host, t: Task) {
    && |ops| == |h.status| && h0.history.confirmed.Keys <= h.history.confirmed.Keys
    && match t
       case Trial(o, ref) =>
         && o < |ops| && OnlyThat(h0, h, o, ops[o].name) && Listening(h0, ops[o].name).Some?
         && Trying(ops, h, o, ref, Listening(h0, ops[o].name).value)
       case Undoing(o, agent) => o < |ops| && OnlyThat(h0, h, o, ops[o].name) && GoingBack(ops, h0, h, o, agent)
       case Serving(name) => OnlyThat(h0, h, |ops|, name) && ComingUp(h0, h, name)
       case Deciding(o, ref) => o < |ops| && OnlyThat(h0, h, o, ops[o].name) && Confirms(ops, h, o, ref)
       case Stopping(o, to) => o < |ops| && OnlyThat(h0, h, o, ops[o].name) && Stops(ops, h0, h, o, to)
  }

  /** How many primitives are left. */
  function Left(pc: Pc): nat {
    match pc
    case Idle => 0
    case AtApply(_, at) =>
      (match at
       case Arm(_) => 11 case RecordDeadline => 10 case SaveArmed => 9 case SaveApplying => 8 case Install => 7
       case CheckInstalled => 6 case Reload => 5 case ProbeNew => 4 case RecordReload => 3 case CheckAfter => 2
       case _ => 1)
    case AtConfirm(_, _, at) =>
      (match at case Prove => 4 case Resample => 3 case SaveCommitted(_) => 2 case ClearGuard => 1)
    case AtRollback(_, _, at) =>
      (match at
       case SaveRollingBack => 9 case VerifyInputs => 8 case Restore => 7 case CheckBefore => 6 case ReloadOld => 4
       case ProbeOld => 3 case SaveRecovered => 2 case _ => 1)
    case AtBoot(_, at) =>
      (match at
       case ClearFirst(_) => 6 case Start(_) => 5 case Probe(_) => 4 case SaveStarted(_) => 3 case ClearStarted(_) => 2
       case _ => 1)
  }

  // ------------------------------------------------------------- one event

  /** The process is about operation `o` and service `name`. */
  predicate About(ops: Plans, pc: Pc, o: nat, name: string) {
    match pc
    case Idle => true
    case AtApply(p, _) => p == o < |ops| && name == ops[o].name
    case AtConfirm(p, _, _) => p == o < |ops| && name == ops[o].name
    case AtRollback(p, _, _) => p == o < |ops| && name == ops[o].name
    case AtBoot(n, at) => n == name && (at.SaveStarted? ==> at.ref.op == o)
  }

  lemma OnlyThatTwice(h0: Host, h: Host, t: Host, o: nat, name: string)
    requires OnlyThat(h0, h, o, name) && OnlyThat(h, t, o, name)
    ensures OnlyThat(h0, t, o, name)
  {
    hide FileOf;
    hide Listening;
    hide PendingAt;
  }

  /** Only the files, the listeners and the guard of `name` and the status of `o` may differ. */
  lemma ChangedThat(h: Host, t: Host, o: nat, name: string)
    requires t.boot == h.boot && |t.status| == |h.status| && h.guards.Keys <= t.guards.Keys
    requires t.status == h.status || (o < |h.status| && t.status == h.status[o := t.status[o]])
    requires t.files == h.files || (name in t.files && t.files == h.files[name := t.files[name]])
    requires || t.listeners == h.listeners || (name in t.listeners && t.listeners == h.listeners[name := t.listeners[name]])
             || t.listeners == h.listeners - {name}
    requires t.guards == h.guards || (name in t.guards && t.guards == h.guards[name := t.guards[name]])
    ensures OnlyThat(h, t, o, name)
  {
  }

  lemma SaveIsLocal(h: Host, y: History, f: Fate, o: nat, st: SshStatus, ok: Pc, err: Pc, name: string)
    ensures var t := Save(h.(history := y), f, o, st, ok, err);
      && OnlyThat(h, t, o, name) && t.history.confirmed == y.confirmed && t.listeners == h.listeners
  {
    ChangedThat(h, Save(h.(history := y), f, o, st, ok, err), o, name);
    hide OnlyThat;
  }

  lemma SavesLocally(h: Host, f: Fate, o: nat, st: SshStatus, ok: Pc, err: Pc, name: string)
    ensures var t := Save(h, f, o, st, ok, err);
      && OnlyThat(h, t, o, name) && t.history.confirmed == h.history.confirmed && t.listeners == h.listeners
  {
    assert h.(history := h.history) == h;
    SaveIsLocal(h, h.history, f, o, st, ok, err, name);
    hide OnlyThat;
    hide Save;
  }

  lemma ClearIsLocal(h: Host, f: Fate, name: string, expected: Ref, ok: Pc, err: Pc, o: nat)
    ensures var t := Clear(h, f, name, expected, ok, err);
      OnlyThat(h, t, o, name) && t.history == h.history && t.listeners == h.listeners
  {
    ChangedThat(h, Clear(h, f, name, expected, ok, err), o, name);
    hide OnlyThat;
  }

  lemma LosesIsLocal(h: Host, t: Host, o: nat, name: string)
    requires OnlyThat(h, t, o, name)
    ensures OnlyThat(h, Loses(t, name), o, name) && Loses(t, name).history == t.history
  {
    ChangedThat(t, Loses(t, name), o, name);
    OnlyThatTwice(h, t, Loses(t, name), o, name);
    hide OnlyThat;
  }

  predicate SavesStatus(at: ApplyPoint) {
    at in {SaveArmed, SaveApplying, SaveAwaiting} || at.GiveUp?
  }

  lemma ApplySavesLocally(ops: Plans, h: Host, o: nat, at: ApplyPoint, f: Fate)
    requires o < |ops| == |h.status| && SavesStatus(at)
    ensures OnlyThat(h, ApplyStep(ops, h, o, at, f), o, ops[o].name)
    ensures ApplyStep(ops, h, o, at, f).history.confirmed == h.history.confirmed
  {
    hide OnlyThat;
    hide Save;
    match at
    case SaveArmed => SavesLocally(h, f, o, Armed, AtApply(o, SaveApplying), AtApply(o, GiveUp(f.Late?)), ops[o].name);
    case SaveApplying => SavesLocally(h, f, o, Applying, AtApply(o, Install), AtApply(o, GiveUp(f.Late?)), ops[o].name);
    case SaveAwaiting => SavesLocally(h, f, o, AwaitingConfirmation, Idle, AtApply(o, GiveUp(f.Late?)), ops[o].name);
    case GiveUp(stale) => SavesLocally(h, if stale then Bad else f, o, Unknown, Idle, Idle, ops[o].name);
    case _ =>
  }

  lemma ApplyIsLocal(ops: Plans, h: Host, o: nat, at: ApplyPoint, f: Fate)
    requires o < |ops| == |h.status|
    ensures OnlyThat(h, ApplyStep(ops, h, o, at, f), o, ops[o].name)
    ensures ApplyStep(ops, h, o, at, f).history.confirmed == h.history.confirmed
  {
    hide OnlyThat;
    if SavesStatus(at) {
      ApplySavesLocally(ops, h, o, at, f);
      hide ApplyStep;
    } else {
      ChangedThat(h, ApplyStep(ops, h, o, at, f), o, ops[o].name);
    }
  }

  lemma ConfirmIsLocal(ops: Plans, h: Host, o: nat, ref: Ref, at: ConfirmPoint, f: Fate)
    requires o < |ops| == |h.status|
    ensures OnlyThat(h, ConfirmStep(ops, h, o, ref, at, f), o, ops[o].name)
    ensures h.history.confirmed.Keys <= ConfirmStep(ops, h, o, ref, at, f).history.confirmed.Keys
  {
    ChangedThat(h, ConfirmStep(ops, h, o, ref, at, f), o, ops[o].name);
    hide OnlyThat;
  }

  lemma RollbackIsLocal(ops: Plans, h: Host, o: nat, agent: Agent, at: RollbackPoint, f: Fate)
    requires o < |ops| == |h.status|
    ensures OnlyThat(h, RollbackStep(ops, h, o, agent, at, f), o, ops[o].name)
    ensures RollbackStep(ops, h, o, agent, at, f).history.confirmed == h.history.confirmed
  {
    hide OnlyThat;
    var name := ops[o].name;
    match at
    case SaveRollingBack =>
      SaveIsLocal(h, Began(h.history, o, agent), f, o, RollingBack, AtRollback(o, agent, VerifyInputs), Idle, name);
      ChangedThat(h, To(h, Idle), o, name);
      hide Save;
    case SaveRecovered =>
      SavesLocally(h, f, o, Recovered, AtRollback(o, agent, ClearSettled), Idle, name);
      hide Save;
    case SaveFailed =>
      SavesLocally(h, f, o, RecoveryFailed, Idle, Idle, name);
      hide Save;
    case ClearSettled =>
      if Pending(h, name) { ClearIsLocal(h, f, name, h.guards[name].value, Idle, Idle, o); }
      ChangedThat(h, To(h, Idle), o, name);
      hide Clear;
    case _ => RestoresLocally(ops, h, o, agent, at, f);
  }

  lemma RestoresLocally(ops: Plans, h: Host, o: nat, agent: Agent, at: RollbackPoint, f: Fate)
    requires o < |ops| == |h.status| && at in {VerifyInputs, Restore, CheckBefore, ReloadOld, ProbeOld}
    ensures OnlyThat(h, RollbackStep(ops, h, o, agent, at, f), o, ops[o].name)
    ensures RollbackStep(ops, h, o, agent, at, f).history == h.history
  {
    ChangedThat(h, RollbackStep(ops, h, o, agent, at, f), o, ops[o].name);
    hide OnlyThat;
  }

  /** A heartbeat's row and a lost listener. */
  lemma BeatIsLocal(ops: Plans, h: Host, name: string, f: Fate, o: nat)
    requires |ops| == |h.status|
    ensures var t := BootStep(ops, h, name, Heartbeat, f);
      OnlyThat(h, t, o, name) && t.history == h.history
  {
    ChangedThat(h, BootStep(ops, h, name, Heartbeat, f), o, name);
    hide OnlyThat;
  }

  lemma BootIsLocal(ops: Plans, h: Host, name: string, at: BootPoint, f: Fate, o: nat)
    requires |ops| == |h.status| && (at.SaveStarted? ==> at.ref.op == o)
    ensures OnlyThat(h, BootStep(ops, h, name, at, f), o, name)
    ensures BootStep(ops, h, name, at, f).history.confirmed == h.history.confirmed
  {
    hide OnlyThat;
    match at
    case SaveStarted(ref) =>
      var t := Save(h, f, o, Recovered, AtBoot(name, ClearStarted(ref)), Idle);
      SavesLocally(h, f, o, Recovered, AtBoot(name, ClearStarted(ref)), Idle, name);
      LosesIsLocal(h, t, o, name);
      hide Save;
    case ClearStarted(ref) =>
      var t := Clear(h, f, name, ref, AtBoot(name, Heartbeat), Idle);
      ClearIsLocal(h, f, name, ref, AtBoot(name, Heartbeat), Idle, o);
      LosesIsLocal(h, t, o, name);
      hide Clear;
    case TickClear(ref) =>
      ClearIsLocal(h, f, name, ref, Idle, Idle, o);
      hide Clear;
    case ClearFirst(ref) =>
      ClearIsLocal(h, f, name, ref, AtBoot(name, Start(None)), Idle, o);
      hide Clear;
    case Heartbeat => BeatIsLocal(ops, h, name, f, o);
    case _ => ChangedThat(h, BootStep(ops, h, name, at, f), o, name);
  }

  /** A primitive changes the operation and the service that it is about, and confirms, but
      never forgets a confirmation. */
  lemma StepIsLocal(ops: Plans, h: Host, f: Fate, o: nat, name: string)
    requires |ops| == |h.status| && About(ops, h.pc, o, name)
    ensures OnlyThat(h, StepOf(ops, h, f), o, name)
    ensures h.history.confirmed.Keys <= StepOf(ops, h, f).history.confirmed.Keys
  {
    hide OnlyThat;
    hide ApplyStep;
    hide ConfirmStep;
    hide RollbackStep;
    hide BootStep;
    match h.pc
    case Idle => Unchanged(h, o, name);
    case AtApply(p, at) => ApplyIsLocal(ops, h, p, at, f);
    case AtConfirm(p, ref, at) => ConfirmIsLocal(ops, h, p, ref, at, f);
    case AtRollback(p, agent, at) => RollbackIsLocal(ops, h, p, agent, at, f);
    case AtBoot(n, at) => BootIsLocal(ops, h, n, at, f, o);
  }

  lemma Unchanged(h: Host, o: nat, name: string)
    ensures OnlyThat(h, h, o, name)
  {
  }

  lemma ArmingGoesOn(ops: Plans, h: Host, o: nat, ref: Ref, first: string)
    requires o < |ops| == |h.status| && Trying(ops, h, o, ref, first) && !h.pc.Idle?
    requires Left(h.pc) > 6
    ensures |StepOf(ops, h, Good).status| == |ops| && Trying(ops, StepOf(ops, h, Good), o, ref, first)
    ensures Left(StepOf(ops, h, Good).pc) < Left(h.pc)
  {
  }

  lemma ReloadingGoesOn(ops: Plans, h: Host, o: nat, ref: Ref, first: string)
    requires o < |ops| == |h.status| && Trying(ops, h, o, ref, first) && !h.pc.Idle?
    requires !(Left(h.pc) > 6)
    ensures |StepOf(ops, h, Good).status| == |ops| && Trying(ops, StepOf(ops, h, Good), o, ref, first)
    ensures Left(StepOf(ops, h, Good).pc) < Left(h.pc)
  {
  }

  lemma TryingGoesOn(ops: Plans, h: Host, o: nat, ref: Ref, first: string)
    requires o < |ops| == |h.status| && Trying(ops, h, o, ref, first) && !h.pc.Idle?
    ensures |StepOf(ops, h, Good).status| == |ops| && Trying(ops, StepOf(ops, h, Good), o, ref, first)
    ensures Left(StepOf(ops, h, Good).pc) < Left(h.pc)
  {
    if Left(h.pc) > 6 { ArmingGoesOn(ops, h, o, ref, first); } else { ReloadingGoesOn(ops, h, o, ref, first); }
  }

  lemma FileGoesBack(ops: Plans, h0: Host, h: Host, o: nat, agent: Agent)
    requires o < |ops| == |h.status| && GoingBack(ops, h0, h, o, agent) && h.pc.AtRollback?
    requires h.pc.rollback in {SaveRollingBack, VerifyInputs, Restore, CheckBefore}
    ensures |StepOf(ops, h, Good).status| == |ops| && GoingBack(ops, h0, StepOf(ops, h, Good), o, agent)
    ensures Left(StepOf(ops, h, Good).pc) < Left(h.pc)
  {
  }

  lemma ListenerGoesBack(ops: Plans, h0: Host, h: Host, o: nat, agent: Agent)
    requires o < |ops| == |h.status| && GoingBack(ops, h0, h, o, agent) && h.pc.AtRollback?
    requires h.pc.rollback !in {SaveRollingBack, VerifyInputs, Restore, CheckBefore}
    ensures |StepOf(ops, h, Good).status| == |ops| && GoingBack(ops, h0, StepOf(ops, h, Good), o, agent)
    ensures Left(StepOf(ops, h, Good).pc) < Left(h.pc)
  {
  }

  lemma RestartGoesOn(ops: Plans, h0: Host, h: Host, o: nat, agent: Agent)
    requires o < |ops| == |h.status| && GoingBack(ops, h0, h, o, agent) && h.pc.AtBoot?
    ensures |StepOf(ops, h, Good).status| == |ops| && GoingBack(ops, h0, StepOf(ops, h, Good), o, agent)
    ensures Left(StepOf(ops, h, Good).pc) < Left(h.pc)
  {
  }

  lemma ComingUpGoesOn(ops: Plans, h0: Host, h: Host, name: string)
    requires |ops| == |h.status| && ComingUp(h0, h, name) && !h.pc.Idle?
    ensures ComingUp(h0, StepOf(ops, h, Good), name) && Left(StepOf(ops, h, Good).pc) < Left(h.pc)
  {
  }

  lemma ConfirmsGoesOn(ops: Plans, h: Host, o: nat, ref: Ref)
    requires o < |ops| == |h.status| && Confirms(ops, h, o, ref) && !h.pc.Idle? && h.now < ref.deadline
    ensures |StepOf(ops, h, Good).status| == |ops| && Confirms(ops, StepOf(ops, h, Good), o, ref)
    ensures Left(StepOf(ops, h, Good).pc) < Left(h.pc)
  {
  }

  lemma GivingUpGoesOn(ops: Plans, h0: Host, h: Host, o: nat, to: SshStatus)
    requires o < |ops| == |h.status| && Stops(ops, h0, h, o, to) && !h.pc.Idle?
    requires h.pc.AtApply?
    ensures |StepOf(ops, h, Good).status| == |ops| && Stops(ops, h0, StepOf(ops, h, Good), o, to)
    ensures Left(StepOf(ops, h, Good).pc) < Left(h.pc)
  {
  }

  lemma FailingGoesOn(ops: Plans, h0: Host, h: Host, o: nat, to: SshStatus)
    requires o < |ops| == |h.status| && Stops(ops, h0, h, o, to) && !h.pc.Idle?
    requires !(h.pc.AtApply?)
    ensures |StepOf(ops, h, Good).status| == |ops| && Stops(ops, h0, StepOf(ops, h, Good), o, to)
    ensures Left(StepOf(ops, h, Good).pc) < Left(h.pc)
  {
  }

  lemma StopsGoesOn(ops: Plans, h0: Host, h: Host, o: nat, to: SshStatus)
    requires o < |ops| == |h.status| && Stops(ops, h0, h, o, to) && !h.pc.Idle?
    ensures |StepOf(ops, h, Good).status| == |ops| && Stops(ops, h0, StepOf(ops, h, Good), o, to)
    ensures Left(StepOf(ops, h, Good).pc) < Left(h.pc)
  {
    if h.pc.AtApply? { GivingUpGoesOn(ops, h0, h, o, to); } else { FailingGoesOn(ops, h0, h, o, to); }
  }

  /** The operation and the service of a task. */
  function Subject(ops: Plans, t: Task): nat { if t.Serving? then |ops| else t.o }

  function NameOf(ops: Plans, t: Task): string {
    if t.Serving? then t.name else if t.o < |ops| then ops[t.o].name else ""
  }

  lemma OnTrackIsAbout(ops: Plans, h0: Host, h: Host, t: Task)
    requires OnTrack(ops, h0, h, t)
    ensures About(ops, h.pc, Subject(ops, t), NameOf(ops, t)) && OnlyThat(h0, h, Subject(ops, t), NameOf(ops, t))
  {
    hide OnlyThat;
  }

  lemma GoingBackWhere(ops: Plans, h0: Host, h: Host, o: nat, agent: Agent)
    requires o < |ops| == |h.status| && GoingBack(ops, h0, h, o, agent)
    ensures h.pc.AtRollback? || h.pc.AtBoot? || h.pc.Idle?
  {
  }

  lemma GoesOn(ops: Plans, h0: Host, h: Host, t: Task)
    requires OnTrack(ops, h0, h, t) && !h.pc.Idle? && (t.Deciding? ==> h.now < t.ref.deadline)
    ensures OnTrack(ops, h0, StepOf(ops, h, Good), t) && Left(StepOf(ops, h, Good).pc) < Left(h.pc)
  {
    var next := StepOf(ops, h, Good);
    OnTrackIsAbout(ops, h0, h, t);
    StepIsLocal(ops, h, Good, Subject(ops, t), NameOf(ops, t));
    OnlyThatTwice(h0, h, next, Subject(ops, t), NameOf(ops, t));
    hide StepOf;
    hide OnlyThat;
    hide Trying;
    if t.Undoing? { GoingBackWhere(ops, h0, h, t.o, t.agent); }
    hide GoingBack;
    hide ComingUp;
    hide Confirms;
    hide Stops;
    hide About;
    match t
    case Trial(o, ref) => TryingGoesOn(ops, h, o, ref, Listening(h0, ops[o].name).value);
    case Undoing(o, agent) =>
      if h.pc.AtBoot? { RestartGoesOn(ops, h0, h, o, agent); }
      else if h.pc.AtRollback? && h.pc.rollback in {SaveRollingBack, VerifyInputs, Restore, CheckBefore} {
        FileGoesBack(ops, h0, h, o, agent);
      } else { ListenerGoesBack(ops, h0, h, o, agent); }
    case Serving(name) => ComingUpGoesOn(ops, h0, h, name);
    case Deciding(o, ref) => ConfirmsGoesOn(ops, h, o, ref);
    case Stopping(o, to) => StopsGoesOn(ops, h0, h, o, to);
  }

  /** Apart from the clock and from new empty guard rows, nothing has changed. */
  ghost predicate Looks(h: Host, t: Host) {
    && t == h.(guards := t.guards, now := t.now) && h.guards.Keys <= t.guards.Keys
    && forall n: string :: PendingAt(h, n) == PendingAt(t, n)
  }

  lemma LooksLocal(ops: Plans, h0: Host, h: Host, t: Host, o: nat, name: string)
    requires Looks(h, t) && OnlyThat(h0, h, o, name)
    ensures OnlyThat(h0, t, o, name)
  {
    hide PendingAt;
  }

  lemma LooksTrying(ops: Plans, h: Host, t: Host, o: nat, ref: Ref, first: string)
    requires o < |ops| == |h.status| && Looks(h, t) && Trying(ops, h, o, ref, first)
    ensures Trying(ops, t, o, ref, first)
  {
    assert PendingAt(h, ops[o].name) == PendingAt(t, ops[o].name);
  }

  lemma LooksGoingBack(ops: Plans, h0: Host, h: Host, t: Host, o: nat, agent: Agent)
    requires o < |ops| == |h.status| && Looks(h, t) && GoingBack(ops, h0, h, o, agent)
    ensures GoingBack(ops, h0, t, o, agent)
  {
    assert PendingAt(h, ops[o].name) == PendingAt(t, ops[o].name);
  }

  lemma LooksConfirms(ops: Plans, h: Host, t: Host, o: nat, ref: Ref)
    requires o < |ops| == |h.status| && Looks(h, t) && Confirms(ops, h, o, ref)
    ensures Confirms(ops, t, o, ref)
  {
    assert PendingAt(h, ops[o].name) == PendingAt(t, ops[o].name);
  }

  lemma LooksStops(ops: Plans, h0: Host, h: Host, t: Host, o: nat, to: SshStatus)
    requires o < |ops| == |h.status| && Looks(h, t) && Stops(ops, h0, h, o, to)
    ensures Stops(ops, h0, t, o, to)
  {
    assert PendingAt(h, ops[o].name) == PendingAt(t, ops[o].name);
  }

  lemma LooksComingUp(h0: Host, h: Host, t: Host, name: string)
    requires Looks(h, t) && ComingUp(h0, h, name)
    ensures ComingUp(h0, t, name)
  {
  }

  lemma WaitingLooks(ops: Plans, h: Host, e: Event)
    requires |ops| == |h.status| && (e.Pass? || e.Beat?)
    ensures Looks(h, Do(ops, h, e)) && Do(ops, h, e).now == h.now + Waited([e])
  {
  }

  /** Time and heartbeats change nothing that a task looks at. */
  lemma WaitsOn(ops: Plans, h0: Host, h: Host, t: Task, e: Event)
    requires OnTrack(ops, h0, h, t) && (e.Pass? || e.Beat?)
    ensures OnTrack(ops, h0, Do(ops, h, e), t) && Do(ops, h, e).pc == h.pc
    ensures Do(ops, h, e).now == h.now + Waited([e])
  {
    var next := Do(ops, h, e);
    WaitingLooks(ops, h, e);
    OnTrackIsAbout(ops, h0, h, t);
    LooksLocal(ops, h0, h, next, Subject(ops, t), NameOf(ops, t));
    match t {
      case Trial(o, ref) => LooksTrying(ops, h, next, o, ref, Listening(h0, ops[o].name).value);
      case Undoing(o, agent) => LooksGoingBack(ops, h0, h, next, o, agent);
      case Serving(name) => LooksComingUp(h0, h, next, name);
      case Deciding(o, ref) => LooksConfirms(ops, h, next, o, ref);
      case Stopping(o, to) => LooksStops(ops, h0, h, next, o, to);
    }
    hide Do;
    hide OnlyThat;
    hide Trying;
    hide GoingBack;
    hide ComingUp;
    hide Confirms;
    hide Stops;
    hide About;
    hide PendingAt;
  }

  lemma OnTrackHasAll(ops: Plans, h0: Host, h: Host, t: Task)
    requires OnTrack(ops, h0, h, t)
    ensures |h.status| == |ops|
  {
  }

  lemma {:induction false} RunStaysOnTrack(ops: Plans, h0: Host, h: Host, t: Task, events: seq<Event>)
    requires OnTrack(ops, h0, h, t) && Smooth(events)
    requires t.Deciding? ==> h.now + Waited(events) < t.ref.deadline
    ensures OnTrack(ops, h0, Run(ops, h, events), t)
    ensures Work(events) >= Left(h.pc) ==> Run(ops, h, events).pc.Idle?
    decreases |events|
  {
    hide OnTrack;
    hide StepOf;
    if events != [] {
      OnTrackHasAll(ops, h0, h, t);
      assert Undisturbing(events[0]);
      var e, next := events[0], Do(ops, h, events[0]);
      if e.Step? {
        if !h.pc.Idle? { GoesOn(ops, h0, h, t); }
        StepTakes(ops, h, Good);
      } else {
        WaitsOn(ops, h0, h, t, e);
        assert Waited([e]) == Waited(events) - Waited(events[1..]);
      }
      hide Do;
      RunStaysOnTrack(ops, h0, next, t, events[1..]);
    }
  }

  lemma StepTakes(ops: Plans, h: Host, f: Fate)
    requires |h.status| == |ops|
    ensures Do(ops, h, Step(f)) == StepOf(ops, h, f)
    ensures StepOf(ops, h, f).now == h.now && |StepOf(ops, h, f).status| == |ops|
    ensures h.pc.Idle? ==> StepOf(ops, h, f) == h
  {
    hide ApplyStep;
    hide ConfirmStep;
    hide RollbackStep;
    hide BootStep;
    match h.pc
    case Idle =>
    case AtApply(o, at) => if o < |ops| { ApplyTakesNoTime(ops, h, o, at, f); }
    case AtConfirm(o, ref, at) => if o < |ops| { ConfirmTakesNoTime(ops, h, o, ref, at, f); }
    case AtRollback(o, agent, at) => if o < |ops| { RollbackTakesNoTime(ops, h, o, agent, at, f); }
    case AtBoot(name, at) => BootTakesNoTime(ops, h, name, at, f);
  }

  lemma ApplyTakesNoTime(ops: Plans, h: Host, o: nat, at: ApplyPoint, f: Fate)
    requires o < |ops| == |h.status|
    ensures ApplyStep(ops, h, o, at, f).now == h.now && |ApplyStep(ops, h, o, at, f).status| == |ops|
  {
  }

  lemma ConfirmTakesNoTime(ops: Plans, h: Host, o: nat, ref: Ref, at: ConfirmPoint, f: Fate)
    requires o < |ops| == |h.status|
    ensures ConfirmStep(ops, h, o, ref, at, f).now == h.now && |ConfirmStep(ops, h, o, ref, at, f).status| == |ops|
  {
  }

  /** Saves, clears and lost listeners take no time. */
  lemma SaveTakesNoTime(h: Host, f: Fate, o: nat, st: SshStatus, ok: Pc, err: Pc)
    ensures Save(h, f, o, st, ok, err).now == h.now && |Save(h, f, o, st, ok, err).status| == |h.status|
  {
  }

  lemma ClearTakesNoTime(h: Host, f: Fate, name: string, expected: Ref, ok: Pc, err: Pc)
    ensures Clear(h, f, name, expected, ok, err).now == h.now && Clear(h, f, name, expected, ok, err).status == h.status
  {
  }

  lemma RollbackTakesNoTime(ops: Plans, h: Host, o: nat, agent: Agent, at: RollbackPoint, f: Fate)
    requires o < |ops| == |h.status|
    ensures RollbackStep(ops, h, o, agent, at, f).now == h.now && |RollbackStep(ops, h, o, agent, at, f).status| == |ops|
  {
    match at
    case SaveRollingBack =>
      SaveTakesNoTime(h.(history := Began(h.history, o, agent)), f, o, RollingBack, AtRollback(o, agent, VerifyInputs), Idle);
      hide Save;
      hide Began;
    case SaveRecovered =>
      SaveTakesNoTime(h, f, o, Recovered, AtRollback(o, agent, ClearSettled), Idle);
      hide Save;
    case SaveFailed =>
      SaveTakesNoTime(h, f, o, RecoveryFailed, Idle, Idle);
      hide Save;
    case ClearSettled =>
      if Pending(h, ops[o].name) { ClearTakesNoTime(h, f, ops[o].name, h.guards[ops[o].name].value, Idle, Idle); }
      hide Clear;
    case _ =>
      hide Save;
      hide Clear;
  }

  lemma BootTakesNoTime(ops: Plans, h: Host, name: string, at: BootPoint, f: Fate)
    requires |ops| == |h.status|
    ensures BootStep(ops, h, name, at, f).now == h.now && |BootStep(ops, h, name, at, f).status| == |ops|
  {
    match at
    case SaveStarted(ref) =>
      SaveTakesNoTime(h, f, ref.op, Recovered, AtBoot(name, ClearStarted(ref)), Idle);
      hide Save;
    case ClearStarted(ref) =>
      ClearTakesNoTime(h, f, name, ref, AtBoot(name, Heartbeat), Idle);
      hide Clear;
    case TickClear(ref) =>
      ClearTakesNoTime(h, f, name, ref, Idle, Idle);
      hide Clear;
    case ClearFirst(ref) =>
      ClearTakesNoTime(h, f, name, ref, AtBoot(name, Start(None)), Idle);
      hide Clear;
    case _ =>
      hide Save;
      hide Clear;
  }

  // ------------------------------------------------------------- what is begun

  /** In a reachable state, what is pending is an operation of that very service, armed with
      that very reference, whose file is its original or its output. */
  lemma PendingIsOwn(ops: Plans, first: Files, h: Host, name: string)
    requires SshInv(ops, first, h) && Pending(h, name)
    ensures var ref := h.guards[name].value;
      && ref.op < |ops| == |h.status| && ops[ref.op].name == name && InEither(ops, h, ref.op)
      && ref.op in h.history.armed && h.history.armed[ref.op] == ref
  {
    PendingIsWatched(ops, first, h, name);
    Facts(ops, first, h, h.guards[name].value.op);
    hide HistorySound;
    hide StatusSound;
    hide GuardsSound;
    hide Legit;
    hide Control;
  }

  /** The watchdog of a running listener acts exactly when a reference is pending and has
      expired: it clears what is settled, leaves a failed restoration to an operator, and
      begins to roll back everything else. */
  lemma WatchdogActs(ops: Plans, first: Files, h0: Host, events: seq<Event>, name: string)
    requires Initial(ops, first, h0)
    requires var h := Run(ops, h0, events); h.pc.Idle? && name in h.listeners
    ensures var h := Run(ops, h0, events);
      var next := Do(ops, h, BeginTick(name));
      && next == h.(pc := next.pc)
      && (Pending(h, name) ==> h.guards[name].value.op < |h.status|)
      && (next.pc == Pc.Idle <==>
            || PendingAt(h, name).None?
            || (h.boot == h.guards[name].value.boot && h.now < h.guards[name].value.deadline)
            || h.status[h.guards[name].value.op] == RecoveryFailed)
      && (next.pc != Pc.Idle ==>
            var ref := h.guards[name].value;
            next.pc == if h.status[ref.op] in {Committed, Recovered} then AtBoot(name, TickClear(ref))
                       else AtRollback(ref.op, Watchdog, SaveRollingBack))
  {
    var h := Reachable(ops, first, h0, events);
    if Pending(h, name) { PendingIsOwn(ops, first, h, name); }
    StatusLength(ops, h.status, h.history);
    hide SshInv;
    hide Run;
  }

  /** Left undisturbed, the watchdog's rollback of an expired operation that is not settled
      ends recovered: the original file is back, the listener runs it, the guard is cleared,
      and nothing else has changed. */
  lemma WatchdogRestores(ops: Plans, first: Files, h0: Host, events: seq<Event>, name: string, rest: seq<Event>)
    requires Initial(ops, first, h0)
    requires var h := Run(ops, h0, events);
      && h.pc.Idle? && name in h.listeners && Pending(h, name) && Expired(h, h.guards[name].value)
      && h.guards[name].value.op < |h.status|
      && h.status[h.guards[name].value.op] !in {Committed, Recovered, RecoveryFailed}
    requires Smooth(rest) && Work(rest) >= 9
    ensures var h := Run(ops, h0, events);
      var o := h.guards[name].value.op;
      var t := Run(ops, h, [BeginTick(name)] + rest);
      && t.pc.Idle? && o < |ops| && |t.status| == |ops| && t.status[o] == Recovered
      && Has(t, name, ops[o].before, ops[o].before, None) && OnlyThat(h, t, o, name)
  {
    var h := Reachable(ops, first, h0, events);
    var o := h.guards[name].value.op;
    PendingIsOwn(ops, first, h, name);
    StatusLength(ops, h.status, h.history);
    hide SshInv;
    Undoes(ops, h, BeginTick(name), o, Watchdog, rest);
    hide Run;
  }

  /** The startup path: a start rolls back what is pending and neither settled nor failed. */
  lemma StartupRestores(ops: Plans, first: Files, h0: Host, events: seq<Event>, name: string, rest: seq<Event>)
    requires Initial(ops, first, h0)
    requires var h := Run(ops, h0, events);
      && h.pc.Idle? && name !in h.listeners && Pending(h, name) && h.guards[name].value.op < |h.status|
      && h.status[h.guards[name].value.op] !in {Committed, Recovered, RecoveryFailed}
    requires Smooth(rest) && Work(rest) >= 9
    ensures var h := Run(ops, h0, events);
      var o := h.guards[name].value.op;
      var t := Run(ops, h, [BeginBoot(name)] + rest);
      && t.pc.Idle? && o < |ops| && |t.status| == |ops| && t.status[o] == Recovered
      && Has(t, name, ops[o].before, ops[o].before, None) && OnlyThat(h, t, o, name) && LaunchedOnce(ops, h, t, o)
  {
    var h := Reachable(ops, first, h0, events);
    var ref := h.guards[name].value;
    PendingIsOwn(ops, first, h, name);
    StatusLength(ops, h.status, h.history);
    hide SshInv;
    Undoes(ops, h, BeginBoot(name), ref.op, Startup(ref), rest);
    hide Run;
  }

  /** The request `e` begins a rollback of `o`, which then goes through. */
  lemma Undoes(ops: Plans, h: Host, e: Event, o: nat, agent: Agent, rest: seq<Event>)
    requires o < |ops| == |h.status| && InEither(ops, h, o) && OwnRow(ops, h, o, agent) && Staffed(ops, h, o, agent)
    requires Do(ops, h, e) == h.(pc := AtRollback(o, agent, SaveRollingBack))
    requires Smooth(rest) && Work(rest) >= 9
    ensures var t := Run(ops, h, [e] + rest);
      t.pc.Idle? && |t.status| == |ops| && Restored(ops, h, t, o, agent) && OnlyThat(h, t, o, ops[o].name)
  {
    var next := Do(ops, h, e);
    RunFirst(ops, h, e, rest);
    hide Do;
    hide Run;
    UndoesFrom(ops, h, o, agent);
    RunStaysOnTrack(ops, h, next, Undoing(o, agent), rest);
    hide Restored;
    hide OnlyThat;
  }

  lemma UndoesFrom(ops: Plans, h: Host, o: nat, agent: Agent)
    requires o < |ops| == |h.status| && InEither(ops, h, o) && OwnRow(ops, h, o, agent) && Staffed(ops, h, o, agent)
    ensures OnTrack(ops, h, h.(pc := AtRollback(o, agent, SaveRollingBack)), Undoing(o, agent))
  {
    Unchanged(h, o, ops[o].name);
    PcIsLocal(h, h, o, ops[o].name, AtRollback(o, agent, SaveRollingBack));
    hide OnlyThat;
  }

  /** A settled operation that has expired only loses its guard. */
  lemma WatchdogClears(ops: Plans, first: Files, h0: Host, events: seq<Event>, name: string)
    requires Initial(ops, first, h0)
    requires var h := Run(ops, h0, events);
      && h.pc.Idle? && name in h.listeners && Pending(h, name) && Expired(h, h.guards[name].value)
      && h.guards[name].value.op < |h.status| && h.status[h.guards[name].value.op] in {Committed, Recovered}
    ensures var h := Run(ops, h0, events);
      Do(ops, Do(ops, h, BeginTick(name)), Step(Good)) == h.(guards := h.guards[name := None])
  {
    var h := Reachable(ops, first, h0, events);
    var ref := h.guards[name].value;
    PendingIsOwn(ops, first, h, name);
    hide SshInv;
    hide Run;
    hide Do;
    hide Initial;
    TickClears(ops, h, name, ref);
  }

  lemma TickClears(ops: Plans, h: Host, name: string, ref: Ref)
    requires ref.op < |ops| == |h.status| && ops[ref.op].name == name && Settles(h.status[ref.op])
    requires h.pc.Idle? && name in h.listeners && name in h.guards && h.guards[name] == Some(ref) && Expired(h, ref)
    ensures Do(ops, Do(ops, h, BeginTick(name)), Step(Good)) == h.(guards := h.guards[name := None])
  {
    var next := Do(ops, h, BeginTick(name));
    assert next == h.(pc := AtBoot(name, TickClear(ref)));
    hide BeginOf;
    hide Save;
  }

  /** A start that has nothing to restore, or only a settled guard to clear, serves the file
      that is there. */
  lemma StartupServes(ops: Plans, first: Files, h0: Host, events: seq<Event>, name: string, rest: seq<Event>)
    requires Initial(ops, first, h0) && name in first
    requires var h := Run(ops, h0, events);
      && h.pc.Idle? && name !in h.listeners
      && (Pending(h, name) ==> h.guards[name].value.op < |h.status| && h.status[h.guards[name].value.op] in {Committed, Recovered})
    requires Smooth(rest) && Work(rest) >= 6
    ensures var h := Run(ops, h0, events);
      var t := Run(ops, h, [BeginBoot(name)] + rest);
      && t.pc.Idle? && t.status == h.status && OnlyThat(h, t, |ops|, name)
      && name in h.files && Has(t, name, h.files[name], h.files[name], None)
  {
    var h := Reachable(ops, first, h0, events);
    if Pending(h, name) { PendingIsOwn(ops, first, h, name); }
    StatusLength(ops, h.status, h.history);
    FilesStay(ops, first, h);
    hide SshInv;
    hide Initial;
    hide Run;
    hide Do;
    ServesFrom(ops, h, name);
    var next := Do(ops, h, BeginBoot(name));
    var t := Run(ops, next, rest);
    RunStaysOnTrack(ops, h, next, Serving(name), rest);
    RunFirst(ops, h, BeginBoot(name), rest);
    hide OnlyThat;
  }

  lemma ServesFrom(ops: Plans, h: Host, name: string)
    requires |h.status| == |ops| && h.pc.Idle? && name !in h.listeners && name in h.files
    requires Pending(h, name) ==>
               && h.guards[name].value.op < |ops| && ops[h.guards[name].value.op].name == name
               && Settles(h.status[h.guards[name].value.op])
    ensures OnTrack(ops, h, Do(ops, h, BeginBoot(name)), Serving(name)) && Left(Do(ops, h, BeginBoot(name)).pc) <= 6
  {
    Unchanged(h, |ops|, name);
    var next := Do(ops, h, BeginBoot(name));
    assert next == h.(pc := next.pc);
    PcIsLocal(h, h, |ops|, name, next.pc);
    hide OnlyThat;
  }

  /** Control is no part of what changes. */
  lemma PcIsLocal(h0: Host, h: Host, o: nat, name: string, pc: Pc)
    ensures OnlyThat(h0, h.(pc := pc), o, name) == OnlyThat(h0, h, o, name)
  {
  }

  lemma FilesStay(ops: Plans, first: Files, h: Host)
    requires SshInv(ops, first, h)
    ensures h.files.Keys == first.Keys
  {
    hide GuardsSound;
    hide StatusSound;
    hide HistorySound;
    hide Control;
    hide Legit;
  }

  lemma RunFirst(ops: Plans, h: Host, e: Event, rest: seq<Event>)
    ensures Run(ops, h, [e] + rest) == Run(ops, Do(ops, h, e), rest)
  {
    hide Do;
    assert ([e] + rest)[1..] == rest;
  }

  /** The startup path acts exactly like this. */
  lemma StartupActs(ops: Plans, first: Files, h0: Host, events: seq<Event>, name: string)
    requires Initial(ops, first, h0)
    requires var h := Run(ops, h0, events); h.pc.Idle? && name !in h.listeners
    ensures var h := Run(ops, h0, events);
      var next := Do(ops, h, BeginBoot(name));
      && next == h.(pc := next.pc)
      && (Pending(h, name) ==> h.guards[name].value.op < |h.status|)
      && (next.pc == Pc.Idle <==> Pending(h, name) && h.status[h.guards[name].value.op] == RecoveryFailed)
      && (next.pc == AtBoot(name, Start(None)) <==> !Pending(h, name))
      && (next.pc != Pc.Idle && Pending(h, name) ==>
            var ref := h.guards[name].value;
            next.pc == if h.status[ref.op] in {Committed, Recovered} then AtBoot(name, ClearFirst(ref))
                       else AtRollback(ref.op, Startup(ref), SaveRollingBack))
  {
    var h := Reachable(ops, first, h0, events);
    if Pending(h, name) { PendingIsOwn(ops, first, h, name); }
    StatusLength(ops, h.status, h.history);
    hide SshInv;
    hide Run;
  }

  /** An operator's rollback of anything that has begun, unless another operation is pending:
      with a listener to reload it recovers, and without one it puts the file back and leaves
      the rest to the next start. */
  lemma OperatorRestores(ops: Plans, h: Host, o: nat, rest: seq<Event>)
    requires o < |ops| == |h.status| && h.pc.Idle? && h.status[o] !in {SshStatus.Ready, Recovered}
    requires InEither(ops, h, o) && OwnRow(ops, h, o, Operator(ops[o].name in h.listeners))
    requires Smooth(rest) && Work(rest) >= 9
    ensures var t := Run(ops, h, [BeginRecover(o)] + rest);
      && t.pc.Idle? && |t.status| == |ops| && Restored(ops, h, t, o, Operator(ops[o].name in h.listeners))
      && OnlyThat(h, t, o, ops[o].name)
  {
    Undoes(ops, h, BeginRecover(o), o, Operator(ops[o].name in h.listeners), rest);
    hide Run;
    hide Restored;
  }

  /** A file that is neither the original nor the output is left as it is, and the rollback
      ends as failed. */
  lemma ConflictIsLeft(ops: Plans, h: Host, o: nat, agent: Agent, rest: seq<Event>)
    requires o < |ops| == |h.status| && h.pc == AtRollback(o, agent, Restore) && !InEither(ops, h, o)
    requires Smooth(rest) && Work(rest) >= 1
    ensures var t := Run(ops, h, [Step(Good)] + rest);
      t.pc.Idle? && |t.status| == |ops| && t.status[o] == RecoveryFailed && OnlyThat(h, t, o, ops[o].name)
      && FileOf(t, ops[o].name) == FileOf(h, ops[o].name) && PendingAt(t, ops[o].name) == PendingAt(h, ops[o].name)
  {
    var next := Do(ops, h, Step(Good));
    assert OnlyThat(h, next, o, ops[o].name);
    assert OnTrack(ops, h, next, Stopping(o, RecoveryFailed));
    RunStaysOnTrack(ops, h, next, Stopping(o, RecoveryFailed), rest);
    RunFirst(ops, h, Step(Good), rest);
    hide Do;
    hide OnlyThat;
    hide Run;
  }

  // ------------------------------------------------------------- commit and confirm

  /** When an application may begin. */
  predicate MayApply(ops: Plans, h: Host, o: nat) {
    && o < |ops| == |h.status| && h.pc.Idle? && h.status[o] == SshStatus.Ready && !AnyPending(h)
    && ops[o].name in h.guards && ops[o].name in h.listeners && FileOf(h, ops[o].name) == Some(ops[o].before)
  }

  function RefOf(ops: Plans, h: Host, o: nat): Ref
    requires o < |ops|
  {
    Ref(o, h.boot, h.now + ops[o].window)
  }

  /** Applied and awaiting confirmation under the guard `ref`. */
  predicate Awaits(ops: Plans, h: Host, o: nat, ref: Ref) {
    && o < |ops| == |h.status| && h.pc.Idle? && h.status[o] == AwaitingConfirmation
    && Has(h, ops[o].name, ops[o].after, ops[o].after, Some(ref)) && o in h.reloaded && h.reloaded[o] == h.boot
  }

  /** An undisturbed application leaves the new configuration running, awaiting confirmation,
      under a guard that expires one window after the request. */
  lemma ApplyAwaits(ops: Plans, h: Host, o: nat, rest: seq<Event>)
    requires MayApply(ops, h, o) && Smooth(rest) && Work(rest) >= 11
    ensures var t := Run(ops, h, [BeginApply(o)] + rest);
      Awaits(ops, t, o, RefOf(ops, h, o)) && OnlyThat(h, t, o, ops[o].name)
  {
    var next := Do(ops, h, BeginApply(o));
    assert !Pending(h, ops[o].name);
    assert OnlyThat(h, next, o, ops[o].name);
    assert OnTrack(ops, h, next, Trial(o, RefOf(ops, h, o)));
    RunStaysOnTrack(ops, h, next, Trial(o, RefOf(ops, h, o)), rest);
    RunFirst(ops, h, BeginApply(o), rest);
    hide Do;
    hide OnlyThat;
    hide Run;
  }

  /** In every other state the request is refused and changes nothing. */
  lemma ApplyRefused(ops: Plans, h: Host, o: nat)
    requires |h.status| == |ops| && h.pc.Idle? && !MayApply(ops, h, o)
    ensures Do(ops, h, BeginApply(o)) == h
  {
  }

  /** A confirmation whose last clock sample is before the deadline commits, and clears the
      guard; the new configuration stays. */
  lemma ConfirmCommits(ops: Plans, h: Host, o: nat, ref: Ref, rest: seq<Event>)
    requires Awaits(ops, h, o, ref) && ref.op == o && ref.boot == h.boot && h.now + Waited(rest) < ref.deadline
    requires Smooth(rest) && Work(rest) >= 4
    ensures var t := Run(ops, h, [BeginConfirm(o)] + rest);
      && t.pc.Idle? && |t.status| == |ops| && t.status[o] == Committed && o in t.history.confirmed
      && FileOf(t, ops[o].name) == Some(ops[o].after) && Listening(t, ops[o].name).Some?
      && ops[o].name in t.guards && t.guards[ops[o].name] == None && OnlyThat(h, t, o, ops[o].name)
  {
    var next := Do(ops, h, BeginConfirm(o));
    assert OnlyThat(h, next, o, ops[o].name);
    assert OnTrack(ops, h, next, Deciding(o, ref));
    RunStaysOnTrack(ops, h, next, Deciding(o, ref), rest);
    RunFirst(ops, h, BeginConfirm(o), rest);
    hide Do;
    hide OnlyThat;
    hide Run;
  }

  /** What decides is the clock after the proof: with a pause of any length between the proof
      and the last sample, the confirmation commits if and only if the deadline has not been
      reached by then in the boot that armed the operation; otherwise it changes nothing. */
  lemma ConfirmDecides(ops: Plans, h: Host, o: nat, ref: Ref, pause: nat)
    requires Awaits(ops, h, o, ref) && ref.op == o
    ensures var h1 := Do(ops, Do(ops, Do(ops, h, BeginConfirm(o)), Step(Good)), Pass(pause));
      var t := Do(ops, Do(ops, Do(ops, h1, Step(Good)), Step(Good)), Step(Good));
      if h.boot == ref.boot && h.now + pause < ref.deadline then
        t.pc.Idle? && t.status == h.status[o := Committed] && t.guards == h.guards[ops[o].name := None] && t.files == h.files
      else t == h.(now := h.now + pause)
  {
    hide Save;
    hide Clear;
    var h1 := Do(ops, Do(ops, Do(ops, h, BeginConfirm(o)), Step(Good)), Pass(pause));
    if h.boot == ref.boot && h.now + pause < ref.deadline {
      assert h1 == h.(now := h.now + pause, pc := AtConfirm(o, ref, Resample));
      var h2 := Do(ops, h1, Step(Good));
      assert h2 == h1.(pc := AtConfirm(o, ref, SaveCommitted(h1.now)));
      CommitsAndClears(ops, h2, o, ref, h1.now);
    } else if h.boot != ref.boot || h.now >= ref.deadline {
      assert h1 == h.(now := h.now + pause);
    } else {
      assert h1 == h.(now := h.now + pause, pc := AtConfirm(o, ref, Resample));
    }
  }

  lemma CommitsAndClears(ops: Plans, h: Host, o: nat, ref: Ref, sampled: int)
    requires o < |ops| == |h.status| && h.pc == AtConfirm(o, ref, SaveCommitted(sampled))
    requires ops[o].name in h.guards && h.guards[ops[o].name] == Some(ref)
    ensures var t := Do(ops, Do(ops, h, Step(Good)), Step(Good));
      t.pc.Idle? && t.status == h.status[o := Committed] && t.guards == h.guards[ops[o].name := None] && t.files == h.files
  {
  }

  lemma {:induction false} TimePasses(ops: Plans, h: Host, events: seq<Event>)
    requires Smooth(events) && |h.status| == |ops|
    ensures |Run(ops, h, events).status| == |ops| && Run(ops, h, events).now == h.now + Waited(events)
    decreases |events|
  {
    hide StepOf;
    if events != [] {
      assert Undisturbing(events[0]);
      TimeOf(ops, h, events[0]);
      hide Do;
      TimePasses(ops, Do(ops, h, events[0]), events[1..]);
    }
  }

  lemma TimeOf(ops: Plans, h: Host, e: Event)
    requires |h.status| == |ops| && Undisturbing(e)
    ensures |Do(ops, h, e).status| == |ops|
    ensures Do(ops, h, e).now == h.now + match e case Pass(ticks) => ticks case _ => 0
  {
    StepTakes(ops, h, Good);
    hide StepOf;
  }

  /** Commit-confirm as a whole. An application that is confirmed within its window ends
      committed with the new configuration; one that is not, once the window has passed and
      the watchdog wakes, ends recovered with the original running. In both cases the guard
      is cleared and nothing else has changed. */
  lemma CommitConfirm(ops: Plans, h: Host, o: nat, apply: seq<Event>, idle: nat, rest: seq<Event>)
    requires MayApply(ops, h, o) && Smooth(apply) && Work(apply) >= 11 && Smooth(rest) && Work(rest) >= 9
    ensures var h1 := Do(ops, Run(ops, h, [BeginApply(o)] + apply), Pass(idle));
      && (Waited(apply) + idle + Waited(rest) < ops[o].window ==>
            var t := Run(ops, h1, [BeginConfirm(o)] + rest);
            && t.pc.Idle? && |t.status| == |ops| && t.status[o] == Committed && FileOf(t, ops[o].name) == Some(ops[o].after)
            && PendingAt(t, ops[o].name) == None && OnlyThat(h, t, o, ops[o].name))
      && (Waited(apply) + idle >= ops[o].window ==>
            var t := Run(ops, h1, [BeginTick(ops[o].name)] + rest);
            && t.pc.Idle? && |t.status| == |ops| && t.status[o] == Recovered
            && Has(t, ops[o].name, ops[o].before, ops[o].before, None) && OnlyThat(h, t, o, ops[o].name))
  {
    var name, ref, applied := ops[o].name, RefOf(ops, h, o), Run(ops, h, [BeginApply(o)] + apply);
    var h1 := Do(ops, applied, Pass(idle));
    ApplyAwaits(ops, h, o, apply);
    RunFirst(ops, h, BeginApply(o), apply);
    BeginTakesNoTime(ops, h, o);
    TimePasses(ops, Do(ops, h, BeginApply(o)), apply);
    hide Run;
    hide StepOf;
    hide BeginOf;
    hide Smooth;
    LooksLocal(ops, h, applied, h1, o, name);
    assert Awaits(ops, h1, o, ref) && h1.now == h.now + Waited(apply) + idle && h1.boot == h.boot;
    hide Do;
    if Waited(apply) + idle + Waited(rest) < ops[o].window {
      ConfirmCommits(ops, h1, o, ref, rest);
      OnlyThatTwice(h, h1, Run(ops, h1, [BeginConfirm(o)] + rest), o, name);
    }
    if Waited(apply) + idle >= ops[o].window {
      TickBegins(ops, h1, o, ref);
      Undoes(ops, h1, BeginTick(name), o, Watchdog, rest);
      OnlyThatTwice(h, h1, Run(ops, h1, [BeginTick(name)] + rest), o, name);
    }
  }

  lemma BeginTakesNoTime(ops: Plans, h: Host, o: nat)
    requires MayApply(ops, h, o)
    ensures |Do(ops, h, BeginApply(o)).status| == |ops| && Do(ops, h, BeginApply(o)).now == h.now
  {
  }

  lemma TickBegins(ops: Plans, h: Host, o: nat, ref: Ref)
    requires Awaits(ops, h, o, ref) && ref.op == o && Expired(h, ref)
    ensures Do(ops, h, BeginTick(ops[o].name)) == h.(pc := AtRollback(o, Watchdog, SaveRollingBack))
    ensures InEither(ops, h, o) && OwnRow(ops, h, o, Watchdog) && Staffed(ops, h, o, Watchdog)
  {
  }

  // ------------------------------------------------------------- failures

  /** The status that an application ends in when one primitive fails, by where it stood. */
  function AfterBrokenTrial(at: ApplyPoint, f: Fate): SshStatus {
    match at
    case Arm(_) => SshStatus.Ready
    case SaveArmed => if f == Late then Armed else Unknown
    case SaveApplying => if f == Late then Applying else Unknown
    case SaveAwaiting => if f == Late then AwaitingConfirmation else Unknown
    case _ => Unknown
  }

  /** After the primitive that fails, at most the outcome is recorded. */
  lemma BreaksOff(ops: Plans, h0: Host, h: Host, o: nat, f: Fate, to: SshStatus, rest: seq<Event>)
    requires o < |ops| == |h.status| && OnlyThat(h0, h, o, ops[o].name) && About(ops, h.pc, o, ops[o].name)
    requires |StepOf(ops, h, f).status| == |ops| && Stops(ops, StepOf(ops, h, f), StepOf(ops, h, f), o, to)
    requires Smooth(rest) && Work(rest) >= 1
    ensures var next, t := StepOf(ops, h, f), Run(ops, h, [Step(f)] + rest);
      && t.pc.Idle? && |t.status| == |ops| && t.status[o] == to && OnlyThat(h0, t, o, ops[o].name)
      && FileOf(t, ops[o].name) == FileOf(next, ops[o].name) && Listening(t, ops[o].name) == Listening(next, ops[o].name)
      && PendingAt(t, ops[o].name) == PendingAt(next, ops[o].name)
  {
    var next := StepOf(ops, h, f);
    var t := Run(ops, next, rest);
    StepIsLocal(ops, h, f, o, ops[o].name);
    Unchanged(next, o, ops[o].name);
    RunFirst(ops, h, Step(f), rest);
    hide StepOf;
    assert Do(ops, h, Step(f)) == next;
    hide Do;
    assert OnTrack(ops, next, next, Stopping(o, to)) by { hide OnlyThat; }
    assert Left(next.pc) <= 1;
    RunStaysOnTrack(ops, next, next, Stopping(o, to), rest);
    hide Run;
    OnTrackIsAbout(ops, next, t, Stopping(o, to));
    OnlyThatTwice(h0, h, next, o, ops[o].name);
    OnlyThatTwice(h0, next, t, o, ops[o].name);
    hide OnlyThat;
  }

  lemma ArmingBreaks(ops: Plans, h: Host, o: nat, ref: Ref, first: string, f: Fate)
    requires o < |ops| == |h.status| && Trying(ops, h, o, ref, first) && h.pc.AtApply? && f != Good
    requires Left(h.pc) > 6
    ensures var next := StepOf(ops, h, f);
      && |next.status| == |ops| && Stops(ops, next, next, o, AfterBrokenTrial(h.pc.apply, f)) && InEither(ops, next, o)
      && PendingAt(next, ops[o].name) == (if h.pc.apply.Arm? && f == Bad then None else Some(ref))
  {
  }

  lemma ReloadingBreaks(ops: Plans, h: Host, o: nat, ref: Ref, first: string, f: Fate)
    requires o < |ops| == |h.status| && Trying(ops, h, o, ref, first) && h.pc.AtApply? && f != Good
    requires !(Left(h.pc) > 6)
    ensures var next := StepOf(ops, h, f);
      && |next.status| == |ops| && Stops(ops, next, next, o, AfterBrokenTrial(h.pc.apply, f)) && InEither(ops, next, o)
      && PendingAt(next, ops[o].name) == (if h.pc.apply.Arm? && f == Bad then None else Some(ref))
  {
  }

  lemma TrialBreaks(ops: Plans, h: Host, o: nat, ref: Ref, first: string, f: Fate)
    requires o < |ops| == |h.status| && Trying(ops, h, o, ref, first) && h.pc.AtApply? && f != Good
    ensures var next := StepOf(ops, h, f);
      && |next.status| == |ops| && Stops(ops, next, next, o, AfterBrokenTrial(h.pc.apply, f)) && InEither(ops, next, o)
      && PendingAt(next, ops[o].name) == (if h.pc.apply.Arm? && f == Bad then None else Some(ref))
  {
    if Left(h.pc) > 6 { ArmingBreaks(ops, h, o, ref, first, f); } else { ReloadingBreaks(ops, h, o, ref, first, f); }
  }

  /** An application in which one primitive fails: it reports no success, and from its arming
      on the guard holds the reference, so that the watchdog will act on it. */
  lemma TrialFails(ops: Plans, h0: Host, h: Host, o: nat, ref: Ref, f: Fate, rest: seq<Event>)
    requires OnTrack(ops, h0, h, Trial(o, ref)) && h.pc.AtApply? && f != Good
    requires Smooth(rest) && Work(rest) >= 1
    ensures var t := Run(ops, h, [Step(f)] + rest);
      && t.pc.Idle? && |t.status| == |ops| && t.status[o] == AfterBrokenTrial(h.pc.apply, f)
      && PendingAt(t, ops[o].name) == (if h.pc.apply.Arm? && f == Bad then None else Some(ref))
      && InEither(ops, t, o) && OnlyThat(h0, t, o, ops[o].name)
  {
    OnTrackIsAbout(ops, h0, h, Trial(o, ref));
    TrialBreaks(ops, h, o, ref, Listening(h0, ops[o].name).value, f);
    hide StepOf;
    hide OnTrack;
    hide OnlyThat;
    hide Run;
    BreaksOff(ops, h0, h, o, f, AfterBrokenTrial(h.pc.apply, f), rest);
  }

  /** The status that a rollback ends in when one primitive fails, by where it stood and what
      was recorded before. */
  function AfterBrokenRollback(at: Pc, f: Fate, was: SshStatus): SshStatus {
    match at
    case AtRollback(_, _, point) =>
      (match point
       case SaveRollingBack => if f == Late then RollingBack else was
       case SaveRecovered => if f == Late then Recovered else was
       case ClearSettled => was
       case _ => RecoveryFailed)
    case AtBoot(_, point) => if point.SaveStarted? && f == Late then Recovered else was
    case _ => was
  }

  lemma FileBreaks(ops: Plans, h0: Host, h: Host, o: nat, agent: Agent, f: Fate)
    requires o < |ops| == |h.status| && GoingBack(ops, h0, h, o, agent) && h.pc.AtRollback? && f != Good
    requires h.pc.rollback in {SaveRollingBack, VerifyInputs, Restore, CheckBefore}
    ensures var next := StepOf(ops, h, f);
      && |next.status| == |ops| && Stops(ops, next, next, o, AfterBrokenRollback(h.pc, f, h.status[o])) && InEither(ops, next, o)
      && PendingAt(next, ops[o].name) == PendingAt(h, ops[o].name)
  {
  }

  lemma ListenerBreaks(ops: Plans, h0: Host, h: Host, o: nat, agent: Agent, f: Fate)
    requires o < |ops| == |h.status| && GoingBack(ops, h0, h, o, agent) && h.pc.AtRollback? && f != Good
    requires h.pc.rollback !in {SaveRollingBack, VerifyInputs, Restore, CheckBefore}
    ensures var next := StepOf(ops, h, f);
      && |next.status| == |ops| && Stops(ops, next, next, o, AfterBrokenRollback(h.pc, f, h.status[o])) && InEither(ops, next, o)
      && (!(h.pc.rollback.ClearSettled? && f == Late) ==> PendingAt(next, ops[o].name) == PendingAt(h, ops[o].name))
  {
  }

  lemma LaunchBreaks(ops: Plans, h0: Host, h: Host, o: nat, agent: Agent, f: Fate)
    requires o < |ops| == |h.status| && GoingBack(ops, h0, h, o, agent) && h.pc.AtBoot? && f != Good
    requires Left(h.pc) > 3
    ensures var next := StepOf(ops, h, f);
      && |next.status| == |ops| && Stops(ops, next, next, o, AfterBrokenRollback(h.pc, f, h.status[o])) && InEither(ops, next, o)
      && (!h.pc.start.Start? ==> Listening(next, ops[o].name).None?)
      && (!((h.pc.start.ClearStarted? && f == Late) || h.pc.start.Heartbeat?) ==>
            PendingAt(next, ops[o].name) == PendingAt(h, ops[o].name))
  {
  }

  lemma SettlingBreaks(ops: Plans, h0: Host, h: Host, o: nat, agent: Agent, f: Fate)
    requires o < |ops| == |h.status| && GoingBack(ops, h0, h, o, agent) && h.pc.AtBoot? && f != Good
    requires !(Left(h.pc) > 3)
    ensures var next := StepOf(ops, h, f);
      && |next.status| == |ops| && Stops(ops, next, next, o, AfterBrokenRollback(h.pc, f, h.status[o])) && InEither(ops, next, o)
      && (!h.pc.start.Start? ==> Listening(next, ops[o].name).None?)
      && (!((h.pc.start.ClearStarted? && f == Late) || h.pc.start.Heartbeat?) ==>
            PendingAt(next, ops[o].name) == PendingAt(h, ops[o].name))
  {
  }

  lemma RestartBreaks(ops: Plans, h0: Host, h: Host, o: nat, agent: Agent, f: Fate)
    requires o < |ops| == |h.status| && GoingBack(ops, h0, h, o, agent) && h.pc.AtBoot? && f != Good
    ensures var next := StepOf(ops, h, f);
      && |next.status| == |ops| && Stops(ops, next, next, o, AfterBrokenRollback(h.pc, f, h.status[o])) && InEither(ops, next, o)
      && (!h.pc.start.Start? ==> Listening(next, ops[o].name).None?)
      && (!((h.pc.start.ClearStarted? && f == Late) || h.pc.start.Heartbeat?) ==>
            PendingAt(next, ops[o].name) == PendingAt(h, ops[o].name))
  {
    if Left(h.pc) > 3 { LaunchBreaks(ops, h0, h, o, agent, f); } else { SettlingBreaks(ops, h0, h, o, agent, f); }
  }

  /** A rollback in which one primitive fails ends as recovered only when that had been
      recorded, and keeps its guard unless it has recovered, so that it is taken up again by
      the watchdog or the next start, or, if the restoration itself failed, by an operator. A
      start that fails takes its listener down. */
  lemma RollbackFails(ops: Plans, h0: Host, h: Host, o: nat, agent: Agent, f: Fate, rest: seq<Event>)
    requires OnTrack(ops, h0, h, Undoing(o, agent)) && !h.pc.Idle? && f != Good
    requires Smooth(rest) && Work(rest) >= 1
    ensures var t := Run(ops, h, [Step(f)] + rest);
      && t.pc.Idle? && |t.status| == |ops| && t.status[o] == AfterBrokenRollback(h.pc, f, h.status[o])
      && (t.status[o] != Recovered ==> PendingAt(t, ops[o].name) == PendingAt(h, ops[o].name))
      && (h.pc.AtBoot? && !h.pc.start.Start? ==> Listening(t, ops[o].name).None?)
      && InEither(ops, t, o) && OnlyThat(h0, t, o, ops[o].name)
  {
    OnTrackIsAbout(ops, h0, h, Undoing(o, agent));
    GoingBackWhere(ops, h0, h, o, agent);
    var to := AfterBrokenRollback(h.pc, f, h.status[o]);
    ClearsWhenRecovered(ops, h0, h, o, agent);
    if h.pc.AtBoot? { RestartBreaks(ops, h0, h, o, agent, f); }
    else if h.pc.rollback in {SaveRollingBack, VerifyInputs, Restore, CheckBefore} { FileBreaks(ops, h0, h, o, agent, f); }
    else { ListenerBreaks(ops, h0, h, o, agent, f); }
    hide StepOf;
    hide OnTrack;
    hide OnlyThat;
    hide GoingBack;
    hide Run;
    BreaksOff(ops, h0, h, o, f, to, rest);
  }

  lemma ClearsWhenRecovered(ops: Plans, h0: Host, h: Host, o: nat, agent: Agent)
    requires o < |ops| == |h.status| && GoingBack(ops, h0, h, o, agent)
    ensures h.pc.AtRollback? && h.pc.rollback.ClearSettled? ==> h.status[o] == Recovered
    ensures h.pc.AtBoot? && (h.pc.start.ClearStarted? || h.pc.start.Heartbeat?) ==> h.status[o] == Recovered
  {
  }
}
