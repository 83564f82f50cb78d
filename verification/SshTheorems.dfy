/** What commit-confirm promises over every run of operators, watchdog, crashes and reboots. */
module SshTheorems {
  import opened Ssh
  import opened SshSafety
  import opened Wrappers

  lemma Reachable(ops: Plans, first: Files, h: Host, events: seq<Event>) returns (t: Host)
    requires Initial(ops, first, h)
    ensures t == Run(ops, h, events) && SshInv(ops, first, t)
  {
    InitialIsSound(ops, first, h);
    hide SshInv;
    RunKeeps(ops, first, h, events);
    t := Run(ops, h, events);
  }

  /** A rollback cannot be forgotten: from arming until an operation's first durable commit or
      recovery, its guard row holds exactly the reference it was armed with. */
  lemma PendingIsKept(ops: Plans, first: Files, h0: Host, events: seq<Event>, o: nat)
    requires Initial(ops, first, h0)
    ensures var h := Run(ops, h0, events);
      o in h.history.armed && o !in h.history.settled ==>
        o < |ops| && ops[o].name in h.guards && h.guards[ops[o].name] == Some(h.history.armed[o])
  {
    var h := Reachable(ops, first, h0, events);
  }

  /** At most one operation of the whole target is pending. */
  lemma OneArmed(ops: Plans, first: Files, h0: Host, events: seq<Event>, m: string, n: string)
    requires Initial(ops, first, h0)
    ensures var h := Run(ops, h0, events); Pending(h, m) && Pending(h, n) ==> m == n
  {
    var h := Reachable(ops, first, h0, events);
    assert Pending(h, m) == Waits(h.guards, m) && Pending(h, n) == Waits(h.guards, n);
  }

  /** Every start of a listener reads the original configuration, or one that had been
      confirmed by then. */
  lemma LaunchesAreLegit(ops: Plans, first: Files, h0: Host, events: seq<Event>, k: nat)
    requires Initial(ops, first, h0) && k < |Run(ops, h0, events).history.launches|
    ensures var launch := Run(ops, h0, events).history.launches[k];
      Legit(ops, first, launch.confirmed, launch.name, launch.content)
  {
    var h := Reachable(ops, first, h0, events);
  }

  /** Confirmation commits only an operation that awaits it, in the boot that armed it, with
      its last clock sample before the deadline. */
  lemma ConfirmedInTime(ops: Plans, first: Files, h0: Host, events: seq<Event>, o: nat)
    requires Initial(ops, first, h0) && o in Run(ops, h0, events).history.confirmed
    ensures var h := Run(ops, h0, events);
      && o in h.history.armed && h.history.confirmed[o].from == AwaitingConfirmation
      && h.history.confirmed[o].boot == h.history.armed[o].boot
      && h.history.confirmed[o].at < h.history.armed[o].deadline
  {
    var h := Reachable(ops, first, h0, events);
  }

  /** Confirmation and automatic rollback exclude each other, unless an operator began to
      recover the operation after it had been confirmed. */
  lemma DecisionsExclude(ops: Plans, first: Files, h0: Host, events: seq<Event>, o: nat)
    requires Initial(ops, first, h0)
    ensures var y := Run(ops, h0, events).history;
      o in y.confirmed && o in y.automatic ==> o in y.operated
  {
    var h := Reachable(ops, first, h0, events);
    assert o in h.history.automatic ==> o < |ops|;
    if o < |ops| { assert StatusOk(h.history, o, h.status[o]); }
  }

  // ------------------------------------------------------------- the exact condition

  predicate ByOperator(e: Event, o: nat) {
    e == BeginRecover(o)
  }

  predicate Unattended(events: seq<Event>, o: nat) {
    forall k | 0 <= k < |events| :: !ByOperator(events[k], o)
  }

  /** The lock holder will not save or roll back `o`. */
  predicate Elsewhere(pc: Pc, o: nat) {
    match pc
    case Idle => true
    case AtApply(p, _) => p != o
    case AtConfirm(p, _, at) => p != o || at.ClearGuard?
    case AtRollback(p, _, at) => p != o || at.ClearSettled?
    case AtBoot(_, at) =>
      && (at.SaveStarted? ==> at.ref.op != o)
      && (at.Start? && at.restoring.Some? ==> at.restoring.value.op != o)
      && (at.Probe? && at.restoring.Some? ==> at.restoring.value.op != o)
  }

  /** Nothing but an operator can start to roll `o` back. */
  predicate Quiet(ops: Plans, h: Host, o: nat) {
    o < |ops| == |h.status| && h.status[o] in {Committed, Recovered, RecoveryFailed} && Elsewhere(h.pc, o)
  }

  /** `t` has begun no automatic rollback of `o` since `h`. */
  predicate NoRollbackSince(h: Host, t: Host, o: nat) {
    && h.history.automatic <= t.history.automatic
    && forall k | |h.history.automatic| <= k < |t.history.automatic| :: t.history.automatic[k] != o
  }

  /** `t` leaves the status of `o` alone and rolls something else back, if anything. */
  predicate Undisturbed(h: Host, t: Host, o: nat) {
    o < |h.status| == |t.status| && t.status[o] == h.status[o] && NoRollbackSince(h, t, o)
  }

  lemma ApplyUndisturbed(ops: Plans, h: Host, p: nat, at: ApplyPoint, f: Fate, o: nat)
    requires p < |ops| == |h.status| && p != o && o < |ops|
    ensures var t := ApplyStep(ops, h, p, at, f); Undisturbed(h, t, o) && Elsewhere(t.pc, o)
  {
  }

  lemma ConfirmUndisturbed(ops: Plans, h: Host, p: nat, ref: Ref, at: ConfirmPoint, f: Fate, o: nat)
    requires p < |ops| == |h.status| && (p != o || at.ClearGuard?) && o < |ops|
    ensures var t := ConfirmStep(ops, h, p, ref, at, f); Undisturbed(h, t, o) && Elsewhere(t.pc, o)
  {
  }

  lemma SaveUndisturbed(h: Host, f: Fate, p: nat, st: SshStatus, ok: Pc, err: Pc, o: nat)
    requires p != o && o < |h.status|
    ensures Undisturbed(h, Save(h, f, p, st, ok, err), o)
  {
  }

  lemma BeganUndisturbed(h: Host, f: Fate, p: nat, agent: Agent, ok: Pc, err: Pc, o: nat)
    requires p != o && o < |h.status|
    ensures Undisturbed(h, Save(h.(history := Began(h.history, p, agent)), f, p, RollingBack, ok, err), o)
  {
  }

  lemma RollbackSteady(ops: Plans, h: Host, p: nat, agent: Agent, at: RollbackPoint, f: Fate)
    requires p < |ops| == |h.status| && at !in {SaveRollingBack, SaveRecovered, SaveFailed}
    ensures var t := RollbackStep(ops, h, p, agent, at, f); t.status == h.status && t.history == h.history
  {
    if at.ClearSettled? && Pending(h, ops[p].name) { ClearSteady(h, f, ops[p].name, h.guards[ops[p].name].value, Idle, Idle); }
    hide Clear;
    hide Save;
    hide Began;
  }

  lemma SteadyIsUndisturbed(h: Host, t: Host, o: nat)
    requires o < |h.status| && t.status == h.status && t.history == h.history
    ensures Undisturbed(h, t, o)
  {
  }

  lemma SaveLeadsTo(h: Host, f: Fate, p: nat, st: SshStatus, ok: Pc, err: Pc)
    ensures Save(h, f, p, st, ok, err).pc == ok || Save(h, f, p, st, ok, err).pc == err
  {
  }

  lemma ClearLeadsTo(h: Host, f: Fate, name: string, expected: Ref, ok: Pc, err: Pc)
    ensures Clear(h, f, name, expected, ok, err).pc == ok || Clear(h, f, name, expected, ok, err).pc == err
  {
  }

  /** Where a rollback goes on: in itself, into the startup, or nowhere. */
  lemma RollbackLeadsTo(ops: Plans, h: Host, p: nat, agent: Agent, at: RollbackPoint, f: Fate)
    requires p < |ops| == |h.status|
    ensures var to := RollbackStep(ops, h, p, agent, at, f).pc;
      || to.Idle?
      || (to.AtRollback? && to.o == p && !at.ClearSettled?)
      || (to.AtBoot? && agent.Startup? && at.CheckBefore? && to.start == Start(Some(agent.ref)))
  {
    match at
    case SaveRollingBack =>
      SaveLeadsTo(h.(history := Began(h.history, p, agent)), f, p, RollingBack, AtRollback(p, agent, VerifyInputs), Idle);
      hide Save;
      hide Began;
    case SaveRecovered => SaveLeadsTo(h, f, p, Recovered, AtRollback(p, agent, ClearSettled), Idle); hide Save;
    case SaveFailed => SaveLeadsTo(h, f, p, RecoveryFailed, Idle, Idle); hide Save;
    case ClearSettled =>
      if Pending(h, ops[p].name) { ClearLeadsTo(h, f, ops[p].name, h.guards[ops[p].name].value, Idle, Idle); }
      hide Clear;
    case _ =>
      hide Save;
      hide Clear;
  }

  lemma RollbackElsewhere(ops: Plans, h: Host, p: nat, agent: Agent, at: RollbackPoint, f: Fate, o: nat)
    requires p < |ops| == |h.status| && (p != o || at.ClearSettled?)
    requires agent.Startup? ==> agent.ref.op == p
    ensures Elsewhere(RollbackStep(ops, h, p, agent, at, f).pc, o)
  {
    RollbackLeadsTo(ops, h, p, agent, at, f);
    hide RollbackStep;
  }

  lemma RollbackUndisturbed(ops: Plans, h: Host, p: nat, agent: Agent, at: RollbackPoint, f: Fate, o: nat)
    requires p < |ops| == |h.status| && (p != o || at.ClearSettled?) && o < |ops|
    requires agent.Startup? ==> agent.ref.op == p
    ensures var t := RollbackStep(ops, h, p, agent, at, f); Undisturbed(h, t, o) && Elsewhere(t.pc, o)
  {
    RollbackElsewhere(ops, h, p, agent, at, f, o);
    hide Elsewhere;
    hide Undisturbed;
    if at.SaveRollingBack? {
      NotDisturbed(h, o);
      BeganUndisturbed(h, f, p, agent, AtRollback(p, agent, VerifyInputs), Idle, o);
      hide Save;
      hide Began;
    } else if at.SaveRecovered? {
      SaveUndisturbed(h, f, p, Recovered, AtRollback(p, agent, ClearSettled), Idle, o);
      hide Save;
    } else if at.SaveFailed? {
      SaveUndisturbed(h, f, p, RecoveryFailed, Idle, Idle, o);
      hide Save;
    } else {
      RollbackSteady(ops, h, p, agent, at, f);
      hide RollbackStep;
      SteadyIsUndisturbed(h, RollbackStep(ops, h, p, agent, at, f), o);
    }
  }

  lemma BootElsewhere(ops: Plans, h: Host, name: string, at: BootPoint, f: Fate, o: nat)
    requires |ops| == |h.status| && Elsewhere(AtBoot(name, at), o)
    ensures Elsewhere(BootStep(ops, h, name, at, f).pc, o)
  {
    match at
    case TickClear(ref) => ClearLeadsTo(h, f, name, ref, Idle, Idle); hide Clear;
    case ClearFirst(ref) => ClearLeadsTo(h, f, name, ref, AtBoot(name, Start(None)), Idle); hide Clear;
    case ClearStarted(ref) => ClearLeadsTo(h, f, name, ref, AtBoot(name, Heartbeat), Idle); hide Clear;
    case SaveStarted(ref) => SaveLeadsTo(h, f, ref.op, Recovered, AtBoot(name, ClearStarted(ref)), Idle); hide Save;
    case _ =>
      hide Save;
      hide Clear;
  }

  lemma ClearSteady(h: Host, f: Fate, name: string, expected: Ref, ok: Pc, err: Pc)
    ensures var t := Clear(h, f, name, expected, ok, err); t.status == h.status && t.history == h.history
  {
  }

  lemma BootSteady(ops: Plans, h: Host, name: string, at: BootPoint, f: Fate)
    requires |ops| == |h.status| && !at.SaveStarted?
    ensures var t := BootStep(ops, h, name, at, f); t.status == h.status && t.history.automatic == h.history.automatic
  {
    match at
    case TickClear(ref) => ClearSteady(h, f, name, ref, Idle, Idle); hide Clear;
    case ClearFirst(ref) => ClearSteady(h, f, name, ref, AtBoot(name, Start(None)), Idle); hide Clear;
    case ClearStarted(ref) => ClearSteady(h, f, name, ref, AtBoot(name, Heartbeat), Idle); hide Clear;
    case _ =>
      hide Save;
      hide Clear;
  }

  lemma BootUndisturbed(ops: Plans, h: Host, name: string, at: BootPoint, f: Fate, o: nat)
    requires o < |ops| == |h.status| && Elsewhere(AtBoot(name, at), o)
    ensures var t := BootStep(ops, h, name, at, f); Undisturbed(h, t, o) && Elsewhere(t.pc, o)
  {
    BootElsewhere(ops, h, name, at, f, o);
    if at.SaveStarted? {
      SaveUndisturbed(h, f, at.ref.op, Recovered, AtBoot(name, ClearStarted(at.ref)), Idle, o);
      hide Save;
    } else {
      BootSteady(ops, h, name, at, f);
      hide BootStep;
    }
  }

  lemma StepStaysQuiet(ops: Plans, first: Files, h: Host, f: Fate, o: nat)
    requires SshInv(ops, first, h) && Quiet(ops, h, o)
    ensures var t := StepOf(ops, h, f); Undisturbed(h, t, o) && Elsewhere(t.pc, o)
  {
    hide Durable;
    hide Undisturbed;
    hide ApplyStep;
    hide ConfirmStep;
    hide RollbackStep;
    hide BootStep;
    match h.pc
    case Idle => NotDisturbed(h, o);
    case AtApply(p, at) =>
      if p < |ops| { ApplyUndisturbed(ops, h, p, at, f, o); }
      hide Control;
    case AtConfirm(p, ref, at) =>
      NotDisturbed(h, o);
      if p < |ops| { ConfirmUndisturbed(ops, h, p, ref, at, f, o); }
      hide Control;
    case AtRollback(p, agent, at) =>
      Facts(ops, first, h, p);
      RollbackUndisturbed(ops, h, p, agent, at, f, o);
    case AtBoot(name, at) =>
      BootUndisturbed(ops, h, name, at, f, o);
      hide Control;
  }

  lemma NotDisturbed(h: Host, o: nat)
    requires o < |h.status|
    ensures Undisturbed(h, h, o) && Undisturbed(h, To(h, Idle), o)
  {
  }

  lemma EventStaysQuiet(ops: Plans, h: Host, e: Event, o: nat)
    requires Quiet(ops, h, o) && !e.Step? && !ByOperator(e, o)
    ensures var t := Do(ops, h, e); Undisturbed(h, t, o) && Elsewhere(t.pc, o)
  {
    hide StepOf;
  }

  /** Without an operator, a settled or failed operation is left alone at every event. */
  lemma StaysQuiet(ops: Plans, first: Files, h: Host, e: Event, o: nat)
    requires SshInv(ops, first, h) && Quiet(ops, h, o) && !ByOperator(e, o)
    ensures Quiet(ops, Do(ops, h, e), o) && Undisturbed(h, Do(ops, h, e), o)
  {
    if e.Step? {
      StepStaysQuiet(ops, first, h, e.fate, o);
    } else {
      EventStaysQuiet(ops, h, e, o);
      hide Do;
    }
    hide SshInv;
    hide Elsewhere;
    hide StepOf;
  }

  lemma {:induction false} RunStaysQuiet(ops: Plans, first: Files, h: Host, events: seq<Event>, o: nat)
    requires SshInv(ops, first, h) && Quiet(ops, h, o) && Unattended(events, o)
    ensures var t := Run(ops, h, events);
      o < |h.status| == |t.status| && t.status[o] == h.status[o] && NoRollbackSince(h, t, o)
    decreases |events|
  {
    hide SshInv;
    hide Do;
    if events != [] {
      var next := Do(ops, h, events[0]);
      assert !ByOperator(events[0], o);
      DoKeeps(ops, first, h, events[0]);
      StaysQuiet(ops, first, h, events[0], o);
      RunStaysQuiet(ops, first, next, events[1..], o);
    }
  }

  /** A failed restoration is never retried: without an operator, its status stays and
      neither the watchdog nor a restart begins another rollback. */
  lemma FailureIsSticky(ops: Plans, first: Files, h0: Host, before: seq<Event>, after: seq<Event>, o: nat)
    requires Initial(ops, first, h0) && o < |ops|
    requires var h := Run(ops, h0, before); o < |h.status| && h.status[o] == RecoveryFailed && h.pc == Idle
    requires Unattended(after, o)
    ensures var h, t := Run(ops, h0, before), Run(ops, Run(ops, h0, before), after);
      o < |t.status| && t.status[o] == RecoveryFailed && NoRollbackSince(h, t, o)
  {
    var h := Reachable(ops, first, h0, before);
    assert |h.status| == |ops|;
    hide SshInv;
    RunStaysQuiet(ops, first, h, after, o);
  }

  /** Once the guard of `o` has been cleared it is never set again. */
  predicate Unguarded(ops: Plans, h: Host, o: nat) {
    o < |ops| == |h.status| && o in h.history.armed && h.history.armed[o].op == o && !Guarded(ops, h, o)
  }

  lemma StepStaysUnguarded(ops: Plans, h: Host, f: Fate, o: nat)
    requires Control(ops, h) && Unguarded(ops, h, o)
    ensures Unguarded(ops, StepOf(ops, h, f), o) && NoRollbackSince(h, StepOf(ops, h, f), o)
  {
    match h.pc
    case Idle =>
    case AtApply(p, at) => ApplyStaysUnguarded(ops, h, p, at, f, o);
    case AtConfirm(p, ref, at) => if p < |ops| { ConfirmStaysUnguarded(ops, h, p, ref, at, f, o); }
    case AtRollback(p, agent, at) => RollbackStaysUnguarded(ops, h, p, agent, at, f, o);
    case AtBoot(name, at) => BootStaysUnguarded(ops, h, name, at, f, o);
  }

  lemma ApplyStaysUnguarded(ops: Plans, h: Host, p: nat, at: ApplyPoint, f: Fate, o: nat)
    requires ApplyControl(ops, h, p, at) && Unguarded(ops, h, o)
    ensures var t := ApplyStep(ops, h, p, at, f); Unguarded(ops, t, o) && NoRollbackSince(h, t, o)
  {
  }

  lemma ConfirmStaysUnguarded(ops: Plans, h: Host, p: nat, ref: Ref, at: ConfirmPoint, f: Fate, o: nat)
    requires p < |ops| == |h.status| && Unguarded(ops, h, o)
    ensures var t := ConfirmStep(ops, h, p, ref, at, f); Unguarded(ops, t, o) && NoRollbackSince(h, t, o)
  {
  }

  lemma ClearStaysUnguarded(ops: Plans, h: Host, f: Fate, name: string, ref: Ref, ok: Pc, err: Pc, o: nat)
    requires Unguarded(ops, h, o)
    ensures var t := Clear(h, f, name, ref, ok, err); Unguarded(ops, t, o) && NoRollbackSince(h, t, o)
  {
  }

  lemma SaveStaysUnguarded(ops: Plans, h: Host, f: Fate, p: nat, st: SshStatus, ok: Pc, err: Pc, o: nat)
    requires Unguarded(ops, h, o)
    ensures var t := Save(h, f, p, st, ok, err); Unguarded(ops, t, o) && NoRollbackSince(h, t, o)
  {
    hide Watches;
  }

  lemma BeganStaysUnguarded(ops: Plans, h: Host, f: Fate, p: nat, agent: Agent, ok: Pc, err: Pc, o: nat)
    requires Unguarded(ops, h, o) && (agent.Operator? || p != o)
    ensures var t := Save(h.(history := Began(h.history, p, agent)), f, p, RollingBack, ok, err);
      Unguarded(ops, t, o) && NoRollbackSince(h, t, o)
  {
    hide Watches;
  }

  lemma RollbackStaysUnguarded(ops: Plans, h: Host, p: nat, agent: Agent, at: RollbackPoint, f: Fate, o: nat)
    requires RollbackControl(ops, h, p, agent, at) && Unguarded(ops, h, o)
    ensures var t := RollbackStep(ops, h, p, agent, at, f); Unguarded(ops, t, o) && NoRollbackSince(h, t, o)
  {
    match at
    case SaveRollingBack =>
      if !f.Bad? { BeganStaysUnguarded(ops, h, f, p, agent, AtRollback(p, agent, VerifyInputs), Idle, o); }
      hide Save;
      hide Began;
      hide Watches;
    case SaveRecovered => SaveStaysUnguarded(ops, h, f, p, Recovered, AtRollback(p, agent, ClearSettled), Idle, o); hide Save; hide Unguarded;
    case SaveFailed => SaveStaysUnguarded(ops, h, f, p, RecoveryFailed, Idle, Idle, o); hide Save; hide Unguarded;
    case ClearSettled =>
      if Pending(h, ops[p].name) { ClearStaysUnguarded(ops, h, f, ops[p].name, h.guards[ops[p].name].value, Idle, Idle, o); }
      hide Clear;
      hide Watches;
    case _ => hide Watches; hide Clear; hide Save;
  }

  lemma BootStaysUnguarded(ops: Plans, h: Host, name: string, at: BootPoint, f: Fate, o: nat)
    requires Unguarded(ops, h, o)
    ensures var t := BootStep(ops, h, name, at, f); Unguarded(ops, t, o) && NoRollbackSince(h, t, o)
  {
    match at
    case TickClear(ref) => ClearStaysUnguarded(ops, h, f, name, ref, Idle, Idle, o); hide Clear; hide Unguarded;
    case ClearFirst(ref) => ClearStaysUnguarded(ops, h, f, name, ref, AtBoot(name, Start(None)), Idle, o); hide Clear; hide Unguarded;
    case ClearStarted(ref) =>
      ClearStaysUnguarded(ops, h, f, name, ref, AtBoot(name, Heartbeat), Idle, o);
      hide Clear;
      hide Watches;
    case SaveStarted(ref) =>
      SaveStaysUnguarded(ops, h, f, ref.op, Recovered, AtBoot(name, ClearStarted(ref)), Idle, o);
      hide Save;
      hide Watches;
    case Heartbeat =>
      if name !in h.guards { NewRow(ops, h.guards, h.history.armed, name); }
      hide Watches;
    case _ => hide Watches; hide Clear; hide Save;
  }

  lemma BeginsUnguarded(ops: Plans, h: Host, e: Event, o: nat)
    requires !e.Step? && Unguarded(ops, h, o)
    ensures Unguarded(ops, Do(ops, h, e), o) && NoRollbackSince(h, Do(ops, h, e), o)
  {
    if e.Beat? && e.name !in h.guards { NewRow(ops, h.guards, h.history.armed, e.name); }
    hide BeginOf;
    hide Watches;
  }

  lemma StaysUnguarded(ops: Plans, first: Files, h: Host, e: Event, o: nat)
    requires SshInv(ops, first, h) && Unguarded(ops, h, o)
    ensures Unguarded(ops, Do(ops, h, e), o) && NoRollbackSince(h, Do(ops, h, e), o)
  {
    hide Durable;
    hide Control;
    hide Unguarded;
    if |h.status| == |ops| {
      hide StepOf;
      if e.Step? { StepStaysUnguarded(ops, h, e.fate, o); } else { BeginsUnguarded(ops, h, e, o); }
    }
  }

  lemma {:induction false} UnguardedStays(ops: Plans, first: Files, h: Host, events: seq<Event>, o: nat)
    requires SshInv(ops, first, h) && Unguarded(ops, h, o)
    ensures NoRollbackSince(h, Run(ops, h, events), o)
    decreases |events|
  {
    hide SshInv;
    hide Do;
    hide Unguarded;
    if events != [] {
      var next := Do(ops, h, events[0]);
      DoKeeps(ops, first, h, events[0]);
      StaysUnguarded(ops, first, h, events[0], o);
      UnguardedStays(ops, first, next, events[1..], o);
    }
  }

  /** The startup path rolls `o` back at once. */
  lemma RestartRollsBack(ops: Plans, h: Host, o: nat)
    requires o < |ops| == |h.status| && Pending(h, ops[o].name) && h.guards[ops[o].name].value.op == o
    requires h.status[o] !in {Committed, Recovered, RecoveryFailed} && h.pc.Idle?
    ensures var y := Run(ops, h, [Reboot(0), BeginBoot(ops[o].name), Step(Good)]).history;
      y.automatic == h.history.automatic + [o] && y.confirmed == h.history.confirmed
  {
    var e := [Reboot(0), BeginBoot(ops[o].name), Step(Good)];
    var h1 := Do(ops, h, e[0]);
    var h2 := Do(ops, h1, e[1]);
    assert h2.pc == AtRollback(o, Startup(h.guards[ops[o].name].value), SaveRollingBack);
    var h3 := Do(ops, h2, e[2]);
    assert e[1..] == [e[1], e[2]] && e[1..][1..] == [e[2]] && e[1..][1..][1..] == [];
    assert Run(ops, h, e) == Run(ops, h1, e[1..]) == Run(ops, h2, e[1..][1..]) == Run(ops, h3, []);
  }

  /** A confirmed operation that is still guarded, and no longer committed. */
  predicate Revocable(ops: Plans, h: Host, o: nat) {
    o < |h.status| && Guarded(ops, h, o) && h.status[o] !in {Committed, Recovered, RecoveryFailed}
  }

  lemma RevocableIsRolledBack(ops: Plans, first: Files, h: Host, o: nat) returns (after: seq<Event>)
    requires SshInv(ops, first, h) && h.pc.Idle? && Revocable(ops, h, o)
    ensures Unattended(after, o) && !NoRollbackSince(h, Run(ops, h, after), o)
  {
    assert |h.status| == |ops|;
    Facts(ops, first, h, o);
    hide SshInv;
    hide Run;
    after := [Reboot(0), BeginBoot(ops[o].name), Step(Good)];
    RestartRollsBack(ops, h, o);
    assert Run(ops, h, after).history.automatic[|h.history.automatic|] == o;
  }

  lemma OthersAreNot(ops: Plans, first: Files, h: Host, after: seq<Event>, o: nat)
    requires SshInv(ops, first, h) && h.pc.Idle? && o in h.history.confirmed
    requires !Revocable(ops, h, o) && Unattended(after, o)
    ensures NoRollbackSince(h, Run(ops, h, after), o)
  {
    assert o < |ops| == |h.status|;
    Facts(ops, first, h, o);
    hide SshInv;
    hide Run;
    if h.status[o] in {Committed, Recovered, RecoveryFailed} {
      RunStaysQuiet(ops, first, h, after, o);
    } else {
      UnguardedStays(ops, first, h, after, o);
    }
  }

  /** Exactly when a confirmed operation can still be rolled back without an operator: its
      guard is still pending and its status has been taken away from committed. */
  lemma ConfirmedButRolledBack(ops: Plans, first: Files, h0: Host, before: seq<Event>, o: nat)
    requires Initial(ops, first, h0)
    requires var h := Run(ops, h0, before); o in h.history.confirmed && h.pc == Idle
    ensures var h := Run(ops, h0, before);
      (exists after :: Unattended(after, o) && !NoRollbackSince(h, Run(ops, h, after), o)) <==> Revocable(ops, h, o)
  {
    var h := Reachable(ops, first, h0, before);
    hide SshInv;
    hide Run;
    hide NoRollbackSince;
    if Revocable(ops, h, o) {
      var after := RevocableIsRolledBack(ops, first, h, o);
    } else {
      forall after | Unattended(after, o) ensures NoRollbackSince(h, Run(ops, h, after), o) {
        OthersAreNot(ops, first, h, after, o);
      }
    }
  }

  lemma {:induction false} RunConcat(ops: Plans, h: Host, a: seq<Event>, b: seq<Event>)
    ensures Run(ops, h, a + b) == Run(ops, Run(ops, h, a), b)
    decreases |a|
  {
    hide Do;
    if a == [] {
      assert a + b == b;
    } else {
      assert (a + b)[1..] == a[1..] + b;
      RunConcat(ops, Do(ops, h, a[0]), a[1..], b);
    }
  }

  lemma RunOne(ops: Plans, h: Host, e: Event)
    ensures Run(ops, h, [e]) == Do(ops, h, e)
  {
    hide Do;
    assert Run(ops, Do(ops, h, e), []) == Do(ops, h, e);
  }

  /** The host that owns one operation and whose listener runs the original configuration. */
  function Fresh(op: Op, started: int): Host {
    Host([Ready], map[op.name := None], map[op.name := op.before], map[], map[op.name := op.before], 0, started, Idle,
         History(map[], {}, map[], [], {}, []))
  }

  lemma Extend(ops: Plans, h0: Host, events: seq<Event>, e: Event) returns (longer: seq<Event>)
    ensures longer == events + [e] && Run(ops, h0, longer) == Do(ops, Run(ops, h0, events), e)
  {
    longer := events + [e];
    RunConcat(ops, h0, events, [e]);
    RunOne(ops, Run(ops, h0, events), e);
  }

  /** An application that goes through. */
  lemma AppliedRun(op: Op, started: int) returns (events: seq<Event>)
    requires op.before != op.after
    ensures var h := Run([op], Fresh(op, started), events);
      && h.pc == Idle && h.status == [AwaitingConfirmation] && h.guards == map[op.name := Some(Ref(0, 0, started + op.window))]
      && h.files == map[op.name := op.after] && 0 in h.reloaded && h.reloaded[0] == 0 && op.name in h.listeners
      && h.boot == 0 && h.now == started && h.history == Fresh(op, started).history.(armed := map[0 := Ref(0, 0, started + op.window)])
  {
    var ops, h0, g := [op], Fresh(op, started), Step(Good);
    var ref := Ref(0, 0, started + op.window);
    events := [BeginApply(0)];
    RunOne(ops, h0, BeginApply(0));
    assert !AnyPending(h0);
    assert Run(ops, h0, events) == h0.(pc := AtApply(0, Arm(ref)));
    hide Run;
    events := Extend(ops, h0, events, g);
    var armed := h0.(guards := map[op.name := Some(ref)], history := h0.history.(armed := map[0 := ref]));
    assert Run(ops, h0, events) == armed.(pc := AtApply(0, RecordDeadline));
    events := Extend(ops, h0, events, g);
    events := Extend(ops, h0, events, g);
    assert Run(ops, h0, events) == armed.(status := [Armed], pc := AtApply(0, SaveApplying));
    events := Extend(ops, h0, events, g);
    assert Run(ops, h0, events) == armed.(status := [Applying], pc := AtApply(0, Install));
    events := Extend(ops, h0, events, g);
    var installed := armed.(status := [Applying], files := map[op.name := op.after]);
    assert Run(ops, h0, events) == installed.(pc := AtApply(0, CheckInstalled));
    events := Extend(ops, h0, events, g);
    events := Extend(ops, h0, events, g);
    events := Extend(ops, h0, events, g);
    var reloaded := installed.(listeners := map[op.name := op.after]);
    assert Run(ops, h0, events) == reloaded.(pc := AtApply(0, RecordReload));
    events := Extend(ops, h0, events, g);
    events := Extend(ops, h0, events, g);
    assert Run(ops, h0, events) == reloaded.(reloaded := map[0 := 0], pc := AtApply(0, SaveAwaiting));
    events := Extend(ops, h0, events, g);
  }

  /** A confirmation whose guard is not cleared. */
  lemma CommittedRun(op: Op, started: int) returns (events: seq<Event>)
    requires op.before != op.after && op.window > 0
    ensures var h := Run([op], Fresh(op, started), events);
      && h.pc == Idle && h.status == [Committed] && 0 in h.history.confirmed
      && h.guards == map[op.name := Some(Ref(0, 0, started + op.window))] && op.name in h.listeners
  {
    var ops, h0 := [op], Fresh(op, started);
    events := AppliedRun(op, started);
    var awaiting := Run(ops, h0, events);
    var ref := Ref(0, 0, started + op.window);
    hide Run;
    hide ApplyStep;
    hide RollbackStep;
    hide BootStep;
    events := Extend(ops, h0, events, BeginConfirm(0));
    assert Run(ops, h0, events) == awaiting.(pc := AtConfirm(0, ref, Prove));
    hide BeginOf;
    events := Extend(ops, h0, events, Step(Good));
    assert Run(ops, h0, events) == awaiting.(pc := AtConfirm(0, ref, Resample));
    events := Extend(ops, h0, events, Step(Good));
    assert Run(ops, h0, events) == awaiting.(pc := AtConfirm(0, ref, SaveCommitted(started)));
    events := Extend(ops, h0, events, Step(Late));
  }

  /** Then an operator's recovery that goes no further than its first save. */
  lemma RevokedRun(op: Op, started: int) returns (events: seq<Event>)
    requires op.before != op.after && op.window > 0
    ensures var h := Run([op], Fresh(op, started), events);
      && h.pc == Idle && h.status == [RollingBack] && 0 in h.history.confirmed
      && h.guards == map[op.name := Some(Ref(0, 0, started + op.window))]
  {
    var ops, h0 := [op], Fresh(op, started);
    events := CommittedRun(op, started);
    var committed := Run(ops, h0, events);
    hide Run;
    hide ApplyStep;
    hide BootStep;
    hide ConfirmStep;
    events := Extend(ops, h0, events, BeginRecover(0));
    assert Run(ops, h0, events) == committed.(pc := AtRollback(0, Operator(true), SaveRollingBack));
    hide BeginOf;
    events := Extend(ops, h0, events, Step(Late));
  }

  /** It does happen: the commit is stored but its guard is not cleared, the operator's
      recovery is cut short, and the next restart undoes what had been confirmed. */
  lemma ConfirmedAndUndone(op: Op, started: int) returns (events: seq<Event>)
    requires op.before != op.after && op.window > 0
    ensures Initial([op], map[op.name := op.before], Fresh(op, started))
    ensures var h := Run([op], Fresh(op, started), events); 0 in h.history.confirmed && 0 in h.history.automatic
  {
    var ops, h0 := [op], Fresh(op, started);
    events := RevokedRun(op, started);
    var revoked := Run(ops, h0, events);
    var after := [Reboot(0), BeginBoot(op.name), Step(Good)];
    hide Run;
    RestartRollsBack(ops, revoked, 0);
    RunConcat(ops, h0, events, after);
    events := events + after;
    assert Run(ops, h0, events).history.automatic[|revoked.history.automatic|] == 0;
  }
}
