/** What holds of a managed SSH listener in every reachable state. */
module SshSafety {
  import opened Ssh
  import opened Wrappers

  type Guards = map<string, Option<Ref>>
  type Files = map<string, string>

  /** A configuration that was there at first, or that had been confirmed. */
  predicate Legit(ops: Plans, first: Files, confirmed: set<nat>, name: string, content: string) {
    || (name in first && first[name] == content)
    || (exists o <- confirmed :: o < |ops| && ops[o].name == name && ops[o].after == content)
  }

  // ------------------------------------------------------------- the guard

  predicate Waits(guards: Guards, name: string) {
    name in guards && guards[name].Some?
  }

  /** The guard row of `o` holds exactly the reference it was armed with. */
  predicate Watches(ops: Plans, guards: Guards, armed: map<nat, Ref>, o: nat) {
    && o < |ops| && o in armed && Waits(guards, ops[o].name) && guards[ops[o].name].value == armed[o]
  }

  ghost predicate GuardsSound(ops: Plans, guards: Guards, armed: map<nat, Ref>, settled: set<nat>) {
    && (forall name | Waits(guards, name) ::
          var ref := guards[name].value;
          ref.op < |ops| && ops[ref.op].name == name && ref.op in armed && armed[ref.op] == ref)
    && (forall m, n | Waits(guards, m) && Waits(guards, n) :: m == n)
    && (forall o <- armed :: o < |ops| && armed[o].op == o && (o !in settled ==> Watches(ops, guards, armed, o)))
  }

  // ------------------------------------------------------------- statuses

  predicate StatusOk(h: History, o: nat, st: SshStatus) {
    && (o !in h.armed ==> st == Ready && o !in h.settled && o !in h.confirmed && o !in h.automatic)
    && (o in h.settled ==> st in {Committed, RollingBack, Recovered, RecoveryFailed})
    && (Settles(st) ==> o in h.settled)
    && (st == Committed ==> o in h.confirmed && o !in h.automatic)
    && (o in h.confirmed ==> o in h.settled && (st == Committed || o in h.operated))
    && (o in h.automatic ==> st in {RollingBack, Recovered, RecoveryFailed} && (o in h.confirmed ==> o in h.operated))
  }

  ghost predicate StatusSound(ops: Plans, status: seq<SshStatus>, h: History) {
    && |status| == |ops|
    && (forall o: nat | o < |ops| :: StatusOk(h, o, status[o]))
    && (forall o <- h.confirmed :: o < |ops|)
    && (forall o <- h.automatic :: o < |ops|)
  }

  // ------------------------------------------------------------- configurations

  /** The configuration while `o` is guarded. */
  predicate InTrial(op: Op, files: Files, st: SshStatus) {
    && op.name in files && files[op.name] in {op.before, op.after}
    && (st in {Ready, Armed, Recovered} ==> files[op.name] == op.before)
  }

  ghost predicate FilesSound(ops: Plans, first: Files, status: seq<SshStatus>, guards: Guards, files: Files,
          armed: map<nat, Ref>, confirmed: set<nat>) {
    && files.Keys == first.Keys
    && (forall o <- armed | o < |ops| :: Legit(ops, first, confirmed, ops[o].name, ops[o].before))
    && (forall name <- files | !Waits(guards, name) :: Legit(ops, first, confirmed, name, files[name]))
    && (forall o: nat | o < |ops| && o < |status| && Watches(ops, guards, armed, o) :: InTrial(ops[o], files, status[o]))
  }

  // ------------------------------------------------------------- history

  ghost predicate HistorySound(ops: Plans, first: Files, h: History) {
    && (forall k | 0 <= k < |h.launches| ::
          Legit(ops, first, h.launches[k].confirmed, h.launches[k].name, h.launches[k].content))
    && (forall o <- h.confirmed ::
          && h.confirmed[o].from == AwaitingConfirmation
          && o in h.armed && h.confirmed[o].boot == h.armed[o].boot && h.confirmed[o].at < h.armed[o].deadline)
  }

  /** What the durable state and the history say, wherever control stands. */
  ghost predicate Durable(ops: Plans, first: Files, h: Host) {
    && GuardsSound(ops, h.guards, h.history.armed, h.history.settled)
    && StatusSound(ops, h.status, h.history)
    && FilesSound(ops, first, h.status, h.guards, h.files, h.history.armed, h.history.confirmed.Keys)
    && HistorySound(ops, first, h.history)
  }

  // ------------------------------------------------------------- control

  predicate Guarded(ops: Plans, h: Host, o: nat) {
    Watches(ops, h.guards, h.history.armed, o)
  }

  predicate Holding(ops: Plans, h: Host, o: nat, st: SshStatus) {
    o < |ops| == |h.status| && Guarded(ops, h, o) && o !in h.history.settled && h.status[o] == st
  }

  predicate Confirming(ops: Plans, h: Host, o: nat, ref: Ref) {
    && Holding(ops, h, o, AwaitingConfirmation) && ref == h.history.armed[o] && ref.boot == h.boot
    && FileOf(h, ops[o].name) == Some(ops[o].after)
  }

  /** A rollback, by an agent that may still carry it on. */
  predicate Rolling(ops: Plans, h: Host, o: nat, agent: Agent) {
    && o < |ops| == |h.status| && o in h.history.armed
    && (Waits(h.guards, ops[o].name) ==> Guarded(ops, h, o))
    && (!agent.Operator? ==> Guarded(ops, h, o))
    && (agent.Startup? ==> agent.ref == h.history.armed[o])
  }

  predicate Back(ops: Plans, h: Host, o: nat) {
    o < |ops| && FileOf(h, ops[o].name) == Some(ops[o].before)
  }

  /** A start of the listener: nothing is pending, or the original is back in place. */
  predicate Starting(ops: Plans, h: Host, name: string, restoring: Option<Ref>) {
    match restoring
    case None => !Waits(h.guards, name)
    case Some(ref) =>
      && ref.op < |ops| == |h.status| && ops[ref.op].name == name && h.status[ref.op] == RollingBack
      && Guarded(ops, h, ref.op) && h.history.armed[ref.op] == ref && Back(ops, h, ref.op)
  }

  /** A settled operation whose guard is about to be cleared. */
  predicate Clearing(ops: Plans, h: Host, name: string, ref: Ref) {
    && ref.op < |ops| == |h.status| && Settles(h.status[ref.op]) && ops[ref.op].name == name
    && Guarded(ops, h, ref.op) && h.history.armed[ref.op] == ref
  }

  /** What the journal says while an application runs. */
  function ApplyStatus(at: ApplyPoint): SshStatus {
    match at
    case RecordDeadline => Ready
    case SaveArmed => Ready
    case SaveApplying => Armed
    case _ => Applying
  }

  predicate ApplyControl(ops: Plans, h: Host, o: nat, at: ApplyPoint) {
    && o < |ops| == |h.status|
    && match at
       case Arm(ref) =>
         && h.status[o] == Ready && !AnyPending(h) && ops[o].name in h.guards && o !in h.history.armed
         && Back(ops, h, o) && ref.op == o && ref.boot == h.boot
       case GiveUp(_) => Holding(ops, h, o, h.status[o]) && o !in h.history.automatic
       case _ => Holding(ops, h, o, ApplyStatus(at))
  }

  predicate ConfirmControl(ops: Plans, h: Host, o: nat, ref: Ref, at: ConfirmPoint) {
    match at
    case ClearGuard => o < |ops| && Clearing(ops, h, ops[o].name, ref) && ref.op == o
    case SaveCommitted(sampled) => Confirming(ops, h, o, ref) && sampled < ref.deadline
    case _ => Confirming(ops, h, o, ref)
  }

  predicate RollbackControl(ops: Plans, h: Host, o: nat, agent: Agent, at: RollbackPoint) {
    && Rolling(ops, h, o, agent)
    && match at
       case SaveRollingBack => !agent.Operator? ==> h.status[o] !in {Committed, Recovered, RecoveryFailed}
       case ClearSettled => h.status[o] == Recovered
       case _ => h.status[o] == RollingBack && (at in {ReloadOld, ProbeOld, SaveRecovered} ==> Back(ops, h, o))
  }

  predicate BootControl(ops: Plans, h: Host, name: string, at: BootPoint) {
    match at
    case TickClear(ref) => Clearing(ops, h, name, ref)
    case ClearFirst(ref) => Clearing(ops, h, name, ref)
    case Start(restoring) => Starting(ops, h, name, restoring)
    case Probe(restoring) => Starting(ops, h, name, restoring)
    case SaveStarted(ref) => Starting(ops, h, name, Some(ref))
    case ClearStarted(ref) => Clearing(ops, h, name, ref)
    case Heartbeat => !Waits(h.guards, name)
  }

  predicate Control(ops: Plans, h: Host) {
    match h.pc
    case Idle => true
    case AtApply(o, at) => ApplyControl(ops, h, o, at)
    case AtConfirm(o, ref, at) => ConfirmControl(ops, h, o, ref, at)
    case AtRollback(o, agent, at) => RollbackControl(ops, h, o, agent, at)
    case AtBoot(name, at) => BootControl(ops, h, name, at)
  }

  ghost predicate SshInv(ops: Plans, first: Files, h: Host) {
    Durable(ops, first, h) && Control(ops, h)
  }

  // ------------------------------------------------------------- effects

  /** When operation `o` may be saved as `st`, apart from a confirmation. */
  predicate MaySave(ops: Plans, h: Host, o: nat, st: SshStatus) {
    && o < |ops| == |h.status| && o in h.history.armed && st !in {Ready, Committed}
    && (o in h.history.settled ==> st in {RollingBack, Recovered, RecoveryFailed})
    && (o in h.history.automatic ==> st in {RollingBack, Recovered, RecoveryFailed})
    && (o in h.history.confirmed ==> o in h.history.operated)
    && (st in {Armed, Recovered} ==> Back(ops, h, o))
  }

  /** The settled operations once `o` has been saved as `st`. */
  function SettledBy(y: History, o: nat, st: SshStatus): set<nat> {
    if Settles(st) then y.settled + {o} else y.settled
  }

  lemma SaveIs(h: Host, f: Fate, o: nat, st: SshStatus, ok: Pc, err: Pc)
    requires !f.Bad? && o < |h.status|
    ensures var t := Save(h, f, o, st, ok, err);
      && t.status == h.status[o := st] && t.history == h.history.(settled := SettledBy(h.history, o, st))
      && t.guards == h.guards && t.files == h.files
  {
  }

  lemma SaveStatus(ops: Plans, h: Host, o: nat, st: SshStatus)
    requires StatusSound(ops, h.status, h.history) && MaySave(ops, h, o, st)
    ensures StatusSound(ops, h.status[o := st], h.history.(settled := SettledBy(h.history, o, st)))
  {
    assert StatusOk(h.history, o, h.status[o]);
    hide Back;
  }

  lemma SaveFiles(ops: Plans, first: Files, h: Host, o: nat, st: SshStatus, confirmed: set<nat>)
    requires FilesSound(ops, first, h.status, h.guards, h.files, h.history.armed, confirmed) && MaySave(ops, h, o, st)
    ensures FilesSound(ops, first, h.status[o := st], h.guards, h.files, h.history.armed, confirmed)
  {
    hide Legit;
    hide Watches;
    hide Waits;
  }

  lemma SaveGuards(ops: Plans, guards: Guards, armed: map<nat, Ref>, settled: set<nat>, more: set<nat>)
    requires GuardsSound(ops, guards, armed, settled) && settled <= more
    ensures GuardsSound(ops, guards, armed, more)
  {
    hide Watches;
  }

  lemma SaveKeeps(ops: Plans, first: Files, h: Host, f: Fate, o: nat, st: SshStatus, ok: Pc, err: Pc)
    requires Durable(ops, first, h) && MaySave(ops, h, o, st)
    ensures Durable(ops, first, Save(h, f, o, st, ok, err))
  {
    hide GuardsSound;
    hide StatusSound;
    hide FilesSound;
    hide HistorySound;
    if f.Bad? {
      hide MaySave;
    } else {
      SaveStatus(ops, h, o, st);
      SaveFiles(ops, first, h, o, st, h.history.confirmed.Keys);
      SaveGuards(ops, h.guards, h.history.armed, h.history.settled, SettledBy(h.history, o, st));
      SaveIs(h, f, o, st, ok, err);
      SameHistory(ops, first, h.history, SettledBy(h.history, o, st));
      hide Save;
      hide SettledBy;
      hide MaySave;
    }
  }

  lemma SameHistory(ops: Plans, first: Files, y: History, settled: set<nat>)
    ensures HistorySound(ops, first, y.(settled := settled)) == HistorySound(ops, first, y)
  {
    hide Legit;
  }

  lemma BeganHistory(ops: Plans, first: Files, status: seq<SshStatus>, y: History, o: nat, agent: Agent)
    requires StatusSound(ops, status, y) && HistorySound(ops, first, y) && o < |ops| && o in y.armed
    requires !agent.Operator? ==> status[o] !in {Committed, Recovered, RecoveryFailed}
    ensures StatusSound(ops, status[o := RollingBack], Began(y, o, agent))
    ensures HistorySound(ops, first, Began(y, o, agent))
  {
    assert StatusOk(y, o, status[o]);
    hide Legit;
  }

  lemma RolledFiles(ops: Plans, first: Files, status: seq<SshStatus>, guards: Guards, files: Files, armed: map<nat,
          Ref>, confirmed: set<nat>, o: nat)
    requires FilesSound(ops, first, status, guards, files, armed, confirmed) && o < |status|
    ensures FilesSound(ops, first, status[o := RollingBack], guards, files, armed, confirmed)
  {
    hide Legit;
    hide Watches;
  }

  lemma RollingBackKeeps(ops: Plans, first: Files, h: Host, f: Fate, o: nat, agent: Agent, ok: Pc, err: Pc)
    requires Durable(ops, first, h) && o < |ops| && o in h.history.armed && !f.Bad?
    requires !agent.Operator? ==> h.status[o] !in {Committed, Recovered, RecoveryFailed}
    ensures Durable(ops, first, Save(h.(history := Began(h.history, o, agent)), f, o, RollingBack, ok, err))
  {
    BeganHistory(ops, first, h.status, h.history, o, agent);
    RolledFiles(ops, first, h.status, h.guards, h.files, h.history.armed, h.history.confirmed.Keys, o);
    hide GuardsSound;
    hide StatusSound;
    hide FilesSound;
    hide HistorySound;
  }

  function Committing(h: History, o: nat, y: Confirmation): History {
    Confirmed(h, o, y).(settled := h.settled + {o})
  }

  lemma CommitHistory(ops: Plans, first: Files, h: Host, o: nat, y: Confirmation)
    requires Durable(ops, first, h) && o < |ops| && Holding(ops, h, o, AwaitingConfirmation)
    requires y.from == AwaitingConfirmation && y.boot == h.history.armed[o].boot && y.at < h.history.armed[o].deadline
    ensures StatusSound(ops, h.status[o := Committed], Committing(h.history, o, y))
    ensures HistorySound(ops, first, Committing(h.history, o, y))
  {
    hide Legit;
    hide GuardsSound;
    hide FilesSound;
    hide Watches;
    assert StatusOk(h.history, o, AwaitingConfirmation);
  }

  lemma LegitGrows(ops: Plans, first: Files, confirmed: set<nat>, more: set<nat>)
    requires confirmed <= more
    ensures forall name, content | Legit(ops, first, confirmed, name, content) :: Legit(ops, first, more, name, content)
  {
  }

  lemma CommitTrial(ops: Plans, first: Files, status: seq<SshStatus>, guards: Guards, files: Files, armed: map<nat, Ref>,
          confirmed: set<nat>, more: set<nat>, o: nat)
    requires FilesSound(ops, first, status, guards, files, armed, confirmed) && o < |status| && confirmed <= more
    ensures FilesSound(ops, first, status[o := Committed], guards, files, armed, more)
  {
    LegitGrows(ops, first, confirmed, more);
    hide Legit;
    hide Watches;
    hide Waits;
  }

  lemma CommitFiles(ops: Plans, first: Files, h: Host, o: nat, y: Confirmation)
    requires Durable(ops, first, h) && o < |ops| && Holding(ops, h, o, AwaitingConfirmation)
    ensures FilesSound(ops, first, h.status[o := Committed], h.guards, h.files, h.history.armed, Committing(h.history, o, y).confirmed.Keys)
  {
    hide GuardsSound;
    hide StatusSound;
    hide HistorySound;
    hide FilesSound;
    hide Watches;
    var after := Committing(h.history, o, y).confirmed.Keys;
    assert h.history.confirmed.Keys <= after;
    CommitTrial(ops, first, h.status, h.guards, h.files, h.history.armed, h.history.confirmed.Keys, after, o);
  }

  lemma CommitKeeps(ops: Plans, first: Files, h: Host, f: Fate, o: nat, ref: Ref, sampled: int, ok: Pc, err: Pc)
    requires Durable(ops, first, h) && Confirming(ops, h, o, ref) && sampled < ref.deadline && !f.Bad?
    ensures Durable(ops, first, Save(h.(history := Confirmed(h.history, o, Confirmation(h.boot, sampled, h.status[o]))), f, o, Committed, ok, err))
  {
    var y := Confirmation(h.boot, sampled, h.status[o]);
    CommitHistory(ops, first, h, o, y);
    CommitFiles(ops, first, h, o, y);
    assert GuardsSound(ops, h.guards, h.history.armed, h.history.settled + {o});
    hide StatusSound;
    hide HistorySound;
    hide FilesSound;
    hide GuardsSound;
  }

  /** What a settled, guarded operation left in place is legitimate. */
  lemma SettledIsLegit(ops: Plans, first: Files, h: Host, o: nat)
    requires Durable(ops, first, h) && o < |ops| && Guarded(ops, h, o) && Settles(h.status[o])
    ensures ops[o].name in h.files && Legit(ops, first, h.history.confirmed.Keys, ops[o].name, h.files[ops[o].name])
  {
    assert StatusOk(h.history, o, h.status[o]);
    assert InTrial(ops[o], h.files, h.status[o]);
    if h.files[ops[o].name] == ops[o].before {
      hide Legit;
    } else {
      assert o in h.history.confirmed.Keys && ops[o].after == h.files[ops[o].name];
    }
  }

  lemma ClearGuards(ops: Plans, guards: Guards, armed: map<nat, Ref>, settled: set<nat>, name: string)
    requires GuardsSound(ops, guards, armed, settled) && Waits(guards, name) && guards[name].value.op in settled
    ensures GuardsSound(ops, guards[name := None], armed, settled)
  {
    var now := guards[name := None];
    assert forall n | Waits(now, n) :: Waits(guards, n) && n != name;
    assert forall o <- armed :: o !in settled ==> Watches(ops, guards, armed, o);
  }

  lemma ClearFiles(ops: Plans, first: Files, status: seq<SshStatus>, guards: Guards, files: Files, armed: map<nat,
          Ref>, confirmed: set<nat>, name: string)
    requires FilesSound(ops, first, status, guards, files, armed, confirmed) && Waits(guards, name)
    requires name in files && Legit(ops, first, confirmed, name, files[name])
    ensures FilesSound(ops, first, status, guards[name := None], files, armed, confirmed)
  {
    hide Legit;
    hide InTrial;
  }

  /** A guard is cleared only for an operation that has settled. */
  lemma ClearKeeps(ops: Plans, first: Files, h: Host, f: Fate, name: string, ref: Ref, ok: Pc, err: Pc)
    requires Durable(ops, first, h) && Clearing(ops, h, name, ref)
    ensures Durable(ops, first, Clear(h, f, name, ref, ok, err))
  {
    SettledIsLegit(ops, first, h, ref.op);
    assert StatusOk(h.history, ref.op, h.status[ref.op]);
    ClearGuards(ops, h.guards, h.history.armed, h.history.settled, name);
    ClearFiles(ops, first, h.status, h.guards, h.files, h.history.armed, h.history.confirmed.Keys, name);
    hide GuardsSound;
    hide StatusSound;
    hide FilesSound;
    hide HistorySound;
  }

  lemma NothingWaits(h: Host)
    requires !AnyPending(h)
    ensures forall name :: !Waits(h.guards, name)
  {
    forall name ensures !Waits(h.guards, name) { assert !Pending(h, name); }
  }

  lemma ArmGuards(ops: Plans, guards: Guards, armed: map<nat, Ref>, settled: set<nat>, o: nat, ref: Ref)
    requires GuardsSound(ops, guards, armed, settled) && (forall name :: !Waits(guards, name))
    requires o < |ops| && o !in armed && o !in settled && ref.op == o
    ensures GuardsSound(ops, guards[ops[o].name := Some(ref)], armed[o := ref], settled)
  {
    forall a <- armed ensures a < |ops| && armed[a].op == a && a in settled {
      assert !Watches(ops, guards, armed, a);
    }
    var now, all := guards[ops[o].name := Some(ref)], armed[o := ref];
    assert Watches(ops, now, all, o);
    forall name ensures Waits(now, name) <==> name == ops[o].name {
      assert !Waits(guards, name);
    }
  }

  lemma ArmStatus(ops: Plans, status: seq<SshStatus>, y: History, o: nat, ref: Ref)
    requires StatusSound(ops, status, y) && o < |ops| == |status| && o !in y.armed
    ensures StatusSound(ops, status, y.(armed := y.armed[o := ref])) && status[o] == Ready && o !in y.settled && o !in y.confirmed
  {
    assert StatusOk(y, o, status[o]);
  }

  lemma ArmFiles(ops: Plans, first: Files, h: Host, o: nat, ref: Ref, confirmed: set<nat>)
    requires FilesSound(ops, first, h.status, h.guards, h.files, h.history.armed, confirmed)
    requires (forall name :: !Waits(h.guards, name)) && o < |ops| && o < |h.status| && h.status[o] == Ready && Back(ops, h, o)
    requires forall a <- h.history.armed :: h.history.armed[a].op == a
    requires ref.op == o && o !in h.history.armed
    ensures FilesSound(ops, first, h.status, h.guards[ops[o].name := Some(ref)], h.files, h.history.armed[o := ref], confirmed)
  {
    hide Legit;
  }

  lemma ArmHistory(ops: Plans, first: Files, y: History, o: nat, ref: Ref)
    requires HistorySound(ops, first, y) && o !in y.confirmed
    ensures HistorySound(ops, first, y.(armed := y.armed[o := ref]))
  {
    hide Legit;
  }

  lemma ArmedByOwn(ops: Plans, guards: Guards, armed: map<nat, Ref>, settled: set<nat>)
    requires GuardsSound(ops, guards, armed, settled)
    ensures forall a <- armed :: armed[a].op == a
  {
    hide Watches;
    hide Waits;
  }

  lemma ArmKeeps(ops: Plans, first: Files, h: Host, o: nat, ref: Ref, pc: Pc)
    requires Durable(ops, first, h) && o < |ops| && !AnyPending(h) && o !in h.history.armed && ops[o].name in h.guards
    requires Back(ops, h, o) && ref.op == o
    ensures Durable(ops, first, h.(guards := h.guards[ops[o].name := Some(ref)],
                                   history := h.history.(armed := h.history.armed[o := ref]), pc := pc))
  {
    hide GuardsSound;
    hide StatusSound;
    hide FilesSound;
    hide HistorySound;
    hide Back;
    hide AnyPending;
    NothingWaits(h);
    ArmedByOwn(ops, h.guards, h.history.armed, h.history.settled);
    StatusLength(ops, h.status, h.history);
    ArmStatus(ops, h.status, h.history, o, ref);
    ArmGuards(ops, h.guards, h.history.armed, h.history.settled, o, ref);
    ArmFiles(ops, first, h, o, ref, h.history.confirmed.Keys);
    ArmHistory(ops, first, h.history, o, ref);
  }

  lemma StatusLength(ops: Plans, status: seq<SshStatus>, y: History)
    requires StatusSound(ops, status, y)
    ensures |status| == |ops|
  {
    hide StatusOk;
  }

  lemma WriteKeeps(ops: Plans, first: Files, h: Host, o: nat, content: string, pc: Pc)
    requires Durable(ops, first, h) && o < |ops| && ops[o].name in h.files && o in h.history.armed
    requires if Guarded(ops, h, o) then content == ops[o].before || (content == ops[o].after && h.status[o] !in {Ready, Armed, Recovered})
             else !Waits(h.guards, ops[o].name) && content == ops[o].before
    ensures Durable(ops, first, h.(files := h.files[ops[o].name := content], pc := pc))
  {
    hide Legit;
    hide HistorySound;
    hide StatusOk;
  }

  lemma LaunchKeeps(ops: Plans, first: Files, h: Host, name: string)
    requires Durable(ops, first, h) && name in h.files
    requires Legit(ops, first, h.history.confirmed.Keys, name, h.files[name])
    ensures var launch := Launch(name, h.files[name], h.history.confirmed.Keys);
            Durable(ops, first, h.(history := h.history.(launches := h.history.launches + [launch])))
  {
    hide Legit;
    hide FilesSound;
    hide GuardsSound;
  }

  /** What the durable state says of one operation. */
  lemma Facts(ops: Plans, first: Files, h: Host, o: nat)
    requires Durable(ops, first, h) && o < |ops|
    ensures |h.status| == |ops| && StatusOk(h.history, o, h.status[o])
    ensures o in h.history.armed ==> h.history.armed[o].op == o
    ensures Guarded(ops, h, o) ==> InTrial(ops[o], h.files, h.status[o])
  {
  }

  lemma NewRow(ops: Plans, guards: Guards, armed: map<nat, Ref>, name: string)
    requires name !in guards
    ensures forall n :: Waits(guards[name := None], n) == Waits(guards, n)
    ensures forall n | Waits(guards, n) :: guards[name := None][n] == guards[n]
    ensures forall o :: Watches(ops, guards[name := None], armed, o) == Watches(ops, guards, armed, o)
  {
  }

  lemma RowGuards(ops: Plans, guards: Guards, armed: map<nat, Ref>, settled: set<nat>, name: string)
    requires GuardsSound(ops, guards, armed, settled) && name !in guards
    ensures GuardsSound(ops, guards[name := None], armed, settled)
  {
    NewRow(ops, guards, armed, name);
    var now := guards[name := None];
    forall n | Waits(now, n)
      ensures var ref := now[n].value; ref.op < |ops| && ops[ref.op].name == n && ref.op in armed && armed[ref.op] == ref
    {
      assert Waits(guards, n) && now[n] == guards[n];
    }
    forall o <- armed ensures o < |ops| && armed[o].op == o && (o !in settled ==> Watches(ops, now, armed, o)) {
      if o !in settled { assert Watches(ops, guards, armed, o); }
    }
    forall m, n | Waits(now, m) && Waits(now, n) ensures m == n {
      assert Waits(guards, m) && Waits(guards, n);
    }
    hide Watches;
  }

  lemma RowFiles(ops: Plans, first: Files, status: seq<SshStatus>, guards: Guards, files: Files, armed: map<nat,
          Ref>, confirmed: set<nat>, name: string)
    requires FilesSound(ops, first, status, guards, files, armed, confirmed) && name !in guards
    ensures FilesSound(ops, first, status, guards[name := None], files, armed, confirmed)
  {
    NewRow(ops, guards, armed, name);
    hide Waits;
    hide Watches;
    hide Legit;
    hide InTrial;
  }

  lemma RowKeeps(ops: Plans, first: Files, h: Host, name: string)
    requires Durable(ops, first, h) && name !in h.guards
    ensures Durable(ops, first, h.(guards := h.guards[name := None]))
  {
    RowGuards(ops, h.guards, h.history.armed, h.history.settled, name);
    RowFiles(ops, first, h.status, h.guards, h.files, h.history.armed, h.history.confirmed.Keys, name);
    hide GuardsSound;
    hide StatusSound;
    hide FilesSound;
    hide HistorySound;
  }

  // ------------------------------------------------------------- apply

  /** Steps that leave the durable state alone. */
  lemma CheckKeeps(ops: Plans, first: Files, h: Host, t: Host)
    requires Durable(ops, first, h) && t.status == h.status && t.guards == h.guards && t.files == h.files
    requires t.history == h.history
    ensures Durable(ops, first, t)
  {
    hide GuardsSound;
    hide StatusSound;
    hide FilesSound;
    hide HistorySound;
  }

  lemma ApplyStepDurable(ops: Plans, first: Files, h: Host, o: nat, at: ApplyPoint, f: Fate)
    requires Durable(ops, first, h) && ApplyControl(ops, h, o, at)
    ensures Durable(ops, first, ApplyStep(ops, h, o, at, f))
  {
    hide Durable;
    var t := ApplyStep(ops, h, o, at, f);
    Facts(ops, first, h, o);
    match at
    case Arm(ref) => if t.guards != h.guards { ArmKeeps(ops, first, h, o, ref, t.pc); } else { CheckKeeps(ops, first, h, t); }
    case SaveArmed => SaveKeeps(ops, first, h, f, o, Armed, AtApply(o, SaveApplying), AtApply(o, GiveUp(f.Late?)));
    case SaveApplying => SaveKeeps(ops, first, h, f, o, Applying, AtApply(o, Install), AtApply(o, GiveUp(f.Late?)));
    case Install => if t.files != h.files { WriteKeeps(ops, first, h, o, ops[o].after, t.pc); } else { CheckKeeps(ops, first, h, t); }
    case SaveAwaiting => SaveKeeps(ops, first, h, f, o, AwaitingConfirmation, Idle, AtApply(o, GiveUp(f.Late?)));
    case GiveUp(stale) => SaveKeeps(ops, first, h, if stale then Bad else f, o, Unknown, Idle, Idle);
    case _ => CheckKeeps(ops, first, h, t);
  }

  lemma ArmControl(ops: Plans, h: Host, o: nat, ref: Ref, f: Fate)
    requires o < |ops| == |h.status| && ApplyControl(ops, h, o, Arm(ref)) && o !in h.history.settled
    ensures Control(ops, ApplyStep(ops, h, o, Arm(ref), f))
  {
    hide ConfirmControl;
    hide RollbackControl;
    hide BootControl;
  }

  lemma ApplyRestControl(ops: Plans, h: Host, o: nat, at: ApplyPoint, f: Fate)
    requires !at.Arm? && ApplyControl(ops, h, o, at) && o !in h.history.automatic
    ensures o < |ops| == |h.status| && Control(ops, ApplyStep(ops, h, o, at, f))
  {
    hide ConfirmControl;
    hide RollbackControl;
    hide BootControl;
    hide Watches;
  }

  lemma ApplyStepControl(ops: Plans, first: Files, h: Host, o: nat, at: ApplyPoint, f: Fate)
    requires Durable(ops, first, h) && ApplyControl(ops, h, o, at)
    ensures Control(ops, ApplyStep(ops, h, o, at, f))
  {
    hide Durable;
    hide Control;
    Facts(ops, first, h, o);
    match at
    case Arm(ref) => ArmControl(ops, h, o, ref, f);
    case _ => ApplyRestControl(ops, h, o, at, f);
  }

  lemma ConfirmStepKeeps(ops: Plans, first: Files, h: Host, o: nat, ref: Ref, at: ConfirmPoint, f: Fate)
    requires Durable(ops, first, h) && ConfirmControl(ops, h, o, ref, at) && o < |ops|
    ensures SshInv(ops, first, ConfirmStep(ops, h, o, ref, at, f))
  {
    hide ApplyControl;
    hide RollbackControl;
    hide BootControl;
    hide Durable;
    var t := ConfirmStep(ops, h, o, ref, at, f);
    Facts(ops, first, h, o);
    match at
    case SaveCommitted(sampled) =>
      if f.Bad? { CheckKeeps(ops, first, h, t); } else { CommitKeeps(ops, first, h, f, o, ref, sampled, AtConfirm(o, ref, ClearGuard), Idle); }
    case ClearGuard => ClearKeeps(ops, first, h, f, ops[o].name, ref, Idle, Idle);
    case _ => CheckKeeps(ops, first, h, t);
  }

  // ------------------------------------------------------------- rollback

  lemma RollbackSaves(ops: Plans, first: Files, h: Host, o: nat, agent: Agent, at: RollbackPoint, f: Fate)
    requires Durable(ops, first, h) && RollbackControl(ops, h, o, agent, at)
    requires at in {SaveRollingBack, SaveRecovered, SaveFailed}
    ensures Durable(ops, first, RollbackStep(ops, h, o, agent, at, f))
  {
    hide Durable;
    Facts(ops, first, h, o);
    match at
    case SaveRollingBack =>
      if f.Bad? { CheckKeeps(ops, first, h, RollbackStep(ops, h, o, agent, at, f)); }
      else { RollingBackKeeps(ops, first, h, f, o, agent, AtRollback(o, agent, VerifyInputs), Idle); }
    case SaveRecovered => SaveKeeps(ops, first, h, f, o, Recovered, AtRollback(o, agent, ClearSettled), Idle);
    case SaveFailed => SaveKeeps(ops, first, h, f, o, RecoveryFailed, Idle, Idle);
  }

  lemma RestoreKeeps(ops: Plans, first: Files, h: Host, o: nat, agent: Agent, f: Fate)
    requires Durable(ops, first, h) && RollbackControl(ops, h, o, agent, Restore)
    ensures Durable(ops, first, RollbackStep(ops, h, o, agent, Restore, f))
  {
    hide Durable;
    Facts(ops, first, h, o);
    var t := RollbackStep(ops, h, o, agent, Restore, f);
    if t.files != h.files { WriteKeeps(ops, first, h, o, ops[o].before, t.pc); } else { CheckKeeps(ops, first, h, t); }
  }

  lemma ClearSettledKeeps(ops: Plans, first: Files, h: Host, o: nat, agent: Agent, f: Fate)
    requires Durable(ops, first, h) && RollbackControl(ops, h, o, agent, ClearSettled)
    ensures Durable(ops, first, RollbackStep(ops, h, o, agent, ClearSettled, f))
  {
    hide Durable;
    Facts(ops, first, h, o);
    if Waits(h.guards, ops[o].name) { ClearKeeps(ops, first, h, f, ops[o].name, h.guards[ops[o].name].value, Idle, Idle); }
    else { CheckKeeps(ops, first, h, RollbackStep(ops, h, o, agent, ClearSettled, f)); }
  }

  lemma RollbackStepDurable(ops: Plans, first: Files, h: Host, o: nat, agent: Agent, at: RollbackPoint, f: Fate)
    requires Durable(ops, first, h) && RollbackControl(ops, h, o, agent, at)
    ensures Durable(ops, first, RollbackStep(ops, h, o, agent, at, f))
  {
    hide Durable;
    match at
    case SaveRollingBack => RollbackSaves(ops, first, h, o, agent, at, f);
    case SaveRecovered => RollbackSaves(ops, first, h, o, agent, at, f);
    case SaveFailed => RollbackSaves(ops, first, h, o, agent, at, f);
    case Restore => RestoreKeeps(ops, first, h, o, agent, f);
    case ClearSettled => ClearSettledKeeps(ops, first, h, o, agent, f);
    case _ => CheckKeeps(ops, first, h, RollbackStep(ops, h, o, agent, at, f));
  }

  lemma CheckBeforeControl(ops: Plans, h: Host, o: nat, agent: Agent, f: Fate)
    requires RollbackControl(ops, h, o, agent, CheckBefore) && h.history.armed[o].op == o
    ensures Control(ops, RollbackStep(ops, h, o, agent, CheckBefore, f))
  {
    hide ApplyControl;
    hide ConfirmControl;
    hide Watches;
  }

  lemma RollbackBeginControl(ops: Plans, h: Host, o: nat, agent: Agent, f: Fate)
    requires RollbackControl(ops, h, o, agent, SaveRollingBack)
    ensures Control(ops, RollbackStep(ops, h, o, agent, SaveRollingBack, f))
  {
    hide ApplyControl;
    hide ConfirmControl;
    hide BootControl;
    hide Watches;
    hide Waits;
  }

  lemma RollbackSaveControl(ops: Plans, h: Host, o: nat, agent: Agent, f: Fate)
    requires RollbackControl(ops, h, o, agent, SaveRecovered)
    ensures Control(ops, RollbackStep(ops, h, o, agent, SaveRecovered, f))
  {
    hide ApplyControl;
    hide ConfirmControl;
    hide BootControl;
    hide Watches;
    hide Waits;
  }

  lemma RollbackReloadControl(ops: Plans, h: Host, o: nat, agent: Agent, f: Fate)
    requires RollbackControl(ops, h, o, agent, ReloadOld)
    ensures Control(ops, RollbackStep(ops, h, o, agent, ReloadOld, f))
  {
    hide ApplyControl;
    hide ConfirmControl;
    hide BootControl;
    hide Watches;
    hide Waits;
  }

  lemma RollbackRestControl(ops: Plans, h: Host, o: nat, agent: Agent, at: RollbackPoint, f: Fate)
    requires RollbackControl(ops, h, o, agent, at)
    requires at !in {SaveRollingBack, SaveRecovered, CheckBefore, ReloadOld, ClearSettled}
    ensures Control(ops, RollbackStep(ops, h, o, agent, at, f))
  {
    hide ApplyControl;
    hide ConfirmControl;
    hide BootControl;
    hide Watches;
    hide Waits;
  }

  lemma RollbackStepControl(ops: Plans, first: Files, h: Host, o: nat, agent: Agent, at: RollbackPoint, f: Fate)
    requires Durable(ops, first, h) && RollbackControl(ops, h, o, agent, at)
    ensures Control(ops, RollbackStep(ops, h, o, agent, at, f))
  {
    hide Durable;
    Facts(ops, first, h, o);
    match at
    case SaveRollingBack => RollbackBeginControl(ops, h, o, agent, f);
    case CheckBefore => CheckBeforeControl(ops, h, o, agent, f);
    case ClearSettled => assert RollbackStep(ops, h, o, agent, ClearSettled, f).pc.Idle?;
    case SaveRecovered => RollbackSaveControl(ops, h, o, agent, f);
    case ReloadOld => RollbackReloadControl(ops, h, o, agent, f);
    case _ => RollbackRestControl(ops, h, o, agent, at, f);
  }

  // ------------------------------------------------------------- startup

  lemma BootStepDurable(ops: Plans, first: Files, h: Host, name: string, at: BootPoint, f: Fate)
    requires Durable(ops, first, h) && BootControl(ops, h, name, at)
    ensures Durable(ops, first, BootStep(ops, h, name, at, f))
  {
    var t := BootStep(ops, h, name, at, f);
    assert |ops| == |h.status|;
    match at
    case TickClear(ref) => ClearKeeps(ops, first, h, f, name, ref, Idle, Idle);
    case ClearFirst(ref) => ClearKeeps(ops, first, h, f, name, ref, AtBoot(name, Start(None)), Idle);
    case ClearStarted(ref) => StartClearKeeps(ops, first, h, name, ref, f);
    case Start(restoring) => StartKeeps(ops, first, h, name, restoring, f);
    case SaveStarted(ref) => StartSaveKeeps(ops, first, h, name, ref, f);
    case Heartbeat => HeartbeatKeeps(ops, first, h, name, f);
    case Probe(_) => CheckKeeps(ops, first, h, t);
  }

  lemma StartClearKeeps(ops: Plans, first: Files, h: Host, name: string, ref: Ref, f: Fate)
    requires Durable(ops, first, h) && Clearing(ops, h, name, ref) && |ops| == |h.status|
    ensures Durable(ops, first, BootStep(ops, h, name, ClearStarted(ref), f))
  {
    hide Durable;
    var cleared := Clear(h, f, name, ref, AtBoot(name, Heartbeat), Idle);
    ClearKeeps(ops, first, h, f, name, ref, AtBoot(name, Heartbeat), Idle);
    CheckKeeps(ops, first, cleared, BootStep(ops, h, name, ClearStarted(ref), f));
  }

  lemma StartKeeps(ops: Plans, first: Files, h: Host, name: string, restoring: Option<Ref>, f: Fate)
    requires Durable(ops, first, h) && Starting(ops, h, name, restoring) && |ops| == |h.status|
    ensures Durable(ops, first, BootStep(ops, h, name, Start(restoring), f))
  {
    var t := BootStep(ops, h, name, Start(restoring), f);
    if f.Good? && name in h.files {
      assert Legit(ops, first, h.history.confirmed.Keys, name, h.files[name]);
      hide Durable;
      LaunchKeeps(ops, first, h, name);
      CheckKeeps(ops, first, h.(history := t.history), t);
    } else {
      hide Durable;
      CheckKeeps(ops, first, h, t);
    }
  }

  lemma StartSaveKeeps(ops: Plans, first: Files, h: Host, name: string, ref: Ref, f: Fate)
    requires Durable(ops, first, h) && Starting(ops, h, name, Some(ref))
    ensures |ops| == |h.status| && Durable(ops, first, BootStep(ops, h, name, SaveStarted(ref), f))
  {
    assert StatusOk(h.history, ref.op, h.status[ref.op]);
    hide Durable;
    var saved := Save(h, f, ref.op, Recovered, AtBoot(name, ClearStarted(ref)), Idle);
    SaveKeeps(ops, first, h, f, ref.op, Recovered, AtBoot(name, ClearStarted(ref)), Idle);
    CheckKeeps(ops, first, saved, BootStep(ops, h, name, SaveStarted(ref), f));
  }

  lemma HeartbeatKeeps(ops: Plans, first: Files, h: Host, name: string, f: Fate)
    requires Durable(ops, first, h) && |ops| == |h.status|
    ensures Durable(ops, first, BootStep(ops, h, name, Heartbeat, f))
  {
    hide Durable;
    var t := BootStep(ops, h, name, Heartbeat, f);
    if name in h.guards || f.Bad? {
      CheckKeeps(ops, first, h, t);
    } else {
      RowKeeps(ops, first, h, name);
      CheckKeeps(ops, first, h.(guards := h.guards[name := None]), t);
    }
  }

  lemma BootStepControl(ops: Plans, h: Host, name: string, at: BootPoint, f: Fate)
    requires |ops| == |h.status| && BootControl(ops, h, name, at)
    ensures Control(ops, BootStep(ops, h, name, at, f))
  {
    hide ApplyControl;
    hide ConfirmControl;
    hide RollbackControl;
  }

  // ------------------------------------------------------------- every event

  lemma StepKeeps(ops: Plans, first: Files, h: Host, f: Fate)
    requires SshInv(ops, first, h)
    ensures |ops| == |h.status| && SshInv(ops, first, StepOf(ops, h, f))
  {
    assert |ops| == |h.status|;
    hide Durable;
    match h.pc
    case Idle =>
    case AtApply(o, at) => ApplyStepDurable(ops, first, h, o, at, f); ApplyStepControl(ops, first, h, o, at, f);
    case AtConfirm(o, ref, at) => if o < |ops| { ConfirmStepKeeps(ops, first, h, o, ref, at, f); }
    case AtRollback(o, agent, at) => RollbackStepDurable(ops, first, h, o, agent, at, f); RollbackStepControl(ops, first, h, o, agent, at, f);
    case AtBoot(name, at) => BootStepDurable(ops, first, h, name, at, f); BootStepControl(ops, h, name, at, f);
  }

  lemma NotPendingNotArmed(ops: Plans, first: Files, h: Host, o: nat)
    requires Durable(ops, first, h) && o < |ops| && h.status[o] == Ready && !AnyPending(h)
    ensures o !in h.history.armed
  {
    assert StatusOk(h.history, o, h.status[o]);
    if o in h.history.armed {
      assert Watches(ops, h.guards, h.history.armed, o);
      assert Pending(h, ops[o].name);
    }
  }

  lemma BeatKeeps(ops: Plans, first: Files, h: Host, name: string)
    requires SshInv(ops, first, h)
    ensures SshInv(ops, first, Beaten(h, name))
  {
    if name !in h.guards {
      RowKeeps(ops, first, h, name);
      NewRow(ops, h.guards, h.history.armed, name);
      hide Durable;
      BeatControl(ops, h, name);
    }
  }

  lemma BeatApplyControl(ops: Plans, h: Host, name: string, o: nat, at: ApplyPoint)
    requires ApplyControl(ops, h, o, at) && name !in h.guards
    ensures ApplyControl(ops, Beaten(h, name), o, at)
  {
    NewRow(ops, h.guards, h.history.armed, name);
    if AnyPending(Beaten(h, name)) {
      var n :| n in Beaten(h, name).guards && Pending(Beaten(h, name), n);
      assert Pending(h, n);
    }
    hide Watches;
    hide Waits;
  }

  lemma BeatRollbackControl(ops: Plans, h: Host, name: string, o: nat, agent: Agent, at: RollbackPoint)
    requires RollbackControl(ops, h, o, agent, at) && name !in h.guards
    ensures RollbackControl(ops, Beaten(h, name), o, agent, at)
  {
    NewRow(ops, h.guards, h.history.armed, name);
    hide Watches;
    hide Waits;
  }

  lemma BeatOtherControl(ops: Plans, h: Host, name: string)
    requires Control(ops, h) && name !in h.guards && !h.pc.AtApply? && !h.pc.AtRollback?
    ensures Control(ops, Beaten(h, name))
  {
    NewRow(ops, h.guards, h.history.armed, name);
    hide Watches;
    hide Waits;
    hide ApplyControl;
    hide RollbackControl;
  }

  /** The new row changes nothing that control depends on. */
  lemma BeatControl(ops: Plans, h: Host, name: string)
    requires Control(ops, h) && name !in h.guards
    ensures Control(ops, Beaten(h, name))
  {
    hide ApplyControl;
    hide ConfirmControl;
    hide RollbackControl;
    hide BootControl;
    match h.pc
    case AtApply(o, at) => BeatApplyControl(ops, h, name, o, at);
    case AtRollback(o, agent, at) => BeatRollbackControl(ops, h, name, o, agent, at);
    case _ => BeatOtherControl(ops, h, name);
  }

  /** Only clock, boot, listeners and control move, and control stays or is given up. */
  lemma EnvironmentIs(ops: Plans, h: Host, e: Event)
    requires (e.Pass? || e.Reboot? || e.Kill? || e.Crash?) && |h.status| == |ops|
    ensures var t := Do(ops, h, e);
      && t.status == h.status && t.guards == h.guards && t.files == h.files && t.history == h.history && t.reloaded == h.reloaded
      && (t.pc.Idle? || (t.pc == h.pc && t.boot == h.boot))
  {
  }

  lemma SameControl(ops: Plans, h: Host, t: Host)
    requires Control(ops, h) && t.pc == h.pc && t.boot == h.boot
    requires t.status == h.status && t.guards == h.guards && t.files == h.files && t.history == h.history
    ensures Control(ops, t)
  {
    hide Watches;
    hide Waits;
    assert AnyPending(t) == AnyPending(h) by { assert forall n :: Pending(t, n) == Pending(h, n); }
    hide AnyPending;
  }

  lemma EnvironmentKeeps(ops: Plans, first: Files, h: Host, e: Event)
    requires SshInv(ops, first, h) && |h.status| == |ops| && (e.Pass? || e.Reboot? || e.Kill? || e.Crash?)
    ensures SshInv(ops, first, Do(ops, h, e))
  {
    hide Durable;
    EnvironmentIs(ops, h, e);
    hide Do;
    CheckKeeps(ops, first, h, Do(ops, h, e));
    if !Do(ops, h, e).pc.Idle? {
      hide Control;
      SameControl(ops, h, Do(ops, h, e));
    }
  }

  predicate Begins(e: Event) {
    e.BeginApply? || e.BeginConfirm? || e.BeginRecover? || e.BeginTick? || e.BeginBoot?
  }

  lemma BeginApplyControl(ops: Plans, first: Files, h: Host, o: nat)
    requires Durable(ops, first, h) && |ops| == |h.status|
    ensures Control(ops, To(h, BeginOf(ops, h, BeginApply(o))))
  {
    if o < |ops| && h.status[o] == Ready && !AnyPending(h) { NotPendingNotArmed(ops, first, h, o); }
    hide Durable;
    hide RollbackControl;
    hide BootControl;
    hide ConfirmControl;
  }

  /** A guard that is pending for `o` is the one that `o` was armed with. */
  lemma PendingIsWatched(ops: Plans, first: Files, h: Host, name: string)
    requires Durable(ops, first, h) && Waits(h.guards, name)
    ensures var o := h.guards[name].value.op;
      o < |ops| && ops[o].name == name && Guarded(ops, h, o) && h.history.armed[o] == h.guards[name].value
  {
  }

  lemma BeginConfirmControl(ops: Plans, first: Files, h: Host, o: nat)
    requires Durable(ops, first, h) && |ops| == |h.status|
    ensures Control(ops, To(h, BeginOf(ops, h, BeginConfirm(o))))
  {
    hide Durable;
    if o < |ops| {
      Facts(ops, first, h, o);
      if Waits(h.guards, ops[o].name) { PendingIsWatched(ops, first, h, ops[o].name); }
    }
    hide ApplyControl;
    hide RollbackControl;
    hide BootControl;
  }

  lemma BeginRecoverControl(ops: Plans, first: Files, h: Host, o: nat)
    requires Durable(ops, first, h) && |ops| == |h.status|
    ensures Control(ops, To(h, BeginOf(ops, h, BeginRecover(o))))
  {
    hide Durable;
    if o < |ops| {
      Facts(ops, first, h, o);
      if Waits(h.guards, ops[o].name) { PendingIsWatched(ops, first, h, ops[o].name); }
    }
    hide ApplyControl;
    hide ConfirmControl;
    hide BootControl;
  }

  lemma BeginSupervisorControl(ops: Plans, first: Files, h: Host, e: Event)
    requires Durable(ops, first, h) && |ops| == |h.status| && (e.BeginTick? || e.BeginBoot?)
    ensures Control(ops, To(h, BeginOf(ops, h, e)))
  {
    hide Durable;
    if Waits(h.guards, e.name) { PendingIsWatched(ops, first, h, e.name); }
    hide ApplyControl;
    hide ConfirmControl;
  }

  /** Every event of every party keeps the invariant. */
  lemma DoKeeps(ops: Plans, first: Files, h: Host, e: Event)
    requires SshInv(ops, first, h)
    ensures SshInv(ops, first, Do(ops, h, e))
  {
    if |h.status| == |ops| {
      if e.Step? {
        StepKeeps(ops, first, h, e.fate);
      } else if e.Beat? {
        BeatKeeps(ops, first, h, e.name);
      } else if !Begins(e) {
        EnvironmentKeeps(ops, first, h, e);
      } else if h.pc.Idle? {
        CheckKeeps(ops, first, h, Do(ops, h, e));
        hide Durable;
        hide Control;
        hide BeginOf;
        match e
        case BeginApply(o) => BeginApplyControl(ops, first, h, o);
        case BeginConfirm(o) => BeginConfirmControl(ops, first, h, o);
        case BeginRecover(o) => BeginRecoverControl(ops, first, h, o);
        case _ => BeginSupervisorControl(ops, first, h, e);
      }
    }
  }

  /** A host on which nothing has been applied yet. */
  predicate Initial(ops: Plans, first: Files, h: Host) {
    && |h.status| == |ops| && (forall o | 0 <= o < |ops| :: h.status[o] == Ready)
    && (forall name <- h.guards :: h.guards[name].None?)
    && h.files == first && h.pc == Idle && h.history == History(map[], {}, map[], [], {}, [])
  }

  lemma InitialIsSound(ops: Plans, first: Files, h: Host)
    requires Initial(ops, first, h)
    ensures SshInv(ops, first, h)
  {
  }

  lemma {:induction false} RunKeeps(ops: Plans, first: Files, h: Host, events: seq<Event>)
    requires SshInv(ops, first, h)
    ensures SshInv(ops, first, Run(ops, h, events))
    decreases |events|
  {
    hide SshInv;
    hide Do;
    if events != [] {
      DoKeeps(ops, first, h, events[0]);
      RunKeeps(ops, first, Do(ops, h, events[0]), events[1..]);
    }
  }
}
