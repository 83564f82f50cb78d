/** Commit-confirm for a managed SSH listener (recovery/ssh.go) with its watchdog and its
    startup path (recovery/ssh_supervisor_linux.go). One process holds the executor lock at a
    time and performs one primitive per step; a crash releases the lock. Clock and boot are
    the environment's. A configuration is its content, one file per service name. */
module Ssh {
  import opened Wrappers

  datatype SshStatus =
    | Ready
    | Armed
    | Applying
    | AwaitingConfirmation
    | Unknown
    | Committed
    | RollingBack
    | Recovered
    | RecoveryFailed

  /** A reviewed replacement of the configuration of service `name`. */
  datatype Op = Op(name: string, before: string, after: string, window: nat)

  /** The pending column of a guard row: which operation, and its deadline in which boot. */
  datatype Ref = Ref(op: nat, boot: nat, deadline: int)

  /** Who rolls back: an operator (with or without a live listener to reload), the watchdog,
      or the startup path, which has no listener yet. */
  datatype Agent = Operator(alive: bool) | Watchdog | Startup(ref: Ref)

  datatype ApplyPoint =
    | Arm(ref: Ref)
    | RecordDeadline
    | SaveArmed
    | SaveApplying
    | Install
    | CheckInstalled
    | Reload
    | ProbeNew
    | RecordReload
    | CheckAfter
    | SaveAwaiting
    | GiveUp(stale: bool)

  datatype ConfirmPoint = Prove | Resample | SaveCommitted(sampled: int) | ClearGuard

  datatype RollbackPoint =
    | SaveRollingBack
    | VerifyInputs
    | Restore
    | CheckBefore
    | ReloadOld
    | ProbeOld
    | SaveRecovered
    | ClearSettled
    | SaveFailed

  datatype BootPoint =
    | TickClear(ref: Ref)
    | ClearFirst(ref: Ref)
    | Start(restoring: Option<Ref>)
    | Probe(restoring: Option<Ref>)
    | SaveStarted(ref: Ref)
    | ClearStarted(ref: Ref)
    | Heartbeat

  /** Where the process that holds the executor lock stands. */
  datatype Pc =
    | Idle
    | AtApply(o: nat, apply: ApplyPoint)
    | AtConfirm(o: nat, ref: Ref, confirm: ConfirmPoint)
    | AtRollback(o: nat, agent: Agent, rollback: RollbackPoint)
    | AtBoot(name: string, start: BootPoint)

  /** A confirmation: the last clock sample before it, and the status it was made from. */
  datatype Confirmation = Confirmation(boot: nat, at: int, from: SshStatus)

  /** A listener start: what it read, and what had been confirmed by then. */
  datatype Launch = Launch(name: string, content: string, confirmed: set<nat>)

  /** What has happened, for stating results. `automatic` lists the operations on which the
      watchdog or the startup path began a rollback; `operated` holds those on which an
      operator's recovery began after they had been confirmed. */
  datatype History = History(
    armed: map<nat, Ref>,
    settled: set<nat>,
    confirmed: map<nat, Confirmation>,
    automatic: seq<nat>,
    operated: set<nat>,
    launches: seq<Launch>)

  datatype Host = Host(
    status: seq<SshStatus>,
    guards: map<string, Option<Ref>>,
    files: map<string, string>,
    reloaded: map<nat, nat>,
    listeners: map<string, string>,
    boot: nat,
    now: int,
    pc: Pc,
    history: History)

  /** What the environment makes of one primitive; `Late` takes effect and reports an error. */
  datatype Fate = Good | Bad | Late

  datatype Event =
    | Pass(ticks: nat)
    | Reboot(now: int)
    | Kill(name: string)
    | Crash
    | BeginApply(o: nat)
    | BeginConfirm(o: nat)
    | BeginRecover(o: nat)
    | BeginTick(name: string)
    | BeginBoot(name: string)
    | Beat(name: string)
    | Step(fate: Fate)

  type Plans = seq<Op>

  predicate Pending(h: Host, name: string) {
    name in h.guards && h.guards[name].Some?
  }

  predicate AnyPending(h: Host) {
    exists name <- h.guards :: Pending(h, name)
  }

  function FileOf(h: Host, name: string): Option<string> {
    if name in h.files then Some(h.files[name]) else None
  }

  predicate Expired(h: Host, ref: Ref) {
    h.boot != ref.boot || h.now >= ref.deadline
  }

  // ------------------------------------------------------------- primitives

  function To(h: Host, pc: Pc): Host { h.(pc := pc) }

  /** A read or a check: no effect, and control by its outcome. */
  function Check(h: Host, f: Fate, ok: Pc, err: Pc): Host {
    To(h, if f.Good? then ok else err)
  }

  function Settles(st: SshStatus): bool { st in {Committed, Recovered} }

  /** A save of the operation journal. */
  function Save(h: Host, f: Fate, o: nat, st: SshStatus, ok: Pc, err: Pc): Host {
    if f.Bad? || o >= |h.status| then To(h, err)
    else
      var settled := if Settles(st) then h.history.settled + {o} else h.history.settled;
      To(h.(status := h.status[o := st], history := h.history.(settled := settled)), if f.Good? then ok else err)
  }

  /** ClearRecoveryGuard: clears the row only when it still holds the expected receipt. */
  function Clear(h: Host, f: Fate, name: string, expected: Ref, ok: Pc, err: Pc): Host {
    if f.Bad? || name !in h.guards || h.guards[name] != Some(expected) then To(h, err)
    else To(h.(guards := h.guards[name := None]), if f.Good? then ok else err)
  }

  function Loses(h: Host, name: string): Host {
    h.(listeners := h.listeners - {name})
  }

  /** The service whose supervisor holds the lock, when a supervisor does. */
  function Supervisor(ops: Plans, pc: Pc): Option<string> {
    match pc
    case AtBoot(name, _) => Some(name)
    case AtRollback(o, agent, _) => if agent.Operator? || o >= |ops| then None else Some(ops[o].name)
    case _ => None
  }

  // ------------------------------------------------------------- apply and confirm

  function ApplyStep(ops: Plans, h: Host, o: nat, at: ApplyPoint, f: Fate): Host
    requires o < |ops| == |h.status|
  {
    var name := ops[o].name;
    var failed := AtApply(o, GiveUp(false));
    // A process whose last save was only half acknowledged holds a stale revision.
    var unsaved := AtApply(o, GiveUp(f.Late?));
    match at
    case Arm(ref) =>
      if f.Bad? || name !in h.guards || h.guards[name].Some? then To(h, Idle)
      else
        To(h.(guards := h.guards[name := Some(ref)], history := h.history.(armed := h.history.armed[o := ref])),
           if f.Good? then AtApply(o, RecordDeadline) else Idle)
    case RecordDeadline => Check(h, f, AtApply(o, SaveArmed), failed)
    case SaveArmed => Save(h, f, o, Armed, AtApply(o, SaveApplying), unsaved)
    case SaveApplying => Save(h, f, o, Applying, AtApply(o, Install), unsaved)
    case Install =>
      if f.Bad? || FileOf(h, name) != Some(ops[o].before) then To(h, failed)
      else To(h.(files := h.files[name := ops[o].after]), if f.Good? then AtApply(o, CheckInstalled) else failed)
    case CheckInstalled => Check(h, f, AtApply(o, Reload), failed)
    case Reload =>
      if !f.Good? || name !in h.listeners || name !in h.files then To(h, failed)
      else To(h.(listeners := h.listeners[name := h.files[name]]), AtApply(o, ProbeNew))
    case ProbeNew => Check(h, f, AtApply(o, RecordReload), failed)
    case RecordReload =>
      if f.Bad? then To(h, failed)
      else To(h.(reloaded := h.reloaded[o := h.boot]), if f.Good? then AtApply(o, CheckAfter) else failed)
    case CheckAfter =>
      Check(h, if FileOf(h, name) == Some(ops[o].after) then f else Bad, AtApply(o, SaveAwaiting), failed)
    case SaveAwaiting => Save(h, f, o, AwaitingConfirmation, Idle, unsaved)
    case GiveUp(stale) => Save(h, if stale then Bad else f, o, Unknown, Idle, Idle)
  }

  function Confirmed(h: History, o: nat, y: Confirmation): History {
    h.(confirmed := h.confirmed[o := y])
  }

  function ConfirmStep(ops: Plans, h: Host, o: nat, ref: Ref, at: ConfirmPoint, f: Fate): Host
    requires o < |ops| == |h.status|
  {
    match at
    case Prove => Check(h, f, AtConfirm(o, ref, Resample), Idle)
    case Resample => To(h, if f.Good? && h.now < ref.deadline then AtConfirm(o, ref, SaveCommitted(h.now)) else Idle)
    case SaveCommitted(sampled) =>
      if f.Bad? then To(h, Idle)
      else
        var confirmed := h.(history := Confirmed(h.history, o, Confirmation(h.boot, sampled, h.status[o])));
        Save(confirmed, f, o, Committed, AtConfirm(o, ref, ClearGuard), Idle)
    case ClearGuard => Clear(h, f, ops[o].name, ref, Idle, Idle)
  }

  // ------------------------------------------------------------- rollback

  predicate HasMaster(agent: Agent) {
    agent.Watchdog? || (agent.Operator? && agent.alive)
  }

  function Began(h: History, o: nat, agent: Agent): History {
    if !agent.Operator? then h.(automatic := h.automatic + [o])
    else if o in h.confirmed then h.(operated := h.operated + {o})
    else h
  }

  function RollbackStep(ops: Plans, h: Host, o: nat, agent: Agent, at: RollbackPoint, f: Fate): Host
    requires o < |ops| == |h.status|
  {
    var name := ops[o].name;
    var failed := AtRollback(o, agent, SaveFailed);
    match at
    case SaveRollingBack =>
      if f.Bad? then To(h, Idle)
      else Save(h.(history := Began(h.history, o, agent)), f, o, RollingBack, AtRollback(o, agent, VerifyInputs), Idle)
    case VerifyInputs => Check(h, f, AtRollback(o, agent, Restore), failed)
    case Restore =>
      if f.Bad? then To(h, failed)
      else if FileOf(h, name) == Some(ops[o].before) then Check(h, f, AtRollback(o, agent, CheckBefore), failed)
      else if FileOf(h, name) != Some(ops[o].after) then To(h, failed)
      else To(h.(files := h.files[name := ops[o].before]), if f.Good? then AtRollback(o, agent, CheckBefore) else failed)
    case CheckBefore =>
      if !f.Good? || FileOf(h, name) != Some(ops[o].before) then To(h, failed)
      else if HasMaster(agent) then To(h, AtRollback(o, agent, ReloadOld))
      else if agent.Startup? then To(h, AtBoot(name, Start(Some(agent.ref))))
      else To(h, Idle)
    case ReloadOld =>
      if !f.Good? || name !in h.listeners || name !in h.files then To(h, failed)
      else To(h.(listeners := h.listeners[name := h.files[name]]), AtRollback(o, agent, ProbeOld))
    case ProbeOld => Check(h, f, AtRollback(o, agent, SaveRecovered), failed)
    case SaveRecovered => Save(h, f, o, Recovered, AtRollback(o, agent, ClearSettled), Idle)
    case ClearSettled =>
      if !Pending(h, name) || h.guards[name].value.op != o then To(h, Idle)
      else Clear(h, f, name, h.guards[name].value, Idle, Idle)
    case SaveFailed => Save(h, f, o, RecoveryFailed, Idle, Idle)
  }

  // ------------------------------------------------------------- startup

  /** A heartbeat creates the guard row, and never touches what is pending in it. */
  function Beaten(h: Host, name: string): Host {
    h.(guards := if name in h.guards then h.guards else h.guards[name := None])
  }

  function BootStep(ops: Plans, h: Host, name: string, at: BootPoint, f: Fate): Host
    requires |ops| == |h.status|
  {
    match at
    case TickClear(ref) => Clear(h, f, name, ref, Idle, Idle)
    case ClearFirst(ref) => Clear(h, f, name, ref, AtBoot(name, Start(None)), Idle)
    case Start(restoring) =>
      if !f.Good? || name !in h.files then To(h, Idle)
      else
        var launch := Launch(name, h.files[name], h.history.confirmed.Keys);
        To(h.(listeners := h.listeners[name := h.files[name]], history := h.history.(launches := h.history.launches + [launch])),
           AtBoot(name, Probe(restoring)))
    case Probe(restoring) =>
      if !f.Good? then To(Loses(h, name), Idle)
      else if restoring.None? then To(h, AtBoot(name, Heartbeat))
      // The listener must serve the original port before the operation counts as recovered.
      else if restoring.value.op >= |ops| || name !in h.listeners || h.listeners[name] != ops[restoring.value.op].before
      then To(Loses(h, name), Idle)
      else To(h, AtBoot(name, SaveStarted(restoring.value)))
    case SaveStarted(ref) =>
      var saved := Save(h, f, ref.op, Recovered, AtBoot(name, ClearStarted(ref)), Idle);
      if f.Good? then saved else Loses(saved, name)
    case ClearStarted(ref) =>
      var cleared := Clear(h, f, name, ref, AtBoot(name, Heartbeat), Idle);
      if cleared.pc.Idle? then Loses(cleared, name) else cleared
    case Heartbeat =>
      if f.Bad? then To(Loses(h, name), Idle)
      else if f.Good? then To(Beaten(h, name), Idle)
      else To(Loses(Beaten(h, name), name), Idle)
  }

  // ------------------------------------------------------------- events

  /** Where a request starts, decided under the lock; most states refuse at once. */
  function BeginOf(ops: Plans, h: Host, e: Event): Pc
    requires |h.status| == |ops|
  {
    match e
    case BeginApply(o) =>
      if || o >= |ops| || h.status[o] != Ready || AnyPending(h)
         || ops[o].name !in h.guards || ops[o].name !in h.listeners || FileOf(h, ops[o].name) != Some(ops[o].before)
      then Idle
      else AtApply(o, Arm(Ref(o, h.boot, h.now + ops[o].window)))
    case BeginConfirm(o) =>
      if || o >= |ops| || h.status[o] != AwaitingConfirmation || !Pending(h, ops[o].name)
         || h.guards[ops[o].name].value.op != o || ops[o].name !in h.listeners || Expired(h, h.guards[ops[o].name].value)
         || FileOf(h, ops[o].name) != Some(ops[o].after) || o !in h.reloaded || h.reloaded[o] != h.boot
      then Idle
      else AtConfirm(o, h.guards[ops[o].name].value, Prove)
    case BeginRecover(o) =>
      if || o >= |ops| || h.status[o] in {Recovered, Ready} || ops[o].name !in h.guards
         || (Pending(h, ops[o].name) && h.guards[ops[o].name].value.op != o)
      then Idle
      else AtRollback(o, Operator(ops[o].name in h.listeners), SaveRollingBack)
    case BeginTick(name) =>
      if name !in h.listeners || !Pending(h, name) || !Expired(h, h.guards[name].value) then Idle
      else
        var ref := h.guards[name].value;
        if ref.op >= |ops| || ops[ref.op].name != name then Idle
        else if Settles(h.status[ref.op]) then AtBoot(name, TickClear(ref))
        else if h.status[ref.op] == RecoveryFailed then Idle
        else AtRollback(ref.op, Watchdog, SaveRollingBack)
    case BeginBoot(name) =>
      if name in h.listeners then Idle
      else if !Pending(h, name) then AtBoot(name, Start(None))
      else
        var ref := h.guards[name].value;
        if ref.op >= |ops| || ops[ref.op].name != name then Idle
        else if Settles(h.status[ref.op]) then AtBoot(name, ClearFirst(ref))
        else if h.status[ref.op] == RecoveryFailed then Idle
        else AtRollback(ref.op, Startup(ref), SaveRollingBack)
    case _ => h.pc
  }

  function StepOf(ops: Plans, h: Host, f: Fate): Host
    requires |h.status| == |ops|
  {
    match h.pc
    case Idle => h
    case AtApply(o, at) => if o < |ops| then ApplyStep(ops, h, o, at, f) else To(h, Idle)
    case AtConfirm(o, ref, at) => if o < |ops| then ConfirmStep(ops, h, o, ref, at, f) else To(h, Idle)
    case AtRollback(o, agent, at) => if o < |ops| then RollbackStep(ops, h, o, agent, at, f) else To(h, Idle)
    case AtBoot(name, at) => BootStep(ops, h, name, at, f)
  }

  /** The lock holder dies; a supervisor takes its listener with it. */
  function Crashed(ops: Plans, h: Host): Host {
    var owner := Supervisor(ops, h.pc);
    To(if owner.Some? then Loses(h, owner.value) else h, Idle)
  }

  function Do(ops: Plans, h: Host, e: Event): Host {
    if |h.status| != |ops| then h
    else
      match e
      case Pass(ticks) => h.(now := h.now + ticks)
      case Reboot(now) => h.(boot := h.boot + 1, now := now, listeners := map[], pc := Idle)
      case Kill(name) => if Supervisor(ops, h.pc) == Some(name) then Crashed(ops, h) else Loses(h, name)
      case Crash => Crashed(ops, h)
      case Step(f) => StepOf(ops, h, f)
      // The loop of a running supervisor beats without the lock; a beat that fails ends it (`Kill`).
      case Beat(name) => if name in h.listeners && Supervisor(ops, h.pc) != Some(name) then Beaten(h, name) else h
      case _ => if h.pc.Idle? then To(h, BeginOf(ops, h, e)) else h
  }

  function Run(ops: Plans, h: Host, events: seq<Event>): Host
    decreases |events|
  {
    if events == [] then h else Run(ops, Do(ops, h, events[0]), events[1..])
  }
}
