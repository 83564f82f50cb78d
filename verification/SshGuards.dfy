/** The guard column of the SSH machine is the pending column of the guard table: every step
    of apply, confirm, recover, watchdog, startup and heartbeat changes it by one request of
    `GuardStore`, and by nothing else. */
module SshGuards {
  import opened Ssh
  import opened SshSafety
  import opened SshTheorems
  import opened Wrappers
  import Store = GuardStore

  /** A lease stands for the clock of its heartbeat. */
  type Table = Store.Table<int, Ref>
  type Request = Store.Request<int, Ref>

  /** An operation, its digest, a boot and two times take no more. */
  const REF_BYTES := 512
  const LEASE_BYTES := 8192

  function Encoded(ref: Ref): Doc<Ref> { Doc(ref, REF_BYTES, true) }

  function Column(pending: Option<Ref>): Option<Doc<Ref>> {
    if pending.Some? then Some(Encoded(pending.value)) else None
  }

  /** The rows of `target` show the guards of its host. */
  ghost predicate Shows(target: string, rows: Table, guards: Guards) {
    forall name ::
      && (name in guards <==> Store.Key(target, name) in rows)
      && (name in guards ==> rows[Store.Key(target, name)].pending == Column(guards[name]))
  }

  function Beats(target: string, name: string, now: int): Request {
    Store.Put(Store.Key(target, name), Doc(now, LEASE_BYTES, true))
  }

  function Clears(target: string, name: string, ref: Ref): Request {
    Store.ClearPending(Store.Key(target, name), Encoded(ref))
  }

  /** What the next primitive asks the table, if it reaches it. */
  function StepAsks(target: string, ops: Plans, h: Host, f: Fate): Option<Request> {
    if f.Bad? then None
    else
      match h.pc
      case AtApply(o, Arm(ref)) => if o < |ops| then Some(Store.Arm(Store.Key(target, ops[o].name), Encoded(ref))) else None
      case AtConfirm(o, ref, ClearGuard) => if o < |ops| then Some(Clears(target, ops[o].name, ref)) else None
      case AtRollback(o, _, ClearSettled) =>
        if o < |ops| && Pending(h, ops[o].name) && h.guards[ops[o].name].value.op == o
        then Some(Clears(target, ops[o].name, h.guards[ops[o].name].value)) else None
      case AtBoot(name, TickClear(ref)) => Some(Clears(target, name, ref))
      case AtBoot(name, ClearFirst(ref)) => Some(Clears(target, name, ref))
      case AtBoot(name, ClearStarted(ref)) => Some(Clears(target, name, ref))
      case AtBoot(name, Heartbeat) => Some(Beats(target, name, h.now))
      case _ => None
  }

  function Asks(target: string, ops: Plans, h: Host, e: Event): Option<Request> {
    if |h.status| != |ops| then None
    else if e.Step? then StepAsks(target, ops, h, e.fate)
    else if e.Beat? && e.name in h.listeners && Supervisor(ops, h.pc) != Some(e.name) then Some(Beats(target, e.name, h.now))
    else None
  }

  /** Everything that a run asks of the table. */
  function AllAsked(target: string, ops: Plans, h: Host, events: seq<Event>): seq<Request>
    decreases |events|
  {
    if events == [] then []
    else
      var asked := Asks(target, ops, h, events[0]);
      (if asked.Some? then [asked.value] else []) + AllAsked(target, ops, Do(ops, h, events[0]), events[1..])
  }

  // ------------------------------------------------------------- names

  predicate Fits(name: string) {
    1 <= |name| <= Store.MAX_NAME
  }

  /** The names of validated services: of plans, of running listeners, of the supervisor. */
  predicate NamesFit(ops: Plans, h: Host) {
    && (forall op <- ops :: Fits(op.name)) && (forall name <- h.listeners :: Fits(name))
    && (h.pc.AtBoot? ==> Fits(h.pc.name))
  }

  /** A supervisor validates its service before anything else. */
  predicate Validated(e: Event) {
    e.BeginBoot? || e.BeginTick? ==> Fits(e.name)
  }

  lemma ApplyNames(ops: Plans, h: Host, o: nat, at: ApplyPoint, f: Fate)
    requires NamesFit(ops, h) && o < |ops| == |h.status|
    ensures NamesFit(ops, ApplyStep(ops, h, o, at, f))
  {
    hide Fits;
  }

  lemma ConfirmNames(ops: Plans, h: Host, o: nat, ref: Ref, at: ConfirmPoint, f: Fate)
    requires NamesFit(ops, h) && o < |ops| == |h.status|
    ensures NamesFit(ops, ConfirmStep(ops, h, o, ref, at, f))
  {
    hide Fits;
  }

  lemma RollbackNames(ops: Plans, h: Host, o: nat, agent: Agent, at: RollbackPoint, f: Fate)
    requires NamesFit(ops, h) && o < |ops| == |h.status|
    ensures NamesFit(ops, RollbackStep(ops, h, o, agent, at, f))
  {
    hide Fits;
    hide FileOf;
    hide Began;
    assert ops[o] in ops;
  }

  lemma ClearListens(h: Host, f: Fate, name: string, expected: Ref, ok: Pc, err: Pc)
    ensures Clear(h, f, name, expected, ok, err).listeners == h.listeners
  {
  }

  lemma SaveListens(h: Host, f: Fate, o: nat, st: SshStatus, ok: Pc, err: Pc)
    ensures Save(h, f, o, st, ok, err).listeners == h.listeners
  {
    hide Settles;
  }

  /** A startup starts at most its own listener and stays the startup of its own service. */
  lemma BootListens(ops: Plans, h: Host, name: string, at: BootPoint, f: Fate)
    requires |ops| == |h.status|
    ensures var t := BootStep(ops, h, name, at, f);
      && (forall n <- t.listeners :: n == name || n in h.listeners) && (t.pc.AtBoot? ==> t.pc.name == name)
      && (t.pc.AtBoot? || t.pc.Idle?)
  {
    match at
    case TickClear(ref) =>
      ClearListens(h, f, name, ref, Idle, Idle);
      ClearLeadsTo(h, f, name, ref, Idle, Idle);
      hide Clear;
    case ClearFirst(ref) =>
      ClearListens(h, f, name, ref, AtBoot(name, Start(None)), Idle);
      ClearLeadsTo(h, f, name, ref, AtBoot(name, Start(None)), Idle);
      hide Clear;
    case ClearStarted(ref) =>
      ClearListens(h, f, name, ref, AtBoot(name, Heartbeat), Idle);
      ClearLeadsTo(h, f, name, ref, AtBoot(name, Heartbeat), Idle);
      hide Clear;
    case SaveStarted(ref) =>
      SaveListens(h, f, ref.op, Recovered, AtBoot(name, ClearStarted(ref)), Idle);
      SaveLeadsTo(h, f, ref.op, Recovered, AtBoot(name, ClearStarted(ref)), Idle);
      hide Save;
    case _ =>
      hide Save;
      hide Clear;
  }

  lemma BootNames(ops: Plans, h: Host, name: string, at: BootPoint, f: Fate)
    requires NamesFit(ops, h) && Fits(name) && |ops| == |h.status|
    ensures NamesFit(ops, BootStep(ops, h, name, at, f))
  {
    BootListens(ops, h, name, at, f);
    hide BootStep;
    hide Fits;
  }

  lemma NamesStayFit(ops: Plans, h: Host, e: Event)
    requires NamesFit(ops, h) && Validated(e)
    ensures NamesFit(ops, Do(ops, h, e))
  {
    if e.Step? && |h.status| == |ops| {
      match h.pc
      case Idle =>
      case AtApply(o, at) => if o < |ops| { ApplyNames(ops, h, o, at, e.fate); }
      case AtConfirm(o, ref, at) => if o < |ops| { ConfirmNames(ops, h, o, ref, at, e.fate); }
      case AtRollback(o, agent, at) => if o < |ops| { RollbackNames(ops, h, o, agent, at, e.fate); }
      case AtBoot(name, at) => BootNames(ops, h, name, at, e.fate);
      hide ApplyStep;
      hide ConfirmStep;
      hide RollbackStep;
      hide BootStep;
    } else {
      hide StepOf;
      hide Fits;
    }
  }

  // ------------------------------------------------------------- one step, one request

  /** The table after a request, when there is one. */
  function Asked(rows: Table, r: Option<Request>): Table {
    if r.Some? then Store.Answer(rows, r.value) else rows
  }

  lemma ArmShows(target: string, rows: Table, guards: Guards, name: string, ref: Ref)
    requires Shows(target, rows, guards)
    ensures Shows(target, Store.Answer(rows, Store.Arm(Store.Key(target, name), Encoded(ref))),
                  if name in guards && guards[name].None? then guards[name := Some(ref)] else guards)
  {
  }

  lemma ClearShows(target: string, rows: Table, guards: Guards, name: string, ref: Ref)
    requires Shows(target, rows, guards)
    ensures Shows(target, Store.Answer(rows, Clears(target, name, ref)),
                  if name in guards && guards[name] == Some(ref) then guards[name := None] else guards)
  {
  }

  lemma BeatShows(target: string, rows: Table, guards: Guards, name: string, now: int)
    requires Shows(target, rows, guards) && target != "" && Fits(name)
    ensures Shows(target, Store.Answer(rows, Beats(target, name, now)), if name in guards then guards else guards[name := None])
  {
  }

  function Armed(guards: Guards, name: string, ref: Ref): Guards {
    if name in guards && guards[name].None? then guards[name := Some(ref)] else guards
  }

  function Cleared(guards: Guards, name: string, ref: Ref): Guards {
    if name in guards && guards[name] == Some(ref) then guards[name := None] else guards
  }

  lemma ClearChanges(h: Host, f: Fate, name: string, ref: Ref, ok: Pc, err: Pc)
    ensures Clear(h, f, name, ref, ok, err).guards == if f.Bad? then h.guards else Cleared(h.guards, name, ref)
  {
  }

  lemma SaveChangesNone(h: Host, f: Fate, o: nat, st: SshStatus, ok: Pc, err: Pc)
    ensures Save(h, f, o, st, ok, err).guards == h.guards
  {
  }

  lemma ApplyChanges(ops: Plans, h: Host, o: nat, at: ApplyPoint, f: Fate)
    requires o < |ops| == |h.status|
    ensures ApplyStep(ops, h, o, at, f).guards == if at.Arm? && !f.Bad? then Armed(h.guards, ops[o].name, at.ref) else h.guards
  {
    hide FileOf;
    hide Settles;
  }

  lemma ConfirmChanges(ops: Plans, h: Host, o: nat, ref: Ref, at: ConfirmPoint, f: Fate)
    requires o < |ops| == |h.status|
    ensures ConfirmStep(ops, h, o, ref, at, f).guards == if at.ClearGuard? && !f.Bad? then Cleared(h.guards, ops[o].name, ref) else h.guards
  {
    if at.ClearGuard? { ClearChanges(h, f, ops[o].name, ref, Idle, Idle); }
    hide Cleared;
    hide Clear;
  }

  lemma RollbackChanges(ops: Plans, h: Host, o: nat, agent: Agent, at: RollbackPoint, f: Fate)
    requires o < |ops| == |h.status|
    ensures var name := ops[o].name;
      RollbackStep(ops, h, o, agent, at, f).guards ==
        if at.ClearSettled? && !f.Bad? && Pending(h, name) && h.guards[name].value.op == o
        then Cleared(h.guards, name, h.guards[name].value) else h.guards
  {
    if at.ClearSettled? && Pending(h, ops[o].name) { ClearChanges(h, f, ops[o].name, h.guards[ops[o].name].value, Idle, Idle); }
    hide Cleared;
    hide Clear;
    hide FileOf;
    hide Began;
    hide Settles;
  }

  lemma BootChanges(ops: Plans, h: Host, name: string, at: BootPoint, f: Fate)
    requires |ops| == |h.status|
    ensures BootStep(ops, h, name, at, f).guards ==
      if f.Bad? then h.guards
      else match at
        case TickClear(ref) => Cleared(h.guards, name, ref)
        case ClearFirst(ref) => Cleared(h.guards, name, ref)
        case ClearStarted(ref) => Cleared(h.guards, name, ref)
        case Heartbeat => Beaten(h, name).guards
        case _ => h.guards
  {
    match at
    case TickClear(ref) => ClearChanges(h, f, name, ref, Idle, Idle); hide Clear; hide Cleared;
    case ClearFirst(ref) => ClearChanges(h, f, name, ref, AtBoot(name, Start(None)), Idle); hide Clear; hide Cleared;
    case ClearStarted(ref) => ClearChanges(h, f, name, ref, AtBoot(name, Heartbeat), Idle); hide Clear; hide Cleared;
    case SaveStarted(ref) => SaveChangesNone(h, f, ref.op, Recovered, AtBoot(name, ClearStarted(ref)), Idle); hide Save;
    case _ => hide Save; hide Clear;
  }

  lemma ApplyIsStored(target: string, ops: Plans, h: Host, f: Fate, rows: Table)
    requires h.pc.AtApply? && |h.status| == |ops| && Shows(target, rows, h.guards)
    ensures Shows(target, Asked(rows, StepAsks(target, ops, h, f)), StepOf(ops, h, f).guards)
  {
    hide Shows;
    hide Encoded;
    hide Store.Answer;
    hide ApplyStep;
    if h.pc.o < |ops| {
      ApplyChanges(ops, h, h.pc.o, h.pc.apply, f);
      if h.pc.apply.Arm? { ArmShows(target, rows, h.guards, ops[h.pc.o].name, h.pc.apply.ref); }
    }
  }

  lemma ConfirmIsStored(target: string, ops: Plans, h: Host, f: Fate, rows: Table)
    requires h.pc.AtConfirm? && |h.status| == |ops| && Shows(target, rows, h.guards)
    ensures Shows(target, Asked(rows, StepAsks(target, ops, h, f)), StepOf(ops, h, f).guards)
  {
    hide Shows;
    hide Clears;
    hide Store.Answer;
    hide ConfirmStep;
    if h.pc.o < |ops| {
      ConfirmChanges(ops, h, h.pc.o, h.pc.ref, h.pc.confirm, f);
      ClearShows(target, rows, h.guards, ops[h.pc.o].name, h.pc.ref);
    }
  }

  lemma RollbackIsStored(target: string, ops: Plans, h: Host, f: Fate, rows: Table)
    requires h.pc.AtRollback? && |h.status| == |ops| && Shows(target, rows, h.guards)
    ensures Shows(target, Asked(rows, StepAsks(target, ops, h, f)), StepOf(ops, h, f).guards)
  {
    hide Shows;
    hide Clears;
    hide Store.Answer;
    hide RollbackStep;
    if h.pc.o < |ops| {
      var name := ops[h.pc.o].name;
      RollbackChanges(ops, h, h.pc.o, h.pc.agent, h.pc.rollback, f);
      if Pending(h, name) { ClearShows(target, rows, h.guards, name, h.guards[name].value); }
    }
  }

  lemma BootIsStored(target: string, ops: Plans, h: Host, f: Fate, rows: Table)
    requires h.pc.AtBoot? && |h.status| == |ops| && Shows(target, rows, h.guards) && target != "" && Fits(h.pc.name)
    ensures Shows(target, Asked(rows, StepAsks(target, ops, h, f)), StepOf(ops, h, f).guards)
  {
    hide Shows;
    hide Clears;
    hide Beats;
    hide Store.Answer;
    hide Fits;
    hide BootStep;
    var name, at := h.pc.name, h.pc.start;
    BootChanges(ops, h, name, at, f);
    if at.TickClear? || at.ClearFirst? || at.ClearStarted? { ClearShows(target, rows, h.guards, name, at.ref); }
    BeatShows(target, rows, h.guards, name, h.now);
  }

  lemma StepIsStored(target: string, ops: Plans, h: Host, f: Fate, rows: Table)
    requires target != "" && NamesFit(ops, h) && |h.status| == |ops| && Shows(target, rows, h.guards)
    ensures Shows(target, Asked(rows, StepAsks(target, ops, h, f)), StepOf(ops, h, f).guards)
  {
    match h.pc
    case Idle =>
      hide Shows;
    case AtApply(_, _) => ApplyIsStored(target, ops, h, f, rows);
    case AtConfirm(_, _, _) => ConfirmIsStored(target, ops, h, f, rows);
    case AtRollback(_, _, _) => RollbackIsStored(target, ops, h, f, rows);
    case AtBoot(name, _) =>
      assert Fits(name);
      BootIsStored(target, ops, h, f, rows);
    hide *;
  }

  lemma EventIsStored(target: string, ops: Plans, h: Host, e: Event, rows: Table)
    requires target != "" && NamesFit(ops, h) && Shows(target, rows, h.guards)
    ensures Shows(target, Asked(rows, Asks(target, ops, h, e)), Do(ops, h, e).guards)
  {
    if e.Step? && |h.status| == |ops| {
      StepIsStored(target, ops, h, e.fate, rows);
      hide StepOf;
    } else if e.Beat? && e.name in h.listeners {
      BeatShows(target, rows, h.guards, e.name, h.now);
    } else {
      hide StepOf;
      hide BeginOf;
    }
    hide Shows;
  }

  /** Over every run the pending column of the table is the guard column of the machine: the
      table is changed by the requests of the run, heartbeats included, and by nothing else. */
  lemma {:induction false} RunIsStored(target: string, ops: Plans, h: Host, events: seq<Event>, rows: Table)
    requires target != "" && NamesFit(ops, h) && Shows(target, rows, h.guards)
    requires forall e <- events :: Validated(e)
    ensures Shows(target, Store.AnswerAll(rows, AllAsked(target, ops, h, events)), Run(ops, h, events).guards)
    decreases |events|
  {
    hide Shows;
    hide NamesFit;
    hide Asks;
    hide Validated;
    hide Do;
    hide Store.Answer;
    if events != [] {
      var asked := Asks(target, ops, h, events[0]);
      var rest := AllAsked(target, ops, Do(ops, h, events[0]), events[1..]);
      assert events[0] in events && forall e <- events[1..] :: e in events;
      EventIsStored(target, ops, h, events[0], rows);
      NamesStayFit(ops, h, events[0]);
      RunIsStored(target, ops, Do(ops, h, events[0]), events[1..], Asked(rows, asked));
      if asked.Some? {
        assert ([asked.value] + rest)[1..] == rest;
      } else {
        assert [] + rest == rest;
      }
    }
  }

  /** From arming to settling, through every heartbeat, restart and foreign request, the row in
      the table holds exactly the reference that was armed. */
  lemma PendingIsStored(target: string, ops: Plans, first: Files, h0: Host, events: seq<Event>, rows: Table, o: nat)
    requires target != "" && Initial(ops, first, h0) && NamesFit(ops, h0) && Shows(target, rows, h0.guards)
    requires forall e <- events :: Validated(e)
    ensures var h, table := Run(ops, h0, events), Store.AnswerAll(rows, AllAsked(target, ops, h0, events));
      o in h.history.armed && o !in h.history.settled ==>
        o < |ops| && Store.PendingIs(table, Store.Key(target, ops[o].name), Some(Encoded(h.history.armed[o])))
  {
    hide Run;
    hide AllAsked;
    RunIsStored(target, ops, h0, events, rows);
    PendingIsKept(ops, first, h0, events, o);
  }

  /** The test for a pending operation of the target reads the same in the table. */
  lemma ArmedShows(target: string, rows: Table, h: Host)
    requires Shows(target, rows, h.guards)
    ensures Store.AnyArmed(rows, target) <==> AnyPending(h)
  {
    if AnyPending(h) {
      var name :| name in h.guards && Pending(h, name);
      assert Store.Key(target, name) in rows;
    }
    if Store.AnyArmed(rows, target) {
      var k :| k in rows && k.target == target && rows[k].pending.Some?;
      assert k == Store.Key(target, k.name);
      assert Pending(h, k.name);
    }
  }
}
