/** The outcomes of a service transaction: one apply with at most one automatic rollback
    (recovery/engine.go and recovery/service.go). */
module Service {
  import opened Paths
  import opened RecoveryTypes
  import opened Engine
  import opened EngineSafety
  import opened EngineTheorems
  import opened EngineRollback

  predicate SavesJournal(pc: Pc) {
    match pc
    case ApplyValidating | ApplyInvalid | ApplyRecord | ApplyVerifying | ApplyCommit | ApplyGiveUp => true
    case RollbackRecord | RestoreCommit | RestoreFailed => true
    case _ => false
  }

  /** Every journal save of this run succeeds; anything else may fail. */
  predicate SavesSucceed(p: Plan, m: Machine, fates: seq<Fate>)
    decreases |fates|
  {
    m.pc.Idle? || fates == [] || ((SavesJournal(m.pc) ==> fates[0].Done?) && SavesSucceed(p, Step(p, m, fates[0]), fates[1..]))
  }

  /** Where an apply of a service can stand, and with what it can return. */
  predicate ServiceRun(p: Plan, m: Machine) {
    p.service &&
    match m.pc
    case Idle(_) => m.world.status in {Ready, ValidationFailed, Committed, Recovered, RecoveryFailed}
    case PrepareRecord | PrepareReady | PrepareGiveUp | CancelRecord | ApplyGiveUp => false
    case PrepareEntry(_) => false
    case PrepareBackup(_) => false
    case PrepareCandidate(_) => false
    case ReconcileRecord(_) => false
    case _ => true
  }

  lemma {:induction false} ServiceRunEnds(p: Plan, m: Machine, fates: seq<Fate>)
    requires ServiceRun(p, m) && SavesSucceed(p, m, fates)
    ensures ServiceRun(p, Execute(p, m, fates))
    decreases |fates|
  {
    hide At;
    hide Set;
    hide Move;
    hide Undo;
    if !m.pc.Idle? && fates != [] {
      ServiceRunEnds(p, Step(p, m, fates[0]), fates[1..]);
    }
  }

  /** An apply of a prepared service that returns has left the service in one of three verified
      or reported states, or refused without touching it. */
  lemma ServiceOutcomes(p: Plan, w: World, authorized: bool, current: bool, fates: seq<Fate>)
    requires ValidPlan(p) && p.service && w.status == Ready && Journal(p, w) && Serving(p, w)
    requires SavesSucceed(p, Start(p, w, Apply(authorized, current)), fates)
    requires Execute(p, Start(p, w, Apply(authorized, current)), fates).pc.Idle?
    ensures var m := Execute(p, Start(p, w, Apply(authorized, current)), fates);
            var s := m.world;
            && (Succeeded(Apply(authorized, current), m) ==> s.status == Committed)
            && match s.status
               case Committed => After(p, s.disk, 0) && RunsAfter(p, s)
               case Recovered => Before(p, s.disk, 0) && RunsBefore(p, s)
               case RecoveryFailed => Safe(p, s.disk)
               case Ready | ValidationFailed => Exact(p, s.disk, 0) && RunsBefore(p, s)
               case _ => false
  {
    hide At;
    hide Step;
    var c := Apply(authorized, current);
    BeginKeeps(p, w, c);
    ExecuteKeeps(p, Start(p, w, c), fates);
    ServiceRunEnds(p, Start(p, w, c), fates);
    hide Execute;
    var s := Execute(p, Start(p, w, c), fates).world;
    if s.status in {Ready, ValidationFailed} { assert PristineEntry(p, s.disk, 0); }
  }

  // ------------------------------------------------------------- one rollback

  /** How often this run begins a rollback. */
  function Rollbacks(p: Plan, m: Machine, fates: seq<Fate>): nat
    decreases |fates|
  {
    if m.pc.Idle? || fates == [] then 0
    else (if m.pc.RollbackRecord? then 1 else 0) + Rollbacks(p, Step(p, m, fates[0]), fates[1..])
  }

  predicate PastRollback(pc: Pc) {
    match pc
    case RestoreVerify | RestoreReload | RestoreCommit | RestoreFailed => true
    case RestoreEntry(_, _) => true
    case RestoreUndo(_, _) => true
    case RestoreStaged(_, _) => true
    case Idle(_) => true
    case _ => false
  }

  lemma {:induction false} NoSecondRollback(p: Plan, m: Machine, fates: seq<Fate>)
    requires PastRollback(m.pc)
    ensures Rollbacks(p, m, fates) == 0
    decreases |fates|
  {
    hide At;
    hide Set;
    hide Move;
    hide Undo;
    if !m.pc.Idle? && fates != [] { NoSecondRollback(p, Step(p, m, fates[0]), fates[1..]); }
  }

  /** No process begins more than one rollback. */
  lemma {:induction false} AtMostOneRollback(p: Plan, m: Machine, fates: seq<Fate>)
    ensures Rollbacks(p, m, fates) <= 1
    decreases |fates|
  {
    hide At;
    hide Set;
    hide Move;
    hide Undo;
    if !m.pc.Idle? && fates != [] {
      if m.pc.RollbackRecord? {
        NoSecondRollback(p, Step(p, m, fates[0]), fates[1..]);
      } else {
        AtMostOneRollback(p, Step(p, m, fates[0]), fates[1..]);
      }
    }
  }
}
