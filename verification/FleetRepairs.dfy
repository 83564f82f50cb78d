/** What the recovery and the reconciliation of a batch achieve when nobody else acts. */
module FleetRepairs {
  import opened RecoveryTypes
  import opened Engine
  import opened EngineSafety
  import opened EngineTheorems
  import opened Fleet
  import opened FleetOutcomes
  import opened Wrappers

  // ------------------------------------------------------------- what each entry needs

  /** Entry `i` has been dispatched, and is not known to be put back. */
  predicate Needs(s0: State, i: nat) {
    i < |s0.sites| == |s0.row.outcomes| && s0.row.outcomes[i].dispatched && StatusOf(s0, i) != Recovered
  }

  /** A recover call can be sent to entry `i`. */
  predicate MayRepair(s0: State, env: Manners, ceiling: nat, i: nat) {
    Needs(s0, i) && Reached(env, i) && s0.row.outcomes[i].repairs < ceiling
  }

  /** Its target then puts its files back. */
  predicate Restores(s0: State, env: Manners, i: nat) {
    i < |s0.sites| && ServedBy(env, i) && Begun(StatusOf(s0, i)) && StatusOf(s0, i) != ValidationFailed
  }

  /** Recovery gets past entry `i`. */
  predicate Mends(s0: State, env: Manners, ceiling: nat, i: nat) {
    && i < |s0.sites| == |s0.row.outcomes|
    && (s0.row.outcomes[i].dispatched ==>
          Reached(env, i) && (Needs(s0, i) ==> MayRepair(s0, env, ceiling, i) && Restores(s0, env, i)))
  }

  /** Entry `j` as recovery leaves it behind. */
  ghost predicate Mended(c: Config, s0: State, s: State, outcomes: seq<Outcome>, j: nat)
    requires Shaped(c, s0) && Shaped(c, s) && |outcomes| == |c.plans| && j < |c.plans|
  {
    var o := s0.row.outcomes[j];
    && s.history.recovers[j] == s0.history.recovers[j] + (if Needs(s0, j) then 1 else 0)
    && outcomes[j] == (if o.dispatched then Outcome(true, Recovered, o.repairs + if Needs(s0, j) then 1 else 0) else o)
    && (if o.dispatched then StatusOf(s, j) == Recovered else s.sites[j] == s0.sites[j])
    && Journal(c.plans[j], s.sites[j].machine.world) && Serving(c.plans[j], s.sites[j].machine.world)
  }

  /** Entry `j` before recovery has come to it. */
  predicate Unmended(c: Config, s0: State, s: State, outcomes: seq<Outcome>, j: nat)
    requires Shaped(c, s0) && Shaped(c, s) && |outcomes| == |c.plans| && j < |c.plans|
  {
    outcomes[j] == s0.row.outcomes[j] && s.history.recovers[j] == s0.history.recovers[j] && s.sites[j] == s0.sites[j]
  }

  /** Everything from entry `hi` on has been mended, and nothing below `lo` has been touched. */
  ghost predicate Between(c: Config, s0: State, s: State, env: Manners, ceiling: nat, outcomes: seq<Outcome>, lo: nat, hi: nat) {
    && AtRest(c, s0) && Shaped(c, s0) && Shaped(c, s) && Known(s) && |outcomes| == |c.plans|
    && s.history.applies == s0.history.applies
    && forall j: nat | j < |c.plans| ::
         && (j >= hi ==> Mends(s0, env, ceiling, j) && Mended(c, s0, s, outcomes, j))
         && (j < lo ==> Unmended(c, s0, s, outcomes, j))
  }

  /** Entry `i` has been sent a recover call. */
  predicate Repairing(c: Config, s0: State, s: State, env: Manners, ceiling: nat, outcomes: seq<Outcome>, i: nat, st: Status)
    requires Shaped(c, s0) && Shaped(c, s) && |outcomes| == |c.plans| && i < |c.plans|
  {
    && MayRepair(s0, env, ceiling, i)
    && outcomes[i] == Outcome(true, st, s0.row.outcomes[i].repairs + 1)
    && s.history.recovers[i] == s0.history.recovers[i] + 1
  }

  /** How a recovery that stops at entry `i` is saved. */
  function Stopped(s0: State, env: Manners, ceiling: nat, i: nat): BatchStatus
    requires i < |s0.row.outcomes|
  {
    if !Reached(env, i) || (s0.row.outcomes[i].repairs < ceiling && Lost(env, i)) then BatchUnknown else BatchRecoveryFailed
  }

  /** Recovery stops at entry `i`. */
  ghost predicate BreaksAt(c: Config, s0: State, s: State, env: Manners, ceiling: nat, outcomes: seq<Outcome>, i: nat, to: BatchStatus) {
    && Between(c, s0, s, env, ceiling, outcomes, i, i + 1) && i < |c.plans| && !Mends(s0, env, ceiling, i)
    && to == Stopped(s0, env, ceiling, i) && StatusOf(s, i) == StatusOf(s0, i)
    && if MayRepair(s0, env, ceiling, i) then
         Repairing(c, s0, s, env, ceiling, outcomes, i, if Lost(env, i) then Unknown else StatusOf(s0, i))
       else Unmended(c, s0, s, outcomes, i)
  }

  /** A recovery that nobody disturbs. */
  ghost predicate Recovers(c: Config, s0: State, s: State, pid: nat, env: Manners, ceiling: nat, k: nat) {
    if pid in s.procs then
      var p := s.procs[pid];
      var outcomes := p.work.outcomes;
      && s.procs == map[pid := p] && p.base.revision == s.row.revision && p.ceiling == ceiling && s.nextProc == s0.nextProc
      && match p.at
         case InspectRepair(left) => Between(c, s0, s, env, ceiling, outcomes, left, left) && left <= |c.plans|
         case RecordRepair(i) => Ordered(c, s0, s, env, ceiling, outcomes, i)
         case SendRecover(i) => Ordered(c, s0, s, env, ceiling, outcomes, i)
         case AwaitRecover(i, call) =>
           && Between(c, s0, s, env, ceiling, outcomes, i, i + 1) && i < |c.plans|
           && Repairing(c, s0, s, env, ceiling, outcomes, i, Unknown) && Calling(c, s, env, s0.sites[i], i, call, true, k)
         case RecordRecovered(i) => Between(c, s0, s, env, ceiling, outcomes, i, i) && i < |c.plans|
         case FinishRecover => Between(c, s0, s, env, ceiling, outcomes, 0, 0)
         case LastSave(to) => exists i :: BreaksAt(c, s0, s, env, ceiling, outcomes, i, to)
         case _ => false
    else
      && s.procs == map[]
      && if s.row.status == BatchRecovered then Between(c, s0, s, env, ceiling, s.row.outcomes, 0, 0)
         else exists i :: BreaksAt(c, s0, s, env, ceiling, s.row.outcomes, i, s.row.status)
  }

  /** Entry `i` is about to be sent its recover call. */
  ghost predicate Ordered(c: Config, s0: State, s: State, env: Manners, ceiling: nat, outcomes: seq<Outcome>, i: nat) {
    && Between(c, s0, s, env, ceiling, outcomes, i, i + 1) && i < |c.plans| && MayRepair(s0, env, ceiling, i)
    && outcomes[i] == Outcome(true, Unknown, s0.row.outcomes[i].repairs + 1)
    && s.history.recovers[i] == s0.history.recovers[i] && s.sites[i] == s0.sites[i]
  }

  function RestToRepair(c: Config, left: nat): nat {
    if 0 < left <= |c.plans| then Bound(c.plans[left - 1]) + 10 + RestToRepair(c, left - 1) else 0
  }

  function LeftToRecover(c: Config, s: State, pid: nat, k: nat): nat {
    if pid !in s.procs then 0
    else
      match s.procs[pid].at
      case InspectRepair(left) => RestToRepair(c, left) + 2
      case RecordRepair(i) => RestToRepair(c, i + 1) + 1
      case SendRecover(i) => RestToRepair(c, i + 1)
      case AwaitRecover(i, call) => RestToRepair(c, i) + LeftOfCall(c, s, i, call, k) + 6
      case RecordRecovered(i) => RestToRepair(c, i) + 4
      case _ => 1
  }

  // ------------------------------------------------------------- frames

  lemma BetweenHas(c: Config, s0: State, s: State, env: Manners, ceiling: nat, outcomes: seq<Outcome>, lo: nat, hi: nat)
    requires Between(c, s0, s, env, ceiling, outcomes, lo, hi)
    ensures Shaped(c, s0) && Shaped(c, s) && Known(s) && |outcomes| == |c.plans| && AtRest(c, s0)
    ensures s.history.applies == s0.history.applies
    ensures forall j: nat | j < |c.plans| && j < lo :: Unmended(c, s0, s, outcomes, j)
  {
    hide Known;
    hide AtRest;
    hide Mended;
    hide Unmended;
  }

  /** What happens at entry `i` is of no account to the others. */
  lemma BetweenKept(c: Config, s0: State, s: State, t: State, env: Manners, ceiling: nat, a: seq<Outcome>, b: seq<Outcome>, i: nat, hi: nat)
    requires Between(c, s0, s, env, ceiling, a, i, hi) && hi <= i + 1 && Shaped(c, t) && Known(t) && |b| == |a|
    requires t.history.applies == s.history.applies
    requires forall j: nat | j < |c.plans| && j != i ::
               b[j] == a[j] && t.sites[j] == s.sites[j] && t.history.recovers[j] == s.history.recovers[j]
    ensures Between(c, s0, t, env, ceiling, b, i, i + 1)
  {
    hide AtRest;
    hide Journal;
    hide Serving;
    hide Known;
    forall j: nat | j < |c.plans|
      ensures j >= i + 1 ==> Mends(s0, env, ceiling, j) && Mended(c, s0, t, b, j)
      ensures j < i ==> Unmended(c, s0, t, b, j)
    {
      if j >= i + 1 { assert Mended(c, s0, s, a, j); }
      if j < i { assert Unmended(c, s0, s, a, j); }
    }
  }

  /** What happens in the controller alone, or to the row, is of no account to any entry. */
  lemma BetweenSame(c: Config, s0: State, s: State, t: State, env: Manners, ceiling: nat, outcomes: seq<Outcome>, lo: nat, hi: nat)
    requires Between(c, s0, s, env, ceiling, outcomes, lo, hi) && Shaped(c, t)
    requires t.sites == s.sites && t.calls == s.calls && t.inFlight == s.inFlight && t.replies == s.replies
    requires t.history.applies == s.history.applies && t.history.recovers == s.history.recovers
    ensures Between(c, s0, t, env, ceiling, outcomes, lo, hi)
  {
    KnownStays(s, t);
    hide AtRest;
    hide Known;
    hide Journal;
    hide Serving;
    forall j: nat | j < |c.plans|
      ensures j >= hi ==> Mends(s0, env, ceiling, j) && Mended(c, s0, t, outcomes, j)
      ensures j < lo ==> Unmended(c, s0, t, outcomes, j)
    {
      if j >= hi { assert Mended(c, s0, s, outcomes, j); }
      if j < lo { assert Unmended(c, s0, s, outcomes, j); }
    }
  }

  /** One more entry is mended. */
  lemma BetweenNext(c: Config, s0: State, s: State, env: Manners, ceiling: nat, outcomes: seq<Outcome>, i: nat)
    requires Between(c, s0, s, env, ceiling, outcomes, i, i + 1) && i < |c.plans|
    requires Mends(s0, env, ceiling, i) && Mended(c, s0, s, outcomes, i)
    ensures Between(c, s0, s, env, ceiling, outcomes, i, i)
  {
    hide AtRest;
    hide Known;
    hide Mends;
    hide Mended;
    hide Unmended;
  }

  /** One fewer entry is untouched. */
  lemma BetweenDown(c: Config, s0: State, s: State, env: Manners, ceiling: nat, outcomes: seq<Outcome>, i: nat)
    requires Between(c, s0, s, env, ceiling, outcomes, i + 1, i + 1)
    ensures Between(c, s0, s, env, ceiling, outcomes, i, i + 1)
  {
    hide AtRest;
    hide Known;
    hide Mends;
    hide Mended;
    hide Unmended;
  }

  lemma RestHas(c: Config, s0: State, i: nat)
    requires AtRest(c, s0) && i < |c.plans|
    ensures Shaped(c, s0) && Callable(c.plans[i], s0.sites[i], true)
  {
    hide Journal;
    hide Serving;
    hide ValidPlan;
  }

  // ------------------------------------------------------------- one event

  /** What the inspection of entry `i` leads to. */
  lemma InspectIs(c: Config, s: State, pid: nat, env: Manners, i: nat, stamp: Stamp)
    requires Shaped(c, s) && pid in s.procs && |s.procs[pid].work.outcomes| == |c.plans| && i < |c.plans|
    requires s.procs[pid].at == InspectRepair(i + 1)
    ensures var p := s.procs[pid];
      var o := p.work.outcomes[i];
      Do(c, s, Turn(s, pid, env, stamp)) == Go(s, pid,
        if !o.dispatched then p.(at := InspectRepair(i))
        else if !Reached(env, i) then p.(at := LastSave(BatchUnknown))
        else if StatusOf(s, i) == Recovered then p.(work := WithState(p.work, i, Recovered), at := InspectRepair(i))
        else if o.repairs >= p.ceiling then p.(at := LastSave(BatchRecoveryFailed))
        else p.(work := WithOutcome(p.work, i, Outcome(true, Unknown, o.repairs + 1)), at := RecordRepair(i)))
  {
  }

  lemma Inspecting(c: Config, s0: State, s: State, pid: nat, env: Manners, ceiling: nat)
    requires pid in s.procs && s.procs[pid].at.InspectRepair?
    ensures Recovers(c, s0, s, pid, env, ceiling, 0) <==>
            var p := s.procs[pid];
            && s.procs == map[pid := p] && p.base.revision == s.row.revision && p.ceiling == ceiling && s.nextProc == s0.nextProc
            && Between(c, s0, s, env, ceiling, p.work.outcomes, p.at.left, p.at.left) && p.at.left <= |c.plans|
  {
    hide Between;
  }

  lemma InspectFacts(c: Config, s0: State, s: State, pid: nat, env: Manners, ceiling: nat)
    requires Recovers(c, s0, s, pid, env, ceiling, 0) && pid in s.procs && s.procs[pid].at.InspectRepair? && s.procs[pid].at.left > 0
    ensures var p := s.procs[pid];
      var i, a := p.at.left - 1, p.work.outcomes;
      && s.procs == map[pid := p] && s.nextProc == s0.nextProc && p.base.revision == s.row.revision && p.ceiling == ceiling
      && i < |c.plans| && Between(c, s0, s, env, ceiling, a, i + 1, i + 1)
      && LeftToRecover(c, s, pid, 0) == Bound(c.plans[i]) + 12 + RestToRepair(c, i)
  {
    hide Between;
  }

  lemma UnmendedIs(c: Config, s0: State, s: State, a: seq<Outcome>, i: nat)
    requires Shaped(c, s0) && Shaped(c, s) && |a| == |c.plans| && i < |c.plans| && Unmended(c, s0, s, a, i)
    ensures a[i] == s0.row.outcomes[i] && s.history.recovers[i] == s0.history.recovers[i] && s.sites[i] == s0.sites[i]
  {
  }

  /** An entry that recovery gets past without a call. */
  lemma MendedAlready(c: Config, s0: State, t: State, env: Manners, ceiling: nat, b: seq<Outcome>, i: nat)
    requires AtRest(c, s0) && Shaped(c, s0) && Shaped(c, t) && |b| == |c.plans| && i < |c.plans|
    requires t.sites[i] == s0.sites[i] && t.history.recovers[i] == s0.history.recovers[i]
    requires s0.row.outcomes[i].dispatched ==> StatusOf(s0, i) == Recovered && Reached(env, i)
    requires b[i] == if s0.row.outcomes[i].dispatched then s0.row.outcomes[i].(state := Recovered) else s0.row.outcomes[i]
    ensures Mends(s0, env, ceiling, i) && Mended(c, s0, t, b, i)
  {
    hide Journal;
    hide Serving;
    hide ValidPlan;
  }

  lemma BreaksUnsent(c: Config, s0: State, t: State, env: Manners, ceiling: nat, b: seq<Outcome>, i: nat, to: BatchStatus)
    requires Between(c, s0, t, env, ceiling, b, i, i + 1) && Shaped(c, s0) && Shaped(c, t) && |b| == |c.plans| && i < |c.plans|
    requires b[i] == s0.row.outcomes[i] && t.history.recovers[i] == s0.history.recovers[i] && t.sites[i] == s0.sites[i]
    requires s0.row.outcomes[i].dispatched && (Reached(env, i) ==> StatusOf(s0, i) != Recovered && s0.row.outcomes[i].repairs >= ceiling)
    requires to == if Reached(env, i) then BatchRecoveryFailed else BatchUnknown
    ensures BreaksAt(c, s0, t, env, ceiling, b, i, to)
  {
    hide Between;
  }

  lemma OrderedIs(c: Config, s0: State, t: State, env: Manners, ceiling: nat, b: seq<Outcome>, i: nat)
    requires Between(c, s0, t, env, ceiling, b, i, i + 1) && Shaped(c, s0) && Shaped(c, t) && |b| == |c.plans| && i < |c.plans|
    requires s0.row.outcomes[i].dispatched && Reached(env, i) && StatusOf(s0, i) != Recovered && s0.row.outcomes[i].repairs < ceiling
    requires b[i] == Outcome(true, Unknown, s0.row.outcomes[i].repairs + 1)
    requires t.history.recovers[i] == s0.history.recovers[i] && t.sites[i] == s0.sites[i]
    ensures Ordered(c, s0, t, env, ceiling, b, i)
  {
    hide Between;
  }

  lemma InspectedOn(c: Config, s0: State, s: State, pid: nat, env: Manners, ceiling: nat, p: Process, i: nat)
    requires s.procs == map[pid := p] && s.nextProc == s0.nextProc && p.base.revision == s.row.revision && p.ceiling == ceiling
    requires i < |c.plans|
    requires || (p.at == RecordRepair(i) && Ordered(c, s0, s, env, ceiling, p.work.outcomes, i))
             || (p.at == InspectRepair(i) && Between(c, s0, s, env, ceiling, p.work.outcomes, i, i))
             || (p.at.LastSave? && BreaksAt(c, s0, s, env, ceiling, p.work.outcomes, i, p.at.to))
    ensures Recovers(c, s0, s, pid, env, ceiling, 0) && LeftToRecover(c, s, pid, 0) <= Bound(c.plans[i]) + 11 + RestToRepair(c, i)
  {
    hide Between;
    hide Ordered;
    hide BreaksAt;
  }

  /** Where the inspection of entry `i` leads. */
  lemma InspectLeadsTo(c: Config, s: State, pid: nat, env: Manners, i: nat, stamp: Stamp)
    requires Shaped(c, s) && pid in s.procs && |s.procs[pid].work.outcomes| == |c.plans| && i < |c.plans|
    requires s.procs[pid].at == InspectRepair(i + 1)
    ensures var p, t := s.procs[pid], Do(c, s, Turn(s, pid, env, stamp));
      var o := p.work.outcomes[i];
      && pid in t.procs && t == s.(procs := s.procs[pid := t.procs[pid]]) && Shaped(c, t)
      && t.procs[pid].base == p.base && t.procs[pid].ceiling == p.ceiling
      && t.procs[pid].work.outcomes == p.work.outcomes[i :=
           if !o.dispatched || !Reached(env, i) then o else if StatusOf(s, i) == Recovered then o.(state := Recovered)
           else if o.repairs >= p.ceiling then o else Outcome(true, Unknown, o.repairs + 1)]
      && t.procs[pid].at == (
           if !o.dispatched then InspectRepair(i) else if !Reached(env, i) then LastSave(BatchUnknown)
           else if StatusOf(s, i) == Recovered then InspectRepair(i)
           else if o.repairs >= p.ceiling then LastSave(BatchRecoveryFailed) else RecordRepair(i))
  {
    InspectIs(c, s, pid, env, i, stamp);
    hide Do;
    hide Turn;
    assert s.procs[pid].work.outcomes == s.procs[pid].work.outcomes[i := s.procs[pid].work.outcomes[i]];
  }

  lemma InspectGoesOn(c: Config, s0: State, s: State, pid: nat, env: Manners, ceiling: nat, stamp: Stamp)
    requires Recovers(c, s0, s, pid, env, ceiling, 0) && pid in s.procs && s.procs[pid].at.InspectRepair? && s.procs[pid].at.left > 0
    ensures var t := Do(c, s, Turn(s, pid, env, stamp));
      Recovers(c, s0, t, pid, env, ceiling, 0) && LeftToRecover(c, t, pid, 0) < LeftToRecover(c, s, pid, 0)
  {
    hide *;
    var p, t := s.procs[pid], Do(c, s, Turn(s, pid, env, stamp));
    var i, a := p.at.left - 1, p.work.outcomes;
    InspectFacts(c, s0, s, pid, env, ceiling);
    BetweenHas(c, s0, s, env, ceiling, a, i + 1, i + 1);
    BetweenDown(c, s0, s, env, ceiling, a, i);
    ShapedLengths(c, s0);
    ShapedLengths(c, s);
    UnmendedIs(c, s0, s, a, i);
    InspectLeadsTo(c, s, pid, env, i, stamp);
    var q, b := t.procs[pid], t.procs[pid].work.outcomes;
    KnownStays(s, t);
    BetweenKept(c, s0, s, t, env, ceiling, a, b, i, i + 1);
    SameStatus(s, t, i);
    OwnStatus(s0, i);
    if q.at.InspectRepair? {
      MendedAlready(c, s0, t, env, ceiling, b, i);
      BetweenNext(c, s0, t, env, ceiling, b, i);
    } else if q.at.LastSave? {
      BreaksUnsent(c, s0, t, env, ceiling, b, i, q.at.to);
    } else {
      OrderedIs(c, s0, t, env, ceiling, b, i);
    }
    InspectedOn(c, s0, t, pid, env, ceiling, q, i);
  }

  lemma OwnStatus(s: State, i: nat)
    requires i < |s.sites|
    ensures StatusOf(s, i) == s.sites[i].machine.world.status
  {
  }

  lemma NothingLeftGoesOn(c: Config, s0: State, s: State, pid: nat, env: Manners, ceiling: nat, stamp: Stamp)
    requires Recovers(c, s0, s, pid, env, ceiling, 0) && pid in s.procs && s.procs[pid].at == InspectRepair(0)
    ensures var t := Do(c, s, Turn(s, pid, env, stamp));
      Recovers(c, s0, t, pid, env, ceiling, 0) && LeftToRecover(c, t, pid, 0) < LeftToRecover(c, s, pid, 0)
  {
    var a, t := s.procs[pid].work.outcomes, Do(c, s, Turn(s, pid, env, stamp));
    Inspecting(c, s0, s, pid, env, ceiling);
    BetweenHas(c, s0, s, env, ceiling, a, 0, 0);
    hide Between;
    hide Unmended;
    BetweenSame(c, s0, s, t, env, ceiling, a, 0, 0);
  }

  /** What a save of the row leads to, in a controller that goes on. */
  predicate Goes(s: State, t: State, pid: nat, to: BatchStatus, next: ControlPoint)
    requires pid in s.procs
  {
    var p := s.procs[pid];
    && t == s.(row := t.row, procs := t.procs,
               history := s.history.(writer := t.history.writer, repairedAt := t.history.repairedAt))
    && t.row == Batch(to, p.work.outcomes, s.row.revision + 1) && |t.history.repairedAt| == |s.history.repairedAt|
    && t.procs == s.procs[pid := Process(t.row, t.row, next, p.ceiling)]
  }

  lemma RepairIs(c: Config, s: State, pid: nat, env: Manners, stamp: Stamp)
    requires Shaped(c, s) && pid in s.procs && |s.procs[pid].work.outcomes| == |c.plans|
    requires s.procs[pid].base.revision == s.row.revision
    ensures var p, t := s.procs[pid], Do(c, s, Turn(s, pid, env, stamp));
      && (p.at.RecordRepair? && p.at.i < |c.plans| ==> Goes(s, t, pid, BatchRollingBack, SendRecover(p.at.i)))
      && (p.at.RecordRecovered? ==> Goes(s, t, pid, BatchRollingBack, InspectRepair(p.at.i)))
  {
  }

  lemma RecordingFacts(c: Config, s0: State, s: State, pid: nat, env: Manners, ceiling: nat)
    requires Recovers(c, s0, s, pid, env, ceiling, 0) && pid in s.procs
    requires s.procs[pid].at.RecordRepair? || s.procs[pid].at.RecordRecovered?
    ensures var p := s.procs[pid];
      var i, a := p.at.i, p.work.outcomes;
      && s.procs == map[pid := p] && s.nextProc == s0.nextProc && p.base.revision == s.row.revision && p.ceiling == ceiling
      && i < |c.plans| && Shaped(c, s) && |a| == |c.plans|
      && (p.at.RecordRepair? ==> Ordered(c, s0, s, env, ceiling, a, i) && LeftToRecover(c, s, pid, 0) == RestToRepair(c, i + 1) + 1)
      && (p.at.RecordRecovered? ==> Between(c, s0, s, env, ceiling, a, i, i) && LeftToRecover(c, s, pid, 0) == RestToRepair(c, i) + 4)
  {
    hide RestToRepair;
  }

  lemma OrderedSame(c: Config, s0: State, s: State, t: State, env: Manners, ceiling: nat, outcomes: seq<Outcome>, i: nat)
    requires Ordered(c, s0, s, env, ceiling, outcomes, i) && Shaped(c, t)
    requires t.sites == s.sites && t.calls == s.calls && t.inFlight == s.inFlight && t.replies == s.replies
    requires t.history.applies == s.history.applies && t.history.recovers == s.history.recovers
    ensures Ordered(c, s0, t, env, ceiling, outcomes, i)
  {
    BetweenSame(c, s0, s, t, env, ceiling, outcomes, i, i + 1);
    hide Between;
    hide MayRepair;
  }

  lemma RecoversOn(c: Config, s0: State, s: State, pid: nat, env: Manners, ceiling: nat, p: Process, i: nat)
    requires s.procs == map[pid := p] && s.nextProc == s0.nextProc && p.base.revision == s.row.revision && p.ceiling == ceiling
    requires || (p.at == SendRecover(i) && Ordered(c, s0, s, env, ceiling, p.work.outcomes, i))
             || (p.at == InspectRepair(i) && Between(c, s0, s, env, ceiling, p.work.outcomes, i, i) && i <= |c.plans|)
    ensures Recovers(c, s0, s, pid, env, ceiling, 0)
    ensures LeftToRecover(c, s, pid, 0) == if p.at.SendRecover? then RestToRepair(c, i + 1) else RestToRepair(c, i) + 2
  {
    hide Between;
    hide Ordered;
    hide RestToRepair;
  }

  lemma GoesIs(c: Config, s: State, t: State, pid: nat, to: BatchStatus, next: ControlPoint)
    requires Shaped(c, s) && pid in s.procs && |s.procs[pid].work.outcomes| == |c.plans| && Goes(s, t, pid, to, next)
    ensures Shaped(c, t) && t.sites == s.sites && t.calls == s.calls && t.inFlight == s.inFlight && t.replies == s.replies
    ensures t.history.applies == s.history.applies && t.history.recovers == s.history.recovers && t.nextProc == s.nextProc
    ensures t.procs == s.procs[pid := t.procs[pid]] && t.procs[pid].base == t.row && t.procs[pid].at == next
    ensures t.procs[pid].ceiling == s.procs[pid].ceiling && t.procs[pid].work.outcomes == s.procs[pid].work.outcomes
  {
  }

  lemma RecordGoesOn(c: Config, s0: State, s: State, pid: nat, env: Manners, ceiling: nat, stamp: Stamp)
    requires Recovers(c, s0, s, pid, env, ceiling, 0) && pid in s.procs
    requires s.procs[pid].at.RecordRepair? || s.procs[pid].at.RecordRecovered?
    ensures var t := Do(c, s, Turn(s, pid, env, stamp));
      Recovers(c, s0, t, pid, env, ceiling, 0) && LeftToRecover(c, t, pid, 0) < LeftToRecover(c, s, pid, 0)
  {
    hide *;
    var t, p := Do(c, s, Turn(s, pid, env, stamp)), s.procs[pid];
    var i, a := p.at.i, p.work.outcomes;
    RecordingFacts(c, s0, s, pid, env, ceiling);
    RepairIs(c, s, pid, env, stamp);
    if p.at.RecordRepair? {
      GoesIs(c, s, t, pid, BatchRollingBack, SendRecover(i));
      OrderedSame(c, s0, s, t, env, ceiling, a, i);
    } else {
      GoesIs(c, s, t, pid, BatchRollingBack, InspectRepair(i));
      BetweenSame(c, s0, s, t, env, ceiling, a, i, i);
    }
    RecoversOn(c, s0, t, pid, env, ceiling, t.procs[pid], i);
  }

  lemma SendIs(c: Config, s: State, pid: nat, env: Manners, i: nat, stamp: Stamp)
    requires Shaped(c, s) && pid in s.procs && |s.procs[pid].work.outcomes| == |c.plans| && i < |c.plans|
    requires s.procs[pid].at == SendRecover(i)
    ensures var t := Do(c, s, Turn(s, pid, env, stamp));
      && t == s.(calls := s.calls + [Message(i, true)], inFlight := s.inFlight + {|s.calls|},
                 procs := s.procs[pid := s.procs[pid].(at := AwaitRecover(i, |s.calls|))],
                 history := s.history.(recovers := s.history.recovers[i := s.history.recovers[i] + 1], repairsSent := t.history.repairsSent))
      && |t.history.repairsSent| == |s.history.repairsSent| && Shaped(c, t)
  {
  }

  lemma SendingFacts(c: Config, s0: State, s: State, pid: nat, env: Manners, ceiling: nat)
    requires Recovers(c, s0, s, pid, env, ceiling, 0) && pid in s.procs && s.procs[pid].at.SendRecover?
    ensures var p := s.procs[pid];
      var i, a := p.at.i, p.work.outcomes;
      && s.procs == map[pid := p] && s.nextProc == s0.nextProc && p.base.revision == s.row.revision && p.ceiling == ceiling
      && Between(c, s0, s, env, ceiling, a, i, i + 1) && i < |c.plans| && MayRepair(s0, env, ceiling, i)
      && a[i] == Outcome(true, Unknown, s0.row.outcomes[i].repairs + 1)
      && s.history.recovers[i] == s0.history.recovers[i] && s.sites[i] == s0.sites[i]
      && LeftToRecover(c, s, pid, 0) == Bound(c.plans[i]) + 10 + RestToRepair(c, i)
  {
    hide Between;
    hide MayRepair;
  }

  lemma RecoversWaiting(c: Config, s0: State, s: State, pid: nat, env: Manners, ceiling: nat, k: nat, p: Process, i: nat, call: nat)
    requires s.procs == map[pid := p] && s.nextProc == s0.nextProc && p.base.revision == s.row.revision && p.at == AwaitRecover(i, call)
    requires p.ceiling == ceiling && Between(c, s0, s, env, ceiling, p.work.outcomes, i, i + 1) && i < |c.plans|
    requires Shaped(c, s0) && Shaped(c, s) && MayRepair(s0, env, ceiling, i)
    requires |p.work.outcomes| == |s0.row.outcomes| == |c.plans| == |s.history.recovers| == |s0.history.recovers|
    requires |s.sites| == |s0.sites| == |c.plans|
    requires p.work.outcomes[i] == Outcome(true, Unknown, s0.row.outcomes[i].repairs + 1)
    requires s.history.recovers[i] == s0.history.recovers[i] + 1 && Calling(c, s, env, s0.sites[i], i, call, true, k)
    ensures Recovers(c, s0, s, pid, env, ceiling, k)
    ensures LeftToRecover(c, s, pid, k) == RestToRepair(c, i) + LeftOfCall(c, s, i, call, k) + 6
  {
    hide Between;
    hide MayRepair;
    hide Calling;
    hide RestToRepair;
    hide LeftOfCall;
  }

  lemma SendGoesOn(c: Config, s0: State, s: State, pid: nat, env: Manners, ceiling: nat, stamp: Stamp)
    requires Recovers(c, s0, s, pid, env, ceiling, 0) && pid in s.procs && s.procs[pid].at.SendRecover?
    ensures var t := Do(c, s, Turn(s, pid, env, stamp));
      Recovers(c, s0, t, pid, env, ceiling, 0) && LeftToRecover(c, t, pid, 0) < LeftToRecover(c, s, pid, 0)
  {
    hide *;
    var t, p := Do(c, s, Turn(s, pid, env, stamp)), s.procs[pid];
    var i, a := p.at.i, p.work.outcomes;
    SendingFacts(c, s0, s, pid, env, ceiling);
    BetweenHas(c, s0, s, env, ceiling, a, i, i + 1);
    SendIs(c, s, pid, env, i, stamp);
    ShapedLengths(c, s0);
    ShapedLengths(c, s);
    CallBegins(c, s, t, env, i, true);
    BetweenKept(c, s0, s, t, env, ceiling, a, a, i, i + 1);
    RecoversWaiting(c, s0, t, pid, env, ceiling, 0, t.procs[pid], i, |s.calls|);
  }

  /** A recovery that waits for its call. */
  ghost predicate Awaiting(c: Config, s0: State, s: State, pid: nat, env: Manners, ceiling: nat, k: nat, p: Process, i: nat, call: nat) {
    && pid in s.procs && s.procs[pid] == p && s.procs == map[pid := p] && s.nextProc == s0.nextProc
    && p.base.revision == s.row.revision && p.ceiling == ceiling && p.at == AwaitRecover(i, call)
    && Between(c, s0, s, env, ceiling, p.work.outcomes, i, i + 1) && i < |c.plans|
    && Repairing(c, s0, s, env, ceiling, p.work.outcomes, i, Unknown) && Calling(c, s, env, s0.sites[i], i, call, true, k)
  }

  lemma RecoversAwaiting(c: Config, s0: State, s: State, pid: nat, env: Manners, ceiling: nat, k: nat)
    requires pid in s.procs && s.procs[pid].at.AwaitRecover?
    ensures Recovers(c, s0, s, pid, env, ceiling, k) <==>
            Awaiting(c, s0, s, pid, env, ceiling, k, s.procs[pid], s.procs[pid].at.i, s.procs[pid].at.call)
  {
    hide Between;
    hide Calling;
    hide Repairing;
  }

  lemma AwaitGoesOn(c: Config, s0: State, s: State, pid: nat, env: Manners, ceiling: nat, k: nat, stamp: Stamp) returns (next: nat)
    requires Recovers(c, s0, s, pid, env, ceiling, k) && pid in s.procs && s.procs[pid].at.AwaitRecover?
    requires !Over(s, env, s.procs[pid].at.i, s.procs[pid].at.call)
    ensures var t := Do(c, s, Turn(s, pid, env, stamp));
      Recovers(c, s0, t, pid, env, ceiling, next) && LeftToRecover(c, t, pid, next) < LeftToRecover(c, s, pid, k)
  {
    var p := s.procs[pid];
    var i, a, call := p.at.i, p.work.outcomes, p.at.call;
    RecoversAwaiting(c, s0, s, pid, env, ceiling, k);
    hide Recovers;
    BetweenHas(c, s0, s, env, ceiling, a, i, i + 1);
    RestHas(c, s0, i);
    hide Between;
    hide Calling;
    hide Callable;
    hide Waiting;
    hide AtRest;
    hide Known;
    hide Over;
    hide Unmended;
    next := CallGoesOn(c, s, pid, env, s0.sites[i], i, call, true, k, stamp);
    var t := Do(c, s, Waiting(s, pid, env, i, call, stamp));
    assert Turn(s, pid, env, stamp) == Waiting(s, pid, env, i, call, stamp);
    hide Do;
    hide Turn;
    CallingKnown(c, t, env, s0.sites[i], i, call, true, next);
    BetweenKept(c, s0, s, t, env, ceiling, a, a, i, i + 1);
    hide LeftOfCall;
    RecoversAwaiting(c, s0, t, pid, env, ceiling, next);
  }

  lemma OverIs(c: Config, s: State, pid: nat, env: Manners, i: nat, call: nat, stamp: Stamp)
    requires Shaped(c, s) && pid in s.procs && |s.procs[pid].work.outcomes| == |c.plans| && i < |c.plans|
    requires s.procs[pid].at == AwaitRecover(i, call) && Over(s, env, i, call)
    requires call !in s.replies ==> s.sites[i].serving.None?
    ensures var p, t := s.procs[pid], Do(c, s, Turn(s, pid, env, stamp));
      && pid in t.procs && t == s.(procs := s.procs[pid := t.procs[pid]]) && Shaped(c, t)
      && t.procs[pid].base == p.base && t.procs[pid].ceiling == p.ceiling
      && if call !in s.replies then t.procs[pid].work == p.work && t.procs[pid].at == LastSave(BatchUnknown)
         else
           && t.procs[pid].work.outcomes == p.work.outcomes[i := p.work.outcomes[i].(state := s.replies[call])]
           && t.procs[pid].at == if s.replies[call] == Recovered then RecordRecovered(i) else LastSave(BatchRecoveryFailed)
  {
  }

  lemma AwaitingFacts(c: Config, s0: State, s: State, pid: nat, env: Manners, ceiling: nat, k: nat)
    requires Recovers(c, s0, s, pid, env, ceiling, k) && pid in s.procs && s.procs[pid].at.AwaitRecover?
    ensures var p := s.procs[pid];
      var i, call, a := p.at.i, p.at.call, p.work.outcomes;
      && s.procs == map[pid := p] && s.nextProc == s0.nextProc && p.base.revision == s.row.revision && p.ceiling == ceiling
      && Between(c, s0, s, env, ceiling, a, i, i + 1) && i < |c.plans| && Calling(c, s, env, s0.sites[i], i, call, true, k)
      && MayRepair(s0, env, ceiling, i) && a[i] == Outcome(true, Unknown, s0.row.outcomes[i].repairs + 1)
      && s.history.recovers[i] == s0.history.recovers[i] + 1 && LeftToRecover(c, s, pid, k) >= RestToRepair(c, i) + 6
  {
    hide Between;
    hide Calling;
    hide MayRepair;
    hide RestToRepair;
  }

  lemma LeftAfter(c: Config, s: State, pid: nat, i: nat)
    requires pid in s.procs && (s.procs[pid].at == RecordRecovered(i) || s.procs[pid].at.LastSave?)
    ensures LeftToRecover(c, s, pid, 0) <= RestToRepair(c, i) + 4
  {
    hide RestToRepair;
  }

  /** What a target that may be repaired answers, and whether recovery gets past it. */
  lemma AnswerOfRecover(s0: State, env: Manners, ceiling: nat, i: nat)
    requires MayRepair(s0, env, ceiling, i)
    ensures i < |s0.sites| == |s0.row.outcomes| && i < |env| && StatusOf(s0, i) == s0.sites[i].machine.world.status
    ensures s0.row.outcomes[i].dispatched && StatusOf(s0, i) != Recovered
    ensures Answer(StatusOf(s0, i), true, ServedBy(env, i)) == if Restores(s0, env, i) then Recovered else StatusOf(s0, i)
    ensures Mends(s0, env, ceiling, i) == Restores(s0, env, i) && (Lost(env, i) ==> !Restores(s0, env, i))
    ensures Stopped(s0, env, ceiling, i) == if Lost(env, i) then BatchUnknown else BatchRecoveryFailed
  {
  }

  lemma MendedOver(c: Config, s0: State, env: Manners, ceiling: nat, t: State, b: seq<Outcome>, i: nat)
    requires Shaped(c, s0) && Shaped(c, t) && |b| == |c.plans| && i < |c.plans| && MayRepair(s0, env, ceiling, i)
    requires b[i] == Outcome(true, Recovered, s0.row.outcomes[i].repairs + 1)
    requires t.history.recovers[i] == s0.history.recovers[i] + 1 && StatusOf(t, i) == Recovered
    requires Journal(c.plans[i], t.sites[i].machine.world) && Serving(c.plans[i], t.sites[i].machine.world)
    ensures Mended(c, s0, t, b, i)
  {
    hide Journal;
    hide Serving;
  }

  lemma BreaksOver(c: Config, s0: State, t: State, env: Manners, ceiling: nat, b: seq<Outcome>, i: nat, to: BatchStatus)
    requires Between(c, s0, t, env, ceiling, b, i, i + 1) && Shaped(c, s0) && Shaped(c, t) && |b| == |c.plans| && i < |c.plans|
    requires MayRepair(s0, env, ceiling, i) && !Mends(s0, env, ceiling, i) && StatusOf(t, i) == StatusOf(s0, i)
    requires b[i] == Outcome(true, if Lost(env, i) then Unknown else StatusOf(s0, i), s0.row.outcomes[i].repairs + 1)
    requires t.history.recovers[i] == s0.history.recovers[i] + 1 && to == Stopped(s0, env, ceiling, i)
    ensures BreaksAt(c, s0, t, env, ceiling, b, i, to)
  {
    hide Between;
    hide Mends;
    hide MayRepair;
  }

  lemma RecoversRecording(c: Config, s0: State, s: State, pid: nat, env: Manners, ceiling: nat, i: nat)
    requires pid in s.procs && s.procs == map[pid := s.procs[pid]] && s.nextProc == s0.nextProc && s.procs[pid].ceiling == ceiling
    requires s.procs[pid].base.revision == s.row.revision && s.procs[pid].at == RecordRecovered(i) && i < |c.plans|
    requires Between(c, s0, s, env, ceiling, s.procs[pid].work.outcomes, i, i)
    ensures Recovers(c, s0, s, pid, env, ceiling, 0)
  {
    hide Between;
  }

  lemma RecoversLast(c: Config, s0: State, s: State, pid: nat, env: Manners, ceiling: nat, i: nat)
    requires pid in s.procs && s.procs == map[pid := s.procs[pid]] && s.nextProc == s0.nextProc && s.procs[pid].ceiling == ceiling
    requires s.procs[pid].base.revision == s.row.revision && s.procs[pid].at.LastSave?
    requires BreaksAt(c, s0, s, env, ceiling, s.procs[pid].work.outcomes, i, s.procs[pid].at.to)
    ensures Recovers(c, s0, s, pid, env, ceiling, 0)
  {
    hide BreaksAt;
  }

  /** The answer decides whether recovery goes on behind entry `i`. */
  lemma OverGoesOn(c: Config, s0: State, s: State, pid: nat, env: Manners, ceiling: nat, k: nat, stamp: Stamp)
    requires Recovers(c, s0, s, pid, env, ceiling, k) && pid in s.procs && s.procs[pid].at.AwaitRecover?
    requires Over(s, env, s.procs[pid].at.i, s.procs[pid].at.call)
    ensures var t := Do(c, s, Turn(s, pid, env, stamp));
      Recovers(c, s0, t, pid, env, ceiling, 0) && LeftToRecover(c, t, pid, 0) < LeftToRecover(c, s, pid, k)
  {
    hide *;
    var p := s.procs[pid];
    var i, a, call := p.at.i, p.work.outcomes, p.at.call;
    AwaitingFacts(c, s0, s, pid, env, ceiling, k);
    BetweenHas(c, s0, s, env, ceiling, a, i, i + 1);
    ShapedLengths(c, s0);
    ShapedLengths(c, s);
    RestHas(c, s0, i);
    AnswerOfRecover(s0, env, ceiling, i);
    CallEnds(c, s, env, s0.sites[i], i, call, true, k);
    OverIs(c, s, pid, env, i, call, stamp);
    var t := Do(c, s, Turn(s, pid, env, stamp));
    var b := t.procs[pid].work.outcomes;
    KnownStays(s, t);
    BetweenKept(c, s0, s, t, env, ceiling, a, b, i, i + 1);
    LeftAfter(c, t, pid, i);
    SameStatus(s, t, i);
    if Restores(s0, env, i) {
      MendedOver(c, s0, env, ceiling, t, b, i);
      BetweenNext(c, s0, t, env, ceiling, b, i);
      RecoversRecording(c, s0, t, pid, env, ceiling, i);
    } else {
      BreaksOver(c, s0, t, env, ceiling, b, i, t.procs[pid].at.to);
      RecoversLast(c, s0, t, pid, env, ceiling, i);
    }
  }

  lemma BreakSaved(c: Config, s0: State, s: State, t: State, env: Manners, ceiling: nat, a: seq<Outcome>, i: nat, to: BatchStatus)
    requires BreaksAt(c, s0, s, env, ceiling, a, i, to) && Between(c, s0, t, env, ceiling, a, i, i + 1)
    requires t == s.(row := t.row, procs := t.procs, history := s.history.(writer := t.history.writer))
    ensures BreaksAt(c, s0, t, env, ceiling, a, i, to) && to != BatchRecovered
  {
    hide AtRest;
    hide Known;
    hide Mended;
  }

  lemma LastGoesOn(c: Config, s0: State, s: State, pid: nat, env: Manners, ceiling: nat, stamp: Stamp)
    requires Recovers(c, s0, s, pid, env, ceiling, 0) && pid in s.procs && (s.procs[pid].at.FinishRecover? || s.procs[pid].at.LastSave?)
    ensures var t := Do(c, s, Turn(s, pid, env, stamp));
      Recovers(c, s0, t, pid, env, ceiling, 0) && pid !in t.procs
  {
    var t, p := Do(c, s, Turn(s, pid, env, stamp)), s.procs[pid];
    var a := p.work.outcomes;
    hide AtRest;
    hide Known;
    hide Mended;
    hide Unmended;
    hide Repairing;
    if p.at.FinishRecover? {
      BetweenHas(c, s0, s, env, ceiling, a, 0, 0);
      hide Between;
      BetweenSame(c, s0, s, t, env, ceiling, a, 0, 0);
    } else {
      var i: nat :| BreaksAt(c, s0, s, env, ceiling, a, i, p.at.to);
      BetweenHas(c, s0, s, env, ceiling, a, i, i + 1);
      hide Between;
      BetweenSame(c, s0, s, t, env, ceiling, a, i, i + 1);
      BreakSaved(c, s0, s, t, env, ceiling, a, i, p.at.to);
    }
  }

  lemma RecoverGoesOn(c: Config, s0: State, s: State, pid: nat, env: Manners, ceiling: nat, k: nat, stamp: Stamp) returns (next: nat)
    requires Recovers(c, s0, s, pid, env, ceiling, k) && pid in s.procs
    ensures var t := Do(c, s, Turn(s, pid, env, stamp));
      Recovers(c, s0, t, pid, env, ceiling, next) && LeftToRecover(c, t, pid, next) < LeftToRecover(c, s, pid, k)
  {
    next := 0;
    hide Between;
    hide BreaksAt;
    hide Ordered;
    hide Do;
    hide Turn;
    hide Calling;
    hide Repairing;
    match s.procs[pid].at
    case InspectRepair(left) =>
      if left == 0 { NothingLeftGoesOn(c, s0, s, pid, env, ceiling, stamp); }
      else { InspectGoesOn(c, s0, s, pid, env, ceiling, stamp); }
    case RecordRepair(_) => RecordGoesOn(c, s0, s, pid, env, ceiling, stamp);
    case SendRecover(_) => SendGoesOn(c, s0, s, pid, env, ceiling, stamp);
    case AwaitRecover(i, call) =>
      if Over(s, env, i, call) { OverGoesOn(c, s0, s, pid, env, ceiling, k, stamp); }
      else { next := AwaitGoesOn(c, s0, s, pid, env, ceiling, k, stamp); }
    case RecordRecovered(_) => RecordGoesOn(c, s0, s, pid, env, ceiling, stamp);
    case FinishRecover => LastGoesOn(c, s0, s, pid, env, ceiling, stamp);
    case LastSave(to) => LastGoesOn(c, s0, s, pid, env, ceiling, stamp);
    case _ =>
  }

  lemma {:induction false} RecoveryRuns(c: Config, s0: State, s: State, pid: nat, env: Manners, ceiling: nat, k: nat, stamps: seq<Stamp>)
    requires Recovers(c, s0, s, pid, env, ceiling, k) && |stamps| >= LeftToRecover(c, s, pid, k)
    ensures var t := Alone(c, s, pid, env, stamps);
      pid !in t.procs && Recovers(c, s0, t, pid, env, ceiling, 0)
    decreases |stamps|
  {
    hide Do;
    hide Turn;
    hide Alone;
    AloneSteps(c, s, pid, env, stamps);
    if pid in s.procs {
      var _ := RecoverGoesOn(c, s0, s, pid, env, ceiling, k, Stamp(0, 0));
      var next := RecoverGoesOn(c, s0, s, pid, env, ceiling, k, stamps[0]);
      hide Recovers;
      hide LeftToRecover;
      RecoveryRuns(c, s0, Do(c, s, Turn(s, pid, env, stamps[0])), pid, env, ceiling, next, stamps[1..]);
    }
  }

  // ------------------------------------------------------------- recovery as a whole

  /** Entry `j` of a recovery that has got down to `stop`. */
  ghost predicate EntryEnds(c: Config, s0: State, t: State, env: Manners, ceiling: nat, stop: nat, j: nat)
    requires Shaped(c, s0) && Shaped(c, t) && j < |c.plans|
  {
    var o := s0.row.outcomes[j];
    var sent := if j >= stop then Needs(s0, j) else j + 1 == stop && MayRepair(s0, env, ceiling, j);
    && t.history.recovers[j] == s0.history.recovers[j] + (if sent then 1 else 0)
    && t.row.outcomes[j].dispatched == o.dispatched && t.row.outcomes[j].repairs == o.repairs + (if sent then 1 else 0)
    && t.row.outcomes[j].state == (if j >= stop && o.dispatched then Recovered
                                   else if sent then if Lost(env, j) then Unknown else StatusOf(s0, j)
                                   else o.state)
    && StatusOf(t, j) == (if j >= stop && o.dispatched then Recovered else StatusOf(s0, j))
    && (j >= stop && o.dispatched ==>
          RestoredFrom(c.plans[j], t.sites[j].machine.world.disk, 0) && RunsBefore(c.plans[j], t.sites[j].machine.world))
  }

  /** A recovery over these targets has put back everything from entry `stop` on, and could not
      get past the one before it, if any. */
  ghost predicate RecoveredTo(c: Config, s0: State, t: State, env: Manners, ceiling: nat, stop: nat) {
    && Shaped(c, s0) && Shaped(c, t) && t.procs == map[] && stop <= |c.plans|
    && (forall j: nat | stop <= j < |c.plans| :: Mends(s0, env, ceiling, j))
    && (stop > 0 ==> !Mends(s0, env, ceiling, stop - 1))
    && t.row.status == (if stop == 0 then BatchRecovered else Stopped(s0, env, ceiling, stop - 1))
    && t.history.applies == s0.history.applies
    && forall j: nat | j < |c.plans| :: EntryEnds(c, s0, t, env, ceiling, stop, j)
  }

  lemma MendedEnds(c: Config, s0: State, t: State, env: Manners, ceiling: nat, stop: nat, j: nat)
    requires Shaped(c, s0) && Shaped(c, t) && stop <= j < |c.plans| && Mended(c, s0, t, t.row.outcomes, j)
    ensures EntryEnds(c, s0, t, env, ceiling, stop, j)
  {
    hide Safe;
    hide RestoredFrom;
    hide RunsBefore;
  }

  lemma RecoveredIsTo(c: Config, s0: State, t: State, env: Manners, ceiling: nat)
    requires Between(c, s0, t, env, ceiling, t.row.outcomes, 0, 0) && t.procs == map[] && t.row.status == BatchRecovered
    ensures RecoveredTo(c, s0, t, env, ceiling, 0)
  {
    BetweenHas(c, s0, t, env, ceiling, t.row.outcomes, 0, 0);
    hide AtRest;
    hide Known;
    hide Mended;
    hide Mends;
    forall j: nat | j < |c.plans| ensures EntryEnds(c, s0, t, env, ceiling, 0, j) {
      MendedEnds(c, s0, t, env, ceiling, 0, j);
    }
  }

  lemma BrokenIsTo(c: Config, s0: State, t: State, env: Manners, ceiling: nat, i: nat)
    requires BreaksAt(c, s0, t, env, ceiling, t.row.outcomes, i, t.row.status) && t.procs == map[]
    ensures RecoveredTo(c, s0, t, env, ceiling, i + 1)
  {
    BetweenHas(c, s0, t, env, ceiling, t.row.outcomes, i, i + 1);
    hide AtRest;
    hide Known;
    hide Mended;
    hide Mends;
    hide RestoredFrom;
    hide RunsBefore;
    var stop := i + 1;
    forall j: nat | j < |c.plans| ensures EntryEnds(c, s0, t, env, ceiling, stop, j) {
      if j > i { MendedEnds(c, s0, t, env, ceiling, stop, j); }
      if j < i { assert Unmended(c, s0, t, t.row.outcomes, j); }
    }
  }

  function Lowered(c: Config, ceiling: nat): nat { if ceiling < c.repairLimit then ceiling else c.repairLimit }

  /** Recovering a batch, last entry first: it goes on as long as every dispatched entry can be
      inspected, and is back already or is put back by one call within the repair ceiling. */
  lemma RecoverBatchEnds(c: Config, s0: State, ceiling: nat, env: Manners, stamps: seq<Stamp>) returns (stop: nat)
    requires Quiet(c, s0) && s0.row.status !in {BatchReady, BatchRecovered}
    requires |stamps| >= RestToRepair(c, |c.plans|) + 2
    ensures RecoveredTo(c, s0, Launched(c, s0, RecoverBatch, ceiling, env, stamps), env, Lowered(c, ceiling), stop)
  {
    var pid, n, low := s0.nextProc, |c.plans|, Lowered(c, ceiling);
    var s1 := Do(c, s0, Launch(RecoverBatch, ceiling));
    var t := Alone(c, s1, pid, env, stamps);
    assert Shaped(c, s0) by { AtRestShape(c, s0); }
    var base := s0.(nextProc := pid + 1);
    assert s1 == base.(procs := map[pid := Process(s0.row, s0.row, InspectRepair(n), low)]);
    AtRestSame(c, s0, base);
    hide AtRest;
    assert Between(c, base, s1, env, low, s0.row.outcomes, n, n);
    hide Between;
    assert Recovers(c, base, s1, pid, env, low, 0);
    RecoveryRuns(c, base, s1, pid, env, low, 0, stamps);
    hide Alone;
    hide Do;
    hide BreaksAt;
    hide RecoveredTo;
    if t.row.status == BatchRecovered {
      stop := 0;
      RecoveredIsTo(c, base, t, env, low);
    } else {
      var i: nat :| BreaksAt(c, base, t, env, low, t.row.outcomes, i, t.row.status);
      stop := i + 1;
      BrokenIsTo(c, base, t, env, low, i);
    }
    SameStart(c, s0, base, t, env, low, stop);
  }

  lemma SameStart(c: Config, s: State, s': State, t: State, env: Manners, ceiling: nat, stop: nat)
    requires RecoveredTo(c, s', t, env, ceiling, stop) && s' == s.(nextProc := s'.nextProc)
    ensures RecoveredTo(c, s, t, env, ceiling, stop)
  {
    hide RestoredFrom;
    hide RunsBefore;
    forall j: nat | j < |c.plans|
      ensures Mends(s', env, ceiling, j) == Mends(s, env, ceiling, j) && EntryEnds(c, s, t, env, ceiling, stop, j)
    {
      assert EntryEnds(c, s', t, env, ceiling, stop, j);
    }
  }

  /** When every dispatched entry is reached, and is back already or below the ceiling with a
      target that serves its call, the batch is recovered: with exactly one recover call for
      each entry that was not back, and every target holds its originals. */
  lemma BatchIsRecovered(c: Config, s0: State, ceiling: nat, env: Manners, stamps: seq<Stamp>)
    requires Quiet(c, s0) && s0.row.status !in {BatchReady, BatchRecovered}
    requires |stamps| >= RestToRepair(c, |c.plans|) + 2 && |env| == |c.plans| == |s0.sites| == |s0.row.outcomes|
    requires forall i: nat | i < |c.plans| && s0.row.outcomes[i].dispatched ::
               && env[i].Serves? && StatusOf(s0, i) !in {Unrecorded, Preparing, PreparationFailed, ValidationFailed}
               && (StatusOf(s0, i) != Recovered ==> s0.row.outcomes[i].repairs < ceiling && s0.row.outcomes[i].repairs < c.repairLimit)
    ensures var t := Launched(c, s0, RecoverBatch, ceiling, env, stamps);
      && t.row.status == BatchRecovered && t.procs == map[] && Shaped(c, s0) && Shaped(c, t)
      && forall i: nat | i < |c.plans| ::
           var o := s0.row.outcomes[i];
           && t.history.recovers[i] == s0.history.recovers[i] + (if o.dispatched && StatusOf(s0, i) != Recovered then 1 else 0)
           && (o.dispatched ==>
                 t.row.outcomes[i].state == StatusOf(t, i) == Recovered && RestoredFrom(c.plans[i], t.sites[i].machine.world.disk, 0))
  {
    var stop := RecoverBatchEnds(c, s0, ceiling, env, stamps);
    var t := Launched(c, s0, RecoverBatch, ceiling, env, stamps);
    hide Launched;
    hide Quiet;
    hide RestoredFrom;
    hide RunsBefore;
    assert forall i: nat | i < |c.plans| :: Mends(s0, env, Lowered(c, ceiling), i);
    assert stop == 0;
    hide Mends;
    hide MayRepair;
    forall i: nat | i < |c.plans|
      ensures t.history.recovers[i] == s0.history.recovers[i] + (if Needs(s0, i) then 1 else 0)
      ensures s0.row.outcomes[i].dispatched ==>
                t.row.outcomes[i].state == StatusOf(t, i) == Recovered && RestoredFrom(c.plans[i], t.sites[i].machine.world.disk, 0)
    {
      assert EntryEnds(c, s0, t, env, Lowered(c, ceiling), 0, i);
    }
  }

  /** In every other status the request is refused, and nothing is read or written. */
  lemma LaunchRefused(c: Config, s: State, job: Job, ceiling: nat)
    requires match job
             case ApplyBatch => s.row.status != BatchReady
             case ReconcileBatch => s.row.status == BatchReady
             case RecoverBatch => s.row.status in {BatchReady, BatchRecovered}
    ensures Do(c, s, Launch(job, ceiling)) == s
  {
  }

  // ------------------------------------------------------------- reconciliation as a whole

  /** What an inspection makes of entry `j`: a target that answers ready after its dispatch, or
      does not answer, is unknown. */
  function Seen(s0: State, env: Manners, j: nat): Outcome
    requires j < |s0.sites| == |s0.row.outcomes|
  {
    var o := s0.row.outcomes[j];
    if !o.dispatched then o
    else o.(state := if Reached(env, j) && StatusOf(s0, j) != Ready then StatusOf(s0, j) else Unknown)
  }

  /** The entries before `i` have been read. */
  ghost predicate Reads(c: Config, s0: State, s: State, pid: nat, env: Manners, i: nat) {
    && Shaped(c, s0) && i <= |c.plans| && pid in s.procs && s == s0.(procs := map[pid := s.procs[pid]])
    && s.procs[pid].at.ReconcileEntry? && s.procs[pid].base == s0.row && |s.procs[pid].work.outcomes| == |c.plans|
    && s.procs[pid].at.i == i
    && (forall j: nat | j < |c.plans| :: s.procs[pid].work.outcomes[j] == if j < i then Seen(s0, env, j) else s0.row.outcomes[j])
    && (s.procs[pid].at.allCommitted <==>
          forall j: nat | j < i :: s0.row.outcomes[j].dispatched && Seen(s0, env, j).state == Committed)
    && (s.procs[pid].at.allRecovered <==>
          forall j: nat | j < i && s0.row.outcomes[j].dispatched :: Seen(s0, env, j).state == Recovered)
    && (s.procs[pid].at.problem <==> exists j: nat :: j < i && s0.row.outcomes[j].dispatched && !Reached(env, j))
  }

  /** The status that reconciliation leaves. */
  ghost function Verdict(s0: State, env: Manners): BatchStatus
    requires |s0.sites| == |s0.row.outcomes|
  {
    if exists j: nat :: j < |s0.sites| && s0.row.outcomes[j].dispatched && !Reached(env, j) then BatchUnknown
    else if forall j: nat | j < |s0.sites| :: s0.row.outcomes[j].dispatched && StatusOf(s0, j) == Committed then BatchCommitted
    else if forall j: nat | j < |s0.sites| && s0.row.outcomes[j].dispatched :: StatusOf(s0, j) == Recovered then BatchRecovered
    else RolloutStopped
  }

  lemma ReadGoesOn(c: Config, s0: State, s: State, pid: nat, env: Manners, i: nat, stamp: Stamp)
    requires Reads(c, s0, s, pid, env, i) && i < |c.plans|
    ensures Reads(c, s0, Do(c, s, Turn(s, pid, env, stamp)), pid, env, i + 1)
  {
    var t := Do(c, s, Turn(s, pid, env, stamp));
    ReadIs(c, s, s0, pid, env, i, stamp);
    hide Do;
    hide Turn;
    hide Seen;
    hide Reached;
  }

  lemma ReadIs(c: Config, s: State, s0: State, pid: nat, env: Manners, i: nat, stamp: Stamp)
    requires Shaped(c, s0) && pid in s.procs && s == s0.(procs := map[pid := s.procs[pid]]) && i < |c.plans|
    requires s.procs[pid].at.ReconcileEntry? && s.procs[pid].at.i == i && |s.procs[pid].work.outcomes| == |c.plans|
    requires s.procs[pid].work.outcomes[i] == s0.row.outcomes[i]
    ensures var t, p, seen := Do(c, s, Turn(s, pid, env, stamp)), s.procs[pid], Seen(s0, env, i);
      && t == s0.(procs := map[pid := t.procs[pid]]) && t.procs[pid].base == p.base && t.procs[pid].at.ReconcileEntry?
      && t.procs[pid].work.outcomes == p.work.outcomes[i := seen] && t.procs[pid].at.i == i + 1
      && t.procs[pid].at.allCommitted == (p.at.allCommitted && seen.dispatched && seen.state == Committed)
      && t.procs[pid].at.allRecovered == (p.at.allRecovered && (seen.dispatched ==> seen.state == Recovered))
      && t.procs[pid].at.problem == (p.at.problem || (seen.dispatched && !Reached(env, i)))
      && seen.dispatched == s0.row.outcomes[i].dispatched
  {
  }

  lemma VerdictIs(c: Config, s0: State, s: State, pid: nat, env: Manners)
    requires Reads(c, s0, s, pid, env, |c.plans|)
    ensures var at := s.procs[pid].at;
      Verdict(s0, env) == if at.problem then BatchUnknown else if at.allCommitted then BatchCommitted
                          else if at.allRecovered then BatchRecovered else RolloutStopped
  {
  }

  lemma LastRead(c: Config, s0: State, s: State, pid: nat, env: Manners, stamps: seq<Stamp>)
    requires Reads(c, s0, s, pid, env, |c.plans|) && |stamps| >= 2
    ensures var t := Alone(c, s, pid, env, stamps);
      && t.procs == map[] && t == s0.(row := t.row, procs := map[], history := s0.history.(writer := t.history.writer))
      && t.row == Batch(Verdict(s0, env), s.procs[pid].work.outcomes, s0.row.revision + 1)
  {
    var s1, to := Do(c, s, Turn(s, pid, env, stamps[0])), Verdict(s0, env);
    AloneSteps(c, s, pid, env, stamps);
    hide Alone;
    VerdictIs(c, s0, s, pid, env);
    hide Verdict;
    VerdictGoesOn(c, s, pid, env, to, stamps[0]);
    VerdictSaved(c, s1, pid, env, to, stamps[1]);
    hide Do;
    hide Turn;
    AloneSteps(c, s1, pid, env, stamps[1..]);
    AloneSteps(c, Do(c, s1, Turn(s1, pid, env, stamps[1])), pid, env, stamps[1..][1..]);
  }

  lemma VerdictGoesOn(c: Config, s: State, pid: nat, env: Manners, to: BatchStatus, stamp: Stamp)
    requires Shaped(c, s) && pid in s.procs && |s.procs[pid].work.outcomes| == |c.plans|
    requires s.procs[pid].at.ReconcileEntry? && s.procs[pid].at.i == |c.plans|
    requires to == if s.procs[pid].at.problem then BatchUnknown else if s.procs[pid].at.allCommitted then BatchCommitted
                   else if s.procs[pid].at.allRecovered then BatchRecovered else RolloutStopped
    ensures Do(c, s, Turn(s, pid, env, stamp)) == Go(s, pid, s.procs[pid].(at := LastSave(to)))
  {
  }

  lemma VerdictSaved(c: Config, s: State, pid: nat, env: Manners, to: BatchStatus, stamp: Stamp)
    requires Shaped(c, s) && pid in s.procs && s.procs == map[pid := s.procs[pid]] && |s.procs[pid].work.outcomes| == |c.plans|
    requires s.procs[pid].at == LastSave(to) && s.procs[pid].base.revision == s.row.revision
    ensures var t := Do(c, s, Turn(s, pid, env, stamp));
      && t == s.(row := t.row, procs := map[], history := s.history.(writer := t.history.writer))
      && t.row == Batch(to, s.procs[pid].work.outcomes, s.row.revision + 1)
  {
  }

  lemma {:induction false} ReadsOn(c: Config, s0: State, s: State, pid: nat, env: Manners, i: nat, stamps: seq<Stamp>)
    requires Reads(c, s0, s, pid, env, i) && |stamps| >= |c.plans| - i + 2
    ensures var t := Alone(c, s, pid, env, stamps);
      && t.procs == map[] && t == s0.(row := t.row, procs := map[], history := s0.history.(writer := t.history.writer))
      && t.row.status == Verdict(s0, env) && |t.row.outcomes| == |c.plans|
      && forall j: nat | j < |c.plans| :: t.row.outcomes[j] == Seen(s0, env, j)
    decreases |c.plans| - i
  {
    hide Do;
    hide Turn;
    hide Alone;
    hide Verdict;
    if i < |c.plans| {
      AloneSteps(c, s, pid, env, stamps);
      ReadGoesOn(c, s0, s, pid, env, i, stamps[0]);
      var next := Do(c, s, Turn(s, pid, env, stamps[0]));
      hide Reads;
      assert pid in s.procs by { ReadsProcess(c, s0, s, pid, env, i); }
      ReadsOn(c, s0, next, pid, env, i + 1, stamps[1..]);
    } else {
      LastRead(c, s0, s, pid, env, stamps);
    }
  }

  lemma ReadsProcess(c: Config, s0: State, s: State, pid: nat, env: Manners, i: nat)
    requires Reads(c, s0, s, pid, env, i)
    ensures pid in s.procs
  {
  }

  /** Reconciling a batch records what every dispatched entry answers and what follows from it
      for the whole, and sends nothing. */
  lemma ReconcileBatchEnds(c: Config, s0: State, ceiling: nat, env: Manners, stamps: seq<Stamp>)
    requires Shaped(c, s0) && s0.procs == map[] && s0.row.status != BatchReady && |stamps| >= |c.plans| + 2
    ensures var t := Launched(c, s0, ReconcileBatch, ceiling, env, stamps);
      && t.procs == map[] && t.row.status == Verdict(s0, env) && |t.row.outcomes| == |c.plans|
      && (forall j: nat | j < |c.plans| :: t.row.outcomes[j] == Seen(s0, env, j))
      && t.sites == s0.sites && t.calls == s0.calls && t.inFlight == s0.inFlight
      && t.history.applies == s0.history.applies && t.history.recovers == s0.history.recovers
  {
    var pid := s0.nextProc;
    var s1 := Do(c, s0, Launch(ReconcileBatch, ceiling));
    var base := s0.(nextProc := pid + 1);
    assert s1 == base.(procs := map[pid := s1.procs[pid]]);
    assert Reads(c, base, s1, pid, env, 0);
    ReadsOn(c, base, s1, pid, env, 0, stamps);
    hide Alone;
    assert Verdict(base, env) == Verdict(s0, env);
    assert forall j: nat | j < |c.plans| :: Seen(base, env, j) == Seen(s0, env, j);
  }
}
