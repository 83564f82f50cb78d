/** What holds in every reachable state of controllers, targets and network. */
module FleetSafety {
  import opened RecoveryTypes
  import opened Engine
  import opened EngineSafety
  import opened Fleet
  import opened Wrappers

  // ------------------------------------------------------------- the row

  predicate Dispatched(b: Batch, i: nat) {
    i < |b.outcomes| && b.outcomes[i].dispatched
  }

  /** Exactly the entries before `k` are dispatched. */
  ghost predicate DispatchedBelow(b: Batch, k: nat) {
    forall i: nat | i < |b.outcomes| :: b.outcomes[i].dispatched <==> i < k
  }

  /** Dispatch follows the order of the plan. */
  ghost predicate DispatchedIsPrefix(b: Batch) {
    forall i: nat, j: nat | i < j < |b.outcomes| && b.outcomes[j].dispatched :: b.outcomes[i].dispatched
  }

  ghost predicate CommittedBelow(b: Batch, k: nat) {
    forall i: nat | i < |b.outcomes| && i < k :: b.outcomes[i].state == Committed
  }

  predicate AtRecovered(s: State, i: nat) {
    i < |s.sites| && StatusOf(s, i) == Recovered
  }

  ghost predicate DispatchedRecovered(s: State, b: Batch, from: nat) {
    forall i: nat | i < |b.outcomes| && from <= i && b.outcomes[i].dispatched :: AtRecovered(s, i)
  }

  /** What is recorded of a target is true of it. */
  ghost predicate Truthful(s: State, b: Batch) {
    forall i: nat | i < |b.outcomes| && i < |s.sites| ::
      && (b.outcomes[i].state == Committed ==> s.sites[i].committed)
      && (b.outcomes[i].state == Recovered ==> AtRecovered(s, i))
  }

  /** Only dispatched entries are repaired, and within the limit of the plan. */
  ghost predicate Bounded(c: Config, b: Batch) {
    forall i: nat | i < |b.outcomes| ::
      b.outcomes[i].repairs <= c.repairLimit && (b.outcomes[i].repairs > 0 ==> b.outcomes[i].dispatched)
  }

  predicate RollsOut(st: BatchStatus) {
    st in {BatchReady, BatchApplying}
  }

  predicate SameDispatch(a: Batch, b: Batch) {
    && |a.outcomes| == |b.outcomes|
    && forall i | 0 <= i < |a.outcomes| :: a.outcomes[i].dispatched == b.outcomes[i].dispatched
  }

  /** Once a rollout has stopped, it neither resumes nor dispatches any more. */
  predicate Follows(a: Batch, b: Batch) {
    !RollsOut(a.status) ==> !RollsOut(b.status) && SameDispatch(a, b)
  }

  /** What a batch status promises of the outcomes beside it. */
  ghost predicate Meaningful(s: State, b: Batch) {
    && (b.status == BatchReady ==> DispatchedBelow(b, 0))
    && (b.status == BatchCommitted ==> DispatchedBelow(b, |b.outcomes|) && CommittedBelow(b, |b.outcomes|))
    && (b.status == BatchRecovered ==> DispatchedRecovered(s, b, 0))
  }

  ghost predicate Sound(c: Config, s: State, b: Batch) {
    && |b.outcomes| == |c.plans|
    && DispatchedIsPrefix(b) && Truthful(s, b) && Bounded(c, b) && Meaningful(s, b)
  }

  // ------------------------------------------------------------- targets and network

  ghost predicate SitesSound(c: Config, s: State) {
    forall i: nat | i < |s.sites| && i < |c.plans| ::
      && Inv(c.plans[i], s.sites[i].machine)
      && (StatusOf(s, i) == Committed ==> s.sites[i].committed)
      && (s.sites[i].serving.Some? ==> s.sites[i].serving.value < |s.calls| && s.calls[s.sites[i].serving.value].i == i)
  }

  ghost predicate RepliesSound(s: State) {
    && (forall k <- s.replies :: k < |s.calls| && s.calls[k].i < |s.sites|)
    && (forall k <- s.replies :: k < |s.calls| && s.calls[k].i < |s.sites| ==>
          && (s.replies[k] == Committed ==> s.sites[s.calls[k].i].committed)
          && (s.replies[k] == Recovered ==> AtRecovered(s, s.calls[k].i)))
  }

  // ------------------------------------------------------------- history

  ghost predicate HistorySound(s: State) {
    var h := s.history;
    && (forall r <- h.writer :: r <= s.row.revision)
    && (forall i <- h.dispatchedAt :: Dispatched(s.row, i) && h.dispatchedAt[i] <= s.row.revision)
    && (forall i: nat | i < |s.row.outcomes| && i < |h.applies| ::
          && h.applies[i] <= 1
          && (h.applies[i] == 1 ==> s.row.outcomes[i].dispatched))
    && (forall i: nat | i < |s.row.outcomes| && i < |h.repairedAt| && i < |h.repairsSent| && i < |h.recovers| ::
          && |h.repairedAt[i]| == s.row.outcomes[i].repairs
          && (forall r <- h.repairedAt[i] :: r <= s.row.revision)
          && h.repairsSent[i] <= h.repairedAt[i]
          && h.recovers[i] == |h.repairsSent[i]|)
  }

  // ------------------------------------------------------------- processes

  /** `work` records the same dispatches and repairs as `base`. */
  ghost predicate SameEvidence(work: Batch, base: Batch) {
    && |work.outcomes| == |base.outcomes|
    && forall i: nat | i < |base.outcomes| ::
         work.outcomes[i].dispatched == base.outcomes[i].dispatched && work.outcomes[i].repairs == base.outcomes[i].repairs
  }

  /** `b` records one more repair of entry `i` than `a`, and nothing else is dispatched or repaired. */
  ghost predicate OneMoreRepair(b: Batch, a: Batch, i: nat) {
    && i < |a.outcomes| == |b.outcomes|
    && a.outcomes[i].dispatched && b.outcomes[i].dispatched && b.outcomes[i].repairs == a.outcomes[i].repairs + 1
    && forall j: nat | j < |a.outcomes| && j != i ::
         b.outcomes[j].dispatched == a.outcomes[j].dispatched && b.outcomes[j].repairs == a.outcomes[j].repairs
  }

  ghost predicate Rolling(p: Process, k: nat) {
    && RollsOut(p.base.status)
    && DispatchedBelow(p.base, k) && SameEvidence(p.work, p.base)
  }

  /** What a process knows at its control point, of the batch alone. */
  ghost predicate Knows(c: Config, p: Process) {
    var n := |c.plans|;
    match p.at
    case PreInspect(i) => i < n && p.base.status == BatchReady && Rolling(p, 0) && p.work == p.base
    case Inspect(i) => i < n && Rolling(p, i) && CommittedBelow(p.base, i) && p.work == p.base
    case Dispatch(i) =>
      && i < n && RollsOut(p.base.status) && DispatchedBelow(p.base, i) && CommittedBelow(p.base, i)
      && i < |p.base.outcomes| && p.work == WithOutcome(p.base, i, Outcome(true, Unknown, p.base.outcomes[i].repairs))
    case SendApply(i) => i < n && Rolling(p, i + 1) && CommittedBelow(p.base, i) && p.work == p.base
    case AwaitApply(i, _) => i < n && Rolling(p, i + 1) && CommittedBelow(p.base, i) && p.work == p.base
    case RecordApplied(i) => i < n && Rolling(p, i + 1) && CommittedBelow(p.work, i + 1)
    case FinishApply => Rolling(p, n) && CommittedBelow(p.base, n) && p.work == p.base
    case ReconcileEntry(i, allCommitted, allRecovered, problem) =>
      && SameEvidence(p.work, p.base) && p.base.status != BatchReady
      && (allCommitted ==> forall j: nat | j < i && j < |p.work.outcomes| :: p.work.outcomes[j].dispatched && p.work.outcomes[j].state == Committed)
      && (allRecovered ==> forall j: nat | j < i && j < |p.work.outcomes| && p.work.outcomes[j].dispatched :: p.work.outcomes[j].state == Recovered)
    case RecordRepair(i) =>
      i < n && p.base.status != BatchReady && OneMoreRepair(p.work, p.base, i)
    case InspectRepair(left) => left <= n && SameEvidence(p.work, p.base) && p.base.status != BatchReady
    case SendRecover(i) => i < n && SameEvidence(p.work, p.base) && !RollsOut(p.base.status)
    case AwaitRecover(i, _) => i < n && SameEvidence(p.work, p.base) && p.base.status != BatchReady
    case RecordRecovered(i) => i < n && SameEvidence(p.work, p.base) && p.base.status != BatchReady
    case FinishRecover => SameEvidence(p.work, p.base) && p.base.status != BatchReady
    case LastSave(to) =>
      && SameEvidence(p.work, p.base) && to !in {BatchReady, BatchApplying}
      && (to == BatchCommitted ==> DispatchedBelow(p.work, |p.work.outcomes|) && CommittedBelow(p.work, |p.work.outcomes|))
  }

  /** What it knows of the targets. Restored targets stay restored, so this cannot expire. */
  ghost predicate Sees(c: Config, s: State, p: Process) {
    && Truthful(s, p.work)
    && match p.at
       case InspectRepair(left) => DispatchedRecovered(s, p.work, left)
       case RecordRepair(i) => DispatchedRecovered(s, p.work, i + 1)
       case SendRecover(i) => DispatchedRecovered(s, p.work, i + 1)
       case AwaitRecover(i, call) => DispatchedRecovered(s, p.work, i + 1) && call < |s.calls| && s.calls[call].i == i
       case AwaitApply(i, call) => call < |s.calls| && s.calls[call].i == i
       case RecordRecovered(i) => DispatchedRecovered(s, p.work, i)
       case FinishRecover => DispatchedRecovered(s, p.work, 0)
       case LastSave(to) => to == BatchRecovered ==> DispatchedRecovered(s, p.work, 0)
       case _ => true
  }

  /** The one-time permission to send that its last save gave it. */
  ghost predicate Holds(s: State, pid: nat, p: Process) {
    var h, r := s.history, p.base.revision;
    match p.at
    case SendApply(i) =>
      && r in h.writer && h.writer[r] == pid
      && i in h.dispatchedAt && h.dispatchedAt[i] == r && i < |h.applies| && h.applies[i] == 0
    case SendRecover(i) =>
      && r in h.writer && h.writer[r] == pid
      && i < |h.repairedAt| && i < |h.repairsSent| && r in h.repairedAt[i] && r !in h.repairsSent[i]
    case _ => true
  }

  ghost predicate ProcSound(c: Config, s: State, pid: nat, p: Process) {
    && pid < s.nextProc && p.ceiling <= c.repairLimit
    && Sound(c, s, p.base) && |p.work.outcomes| == |c.plans| && Bounded(c, p.work)
    && p.base.revision <= s.row.revision && (p.base.revision == s.row.revision ==> p.base == s.row)
    && Follows(p.base, s.row)
    && Knows(c, p) && Sees(c, s, p) && Holds(s, pid, p)
  }

  ghost predicate FleetInv(c: Config, s: State) {
    && Shaped(c, s) && (forall p <- c.plans :: ValidPlan(p))
    && Sound(c, s, s.row) && SitesSound(c, s) && RepliesSound(s) && HistorySound(s)
    && forall pid <- s.procs :: ProcSound(c, s, pid, s.procs[pid])
  }

  lemma Parts(c: Config, s: State)
    requires FleetInv(c, s)
    ensures Shaped(c, s) && (forall p <- c.plans :: ValidPlan(p))
    ensures Sound(c, s, s.row) && SitesSound(c, s) && RepliesSound(s) && HistorySound(s)
    ensures forall pid <- s.procs :: ProcSound(c, s, pid, s.procs[pid])
  {
    hide ValidPlan;
    hide Shaped;
    hide Sound;
    hide SitesSound;
    hide RepliesSound;
    hide HistorySound;
    hide ProcSound;
  }

  lemma Whole(c: Config, s: State)
    requires Shaped(c, s) && (forall p <- c.plans :: ValidPlan(p))
    requires Sound(c, s, s.row) && SitesSound(c, s) && RepliesSound(s) && HistorySound(s)
    requires forall pid <- s.procs :: ProcSound(c, s, pid, s.procs[pid])
    ensures FleetInv(c, s)
  {
    hide ValidPlan;
    hide Shaped;
    hide Sound;
    hide SitesSound;
    hide RepliesSound;
    hide HistorySound;
    hide ProcSound;
  }

  // ------------------------------------------------------------- what never goes back

  /** `t` is later than `s` as far as targets, calls and revisions go. */
  ghost predicate Later(s: State, t: State) {
    && |t.sites| == |s.sites|
    && (forall i: nat | i < |s.sites| :: (s.sites[i].committed ==> t.sites[i].committed) && (AtRecovered(s, i) ==> AtRecovered(t, i)))
    && s.calls <= t.calls
    && s.nextProc <= t.nextProc
    && s.row.revision <= t.row.revision
    && (t.row.revision == s.row.revision ==> t.row == s.row)
    && Follows(s.row, t.row)
  }

  lemma SoundLater(c: Config, s: State, t: State, b: Batch)
    requires Later(s, t) && Sound(c, s, b) && |s.sites| == |c.plans|
    ensures Sound(c, t, b)
  {
  }

  lemma SeesLater(c: Config, s: State, t: State, p: Process)
    requires Later(s, t) && Sees(c, s, p) && |s.sites| == |c.plans| == |p.work.outcomes|
    ensures Sees(c, t, p)
  {
  }

  lemma ProcLater(c: Config, s: State, t: State, pid: nat, p: Process)
    requires Later(s, t) && ProcSound(c, s, pid, p) && |s.sites| == |c.plans|
    requires Holds(t, pid, p)
    ensures ProcSound(c, t, pid, p)
  {
    SoundLater(c, s, t, p.base);
    SeesLater(c, s, t, p);
    hide Sound;
    hide Sees;
    hide Knows;
    hide Holds;
  }

  /** A restored target has no live process, so nothing can change it. */
  lemma RecoveredIsIdle(p: Plan, m: Machine)
    requires Inv(p, m) && m.world.status == Recovered
    ensures m.pc.Idle? && (forall f :: Step(p, m, f) == m) && (forall c :: Start(p, m.world, c).pc.Idle?)
  {
  }

  /** Processes that did not move still know what they knew. */
  lemma ProcsLater(c: Config, s: State, t: State)
    requires FleetInv(c, s) && Later(s, t)
    requires forall pid <- t.procs :: pid in s.procs && t.procs[pid] == s.procs[pid]
    requires forall pid <- t.procs :: Holds(s, pid, s.procs[pid]) ==> Holds(t, pid, s.procs[pid])
    ensures forall pid <- t.procs :: ProcSound(c, t, pid, t.procs[pid])
    ensures Sound(c, t, s.row)
  {
    SoundLater(c, s, t, s.row);
    hide Sound;
    hide Holds;
    hide Later;
    forall pid <- t.procs ensures ProcSound(c, t, pid, t.procs[pid]) {
      assert ProcSound(c, s, pid, s.procs[pid]);
      ProcLater(c, s, t, pid, s.procs[pid]);
    }
  }

  /** Neither the row nor what was sent changes: only targets, calls or replies move. */
  lemma Kept(c: Config, s: State, t: State)
    requires FleetInv(c, s) && Later(s, t) && Shaped(c, t) && SitesSound(c, t) && RepliesSound(t)
    requires t.row == s.row && t.history == s.history
    requires forall pid <- t.procs :: pid in s.procs && t.procs[pid] == s.procs[pid]
    ensures FleetInv(c, t)
  {
    hide Sound;
    hide ProcSound;
    hide Later;
    hide SitesSound;
    hide RepliesSound;
    ProcsLater(c, s, t);
  }

  lemma FollowsSelf(b: Batch)
    ensures Follows(b, b)
  {
  }

  lemma LaterTrans(s: State, t: State, u: State)
    requires Later(s, t) && Later(t, u)
    ensures Later(s, u)
  {
  }

  // ------------------------------------------------------------- targets move

  lemma SiteMoved(c: Config, s: State, i: nat, m: Machine, serving: Option<nat>)
    requires SitesSound(c, s) && RepliesSound(s) && Shaped(c, s) && i < |s.sites|
    requires Inv(c.plans[i], m) && (AtRecovered(s, i) ==> m.world.status == Recovered)
    requires serving.Some? ==> serving.value < |s.calls| && s.calls[serving.value].i == i
    ensures SitesSound(c, MoveSite(s, i, m, serving)) && Later(s, MoveSite(s, i, m, serving))
    ensures RepliesSound(MoveSite(s, i, m, serving))
  {
    hide Inv;
    hide Shaped;
  }

  lemma MoveSiteKeeps(c: Config, s: State, i: nat, m: Machine, serving: Option<nat>)
    requires FleetInv(c, s) && i < |s.sites|
    requires Inv(c.plans[i], m) && (AtRecovered(s, i) ==> m.world.status == Recovered)
    requires serving.Some? ==> serving.value < |s.calls| && s.calls[serving.value].i == i
    ensures FleetInv(c, MoveSite(s, i, m, serving))
    ensures Later(s, MoveSite(s, i, m, serving))
  {
    SiteMoved(c, s, i, m, serving);
    hide Inv;
    hide Later;
    hide SitesSound;
    hide RepliesSound;
    hide Sound;
    hide ProcSound;
    hide HistorySound;
    Kept(c, s, MoveSite(s, i, m, serving));
  }

  lemma NetworkMoved(c: Config, s: State, t: State)
    requires SitesSound(c, s) && RepliesSound(s)
    requires t.sites == s.sites && t.calls == s.calls && t.replies == s.replies && t.row == s.row
    requires t.nextProc == s.nextProc
    ensures SitesSound(c, t) && RepliesSound(t) && Later(s, t)
  {
    hide Inv;
  }

  lemma NetworkKeeps(c: Config, s: State, flying: set<nat>)
    requires FleetInv(c, s)
    ensures FleetInv(c, s.(inFlight := flying))
    ensures Later(s, s.(inFlight := flying))
  {
    NetworkMoved(c, s, s.(inFlight := flying));
    hide Inv;
    hide Later;
    hide SitesSound;
    hide RepliesSound;
    hide Sound;
    hide ProcSound;
    hide HistorySound;
    Kept(c, s, s.(inFlight := flying));
  }

  function Replied(s: State, i: nat): State
    requires i < |s.sites| && s.sites[i].serving.Some?
  {
    s.(replies := s.replies[s.sites[i].serving.value := StatusOf(s, i)])
  }

  lemma ReplySound(c: Config, s: State, i: nat)
    requires SitesSound(c, s) && RepliesSound(s) && i < |s.sites| == |c.plans| && s.sites[i].serving.Some?
    ensures SitesSound(c, Replied(s, i)) && RepliesSound(Replied(s, i)) && Later(s, Replied(s, i))
  {
    hide Inv;
  }

  lemma ReplyKeeps(c: Config, s: State, i: nat)
    requires FleetInv(c, s) && i < |s.sites| && s.sites[i].serving.Some?
    ensures FleetInv(c, Replied(s, i))
    ensures Later(s, Replied(s, i))
  {
    ReplySound(c, s, i);
    hide Inv;
    hide Later;
    hide SitesSound;
    hide RepliesSound;
    hide Sound;
    hide ProcSound;
    hide HistorySound;
    Kept(c, s, Replied(s, i));
  }

  /** Starting a call at a target, from its durable state. */
  lemma StartSound(c: Config, s: State, i: nat, request: Call)
    requires FleetInv(c, s) && i < |s.sites|
    ensures Inv(c.plans[i], Start(c.plans[i], s.sites[i].machine.world, request))
  {
    hide Journal;
    hide Control;
    assert Inv(c.plans[i], s.sites[i].machine);
    BeginKeeps(c.plans[i], s.sites[i].machine.world, request);
  }

  predicate AtTarget(e: Event) {
    e.Deliver? || e.Lose? || e.Respond? || e.TargetStep? || e.TargetCrash? || e.Operator?
  }

  lemma DeliverKeeps(c: Config, s: State, call: nat, accepted: bool)
    requires FleetInv(c, s)
    ensures FleetInv(c, Do(c, s, Deliver(call, accepted))) && Later(s, Do(c, s, Deliver(call, accepted)))
  {
    hide Begin;
    hide Sound;
    hide RepliesSound;
    hide HistorySound;
    hide ProcSound;
    hide Inv;
    var left := s.(inFlight := s.inFlight - {call});
    NetworkKeeps(c, s, s.inFlight - {call});
    FollowsSelf(s.row);
    if call < |s.calls| && s.calls[call].i < |s.sites| {
      var i, request := s.calls[call].i, Requested(s.calls[call], accepted);
      var m := Start(c.plans[i], s.sites[i].machine.world, request);
      StartSound(c, left, i, request);
      hide SitesSound;
      MoveSiteKeeps(c, left, i, m, Some(call));
      LaterTrans(s, left, MoveSite(left, i, m, Some(call)));
    }
  }

  lemma RespondIs(c: Config, s: State, i: nat)
    ensures Do(c, s, Respond(i)) ==
      if i < |s.sites| && s.sites[i].machine.pc.Idle? && s.sites[i].serving.Some? then
        MoveSite(Replied(s, i), i, s.sites[i].machine, None)
      else s
  {
  }

  lemma RepliedSite(c: Config, s: State, i: nat)
    requires SitesSound(c, s) && Shaped(c, s) && i < |s.sites| && s.sites[i].serving.Some?
    ensures |Replied(s, i).sites| == |s.sites| == |c.plans| && Inv(c.plans[i], s.sites[i].machine)
    ensures AtRecovered(Replied(s, i), i) ==> s.sites[i].machine.world.status == Recovered
  {
    hide Inv;
  }

  lemma RespondKeeps(c: Config, s: State, i: nat)
    requires FleetInv(c, s)
    ensures FleetInv(c, Do(c, s, Respond(i))) && Later(s, Do(c, s, Respond(i)))
  {
    hide *;
    Parts(c, s);
    RespondIs(c, s, i);
    if i < |s.sites| && s.sites[i].machine.pc.Idle? && s.sites[i].serving.Some? {
      RepliedSite(c, s, i);
      ReplyKeeps(c, s, i);
      MoveSiteKeeps(c, Replied(s, i), i, s.sites[i].machine, None);
      LaterTrans(s, Replied(s, i), MoveSite(Replied(s, i), i, s.sites[i].machine, None));
    } else {
      LaterSame(s);
    }
  }

  lemma LaterSame(s: State)
    ensures Later(s, s)
  {
    FollowsSelf(s.row);
  }

  /** What a step, a crash or an operator makes of target `i`. */
  function Moving(c: Config, s: State, i: nat, e: Event): Option<Site>
    requires Shaped(c, s)
  {
    if i >= |s.sites| then None
    else
      var m, serving := s.sites[i].machine, s.sites[i].serving;
      match e
      case TargetStep(_, fate) => Some(Site(Step(c.plans[i], m, fate), serving, false))
      case TargetCrash(_) => Some(Site(m.(pc := Idle(false)), None, false))
      case Operator(_, request) => if m.pc.Idle? then Some(Site(Start(c.plans[i], m.world, request), None, false)) else None
      case _ => None
  }

  lemma SiteEventIs(c: Config, s: State, e: Event)
    requires Shaped(c, s) && (e.TargetStep? || e.TargetCrash? || e.Operator?)
    ensures Do(c, s, e) ==
      if Moving(c, s, e.i, e).None? then s else MoveSite(s, e.i, Moving(c, s, e.i, e).value.machine, Moving(c, s, e.i, e).value.serving)
  {
    hide Step;
    hide Start;
  }

  lemma MovingSound(c: Config, s: State, i: nat, e: Event)
    requires Shaped(c, s) && SitesSound(c, s) && i < |s.sites| && Moving(c, s, i, e).Some?
    requires e.Operator? ==> Inv(c.plans[i], Start(c.plans[i], s.sites[i].machine.world, e.request))
    ensures var m := Moving(c, s, i, e).value;
      && Inv(c.plans[i], m.machine) && (AtRecovered(s, i) ==> m.machine.world.status == Recovered)
      && (m.serving.Some? ==> m.serving.value < |s.calls| && s.calls[m.serving.value].i == i)
  {
    var m := s.sites[i].machine;
    assert Inv(c.plans[i], m);
    match e
    case TargetStep(_, fate) =>
      StepKeeps(c.plans[i], m, fate);
      if AtRecovered(s, i) { RecoveredIsIdle(c.plans[i], m); }
      hide Inv;
      hide Step;
    case TargetCrash(_) =>
    case Operator(_, request) =>
      hide Inv;
      hide Begin;
  }

  lemma SiteEventKeeps(c: Config, s: State, e: Event)
    requires FleetInv(c, s) && (e.TargetStep? || e.TargetCrash? || e.Operator?)
    ensures FleetInv(c, Do(c, s, e)) && Later(s, Do(c, s, e))
  {
    hide *;
    Parts(c, s);
    SiteEventIs(c, s, e);
    LaterSame(s);
    if Moving(c, s, e.i, e).Some? {
      InRangeSite(c, s, e.i, e);
      if e.Operator? { StartSound(c, s, e.i, e.request); }
      MovingSound(c, s, e.i, e);
      MoveSiteKeeps(c, s, e.i, Moving(c, s, e.i, e).value.machine, Moving(c, s, e.i, e).value.serving);
    }
  }

  lemma InRangeSite(c: Config, s: State, i: nat, e: Event)
    requires Shaped(c, s) && Moving(c, s, i, e).Some?
    ensures i < |s.sites| == |c.plans|
  {
  }

  lemma TargetEventKeeps(c: Config, s: State, e: Event)
    requires FleetInv(c, s) && AtTarget(e)
    ensures FleetInv(c, Do(c, s, e)) && Later(s, Do(c, s, e))
  {
    hide FleetInv;
    hide Later;
    match e
    case Deliver(call, accepted) => DeliverKeeps(c, s, call, accepted);
    case Lose(call) => NetworkKeeps(c, s, s.inFlight - {call});
    case Respond(i) => RespondKeeps(c, s, i);
    case _ => SiteEventKeeps(c, s, e);
  }
}
