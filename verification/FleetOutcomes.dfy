/** What a fleet controller achieves when nobody else acts: the course of a rollout, a
    reconciliation and a recovery, by how each target behaves. */
module FleetOutcomes {
  import opened RecoveryTypes
  import opened Engine
  import opened EngineSafety
  import opened EngineRollback
  import opened EngineTheorems
  import opened EngineOutcomes
  import opened Fleet
  import opened Wrappers

  // ------------------------------------------------------------- one party

  /** How a target behaves: it cannot be inspected at all, can be inspected only the first
      time, never receives its call, receives and declines it, or serves it without a failure. */
  datatype Manner = Away | Leaves | Drops | Declines | Serves

  type Manners = seq<Manner>

  predicate Reached(env: Manners, i: nat) {
    i < |env| && env[i] !in {Away, Leaves}
  }

  predicate ServedBy(env: Manners, i: nat) {
    i < |env| && env[i].Serves?
  }

  /** While a controller waits, its call is delivered or lost, served to its end and answered;
      it stops waiting once there is an answer, or nobody left to give one. */
  function Waiting(s: State, pid: nat, env: Manners, i: nat, call: nat, stamp: Stamp): Event {
    if call in s.replies then Advance(pid, Acknowledged, true)
    else if call in s.inFlight then
      if i < |env| && env[i].Drops? then Lose(call) else Deliver(call, ServedBy(env, i))
    else if i < |s.sites| && s.sites[i].serving == Some(call) then
      if s.sites[i].machine.pc.Idle? then Respond(i) else TargetStep(i, Done(stamp))
    else Advance(pid, Acknowledged, false)
  }

  /** Whose turn it is when nobody but the controller and the target it calls acts. */
  function Turn(s: State, pid: nat, env: Manners, stamp: Stamp): Event
    requires pid in s.procs
  {
    match s.procs[pid].at
    case PreInspect(i) => Advance(pid, Acknowledged, i < |env| && !env[i].Away?)
    case Inspect(i) => Advance(pid, Acknowledged, Reached(env, i))
    case InspectRepair(left) => Advance(pid, Acknowledged, left > 0 && Reached(env, left - 1))
    case ReconcileEntry(i, _, _, _) => Advance(pid, Acknowledged, Reached(env, i))
    case AwaitApply(i, call) => Waiting(s, pid, env, i, call, stamp)
    case AwaitRecover(i, call) => Waiting(s, pid, env, i, call, stamp)
    case _ => Advance(pid, Acknowledged, true)
  }

  /** The events of such a run, until the controller returns. */
  function Turns(c: Config, s: State, pid: nat, env: Manners, stamps: seq<Stamp>): seq<Event>
    decreases |stamps|
  {
    if pid !in s.procs || stamps == [] then []
    else
      var e := Turn(s, pid, env, stamps[0]);
      [e] + Turns(c, Do(c, s, e), pid, env, stamps[1..])
  }

  function Alone(c: Config, s: State, pid: nat, env: Manners, stamps: seq<Stamp>): State {
    Run(c, s, Turns(c, s, pid, env, stamps))
  }

  lemma AloneSteps(c: Config, s: State, pid: nat, env: Manners, stamps: seq<Stamp>)
    ensures pid !in s.procs || stamps == [] ==> Alone(c, s, pid, env, stamps) == s
    ensures pid in s.procs && stamps != [] ==>
              Alone(c, s, pid, env, stamps) == Alone(c, Do(c, s, Turn(s, pid, env, stamps[0])), pid, env, stamps[1..])
  {
    hide Do;
    hide Turn;
    if pid in s.procs && stamps != [] {
      var e := Turn(s, pid, env, stamps[0]);
      var more := Turns(c, Do(c, s, e), pid, env, stamps[1..]);
      assert ([e] + more)[1..] == more;
    }
  }

  // ------------------------------------------------------------- one call

  /** The status that a call leaves at its target. */
  function Answer(st: Status, recover: bool, served: bool): Status {
    if !served then st
    else if recover then if Begun(st) && st != ValidationFailed then Recovered else st
    else if st == Ready then Committed else st
  }

  /** The target stands after `k` primitives of the call. */
  ghost predicate Underway(p: Plan, w: World, request: Call, m: Machine, k: nat) {
    exists fates: seq<Fate> :: |fates| == k && AllDone(fates) && m == Execute(p, Start(p, w, request), fates)
  }

  function Bound(p: Plan): nat { 3 * |p.entries| + 7 }

  lemma UnderwayStarts(p: Plan, w: World, request: Call)
    ensures Underway(p, w, request, Start(p, w, request), 0)
  {
    var none: seq<Fate> := [];
    assert AllDone(none) && Start(p, w, request) == Execute(p, Start(p, w, request), none);
  }

  lemma UnderwaySteps(p: Plan, w: World, request: Call, m: Machine, k: nat, f: Fate)
    requires Underway(p, w, request, m, k) && !m.pc.Idle? && f.Done?
    ensures Underway(p, w, request, Step(p, m, f), k + 1)
  {
    var fates: seq<Fate> :| |fates| == k && AllDone(fates) && m == Execute(p, Start(p, w, request), fates);
    ExecuteConcat(p, Start(p, w, request), fates, [f]);
    Engine.Steps(p, m, [f]);
    assert Execute(p, Step(p, m, f), []) == Step(p, m, f);
    assert AllDone(fates + [f]);
  }

  /** Served to its end, however the stamps fall, a call has its answer. */
  lemma Answers(p: Plan, w: World, recover: bool, served: bool, fates: seq<Fate>)
    requires ValidPlan(p) && Journal(p, w) && Serving(p, w) && AllDone(fates) && |fates| >= Bound(p)
    requires !recover ==> w.status == Ready
    ensures var m := Execute(p, Start(p, w, Requested(Message(0, recover), served)), fates);
      m.pc.Idle? && m.world.status == Answer(w.status, recover, served)
  {
    if recover {
      if served && Begun(w.status) { RecoverFinishes(p, w, fates); } else { RecoverRefused(p, w, served, fates); }
    } else {
      if served { ApplyCommits(p, w, fates); } else { ApplyRefused(p, w, true, false, fates); }
    }
  }

  lemma Served(p: Plan, w: World, recover: bool, served: bool, m: Machine, k: nat)
    requires ValidPlan(p) && Journal(p, w) && Serving(p, w) && (!recover ==> w.status == Ready)
    requires Underway(p, w, Requested(Message(0, recover), served), m, k)
    ensures if m.pc.Idle? then m.world.status == Answer(w.status, recover, served) else k < Bound(p)
    ensures Journal(p, m.world) && Serving(p, m.world)
  {
    var request := Requested(Message(0, recover), served);
    var start := Start(p, w, request);
    var fates: seq<Fate> :| |fates| == k && AllDone(fates) && m == Execute(p, start, fates);
    BeginKeeps(p, w, request);
    ExecuteKeeps(p, start, fates);
    hide Journal;
    hide Serving;
    hide Start;
    if m.pc.Idle? {
      var more := seq(Bound(p), j => Done(Stamp(0, 0)));
      ExecuteConcat(p, start, fates, more);
      assert Execute(p, m, more) == m;
      Answers(p, w, recover, served, fates + more);
    } else if k >= Bound(p) {
      Answers(p, w, recover, served, fates);
    }
  }

  // ------------------------------------------------------------- the course of a call

  /** Only the site of entry `i` and the network may differ. */
  ghost predicate OnlyCalled(s: State, t: State, i: nat) {
    && t == s.(sites := t.sites, inFlight := t.inFlight, replies := t.replies) && |t.sites| == |s.sites|
    && forall j: nat | j < |s.sites| && j != i :: t.sites[j] == s.sites[j]
  }

  /** Every call that the network knows of has been made. */
  ghost predicate Known(s: State) {
    (forall call <- s.replies :: call < |s.calls|) && (forall call <- s.inFlight :: call < |s.calls|)
  }

  /** Every target is at rest, in a sound state. */
  ghost predicate AtRest(c: Config, s: State) {
    && Shaped(c, s)
    && forall i: nat | i < |s.sites| && i < |c.plans| ::
         && ValidPlan(c.plans[i]) && Journal(c.plans[i], s.sites[i].machine.world) && Serving(c.plans[i], s.sites[i].machine.world)
         && s.sites[i].machine.pc.Idle? && s.sites[i].serving.None?
  }

  /** A call to entry `i` whose target was `was` before it: under way, served to its end and
      answered, or lost. */
  ghost predicate Calling(c: Config, s: State, env: Manners, was: Site, i: nat, call: nat, recover: bool, k: nat)
    requires i < |c.plans| && i < |s.sites|
  {
    var request, site := Requested(Message(i, recover), ServedBy(env, i)), s.sites[i];
    && call < |s.calls| && s.calls[call] == Message(i, recover) && Known(s)
    && if call in s.replies then
         && !Lost(env, i) && call !in s.inFlight && site.serving.None? && Underway(c.plans[i], was.machine.world, request, site.machine, k)
         && site.machine.pc.Idle? && s.replies[call] == site.machine.world.status
       else if call in s.inFlight then site == was && k == 0
       else if Lost(env, i) then site == was
       else site.serving == Some(call) && k <= Bound(c.plans[i]) && Underway(c.plans[i], was.machine.world, request, site.machine, k)
  }

  predicate Lost(env: Manners, i: nat) {
    i < |env| && env[i].Drops?
  }

  /** The call is over for the controller. */
  predicate Over(s: State, env: Manners, i: nat, call: nat) {
    call in s.replies || (call !in s.inFlight && Lost(env, i))
  }

  function LeftOfCall(c: Config, s: State, i: nat, call: nat, k: nat): nat {
    if call in s.replies || i >= |c.plans| then 0
    else if call in s.inFlight then Bound(c.plans[i]) + 2
    else if k <= Bound(c.plans[i]) then Bound(c.plans[i]) + 1 - k else 0
  }

  /** A target that can be called: at rest, sound, and ready if it is to apply. */
  ghost predicate Callable(p: Plan, was: Site, recover: bool) {
    && ValidPlan(p) && Journal(p, was.machine.world) && Serving(p, was.machine.world)
    && was.machine.pc.Idle? && was.serving.None? && (!recover ==> was.machine.world.status == Ready)
  }

  lemma DeliveredGoesOn(c: Config, s: State, env: Manners, was: Site, i: nat, call: nat, recover: bool, k: nat)
    requires Shaped(c, s) && i < |c.plans| && Callable(c.plans[i], was, recover)
    requires Calling(c, s, env, was, i, call, recover, k) && !Over(s, env, i, call) && call in s.inFlight
    ensures var t := Do(c, s, if Lost(env, i) then Lose(call) else Deliver(call, ServedBy(env, i)));
      && OnlyCalled(s, t, i) && Shaped(c, t) && Calling(c, t, env, was, i, call, recover, 0)
      && LeftOfCall(c, t, i, call, 0) < LeftOfCall(c, s, i, call, k)
  {
    hide Serving;
    hide Journal;
    hide ValidPlan;
    hide Begin;
    hide Underway;
    UnderwayStarts(c.plans[i], was.machine.world, Requested(Message(i, recover), ServedBy(env, i)));
  }

  lemma ServedGoesOn(c: Config, s: State, env: Manners, was: Site, i: nat, call: nat, recover: bool, k: nat, f: Fate)
    requires Shaped(c, s) && i < |c.plans| && Callable(c.plans[i], was, recover) && f.Done?
    requires Calling(c, s, env, was, i, call, recover, k) && !Over(s, env, i, call) && call !in s.inFlight
    requires !s.sites[i].machine.pc.Idle?
    ensures var t := Do(c, s, TargetStep(i, f));
      && OnlyCalled(s, t, i) && Shaped(c, t) && Calling(c, t, env, was, i, call, recover, k + 1)
      && LeftOfCall(c, t, i, call, k + 1) < LeftOfCall(c, s, i, call, k)
  {
    var m, request := s.sites[i].machine, Requested(Message(i, recover), ServedBy(env, i));
    UnderwaySteps(c.plans[i], was.machine.world, request, m, k, f);
    Served(c.plans[i], was.machine.world, recover, ServedBy(env, i), m, k);
    hide Serving;
    hide Journal;
    hide ValidPlan;
    hide Underway;
    hide Step;
  }

  lemma AnsweredGoesOn(c: Config, s: State, env: Manners, was: Site, i: nat, call: nat, recover: bool, k: nat)
    requires Shaped(c, s) && i < |c.plans| && Callable(c.plans[i], was, recover)
    requires Calling(c, s, env, was, i, call, recover, k) && !Over(s, env, i, call) && call !in s.inFlight
    requires s.sites[i].machine.pc.Idle?
    ensures var t := Do(c, s, Respond(i));
      && OnlyCalled(s, t, i) && Shaped(c, t) && Calling(c, t, env, was, i, call, recover, k)
      && LeftOfCall(c, t, i, call, k) < LeftOfCall(c, s, i, call, k)
  {
    Served(c.plans[i], was.machine.world, recover, ServedBy(env, i), s.sites[i].machine, k);
    hide Serving;
    hide Journal;
    hide ValidPlan;
    hide Underway;
  }

  /** A call that has just been sent. */
  lemma CallBegins(c: Config, s: State, t: State, env: Manners, i: nat, recover: bool)
    requires Shaped(c, s) && Shaped(c, t) && i < |c.plans| && Known(s) && t.sites == s.sites && t.replies == s.replies
    requires t.calls == s.calls + [Message(i, recover)] && t.inFlight == s.inFlight + {|s.calls|}
    ensures Known(t) && Calling(c, t, env, s.sites[i], i, |s.calls|, recover, 0)
    ensures LeftOfCall(c, t, i, |s.calls|, 0) == Bound(c.plans[i]) + 2
  {
    hide Underway;
  }

  /** Until it is over, a call only comes nearer to its answer. */
  lemma CallGoesOn(c: Config, s: State, pid: nat, env: Manners, was: Site, i: nat, call: nat, recover: bool, k: nat, stamp: Stamp)
      returns (next: nat)
    requires Shaped(c, s) && i < |c.plans| && Callable(c.plans[i], was, recover)
    requires Calling(c, s, env, was, i, call, recover, k) && !Over(s, env, i, call)
    ensures var t := Do(c, s, Waiting(s, pid, env, i, call, stamp));
      && OnlyCalled(s, t, i) && Shaped(c, t) && Calling(c, t, env, was, i, call, recover, next)
      && LeftOfCall(c, t, i, call, next) < LeftOfCall(c, s, i, call, k)
  {
    if call in s.inFlight {
      next := 0;
      DeliveredGoesOn(c, s, env, was, i, call, recover, k);
    } else if s.sites[i].machine.pc.Idle? {
      next := k;
      AnsweredGoesOn(c, s, env, was, i, call, recover, k);
    } else {
      next := k + 1;
      ServedGoesOn(c, s, env, was, i, call, recover, k, Done(stamp));
    }
    hide Do;
    hide Callable;
    hide Underway;
  }

  // ------------------------------------------------------------- a rollout

  /** Entry `i` can be dispatched. */
  predicate MayDispatch(s0: State, env: Manners, i: nat) {
    i < |s0.sites| && StatusOf(s0, i) == Ready && Reached(env, i)
  }

  /** Entry `i` commits. */
  predicate Commits(s0: State, env: Manners, i: nat) {
    MayDispatch(s0, env, i) && ServedBy(env, i)
  }

  function Sent(s0: State, i: nat, st: Status): Outcome
    requires i < |s0.row.outcomes|
  {
    Outcome(true, st, s0.row.outcomes[i].repairs)
  }

  /** Entry `j` has been dispatched once and has committed. */
  ghost predicate Carried(c: Config, s0: State, s: State, outcomes: seq<Outcome>, j: nat)
    requires Shaped(c, s0) && Shaped(c, s) && |outcomes| == |c.plans| && j < |c.plans|
  {
    && outcomes[j] == Sent(s0, j, Committed) && s.history.applies[j] == s0.history.applies[j] + 1
    && s.sites[j].machine.pc.Idle? && s.sites[j].serving.None? && StatusOf(s, j) == Committed
    && Journal(c.plans[j], s.sites[j].machine.world) && Serving(c.plans[j], s.sites[j].machine.world)
  }

  /** Entry `j` has not been touched. */
  predicate Spared(c: Config, s0: State, s: State, outcomes: seq<Outcome>, j: nat)
    requires Shaped(c, s0) && Shaped(c, s) && |outcomes| == |c.plans| && j < |c.plans|
  {
    outcomes[j] == s0.row.outcomes[j] && s.history.applies[j] == s0.history.applies[j] && s.sites[j] == s0.sites[j]
  }

  /** Everything before entry `i` has committed, and everything behind it has not been touched. */
  ghost predicate Around(c: Config, s0: State, s: State, env: Manners, outcomes: seq<Outcome>, i: nat) {
    && AtRest(c, s0) && Shaped(c, s0) && Shaped(c, s) && Known(s) && |outcomes| == |c.plans|
    && s.history.recovers == s0.history.recovers
    && forall j: nat | j < |c.plans| ::
         && (j < i ==> Commits(s0, env, j) && Carried(c, s0, s, outcomes, j))
         && (i < j ==> Spared(c, s0, s, outcomes, j))
  }

  /** Entry `i` has been sent its call. */
  predicate Called(c: Config, s0: State, s: State, env: Manners, outcomes: seq<Outcome>, i: nat, st: Status)
    requires Shaped(c, s0) && Shaped(c, s) && |outcomes| == |c.plans| && i < |c.plans|
  {
    MayDispatch(s0, env, i) && outcomes[i] == Sent(s0, i, st) && s.history.applies[i] == s0.history.applies[i] + 1
  }

  /** The rollout stops at entry `i`, to be saved as `to`. */
  ghost predicate StopsAt(c: Config, s0: State, s: State, env: Manners, outcomes: seq<Outcome>, i: nat, to: BatchStatus) {
    && Around(c, s0, s, env, outcomes, i) && i < |c.plans| && !Commits(s0, env, i)
    && s.sites[i].machine.world == s0.sites[i].machine.world
    && if MayDispatch(s0, env, i) then
         && Called(c, s0, s, env, outcomes, i, if Lost(env, i) then Unknown else Ready)
         && to == if Lost(env, i) then BatchUnknown else RolloutStopped
       else Spared(c, s0, s, outcomes, i) && to == RolloutStopped
  }

  /** A rollout that nobody disturbs; `k` counts the primitives of the call that is served. */
  ghost predicate RollsOut(c: Config, s0: State, s: State, pid: nat, env: Manners, k: nat) {
    if pid in s.procs then
      var p := s.procs[pid];
      var outcomes := p.work.outcomes;
      && s.procs == map[pid := p] && p.base.revision == s.row.revision && s.nextProc == s0.nextProc
      && match p.at
         case Inspect(i) => Around(c, s0, s, env, outcomes, i) && i < |c.plans| && Spared(c, s0, s, outcomes, i)
         case Dispatch(i) =>
           && Around(c, s0, s, env, outcomes, i) && i < |c.plans| && MayDispatch(s0, env, i)
           && outcomes[i] == Sent(s0, i, Unknown) && s.history.applies[i] == s0.history.applies[i] && s.sites[i] == s0.sites[i]
         case SendApply(i) =>
           && Around(c, s0, s, env, outcomes, i) && i < |c.plans| && MayDispatch(s0, env, i)
           && outcomes[i] == Sent(s0, i, Unknown) && s.history.applies[i] == s0.history.applies[i] && s.sites[i] == s0.sites[i]
         case AwaitApply(i, call) =>
           && Around(c, s0, s, env, outcomes, i) && i < |c.plans| && Called(c, s0, s, env, outcomes, i, Unknown)
           && Calling(c, s, env, s0.sites[i], i, call, false, k)
         case RecordApplied(i) =>
           && Around(c, s0, s, env, outcomes, i) && i < |c.plans| && Commits(s0, env, i) && Carried(c, s0, s, outcomes, i)
         case FinishApply => Around(c, s0, s, env, outcomes, |c.plans|)
         case LastSave(to) => exists i :: StopsAt(c, s0, s, env, outcomes, i, to)
         case _ => false
    else
      && s.procs == map[]
      && if s.row.status == BatchCommitted then Around(c, s0, s, env, s.row.outcomes, |c.plans|)
         else exists i :: StopsAt(c, s0, s, env, s.row.outcomes, i, s.row.status)
  }

  function Rest(c: Config, i: nat): nat
    decreases |c.plans| - i
  {
    if i < |c.plans| then Bound(c.plans[i]) + 10 + Rest(c, i + 1) else 0
  }

  function LeftToRollOut(c: Config, s: State, pid: nat, k: nat): nat {
    if pid !in s.procs then 0
    else
      match s.procs[pid].at
      case Inspect(i) => Rest(c, i) + 2
      case Dispatch(i) => Rest(c, i) + 1
      case SendApply(i) => Rest(c, i)
      case AwaitApply(i, call) => Rest(c, i + 1) + LeftOfCall(c, s, i, call, k) + 6
      case RecordApplied(i) => Rest(c, i + 1) + 4
      case _ => 1
  }

  /** What happens at entry `i` is of no account to the others. */
  lemma AroundKept(c: Config, s0: State, s: State, t: State, env: Manners, a: seq<Outcome>, b: seq<Outcome>, i: nat)
    requires Around(c, s0, s, env, a, i) && Shaped(c, t) && Known(t) && |b| == |a|
    requires t.history.recovers == s.history.recovers
    requires forall j: nat | j < |c.plans| && j != i ::
               b[j] == a[j] && t.sites[j] == s.sites[j] && t.history.applies[j] == s.history.applies[j]
    ensures Around(c, s0, t, env, b, i)
  {
    hide AtRest;
    hide Journal;
    hide Serving;
    hide Known;
    forall j: nat | j < |c.plans|
      ensures j < i ==> Commits(s0, env, j) && Carried(c, s0, t, b, j)
      ensures i < j ==> Spared(c, s0, t, b, j)
    {
      if j < i { assert Carried(c, s0, s, a, j); }
      if i < j { assert Spared(c, s0, s, a, j); }
    }
  }

  lemma AroundHas(c: Config, s0: State, s: State, env: Manners, outcomes: seq<Outcome>, i: nat)
    requires Around(c, s0, s, env, outcomes, i)
    ensures Shaped(c, s0) && Shaped(c, s) && Known(s) && |outcomes| == |c.plans| && AtRest(c, s0)
    ensures s.history.recovers == s0.history.recovers
  {
    hide Known;
  }

  lemma AroundNext(c: Config, s0: State, s: State, env: Manners, outcomes: seq<Outcome>, i: nat)
    requires Around(c, s0, s, env, outcomes, i) && i < |c.plans| && Commits(s0, env, i) && Carried(c, s0, s, outcomes, i)
    ensures Around(c, s0, s, env, outcomes, i + 1)
    ensures i + 1 < |c.plans| ==> Spared(c, s0, s, outcomes, i + 1)
  {
    hide AtRest;
    hide Known;
    hide Carried;
    hide Spared;
  }

  /** Apart from the controller, nothing has happened. */
  predicate OnlyProcs(s: State, t: State) {
    t == s.(procs := t.procs)
  }

  lemma InspectGoesOn(c: Config, s0: State, s: State, pid: nat, env: Manners, stamp: Stamp)
    requires RollsOut(c, s0, s, pid, env, 0) && pid in s.procs && s.procs[pid].at.Inspect?
    ensures var t := Do(c, s, Turn(s, pid, env, stamp));
      RollsOut(c, s0, t, pid, env, 0) && LeftToRollOut(c, t, pid, 0) < LeftToRollOut(c, s, pid, 0)
  {
    var t, p := Do(c, s, Turn(s, pid, env, stamp)), s.procs[pid];
    var i, a := p.at.i, p.work.outcomes;
    AroundHas(c, s0, s, env, a, i);
    hide Around;
    hide Serving;
    hide Journal;
    assert OnlyProcs(s, t) && pid in t.procs && t.procs == map[pid := t.procs[pid]];
    var b := t.procs[pid].work.outcomes;
    AroundKept(c, s0, s, t, env, a, b, i);
    if !MayDispatch(s0, env, i) {
      assert StopsAt(c, s0, t, env, b, i, RolloutStopped);
    }
  }

  lemma DispatchGoesOn(c: Config, s0: State, s: State, pid: nat, env: Manners, stamp: Stamp)
    requires RollsOut(c, s0, s, pid, env, 0) && pid in s.procs && s.procs[pid].at.Dispatch?
    ensures var t := Do(c, s, Turn(s, pid, env, stamp));
      RollsOut(c, s0, t, pid, env, 0) && LeftToRollOut(c, t, pid, 0) < LeftToRollOut(c, s, pid, 0)
  {
    var t, p := Do(c, s, Turn(s, pid, env, stamp)), s.procs[pid];
    var i, a := p.at.i, p.work.outcomes;
    AroundHas(c, s0, s, env, a, i);
    hide Around;
    hide Serving;
    hide Journal;
    AroundKept(c, s0, s, t, env, a, a, i);
  }

  lemma SendIs(c: Config, s: State, pid: nat, env: Manners, i: nat, stamp: Stamp)
    requires Shaped(c, s) && pid in s.procs && |s.procs[pid].work.outcomes| == |c.plans| && i < |c.plans|
    requires s.procs[pid].at == SendApply(i)
    ensures var t := Do(c, s, Turn(s, pid, env, stamp));
      t == s.(calls := s.calls + [Message(i, false)], inFlight := s.inFlight + {|s.calls|},
              procs := s.procs[pid := s.procs[pid].(at := AwaitApply(i, |s.calls|))],
              history := s.history.(applies := s.history.applies[i := s.history.applies[i] + 1]))
      && Shaped(c, t)
  {
  }

  lemma SendingFacts(c: Config, s0: State, s: State, pid: nat, env: Manners)
    requires RollsOut(c, s0, s, pid, env, 0) && pid in s.procs && s.procs[pid].at.SendApply?
    ensures var p := s.procs[pid];
      var i, a := p.at.i, p.work.outcomes;
      && s.procs == map[pid := p] && s.nextProc == s0.nextProc && p.base.revision == s.row.revision
      && Around(c, s0, s, env, a, i) && i < |c.plans| && MayDispatch(s0, env, i)
      && a[i] == Sent(s0, i, Unknown) && s.history.applies[i] == s0.history.applies[i] && s.sites[i] == s0.sites[i]
      && LeftToRollOut(c, s, pid, 0) == Bound(c.plans[i]) + 10 + Rest(c, i + 1)
  {
    hide Around;
    hide MayDispatch;
  }

  lemma RollsOutWaiting(c: Config, s0: State, s: State, pid: nat, env: Manners, k: nat, p: Process, i: nat, call: nat)
    requires s.procs == map[pid := p] && s.nextProc == s0.nextProc && p.base.revision == s.row.revision && p.at == AwaitApply(i, call)
    requires Around(c, s0, s, env, p.work.outcomes, i) && i < |c.plans| && MayDispatch(s0, env, i)
    requires Shaped(c, s0) && Shaped(c, s) && |p.work.outcomes| == |s0.row.outcomes| == |c.plans| == |s.history.applies| == |s0.history.applies|
    requires |s.sites| == |s0.sites| == |c.plans|
    requires p.work.outcomes[i] == Sent(s0, i, Unknown) && s.history.applies[i] == s0.history.applies[i] + 1
    requires Calling(c, s, env, s0.sites[i], i, call, false, k)
    ensures RollsOut(c, s0, s, pid, env, k) && LeftToRollOut(c, s, pid, k) == Rest(c, i + 1) + LeftOfCall(c, s, i, call, k) + 6
  {
    hide Around;
    hide MayDispatch;
    hide Calling;
    hide Rest;
    hide LeftOfCall;
  }

  lemma SendGoesOn(c: Config, s0: State, s: State, pid: nat, env: Manners, stamp: Stamp)
    requires RollsOut(c, s0, s, pid, env, 0) && pid in s.procs && s.procs[pid].at.SendApply?
    ensures var t := Do(c, s, Turn(s, pid, env, stamp));
      RollsOut(c, s0, t, pid, env, 0) && LeftToRollOut(c, t, pid, 0) < LeftToRollOut(c, s, pid, 0)
  {
    hide *;
    var t, p := Do(c, s, Turn(s, pid, env, stamp)), s.procs[pid];
    var i, a := p.at.i, p.work.outcomes;
    SendingFacts(c, s0, s, pid, env);
    AroundHas(c, s0, s, env, a, i);
    SendIs(c, s, pid, env, i, stamp);
    ShapedLengths(c, s0);
    ShapedLengths(c, s);
    CallBegins(c, s, t, env, i, false);
    AroundKept(c, s0, s, t, env, a, a, i);
    RollsOutWaiting(c, s0, t, pid, env, 0, t.procs[pid], i, |s.calls|);
  }

  lemma AroundCallable(c: Config, s0: State, s: State, env: Manners, outcomes: seq<Outcome>, i: nat)
    requires Around(c, s0, s, env, outcomes, i) && i < |c.plans| && MayDispatch(s0, env, i)
    ensures Callable(c.plans[i], s0.sites[i], false)
  {
    hide Journal;
    hide Serving;
    hide ValidPlan;
    hide Known;
    hide Carried;
    hide Spared;
  }

  lemma CallingKnown(c: Config, s: State, env: Manners, was: Site, i: nat, call: nat, recover: bool, k: nat)
    requires Shaped(c, s) && i < |c.plans| && Calling(c, s, env, was, i, call, recover, k)
    ensures Known(s)
  {
  }

  /** A rollout that waits for its call. */
  ghost predicate Awaiting(c: Config, s0: State, s: State, pid: nat, env: Manners, k: nat, p: Process, i: nat, call: nat) {
    && pid in s.procs && s.procs[pid] == p && s.procs == map[pid := p] && s.nextProc == s0.nextProc
    && p.base.revision == s.row.revision && p.at == AwaitApply(i, call)
    && Around(c, s0, s, env, p.work.outcomes, i) && i < |c.plans| && Called(c, s0, s, env, p.work.outcomes, i, Unknown)
    && Calling(c, s, env, s0.sites[i], i, call, false, k)
  }

  lemma RollsOutAwaiting(c: Config, s0: State, s: State, pid: nat, env: Manners, k: nat)
    requires pid in s.procs && s.procs[pid].at.AwaitApply?
    ensures RollsOut(c, s0, s, pid, env, k) <==> Awaiting(c, s0, s, pid, env, k, s.procs[pid], s.procs[pid].at.i, s.procs[pid].at.call)
  {
    hide Around;
    hide Calling;
    hide Called;
  }

  /** While it waits, the controller leaves everything to the target and the network. */
  lemma AwaitGoesOn(c: Config, s0: State, s: State, pid: nat, env: Manners, k: nat, stamp: Stamp) returns (next: nat)
    requires RollsOut(c, s0, s, pid, env, k) && pid in s.procs && s.procs[pid].at.AwaitApply?
    requires !Over(s, env, s.procs[pid].at.i, s.procs[pid].at.call)
    ensures var t := Do(c, s, Turn(s, pid, env, stamp));
      RollsOut(c, s0, t, pid, env, next) && LeftToRollOut(c, t, pid, next) < LeftToRollOut(c, s, pid, k)
  {
    var p := s.procs[pid];
    var i, a, call := p.at.i, p.work.outcomes, p.at.call;
    RollsOutAwaiting(c, s0, s, pid, env, k);
    hide RollsOut;
    AroundHas(c, s0, s, env, a, i);
    AroundCallable(c, s0, s, env, a, i);
    hide Around;
    hide Calling;
    hide Callable;
    hide Waiting;
    hide AtRest;
    hide Known;
    hide Over;
    next := CallGoesOn(c, s, pid, env, s0.sites[i], i, call, false, k, stamp);
    var t := Do(c, s, Waiting(s, pid, env, i, call, stamp));
    assert Turn(s, pid, env, stamp) == Waiting(s, pid, env, i, call, stamp);
    hide Do;
    hide Turn;
    CallingKnown(c, t, env, s0.sites[i], i, call, false, next);
    AroundKept(c, s0, s, t, env, a, a, i);
    hide LeftOfCall;
    RollsOutAwaiting(c, s0, t, pid, env, next);
  }

  /** What the controller does with a call that is over. */
  lemma OverIs(c: Config, s: State, pid: nat, env: Manners, i: nat, call: nat, stamp: Stamp)
    requires Shaped(c, s) && pid in s.procs && |s.procs[pid].work.outcomes| == |c.plans| && i < |c.plans|
    requires s.procs[pid].at == AwaitApply(i, call) && Over(s, env, i, call)
    requires call !in s.replies ==> s.sites[i].serving.None?
    ensures var p, t := s.procs[pid], Do(c, s, Turn(s, pid, env, stamp));
      && pid in t.procs && t == s.(procs := s.procs[pid := t.procs[pid]]) && t.procs[pid].base == p.base && Shaped(c, t)
      && if call !in s.replies then t.procs[pid].work == p.work && t.procs[pid].at == LastSave(BatchUnknown)
         else
           && t.procs[pid].work.outcomes == p.work.outcomes[i := p.work.outcomes[i].(state := s.replies[call])]
           && t.procs[pid].at == if s.replies[call] == Committed then RecordApplied(i) else LastSave(RolloutStopped)
  {
  }

  lemma AwaitingFacts(c: Config, s0: State, s: State, pid: nat, env: Manners, k: nat)
    requires RollsOut(c, s0, s, pid, env, k) && pid in s.procs && s.procs[pid].at.AwaitApply?
    ensures var p := s.procs[pid];
      var i, call, a := p.at.i, p.at.call, p.work.outcomes;
      && s.procs == map[pid := p] && s.nextProc == s0.nextProc && p.base.revision == s.row.revision
      && Around(c, s0, s, env, a, i) && i < |c.plans| && Calling(c, s, env, s0.sites[i], i, call, false, k)
      && MayDispatch(s0, env, i) && a[i] == Sent(s0, i, Unknown) && s.history.applies[i] == s0.history.applies[i] + 1
      && LeftToRollOut(c, s, pid, k) >= Rest(c, i + 1) + 6
  {
    hide Around;
    hide Calling;
    hide MayDispatch;
    hide Rest;
  }

  lemma LeftAfter(c: Config, s: State, pid: nat, i: nat)
    requires pid in s.procs && (s.procs[pid].at == RecordApplied(i) || s.procs[pid].at.LastSave?)
    ensures LeftToRollOut(c, s, pid, 0) <= Rest(c, i + 1) + 4
  {
    hide Rest;
  }

  lemma AnswerOfApply(s0: State, env: Manners, i: nat)
    requires MayDispatch(s0, env, i)
    ensures i < |s0.sites| && i < |env| && StatusOf(s0, i) == s0.sites[i].machine.world.status == Ready
    ensures Answer(StatusOf(s0, i), false, ServedBy(env, i)) == if ServedBy(env, i) then Committed else Ready
    ensures Commits(s0, env, i) == ServedBy(env, i) && (Lost(env, i) ==> !ServedBy(env, i))
  {
  }

  lemma SentState(s0: State, i: nat, st: Status)
    requires i < |s0.row.outcomes|
    ensures Sent(s0, i, Unknown).(state := st) == Sent(s0, i, st)
  {
  }

  lemma ShapedLengths(c: Config, s: State)
    requires Shaped(c, s)
    ensures |s.sites| == |s.row.outcomes| == |s.history.applies| == |s.history.recovers| == |c.plans|
  {
  }

  /** A call that is over is recorded by its answer. */
  lemma OverGoesOn(c: Config, s0: State, s: State, pid: nat, env: Manners, k: nat, stamp: Stamp)
    requires RollsOut(c, s0, s, pid, env, k) && pid in s.procs && s.procs[pid].at.AwaitApply?
    requires Over(s, env, s.procs[pid].at.i, s.procs[pid].at.call)
    ensures var t := Do(c, s, Turn(s, pid, env, stamp));
      RollsOut(c, s0, t, pid, env, 0) && LeftToRollOut(c, t, pid, 0) < LeftToRollOut(c, s, pid, k)
  {
    hide *;
    var p := s.procs[pid];
    var i, a, call := p.at.i, p.work.outcomes, p.at.call;
    AwaitingFacts(c, s0, s, pid, env, k);
    AroundHas(c, s0, s, env, a, i);
    ShapedLengths(c, s0);
    ShapedLengths(c, s);
    AroundCallable(c, s0, s, env, a, i);
    AnswerOfApply(s0, env, i);
    CallEnds(c, s, env, s0.sites[i], i, call, false, k);
    OverIs(c, s, pid, env, i, call, stamp);
    var t := Do(c, s, Turn(s, pid, env, stamp));
    var b := t.procs[pid].work.outcomes;
    KnownStays(s, t);
    AroundKept(c, s0, s, t, env, a, b, i);
    if call in s.replies { SentState(s0, i, s.replies[call]); }
    LeftAfter(c, t, pid, i);
    SameStatus(s, t, i);
    if Commits(s0, env, i) {
      CarriedOver(c, s0, t, b, i);
      RollsOutRecording(c, s0, t, pid, env, i);
    } else {
      StopsOver(c, s0, t, env, b, i, t.procs[pid].at.to);
      RollsOutLast(c, s0, t, pid, env, i);
    }
  }

  lemma SameStatus(s: State, t: State, i: nat)
    requires i < |s.sites| && t.sites == s.sites
    ensures StatusOf(t, i) == StatusOf(s, i) == s.sites[i].machine.world.status
  {
  }

  lemma CarriedOver(c: Config, s0: State, t: State, b: seq<Outcome>, i: nat)
    requires Shaped(c, s0) && Shaped(c, t) && |b| == |c.plans| && i < |c.plans|
    requires b[i] == Sent(s0, i, Committed) && t.history.applies[i] == s0.history.applies[i] + 1
    requires t.sites[i].machine.pc.Idle? && t.sites[i].serving.None? && StatusOf(t, i) == Committed
    requires Journal(c.plans[i], t.sites[i].machine.world) && Serving(c.plans[i], t.sites[i].machine.world)
    ensures Carried(c, s0, t, b, i)
  {
    hide Journal;
    hide Serving;
  }

  lemma StopsOver(c: Config, s0: State, t: State, env: Manners, b: seq<Outcome>, i: nat, to: BatchStatus)
    requires Around(c, s0, t, env, b, i) && Shaped(c, s0) && Shaped(c, t) && |b| == |c.plans| && i < |c.plans|
    requires MayDispatch(s0, env, i) && !Commits(s0, env, i) && t.sites[i].machine.world == s0.sites[i].machine.world
    requires b[i] == Sent(s0, i, if Lost(env, i) then Unknown else Ready) && t.history.applies[i] == s0.history.applies[i] + 1
    requires to == if Lost(env, i) then BatchUnknown else RolloutStopped
    ensures StopsAt(c, s0, t, env, b, i, to)
  {
    hide Around;
  }

  lemma KnownStays(s: State, t: State)
    requires Known(s) && t.calls == s.calls && t.inFlight == s.inFlight && t.replies == s.replies
    ensures Known(t)
  {
  }

  lemma RollsOutRecording(c: Config, s0: State, s: State, pid: nat, env: Manners, i: nat)
    requires pid in s.procs && s.procs == map[pid := s.procs[pid]] && s.nextProc == s0.nextProc
    requires s.procs[pid].base.revision == s.row.revision && s.procs[pid].at == RecordApplied(i)
    requires Around(c, s0, s, env, s.procs[pid].work.outcomes, i) && i < |c.plans| && Commits(s0, env, i)
    requires Carried(c, s0, s, s.procs[pid].work.outcomes, i)
    ensures RollsOut(c, s0, s, pid, env, 0)
  {
    hide Around;
    hide Carried;
  }

  lemma RollsOutLast(c: Config, s0: State, s: State, pid: nat, env: Manners, i: nat)
    requires pid in s.procs && s.procs == map[pid := s.procs[pid]] && s.nextProc == s0.nextProc
    requires s.procs[pid].base.revision == s.row.revision && s.procs[pid].at.LastSave?
    requires StopsAt(c, s0, s, env, s.procs[pid].work.outcomes, i, s.procs[pid].at.to)
    ensures RollsOut(c, s0, s, pid, env, 0)
  {
    hide StopsAt;
  }

  /** How a call has ended, when it is over. */
  lemma CallEnds(c: Config, s: State, env: Manners, was: Site, i: nat, call: nat, recover: bool, k: nat)
    requires Shaped(c, s) && i < |c.plans| && Callable(c.plans[i], was, recover) && i < |env|
    requires Calling(c, s, env, was, i, call, recover, k) && Over(s, env, i, call)
    ensures call in s.replies <==> !Lost(env, i)
    ensures Lost(env, i) ==> s.sites[i] == was
    ensures !Lost(env, i) ==>
              && s.replies[call] == StatusOf(s, i) == Answer(was.machine.world.status, recover, ServedBy(env, i))
              && (!ServedBy(env, i) ==> s.sites[i].machine.world == was.machine.world)
    ensures s.sites[i].machine.pc.Idle? && s.sites[i].serving.None?
    ensures Journal(c.plans[i], s.sites[i].machine.world) && Serving(c.plans[i], s.sites[i].machine.world)
  {
    if call in s.replies {
      Served(c.plans[i], was.machine.world, recover, ServedBy(env, i), s.sites[i].machine, k);
      if !ServedBy(env, i) { Declined(c.plans[i], was.machine.world, recover, s.sites[i].machine, k); }
    }
    hide Serving;
    hide Journal;
    hide ValidPlan;
    hide Underway;
  }

  lemma Declined(p: Plan, w: World, recover: bool, m: Machine, k: nat)
    requires Underway(p, w, Requested(Message(0, recover), false), m, k) && (!recover ==> w.status == Ready)
    ensures m.world == w
  {
    var fates: seq<Fate> :| |fates| == k && AllDone(fates) && m == Execute(p, Start(p, w, Requested(Message(0, recover), false)), fates);
    if recover { RecoverRefused(p, w, false, fates); } else { ApplyRefused(p, w, true, false, fates); }
  }

  /** After a commit has been recorded, the rollout goes on with the next entry. */
  lemma RecordIs(c: Config, s: State, pid: nat, env: Manners, i: nat, stamp: Stamp)
    requires Shaped(c, s) && pid in s.procs && |s.procs[pid].work.outcomes| == |c.plans|
    requires s.procs[pid].at == RecordApplied(i) && s.procs[pid].base.revision == s.row.revision
    ensures var p, t := s.procs[pid], Do(c, s, Turn(s, pid, env, stamp));
      && t == s.(row := t.row, procs := t.procs, history := s.history.(writer := t.history.writer))
      && t.row == Batch(BatchApplying, p.work.outcomes, s.row.revision + 1)
      && t.procs == s.procs[pid := Process(t.row, t.row, if i + 1 < |c.plans| then Inspect(i + 1) else FinishApply, p.ceiling)]
  {
  }

  lemma Recording(c: Config, s0: State, s: State, pid: nat, env: Manners)
    requires RollsOut(c, s0, s, pid, env, 0) && pid in s.procs && s.procs[pid].at.RecordApplied?
    ensures s.procs == map[pid := s.procs[pid]] && s.procs[pid].base.revision == s.row.revision && s.nextProc == s0.nextProc
    ensures var i, a := s.procs[pid].at.i, s.procs[pid].work.outcomes;
      Around(c, s0, s, env, a, i) && i < |c.plans| && Commits(s0, env, i) && Carried(c, s0, s, a, i)
  {
    hide Around;
    hide Carried;
  }

  lemma RollsOutNext(c: Config, s0: State, s: State, pid: nat, env: Manners, i: nat)
    requires pid in s.procs && s.procs == map[pid := s.procs[pid]] && s.nextProc == s0.nextProc
    requires s.procs[pid].base.revision == s.row.revision && i <= |c.plans|
    requires s.procs[pid].at == if i < |c.plans| then Inspect(i) else FinishApply
    requires Around(c, s0, s, env, s.procs[pid].work.outcomes, i)
    requires i < |c.plans| ==> Spared(c, s0, s, s.procs[pid].work.outcomes, i)
    ensures RollsOut(c, s0, s, pid, env, 0) && LeftToRollOut(c, s, pid, 0) <= Rest(c, i) + 2
  {
    hide Around;
    hide Spared;
  }

  lemma RecordGoesOn(c: Config, s0: State, s: State, pid: nat, env: Manners, stamp: Stamp)
    requires RollsOut(c, s0, s, pid, env, 0) && pid in s.procs && s.procs[pid].at.RecordApplied?
    ensures var t := Do(c, s, Turn(s, pid, env, stamp));
      RollsOut(c, s0, t, pid, env, 0) && LeftToRollOut(c, t, pid, 0) < LeftToRollOut(c, s, pid, 0)
  {
    var t, p := Do(c, s, Turn(s, pid, env, stamp)), s.procs[pid];
    var i, a := p.at.i, p.work.outcomes;
    Recording(c, s0, s, pid, env);
    assert LeftToRollOut(c, s, pid, 0) == Rest(c, i + 1) + 4;
    hide RollsOut;
    AroundHas(c, s0, s, env, a, i);
    AroundNext(c, s0, s, env, a, i);
    hide Around;
    hide Carried;
    hide Spared;
    hide AtRest;
    hide Known;
    RecordIs(c, s, pid, env, i, stamp);
    hide Do;
    hide Turn;
    hide LeftToRollOut;
    hide Rest;
    SavedAround(c, s0, s, t, env, a, i + 1);
    RollsOutNext(c, s0, t, pid, env, i + 1);
  }

  /** A save of the row is of no account to the targets. */
  lemma SavedAround(c: Config, s0: State, s: State, t: State, env: Manners, a: seq<Outcome>, i: nat)
    requires Around(c, s0, s, env, a, i) && Shaped(c, t)
    requires t == s.(row := t.row, procs := t.procs, history := s.history.(writer := t.history.writer))
    ensures Around(c, s0, t, env, a, i)
    ensures i < |c.plans| && Spared(c, s0, s, a, i) ==> Spared(c, s0, t, a, i)
  {
    assert Known(t);
    AroundKept(c, s0, s, t, env, a, a, i);
    hide Around;
    hide AtRest;
  }

  lemma LastGoesOn(c: Config, s0: State, s: State, pid: nat, env: Manners, stamp: Stamp)
    requires RollsOut(c, s0, s, pid, env, 0) && pid in s.procs && (s.procs[pid].at.FinishApply? || s.procs[pid].at.LastSave?)
    ensures var t := Do(c, s, Turn(s, pid, env, stamp));
      RollsOut(c, s0, t, pid, env, 0) && pid !in t.procs
  {
    var t, p := Do(c, s, Turn(s, pid, env, stamp)), s.procs[pid];
    var a := p.work.outcomes;
    hide AtRest;
    hide Known;
    hide Carried;
    hide Spared;
    hide Called;
    if p.at.FinishApply? {
      AroundHas(c, s0, s, env, a, |c.plans|);
      hide Around;
      SavedAround(c, s0, s, t, env, a, |c.plans|);
    } else {
      var i :| StopsAt(c, s0, s, env, a, i, p.at.to);
      AroundHas(c, s0, s, env, a, i);
      hide Around;
      SavedAround(c, s0, s, t, env, a, i);
      StopSaved(c, s0, s, t, env, a, i, p.at.to);
    }
  }

  lemma StopSaved(c: Config, s0: State, s: State, t: State, env: Manners, a: seq<Outcome>, i: nat, to: BatchStatus)
    requires StopsAt(c, s0, s, env, a, i, to) && Around(c, s0, t, env, a, i)
    requires t == s.(row := t.row, procs := t.procs, history := s.history.(writer := t.history.writer))
    ensures StopsAt(c, s0, t, env, a, i, to) && to != BatchCommitted
  {
    hide AtRest;
    hide Known;
    hide Carried;
  }

  lemma RollOutGoesOn(c: Config, s0: State, s: State, pid: nat, env: Manners, k: nat, stamp: Stamp) returns (next: nat)
    requires RollsOut(c, s0, s, pid, env, k) && pid in s.procs
    ensures var t := Do(c, s, Turn(s, pid, env, stamp));
      RollsOut(c, s0, t, pid, env, next) && LeftToRollOut(c, t, pid, next) < LeftToRollOut(c, s, pid, k)
  {
    next := 0;
    hide Around;
    hide StopsAt;
    hide Do;
    hide Turn;
    hide Calling;
    hide Called;
    hide Carried;
    hide Spared;
    match s.procs[pid].at
    case Inspect(i) => InspectGoesOn(c, s0, s, pid, env, stamp);
    case Dispatch(i) => DispatchGoesOn(c, s0, s, pid, env, stamp);
    case SendApply(i) => SendGoesOn(c, s0, s, pid, env, stamp);
    case AwaitApply(i, call) =>
      if Over(s, env, i, call) { OverGoesOn(c, s0, s, pid, env, k, stamp); }
      else { next := AwaitGoesOn(c, s0, s, pid, env, k, stamp); }
    case RecordApplied(i) => RecordGoesOn(c, s0, s, pid, env, stamp);
    case FinishApply => LastGoesOn(c, s0, s, pid, env, stamp);
    case LastSave(to) => LastGoesOn(c, s0, s, pid, env, stamp);
    case _ =>
  }

  lemma {:induction false} RollOutEnds(c: Config, s0: State, s: State, pid: nat, env: Manners, k: nat, stamps: seq<Stamp>)
    requires RollsOut(c, s0, s, pid, env, k) && |stamps| >= LeftToRollOut(c, s, pid, k)
    ensures var t := Alone(c, s, pid, env, stamps);
      pid !in t.procs && RollsOut(c, s0, t, pid, env, 0)
    decreases |stamps|
  {
    hide Do;
    hide Turn;
    hide Alone;
    AloneSteps(c, s, pid, env, stamps);
    if pid in s.procs {
      var _ := RollOutGoesOn(c, s0, s, pid, env, k, Stamp(0, 0));
      var next := RollOutGoesOn(c, s0, s, pid, env, k, stamps[0]);
      hide RollsOut;
      hide LeftToRollOut;
      RollOutEnds(c, s0, Do(c, s, Turn(s, pid, env, stamps[0])), pid, env, next, stamps[1..]);
    }
  }

  /** Every target is ready, and can be inspected a first time. */
  predicate Listed(s0: State, env: Manners, i: nat) {
    i < |s0.sites| && StatusOf(s0, i) == Ready && i < |env| && !env[i].Away?
  }

  /** Entry `j` of a rollout that ends at `k`: what is recorded, what was sent, and the target. */
  ghost predicate EntryEnds(c: Config, s0: State, t: State, env: Manners, k: nat, j: nat)
    requires Shaped(c, s0) && Shaped(c, t) && j < |c.plans|
  {
    var sent := j < k || (j == k && MayDispatch(s0, env, k));
    && t.history.applies[j] == s0.history.applies[j] + (if sent then 1 else 0)
    && t.row.outcomes[j] == (if j < k then Sent(s0, j, Committed)
                             else if sent then Sent(s0, j, if Lost(env, k) then Unknown else Ready)
                             else s0.row.outcomes[j])
    && (if j < k then
          var p, w := c.plans[j], t.sites[j].machine.world;
          w.status == Committed && Installed(p, w.disk, |p.entries|) && RunsAfter(p, w)
        else t.sites[j].machine.world == s0.sites[j].machine.world)
  }

  /** A rollout over these targets has ended before entry `k`, or, with `k` their number, at its
      end: what it has recorded, what it has sent, and what has become of each target. */
  ghost predicate RolledOut(c: Config, s0: State, t: State, env: Manners, k: nat) {
    && Shaped(c, s0) && Shaped(c, t) && t.procs == map[] && k <= |c.plans|
    && (forall j: nat | j < k :: Commits(s0, env, j)) && (k < |c.plans| ==> !Commits(s0, env, k))
    && t.row.status == (if k == |c.plans| then BatchCommitted
                        else if MayDispatch(s0, env, k) && Lost(env, k) then BatchUnknown else RolloutStopped)
    && t.history.recovers == s0.history.recovers
    && forall j: nat | j < |c.plans| :: EntryEnds(c, s0, t, env, k, j)
  }

  lemma CommittedIsRolledOut(c: Config, s0: State, t: State, env: Manners)
    requires Around(c, s0, t, env, t.row.outcomes, |c.plans|) && t.procs == map[] && t.row.status == BatchCommitted
    ensures RolledOut(c, s0, t, env, |c.plans|)
  {
    AroundHas(c, s0, t, env, t.row.outcomes, |c.plans|);
    hide AtRest;
    hide Known;
    hide Carried;
    forall j: nat | j < |c.plans| ensures Commits(s0, env, j) && EntryEnds(c, s0, t, env, |c.plans|, j) {
      CarriedEnds(c, s0, t, env, |c.plans|, j);
    }
  }

  lemma CarriedEnds(c: Config, s0: State, t: State, env: Manners, k: nat, j: nat)
    requires Shaped(c, s0) && Shaped(c, t) && j < |c.plans| && j < k && Carried(c, s0, t, t.row.outcomes, j)
    ensures EntryEnds(c, s0, t, env, k, j)
  {
    hide Installed;
    hide RunsAfter;
  }

  lemma StoppedIsRolledOut(c: Config, s0: State, t: State, env: Manners, k: nat)
    requires StopsAt(c, s0, t, env, t.row.outcomes, k, t.row.status) && t.procs == map[]
    ensures RolledOut(c, s0, t, env, k)
  {
    AroundHas(c, s0, t, env, t.row.outcomes, k);
    hide AtRest;
    hide Known;
    hide Carried;
    hide Installed;
    hide RunsAfter;
    forall j: nat | j < |c.plans| ensures (j < k ==> Commits(s0, env, j)) && EntryEnds(c, s0, t, env, k, j) {
      if j < k { CarriedEnds(c, s0, t, env, k, j); }
      if j > k { assert Spared(c, s0, t, t.row.outcomes, j); }
    }
  }

  /** The course of a rollout after its first inspection. Entries are dispatched in order, each
      once, and commit; it stops before an entry that cannot be inspected any more or is no
      longer ready, without sending anything, and behind one whose call is lost or declined. */
  lemma RolloutEnds(c: Config, s0: State, pid: nat, env: Manners, stamps: seq<Stamp>) returns (k: nat)
    requires AtRest(c, s0) && Known(s0) && |env| == |c.plans|
    requires pid in s0.procs && s0.procs == map[pid := s0.procs[pid]]
    requires s0.procs[pid].at == Inspect(0) && s0.procs[pid].base == s0.procs[pid].work == s0.row
    requires |stamps| >= Rest(c, 0) + 2
    ensures RolledOut(c, s0, Alone(c, s0, pid, env, stamps), env, k)
  {
    var t := Alone(c, s0, pid, env, stamps);
    assert RollsOut(c, s0, s0, pid, env, 0) by { hide AtRest; hide Known; }
    assert LeftToRollOut(c, s0, pid, 0) == Rest(c, 0) + 2;
    RollOutEnds(c, s0, s0, pid, env, 0, stamps);
    hide AtRest;
    hide Known;
    hide Alone;
    hide Around;
    hide StopsAt;
    hide RolledOut;
    if t.row.status == BatchCommitted {
      k := |c.plans|;
      CommittedIsRolledOut(c, s0, t, env);
    } else {
      k :| StopsAt(c, s0, t, env, t.row.outcomes, k, t.row.status);
      StoppedIsRolledOut(c, s0, t, env, k);
    }
  }

  /** The first inspection goes through every target before anything is recorded. */
  lemma {:induction false} FirstInspection(c: Config, s: State, pid: nat, env: Manners, i: nat, stamps: seq<Stamp>)
    requires Shaped(c, s) && pid in s.procs && s.procs == map[pid := s.procs[pid]] && |s.procs[pid].work.outcomes| == |c.plans|
    requires s.procs[pid].at == PreInspect(i) && i < |c.plans| && |stamps| >= |c.plans| - i
    ensures Alone(c, s, pid, env, stamps) ==
            if forall j: nat | i <= j < |c.plans| :: Listed(s, env, j) then
              Alone(c, s.(procs := map[pid := s.procs[pid].(at := Inspect(0))]), pid, env, stamps[|c.plans| - i..])
            else s.(procs := map[])
    decreases |c.plans| - i
  {
    var n, t := |c.plans|, Do(c, s, Turn(s, pid, env, stamps[0]));
    AloneSteps(c, s, pid, env, stamps);
    hide Alone;
    assert t == if !Listed(s, env, i) then Quit(s, pid)
                else Go(s, pid, s.procs[pid].(at := if i + 1 < n then PreInspect(i + 1) else Inspect(0)));
    hide Do;
    hide Turn;
    if !Listed(s, env, i) {
      assert t == s.(procs := map[]);
      AloneSteps(c, t, pid, env, stamps[1..]);
    } else if i + 1 < n {
      FirstInspection(c, t, pid, env, i + 1, stamps[1..]);
      assert stamps[1..][n - (i + 1)..] == stamps[n - i..];
      assert forall j: nat :: Listed(t, env, j) == Listed(s, env, j);
      assert t.(procs := map[pid := t.procs[pid].(at := Inspect(0))]) == s.(procs := map[pid := s.procs[pid].(at := Inspect(0))]);
    } else {
      assert t == s.(procs := map[pid := s.procs[pid].(at := Inspect(0))]);
      assert stamps[1..] == stamps[n - i..];
    }
  }

  /** A fresh batch, with no controller at work and every target at rest. */
  ghost predicate Quiet(c: Config, s0: State) {
    AtRest(c, s0) && Known(s0) && s0.procs == map[]
  }

  /** What a launched controller does when nobody else acts. */
  function Launched(c: Config, s0: State, job: Job, ceiling: nat, env: Manners, stamps: seq<Stamp>): State {
    Alone(c, Do(c, s0, Launch(job, ceiling)), s0.nextProc, env, stamps)
  }

  /** Applying a batch. When a target cannot be inspected or is not ready at first, nothing
      happens. Otherwise the rollout takes the course of `RolledOut`. */
  lemma ApplyBatchEnds(c: Config, s0: State, ceiling: nat, env: Manners, stamps: seq<Stamp>) returns (k: nat)
    requires Quiet(c, s0) && s0.row.status == BatchReady && |env| == |c.plans|
    requires |stamps| >= |c.plans| + Rest(c, 0) + 2
    ensures var t := Launched(c, s0, ApplyBatch, ceiling, env, stamps);
      if forall i: nat | i < |c.plans| :: Listed(s0, env, i) then RolledOut(c, s0, t, env, k)
      else t == s0.(nextProc := s0.nextProc + 1)
  {
    var pid := s0.nextProc;
    var s1 := Do(c, s0, Launch(ApplyBatch, ceiling));
    assert s1 == s0.(procs := map[pid := s1.procs[pid]], nextProc := pid + 1);
    hide AtRest;
    assert Shaped(c, s1) by { assert Shaped(c, s0) by { AtRestShape(c, s0); } }
    FirstInspection(c, s1, pid, env, 0, stamps);
    assert forall i: nat :: Listed(s1, env, i) == Listed(s0, env, i);
    k := 0;
    if forall i: nat | i < |c.plans| :: Listed(s0, env, i) {
      var s2 := s1.(procs := map[pid := s1.procs[pid].(at := Inspect(0))]);
      AtRestSame(c, s0, s2);
      hide Alone;
      hide Do;
      k := RolloutEnds(c, s2, pid, env, stamps[|c.plans|..]);
      RolledOutSame(c, s0, s2, Alone(c, s2, pid, env, stamps[|c.plans|..]), env, k);
    }
  }

  lemma AtRestShape(c: Config, s: State)
    requires AtRest(c, s)
    ensures Shaped(c, s)
  {
  }

  lemma AtRestSame(c: Config, s: State, t: State)
    requires AtRest(c, s) && Known(s) && t == s.(procs := t.procs, nextProc := t.nextProc)
    ensures AtRest(c, t) && Known(t)
  {
    hide Journal;
    hide Serving;
    hide ValidPlan;
  }

  lemma RolledOutSame(c: Config, s: State, s': State, t: State, env: Manners, k: nat)
    requires RolledOut(c, s', t, env, k) && s' == s.(procs := s'.procs, nextProc := s'.nextProc)
    ensures RolledOut(c, s, t, env, k)
  {
    hide Installed;
    hide RunsAfter;
    forall j: nat | j < |c.plans| ensures (j < k ==> Commits(s, env, j)) && EntryEnds(c, s, t, env, k, j) {
      assert EntryEnds(c, s', t, env, k, j) && (j < k ==> Commits(s', env, j));
    }
  }

  /** When every target is ready and serves its call, the batch commits: every outcome is
      recorded as dispatched and committed, every target has installed its operation, and
      exactly one application has been sent to each. */
  lemma BatchCommits(c: Config, s0: State, ceiling: nat, env: Manners, stamps: seq<Stamp>)
    requires Quiet(c, s0) && s0.row.status == BatchReady && |env| == |c.plans|
    requires forall i: nat | i < |c.plans| :: i < |s0.sites| && StatusOf(s0, i) == Ready && env[i].Serves?
    requires |stamps| >= |c.plans| + Rest(c, 0) + 2
    ensures var t := Launched(c, s0, ApplyBatch, ceiling, env, stamps);
      && t.row.status == BatchCommitted && t.procs == map[] && Shaped(c, s0) && Shaped(c, t)
      && forall i: nat | i < |c.plans| ::
           && t.row.outcomes[i].dispatched && t.row.outcomes[i].state == Committed
           && t.history.applies[i] == s0.history.applies[i] + 1
           && StatusOf(t, i) == Committed && Installed(c.plans[i], t.sites[i].machine.world.disk, |c.plans[i].entries|)
  {
    var k := ApplyBatchEnds(c, s0, ceiling, env, stamps);
    hide Launched;
    hide Quiet;
    hide Installed;
    assert forall i: nat | i < |c.plans| :: Listed(s0, env, i) && Commits(s0, env, i);
    assert k == |c.plans|;
    var t := Launched(c, s0, ApplyBatch, ceiling, env, stamps);
    forall i: nat | i < |c.plans|
      ensures t.row.outcomes[i] == Sent(s0, i, Committed) && t.history.applies[i] == s0.history.applies[i] + 1
      ensures StatusOf(t, i) == Committed && Installed(c.plans[i], t.sites[i].machine.world.disk, |c.plans[i].entries|)
    {
      assert EntryEnds(c, s0, t, env, k, i);
    }
  }
}
