/** The durable budget of model-driven repairs (recovery/repair_budget.go). Every reservation is
    a check appended to the operation; several processes reserve under one lock. */
module RepairBudget {
  const ATTEMPT := "model_repair_attempt"

  /** Zero stands for the default. */
  function Limit(n: nat): nat {
    if n == 0 then 2 else n
  }

  function Ceiling(current: nat, planned: nat): nat {
    if Limit(current) < Limit(planned) then Limit(current) else Limit(planned)
  }

  function Used(checks: seq<string>): nat {
    if checks == [] then 0 else Used(checks[..|checks| - 1]) + if checks[|checks| - 1] == ATTEMPT then 1 else 0
  }

  datatype Fate = Stored | Lost | Failed

  class Operation {
    const planned: nat
    var checks: seq<string>
    var recovered: bool

    constructor (planned: nat)
      ensures this.planned == planned && checks == [] && !recovered
    {
      this.planned, checks, recovered := planned, [], false;
    }

    /** `granted` says that the caller may dispatch one repair. A `Lost` acknowledgement has
        taken a slot all the same. */
    method ReserveModelRepair(current: nat, digestMatches: bool, fate: Fate) returns (granted: bool, slot: bool)
      modifies this`checks
      ensures slot ==> checks == old(checks) + [ATTEMPT] && Used(old(checks)) < Ceiling(current, planned)
      ensures !slot ==> checks == old(checks)
      ensures granted ==> digestMatches && (slot || recovered)
      ensures digestMatches && !recovered && fate.Stored? ==> (granted <==> Used(old(checks)) < Ceiling(current, planned))
      ensures Follows(old(checks), checks, current, planned)
    {
      if !digestMatches {
        return false, false;
      }
      if recovered {
        return true, false;
      }
      var ceiling := Ceiling(current, planned);
      var used, i := 0, 0;
      while i < |checks|
        invariant 0 <= i <= |checks| && used == Used(checks[..i])
      {
        assert checks[..i + 1][..i] == checks[..i];
        if checks[i] == ATTEMPT {
          used := used + 1;
        }
        i := i + 1;
      }
      assert checks[..i] == checks;
      if used >= ceiling || fate.Failed? {
        return false, false;
      }
      checks := checks + [ATTEMPT];
      granted, slot := fate.Stored?, true;
    }

    /** Any run: processes reserve under whatever ceilings are in force, and other checks are
        recorded in between. Neither the slots taken nor the repairs granted exceed the planned
        ceiling, nor any bound `top` on the ceilings that were in force. */
    method ReserveAll(requests: seq<Request>, ghost top: nat) returns (granted: nat)
      requires checks == [] && !recovered
      requires forall r <- requests :: r.Reserve? ==> Limit(r.current) <= top
      modifies this`checks
      ensures granted <= Used(checks) <= Limit(planned) && Used(checks) <= top
    {
      granted := 0;
      var i := 0;
      while i < |requests|
        invariant 0 <= i <= |requests|
        invariant granted <= Used(checks) <= Limit(planned) && Used(checks) <= top
      {
        ghost var before := checks;
        match requests[i] {
          case Reserve(current, matches, fate) =>
            assert requests[i] in requests;
            var ok, slot := ReserveModelRepair(current, matches, fate);
            StepIsBounded(before, checks, current, planned, top);
            if ok {
              granted := granted + 1;
            }
          case Record(kind) =>
            if kind != ATTEMPT {
              checks := checks + [kind];
              assert checks[..|before|] == before;
            }
        }
        i := i + 1;
      }
    }
  }

  /** A reservation under ceiling `current`, or a check of another kind. */
  datatype Request = Reserve(current: nat, digestMatches: bool, fate: Fate) | Record(kind: string)

  /** One reservation under ceiling `current`, as `ReserveModelRepair` leaves the record, and
      any number of other checks beside it. */
  predicate Follows(before: seq<string>, after: seq<string>, current: nat, planned: nat) {
    || (after == before + [ATTEMPT] && Used(before) < Ceiling(current, planned))
    || (|after| == |before| + 1 && after[..|before|] == before && after[|before|] != ATTEMPT)
    || after == before
  }

  predicate History(records: seq<seq<string>>, current: seq<nat>, planned: nat) {
    && |records| == |current| + 1 && records[0] == []
    && forall i | 0 <= i < |current| :: Follows(records[i], records[i + 1], current[i], planned)
  }

  lemma StepIsBounded(before: seq<string>, after: seq<string>, current: nat, planned: nat, top: nat)
    requires Follows(before, after, current, planned) && Limit(current) <= top
    requires Used(before) <= Limit(planned) && Used(before) <= top
    ensures Used(after) <= Limit(planned) && Used(after) <= top
    ensures Used(before) <= Used(after) && (after == before + [ATTEMPT] ==> Used(after) == Used(before) + 1)
  {
    if after == before + [ATTEMPT] {
      assert after[..|before|] == before;
    }
  }

  /** Over any run, reservations never exceed the planned ceiling, nor the highest ceiling that
      was ever in force: a current limit can lower the budget and never raise it. */
  lemma {:induction false} BudgetIsBounded(records: seq<seq<string>>, current: seq<nat>, planned: nat, top: nat)
    requires History(records, current, planned)
    requires forall i | 0 <= i < |current| :: Limit(current[i]) <= top
    ensures Used(records[|current|]) <= Limit(planned) && Used(records[|current|]) <= top
    decreases |current|
  {
    if |current| > 0 {
      var n := |current| - 1;
      assert History(records[..n + 1], current[..n], planned);
      BudgetIsBounded(records[..n + 1], current[..n], planned, top);
      StepIsBounded(records[n], records[n + 1], current[n], planned, top);
    }
  }
}
