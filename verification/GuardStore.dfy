/** The guard table of state/store_guard.go: a heartbeat lease and a pending operation, in
    separate columns of one row. A statement either takes effect in full or not at all; its
    acknowledgement may be lost. */
module GuardStore {
  import opened Wrappers

  datatype Key = Key(target: string, name: string)

  datatype Row<L, P> = Row(lease: Doc<L>, pending: Option<Doc<P>>)

  type Table<L, P> = map<Key, Row<L, P>>

  const MAX_NAME := 64
  const MAX_BYTES := 16384

  predicate Storable<T>(d: Doc<T>) {
    d.valid && d.bytes <= MAX_BYTES
  }

  predicate PendingIs<L, P(==)>(rows: Table<L, P>, k: Key, pending: Option<Doc<P>>) {
    k in rows && rows[k].pending == pending
  }

  /** Some operation of `target` is pending. */
  predicate AnyArmed<L, P>(rows: Table<L, P>, target: string) {
    exists k <- rows :: k.target == target && rows[k].pending.Some?
  }

  /** The tables agree on every row but that of `k`. */
  ghost predicate SameElsewhere<L, P>(a: Table<L, P>, b: Table<L, P>, k: Key) {
    forall j | j != k :: (j in a <==> j in b) && (j in a ==> a[j] == b[j])
  }

  datatype Request<L, P> =
    | Put(key: Key, lease: Doc<L>)
    | Arm(key: Key, pending: Doc<P>)
    | ClearPending(key: Key, expected: Doc<P>)

  /** Whether a request is granted. */
  predicate Grants<L, P(==)>(rows: Table<L, P>, r: Request<L, P>) {
    match r
    case Put(k, lease) => k.target != "" && k.name != "" && |k.name| <= MAX_NAME && Storable(lease)
    case Arm(k, pending) => Storable(pending) && PendingIs(rows, k, None)
    case ClearPending(k, expected) => expected.valid && PendingIs(rows, k, Some(expected))
  }

  function Answer<L, P(==)>(rows: Table<L, P>, r: Request<L, P>): Table<L, P> {
    if !Grants(rows, r) then rows
    else
      match r
      case Put(k, lease) => rows[k := Row(lease, if k in rows then rows[k].pending else None)]
      case Arm(k, pending) => rows[k := rows[k].(pending := Some(pending))]
      case ClearPending(k, _) => rows[k := rows[k].(pending := None)]
  }

  function AnswerAll<L, P(==)>(rows: Table<L, P>, rs: seq<Request<L, P>>): Table<L, P>
    decreases |rs|
  {
    if rs == [] then rows else AnswerAll(Answer(rows, rs[0]), rs[1..])
  }

  class Store<L, P(==)> {
    var rows: Table<L, P>

    constructor ()
      ensures rows == map[]
    {
      rows := map[];
    }

    /** A heartbeat: the lease is new, and what is pending stays pending. */
    method PutRecoveryGuard(k: Key, lease: Doc<L>) returns (ok: bool)
      modifies this
      ensures ok <==> k.target != "" && 1 <= |k.name| <= MAX_NAME && lease.valid && lease.bytes <= MAX_BYTES
      ensures !ok ==> rows == old(rows)
      ensures ok ==> k in rows && rows[k].lease == lease
      ensures ok && k in old(rows) ==> rows[k].pending == old(rows)[k].pending
      ensures ok && k !in old(rows) ==> rows[k].pending.None?
      ensures SameElsewhere(old(rows), rows, k)
      ensures rows == Answer(old(rows), Put(k, lease))
    {
      if k.target == "" || k.name == "" || |k.name| > MAX_NAME || lease.bytes > MAX_BYTES || !lease.valid {
        return false;
      }
      if k in rows {
        rows := rows[k := rows[k].(lease := lease)];
      } else {
        rows := rows[k := Row(lease, None)];
      }
      ok := true;
    }

    /** Arming: the lease stays, and the row goes from nothing pending to this operation. */
    method ArmRecoveryGuard(k: Key, pending: Doc<P>) returns (ok: bool)
      modifies this
      ensures ok <==> pending.valid && pending.bytes <= MAX_BYTES && k in old(rows) && old(rows)[k].pending.None?
      ensures !ok ==> rows == old(rows)
      ensures ok ==> k in rows && rows[k].pending == Some(pending) && rows[k].lease == old(rows)[k].lease
      ensures SameElsewhere(old(rows), rows, k)
      ensures rows == Answer(old(rows), Arm(k, pending))
    {
      if pending.bytes > MAX_BYTES || !pending.valid || k !in rows || rows[k].pending.Some? {
        return false;
      }
      rows := rows[k := Row(rows[k].lease, Some(pending))];
      ok := true;
    }

    /** A receipt: the lease stays, and the row goes from exactly this operation to none. */
    method ClearRecoveryGuard(k: Key, expected: Doc<P>) returns (ok: bool)
      modifies this
      ensures ok <==> expected.valid && k in old(rows) && old(rows)[k].pending == Some(expected)
      ensures !ok ==> rows == old(rows)
      ensures ok ==> k in rows && rows[k].pending.None? && rows[k].lease == old(rows)[k].lease
      ensures SameElsewhere(old(rows), rows, k)
      ensures rows == Answer(old(rows), ClearPending(k, expected))
    {
      if !expected.valid || k !in rows || rows[k].pending != Some(expected) {
        return false;
      }
      rows := rows[k := Row(rows[k].lease, None)];
      ok := true;
    }

    /** Counts the pending rows of one target. */
    method RecoveryGuardArmed(target: string) returns (armed: bool)
      ensures armed == AnyArmed(rows, target)
    {
      var left := rows.Keys;
      armed := false;
      while left != {}
        invariant left <= rows.Keys
        invariant armed == exists k <- rows :: k !in left && k.target == target && rows[k].pending.Some?
        decreases |left|
      {
        var k :| k in left;
        if k.target == target && rows[k].pending.Some? {
          armed := true;
        }
        left := left - {k};
      }
    }
  }

  // ------------------------------------------------------------- any run of requests

  /** No heartbeat, no second arming and no receipt of another operation can erase a pending
      operation: it survives every run of requests that does not present its own receipt. */
  lemma {:induction false} PendingSurvives<L, P>(rows: Table<L, P>, rs: seq<Request<L, P>>, k: Key, pending: Doc<P>)
    requires PendingIs(rows, k, Some(pending))
    requires ClearPending(k, pending) !in rs
    ensures PendingIs(AnswerAll(rows, rs), k, Some(pending))
    decreases |rs|
  {
    if rs != [] {
      assert rs[0] in rs;
      assert PendingIs(Answer(rows, rs[0]), k, Some(pending));
      assert forall r <- rs[1..] :: r in rs;
      PendingSurvives(Answer(rows, rs[0]), rs[1..], k, pending);
    }
  }

  /** Nothing becomes pending but by being armed. */
  lemma {:induction false} PendingWasArmed<L, P>(rows: Table<L, P>, rs: seq<Request<L, P>>, k: Key, pending: Doc<P>)
    requires !PendingIs(rows, k, Some(pending)) && PendingIs(AnswerAll(rows, rs), k, Some(pending))
    ensures Arm(k, pending) in rs
    decreases |rs|
  {
    assert rs != [];
    assert rs == [rs[0]] + rs[1..];
    var next := Answer(rows, rs[0]);
    if !PendingIs(next, k, Some(pending)) { PendingWasArmed(next, rs[1..], k, pending); }
  }

  /** Once `first` is armed, whatever requests follow: nothing can be armed there until its own
      receipt has been presented, and that receipt, once used, is refused until it is armed again. */
  lemma ArmedOnce<L, P>(rows: Table<L, P>, k: Key, first: Doc<P>, rs: seq<Request<L, P>>, second: Doc<P>)
    requires Grants(rows, Arm(k, first))
    ensures var t := AnswerAll(Answer(rows, Arm(k, first)), rs);
      && (Grants(t, Arm(k, second)) ==> ClearPending(k, first) in rs)
      && (ClearPending(k, first) !in rs ==> Grants(t, ClearPending(k, first)))
    ensures var t := AnswerAll(Answer(Answer(rows, Arm(k, first)), ClearPending(k, first)), rs);
      Grants(t, ClearPending(k, first)) ==> Arm(k, first) in rs
  {
    var armed := Answer(rows, Arm(k, first));
    if ClearPending(k, first) !in rs { PendingSurvives(armed, rs, k, first); }
    var cleared := Answer(armed, ClearPending(k, first));
    if PendingIs(AnswerAll(cleared, rs), k, Some(first)) { PendingWasArmed(cleared, rs, k, first); }
  }
}
