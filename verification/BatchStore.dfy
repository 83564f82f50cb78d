/** The batch table of state/store_batch.go: an immutable reviewed plan, revisioned progress,
    claims on target operations, and one event per revision, all in one transaction. The store
    does not look into manifests (`M`) and progress (`P`). */
module BatchStore {
  import opened Wrappers

  /** What a batch promises never to change. */
  datatype Fixed<M> = Fixed(target: string, policy: string, digest: string, manifest: Doc<M>)

  datatype Batch<M, P> = Batch(id: string, plan: Fixed<M>, progress: Doc<P>, status: string, problem: string, revision: nat)

  datatype Claim = Claim(target: string, operation: string)

  datatype Event<P> = Event(batch: string, revision: nat, status: string, progress: Doc<P>)

  datatype Db<M, P> = Db(batches: map<string, Batch<M, P>>, claims: map<Claim, string>, events: seq<Event<P>>)

  const MAX_CLAIMS := 32
  const MAX_MANIFEST := 67108864
  const MAX_PROGRESS := 65536

  predicate Acceptable<M, P>(b: Batch<M, P>) {
    && b.id != "" && b.plan.manifest.valid && b.progress.valid
    && b.plan.manifest.bytes <= MAX_MANIFEST && b.progress.bytes <= MAX_PROGRESS
  }

  predicate Distinct(claims: seq<Claim>) {
    forall i, j | 0 <= i < j < |claims| :: claims[i] != claims[j]
  }

  /** Whether a save is granted. */
  predicate Grants<M(==), P(==)>(db: Db<M, P>, b: Batch<M, P>, claims: seq<Claim>) {
    && Acceptable(b)
    && if b.revision == 0 then
         && 1 <= |claims| <= MAX_CLAIMS && Distinct(claims) && (forall c <- claims :: c !in db.claims)
         && b.id !in db.batches
         && (forall e <- db.events :: !(e.batch == b.id && e.revision == 1))
       else
         && claims == [] && b.id in db.batches
         && db.batches[b.id].revision == b.revision && db.batches[b.id].plan == b.plan
         && (forall e <- db.events :: !(e.batch == b.id && e.revision == b.revision + 1))
  }

  function Claimed(claims: map<Claim, string>, wanted: seq<Claim>, id: string): map<Claim, string>
    decreases |wanted|
  {
    if wanted == [] then claims else Claimed(claims[wanted[0] := id], wanted[1..], id)
  }

  function Answer<M(==), P(==)>(db: Db<M, P>, b: Batch<M, P>, claims: seq<Claim>): Db<M, P> {
    if !Grants(db, b, claims) then db
    else
      var next := b.revision + 1;
      Db(db.batches[b.id := b.(revision := next)], Claimed(db.claims, claims, b.id),
         db.events + [Event(b.id, next, b.status, b.progress)])
  }

  class Store<M(==), P(==)> {
    var batches: map<string, Batch<M, P>>
    var claims: map<Claim, string>
    var events: seq<Event<P>>

    constructor ()
      ensures Now() == Db(map[], map[], [])
    {
      batches, claims, events := map[], map[], [];
    }

    ghost function Now(): Db<M, P>
      reads this
    {
      Db(batches, claims, events)
    }

    /** One transaction. It fails as a whole; `lost` is a commit that took effect while its
        acknowledgement did not arrive, which the caller cannot tell from a failure. */
    method SaveRecoveryBatch(b: Batch<M, P>, wanted: seq<Claim>, lost: bool) returns (saved: Option<Batch<M, P>>)
      modifies this
      ensures saved.Some? ==> saved.value == b.(revision := b.revision + 1) && batches == old(batches)[b.id := saved.value]
      ensures saved.Some? ==> events == old(events) + [Event(b.id, b.revision + 1, b.status, b.progress)]
      ensures saved.Some? && b.revision > 0 ==> claims == old(claims) && wanted == []
      ensures saved.Some? && b.revision > 0 ==>
                b.id in old(batches) && old(batches)[b.id].revision == b.revision && old(batches)[b.id].plan == b.plan
      ensures saved.Some? && b.revision == 0 ==> b.id !in old(batches) && forall c <- wanted :: c !in old(claims)
      ensures saved.Some? && b.revision == 0 ==> claims.Keys == old(claims).Keys + set c <- wanted
      ensures saved.Some? && b.revision == 0 ==>
                forall c <- claims :: claims[c] == if c in old(claims) then old(claims)[c] else b.id
      ensures Now() == Answer(old(Now()), b, wanted)
      ensures saved == if Grants(old(Now()), b, wanted) && !lost then Some(b.(revision := b.revision + 1)) else None
    {
      if b.id == "" || !b.plan.manifest.valid || !b.progress.valid || b.plan.manifest.bytes > MAX_MANIFEST || b.progress.bytes > MAX_PROGRESS {
        return None;
      }
      var next := b.revision + 1;
      var newClaims := claims;
      if b.revision == 0 {
        if |wanted| < 1 || |wanted| > MAX_CLAIMS {
          return None;
        }
        var free;
        free, newClaims := InsertClaims(wanted, b.id);
        if !free || b.id in batches {
          return None;
        }
      } else {
        if wanted != [] {
          return None;
        }
        if b.id !in batches || batches[b.id].revision != b.revision || batches[b.id].plan != b.plan {
          return None;
        }
      }
      var taken := HasEvent(b.id, next);
      if taken {
        return None;
      }
      ClaimedIs(claims, wanted, b.id);
      batches := batches[b.id := b.(revision := next)];
      claims := newClaims;
      events := events + [Event(b.id, next, b.status, b.progress)];
      saved := if lost then None else Some(b.(revision := next));
    }

    /** Inserts one row per claim; a row that is there already stops the transaction. */
    method InsertClaims(wanted: seq<Claim>, id: string) returns (free: bool, inserted: map<Claim, string>)
      ensures free == (Distinct(wanted) && forall c <- wanted :: c !in claims)
      ensures free ==> inserted == Claimed(claims, wanted, id)
    {
      inserted := claims;
      var i := 0;
      while i < |wanted|
        invariant 0 <= i <= |wanted|
        invariant forall j | 0 <= j < i :: wanted[j] !in claims
        invariant forall j, k | 0 <= j < k < i :: wanted[j] != wanted[k]
        invariant forall c :: c in inserted <==> c in claims || c in wanted[..i]
        invariant Claimed(inserted, wanted[i..], id) == Claimed(claims, wanted, id)
      {
        if wanted[i] in inserted {
          return false, inserted;
        }
        inserted := inserted[wanted[i] := id];
        assert wanted[i..][1..] == wanted[i + 1..];
        i := i + 1;
      }
      free := true;
    }

    method HasEvent(id: string, revision: nat) returns (found: bool)
      ensures found == exists e <- events :: e.batch == id && e.revision == revision
    {
      var i := 0;
      found := false;
      while i < |events|
        invariant 0 <= i <= |events|
        invariant found == exists j :: 0 <= j < i && events[j].batch == id && events[j].revision == revision
      {
        if events[i].batch == id && events[i].revision == revision {
          found := true;
        }
        i := i + 1;
      }
    }
  }

  // ------------------------------------------------------------- what every save keeps

  /** The events of batch `id`, in the order they were stored. */
  function Log<P>(events: seq<Event<P>>, id: string): (log: seq<Event<P>>)
    ensures forall e <- log :: e.batch == id && e in events
    ensures forall e <- events :: e.batch == id ==> e in log
    decreases |events|
  {
    if events == [] then []
    else
      var last := events[|events| - 1];
      var rest := Log(events[..|events| - 1], id);
      assert forall e <- events :: e == last || e in events[..|events| - 1];
      if last.batch == id then rest + [last] else rest
  }

  ghost predicate LogSound<P>(events: seq<Event<P>>, id: string) {
    forall k | 0 <= k < |Log(events, id)| :: Log(events, id)[k].revision == k + 1
  }

  ghost predicate RowSound<M, P>(b: Batch<M, P>, id: string, events: seq<Event<P>>) {
    var log := Log(events, id);
    && b.id == id && b.revision == |log| > 0
    && log[|log| - 1] == Event(id, b.revision, b.status, b.progress)
  }

  /** Revision `k` of a batch is its `k`th event, and its row is its last event. */
  ghost predicate Sound<M, P>(db: Db<M, P>) {
    && (forall id :: id in db.batches <==> |Log(db.events, id)| > 0)
    && (forall id :: LogSound(db.events, id))
    && (forall id <- db.batches :: RowSound(db.batches[id], id, db.events))
    && (forall c <- db.claims :: db.claims[c] in db.batches)
  }

  lemma LogGrows<P>(events: seq<Event<P>>, e: Event<P>, id: string)
    ensures Log(events + [e], id) == if e.batch == id then Log(events, id) + [e] else Log(events, id)
  {
    assert (events + [e])[..|events|] == events;
  }

  lemma {:induction false} ClaimedIs(claims: map<Claim, string>, wanted: seq<Claim>, id: string)
    ensures forall c :: c in Claimed(claims, wanted, id) <==> c in claims || c in wanted
    ensures forall c <- Claimed(claims, wanted, id) ::
              Claimed(claims, wanted, id)[c] == if c in wanted then id else if c in claims then claims[c] else id
    decreases |wanted|
  {
    if wanted != [] {
      ClaimedIs(claims[wanted[0] := id], wanted[1..], id);
      assert wanted == [wanted[0]] + wanted[1..];
    }
  }

  lemma SoundAt<M, P>(db: Db<M, P>, id: string)
    requires Sound(db)
    ensures (id in db.batches <==> |Log(db.events, id)| > 0) && LogSound(db.events, id)
    ensures id in db.batches ==> RowSound(db.batches[id], id, db.events)
  {
    hide Log;
  }

  /** One more revision of the row is one more event. */
  lemma NextRevision<M, P>(db: Db<M, P>, b: Batch<M, P>, wanted: seq<Claim>)
    requires Sound(db) && Grants(db, b, wanted)
    ensures b.revision == |Log(db.events, b.id)|
  {
    SoundAt(db, b.id);
    hide Log;
    hide Sound;
  }

  lemma LogKeeps<M, P>(db: Db<M, P>, b: Batch<M, P>, wanted: seq<Claim>, id: string)
    requires Sound(db) && Grants(db, b, wanted)
    ensures var t := Answer(db, b, wanted);
      && (id in t.batches <==> |Log(t.events, id)| > 0) && LogSound(t.events, id)
      && (id in t.batches ==> RowSound(t.batches[id], id, t.events))
  {
    NextRevision(db, b, wanted);
    SoundAt(db, id);
    hide *;
    AnswerIs(db, b, wanted);
    var next := b.(revision := b.revision + 1);
    var e := Event(b.id, next.revision, b.status, b.progress);
    if id == b.id {
      OwnLogKeeps(db.events, next, id);
    } else {
      OtherLogKeeps(db.events, e, id);
      if id in db.batches { OtherRowKeeps(db.events, e, db.batches[id], id); }
    }
  }

  lemma AnswerIs<M, P>(db: Db<M, P>, b: Batch<M, P>, wanted: seq<Claim>)
    requires Grants(db, b, wanted)
    ensures var t := Answer(db, b, wanted);
      && t.batches == db.batches[b.id := b.(revision := b.revision + 1)]
      && t.claims == Claimed(db.claims, wanted, b.id)
      && t.events == db.events + [Event(b.id, b.revision + 1, b.status, b.progress)]
  {
    hide Grants;
  }

  /** The log of the batch that was saved. */
  lemma OwnLogKeeps<M, P>(events: seq<Event<P>>, b: Batch<M, P>, id: string)
    requires LogSound(events, id) && b.id == id && b.revision == |Log(events, id)| + 1
    ensures var later := events + [Event(id, b.revision, b.status, b.progress)];
      |Log(later, id)| > 0 && LogSound(later, id) && RowSound(b, id, later)
  {
    LogGrows(events, Event(id, b.revision, b.status, b.progress), id);
    hide Log;
  }

  lemma OtherLogKeeps<P>(events: seq<Event<P>>, e: Event<P>, id: string)
    requires e.batch != id
    ensures Log(events + [e], id) == Log(events, id)
    ensures LogSound(events + [e], id) == LogSound(events, id)
  {
    LogGrows(events, e, id);
    hide Log;
  }

  lemma OtherRowKeeps<M, P>(events: seq<Event<P>>, e: Event<P>, b: Batch<M, P>, id: string)
    requires e.batch != id
    ensures RowSound(b, id, events + [e]) == RowSound(b, id, events)
  {
    OtherLogKeeps(events, e, id);
    hide Log;
  }

  lemma AnswerKeeps<M, P>(db: Db<M, P>, b: Batch<M, P>, wanted: seq<Claim>)
    requires Sound(db)
    ensures Sound(Answer(db, b, wanted))
  {
    if Grants(db, b, wanted) {
      var t := Answer(db, b, wanted);
      ClaimedIs(db.claims, wanted, b.id);
      forall id
        ensures (id in t.batches <==> |Log(t.events, id)| > 0) && LogSound(t.events, id)
        ensures id in t.batches ==> RowSound(t.batches[id], id, t.events)
      {
        LogKeeps(db, b, wanted, id);
      }
      hide Log;
    }
  }

  /** The comparison of revisions is the whole guard: in a sound table the event of the next
      revision is never taken. */
  lemma GuardIsRevision<M, P>(db: Db<M, P>, b: Batch<M, P>)
    requires Sound(db) && Acceptable(b) && b.revision > 0
    ensures Grants(db, b, []) <==> b.id in db.batches && db.batches[b.id].revision == b.revision && db.batches[b.id].plan == b.plan
  {
    if b.id in db.batches && db.batches[b.id].revision == b.revision {
      forall e <- db.events ensures !(e.batch == b.id && e.revision == b.revision + 1) {
        if e.batch == b.id {
          var log := Log(db.events, b.id);
          assert e in log && LogSound(db.events, b.id) && RowSound(db.batches[b.id], b.id, db.events);
          var k :| 0 <= k < |log| && log[k] == e;
          assert log[k].revision == k + 1;
        }
      }
    }
  }

  datatype Request<M, P> = Request(batch: Batch<M, P>, claims: seq<Claim>)

  function AnswerAll<M(==), P(==)>(db: Db<M, P>, rs: seq<Request<M, P>>): Db<M, P>
    decreases |rs|
  {
    if rs == [] then db else AnswerAll(Answer(db, rs[0].batch, rs[0].claims), rs[1..])
  }

  /** What no run of savers can undo. */
  ghost predicate Extends<M, P>(db: Db<M, P>, later: Db<M, P>) {
    && (forall c <- db.claims :: c in later.claims && later.claims[c] == db.claims[c])
    && (forall id <- db.batches ::
          id in later.batches && later.batches[id].plan == db.batches[id].plan && later.batches[id].revision >= db.batches[id].revision)
    && db.events <= later.events
  }

  lemma AnswerExtends<M, P>(db: Db<M, P>, b: Batch<M, P>, wanted: seq<Claim>)
    ensures Extends(db, Answer(db, b, wanted))
  {
    if Grants(db, b, wanted) {
      ClaimedIs(db.claims, wanted, b.id);
    }
  }

  lemma ExtendsTrans<M, P>(db: Db<M, P>, next: Db<M, P>, later: Db<M, P>)
    requires Extends(db, next) && Extends(next, later)
    ensures Extends(db, later)
  {
  }

  /** Whatever savers run, and however stale: a claim stays with its batch for good, a reviewed
      plan never changes, revisions only grow, and the event log is the history of each row. */
  lemma {:induction false} ClaimsArePermanent<M, P>(db: Db<M, P>, rs: seq<Request<M, P>>)
    requires Sound(db)
    ensures Sound(AnswerAll(db, rs)) && Extends(db, AnswerAll(db, rs))
    decreases |rs|
  {
    if rs != [] {
      var next := Answer(db, rs[0].batch, rs[0].claims);
      AnswerKeeps(db, rs[0].batch, rs[0].claims);
      AnswerExtends(db, rs[0].batch, rs[0].claims);
      ClaimsArePermanent(next, rs[1..]);
      ExtendsTrans(db, next, AnswerAll(next, rs[1..]));
      hide Sound;
      hide Answer;
      hide Extends;
    }
  }

  /** Of two savers that read the same revision, at most one is granted. */
  lemma OneSaverWins<M, P>(db: Db<M, P>, first: Batch<M, P>, between: seq<Request<M, P>>, second: Batch<M, P>)
    requires Sound(db) && first.id == second.id && first.revision == second.revision > 0 && Grants(db, first, [])
    ensures !Grants(AnswerAll(Answer(db, first, []), between), second, [])
  {
    AnswerKeeps(db, first, []);
    ClaimsArePermanent(Answer(db, first, []), between);
  }

  /** A target operation belongs to one batch: a second batch that claims it is refused. */
  lemma ClaimIsExclusive<M, P>(db: Db<M, P>, rs: seq<Request<M, P>>, b: Batch<M, P>, wanted: seq<Claim>, c: Claim)
    requires Sound(db) && c in db.claims && c in wanted && b.revision == 0
    ensures !Grants(AnswerAll(db, rs), b, wanted)
  {
    ClaimsArePermanent(db, rs);
  }
}
