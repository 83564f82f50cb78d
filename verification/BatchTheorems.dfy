/** What holds across batches: an operation is sent at most one apply, whatever batches are
    prepared and whatever becomes of them, and each batch runs as if it were alone. */
module BatchTheorems {
  import opened RecoveryTypes
  import opened Engine
  import opened EngineSafety
  import opened Fleet
  import opened FleetSafety
  import opened FleetProtocol
  import opened FleetTheorems
  import opened Batches
  import opened Wrappers
  import Store = BatchStore

  // ------------------------------------------------------------- one step of one batch

  /** The row after a guarded update. */
  function Updated(s: State, p: Process, to: BatchStatus, saving: Saving): Batch {
    if saving.Rejected? || p.base.revision != s.row.revision then s.row else Proposed(s, p, to)
  }

  lemma SaveUpdates(s: State, pid: nat, p: Process, to: BatchStatus, saving: Saving, h: History, next: Option<ControlPoint>)
    ensures SaveRow(s, pid, p, to, saving, h, next).row == Updated(s, p, to, saving)
  {
  }

  lemma ApplyUpdates(s: State, pid: nat, p: Process, saving: Saving, reached: bool)
    requires |p.work.outcomes| == |s.sites| == |s.history.applies| && (p.at.Dispatch? || p.at.RecordApplied? || p.at.FinishApply?)
    ensures AdvanceApply(s, pid, p, saving, reached).row == Updated(s, p, Saves(p.at).value, saving)
  {
    hide Updated;
    hide SaveRow;
    var n := |s.sites|;
    match p.at
    case Dispatch(i) =>
      SaveUpdates(s, pid, p, BatchApplying, saving,
            s.history.(dispatchedAt := s.history.dispatchedAt[i := s.row.revision + 1]), Some(SendApply(i)));
    case RecordApplied(i) =>
      SaveUpdates(s, pid, p, BatchApplying, saving, s.history, Some(if i + 1 < n then Inspect(i + 1) else FinishApply));
    case FinishApply => SaveUpdates(s, pid, p, BatchCommitted, saving, s.history, None);
  }

  lemma RecoverUpdates(s: State, pid: nat, p: Process, saving: Saving, reached: bool)
    requires |p.work.outcomes| == |s.sites| == |s.history.recovers| == |s.history.repairsSent| == |s.history.repairedAt|
    requires (p.at.RecordRepair? && p.at.i < |s.sites|) || p.at.RecordRecovered? || p.at.FinishRecover?
    ensures AdvanceRecover(s, pid, p, saving, reached).row == Updated(s, p, Saves(p.at).value, saving)
  {
    hide Updated;
    hide SaveRow;
    match p.at
    case RecordRepair(i) =>
      SaveUpdates(s, pid, p, BatchRollingBack, saving, RepairsRecorded(s, i), Some(SendRecover(i)));
    case RecordRecovered(i) => SaveUpdates(s, pid, p, BatchRollingBack, saving, s.history, Some(InspectRepair(i)));
    case FinishRecover => SaveUpdates(s, pid, p, BatchRecovered, saving, s.history, None);
  }

  lemma UnsavedStays(s: State, pid: nat, p: Process, saving: Saving, reached: bool)
    requires Saves(p.at).None? && |p.work.outcomes| == |s.sites| == |s.history.applies|
    requires |s.history.recovers| == |s.history.repairsSent| == |s.history.repairedAt| == |s.sites|
    ensures AdvanceApply(s, pid, p, saving, reached).row == s.row
    ensures p.at.ReconcileEntry? ==> AdvanceReconcile(s, pid, p, reached).row == s.row
    ensures AdvanceRecover(s, pid, p, saving, reached).row == s.row
  {
    hide SaveRow;
  }

  lemma RepairIsInRange(c: Config, s: State, pid: nat)
    requires FleetInv(c, s) && pid in s.procs && s.procs[pid].at.RecordRepair?
    ensures s.procs[pid].at.i < |c.plans|
  {
    hide FleetInv;
    hide Sound;
    hide Sees;
    ProcessFacts(c, s, pid);
  }

  /** A process changes the row only by a save, and then by its own proposal. */
  lemma AdvanceUpdates(c: Config, s: State, pid: nat, saving: Saving, reached: bool)
    requires FleetInv(c, s) && pid in s.procs
    ensures var p := s.procs[pid];
      DoAdvance(c, s, pid, saving, reached).row == if Saves(p.at).Some? then Updated(s, p, Saves(p.at).value, saving) else s.row
  {
    var p := s.procs[pid];
    ProcessShape(c, s, pid);
    if p.at.RecordRepair? { RepairIsInRange(c, s, pid); }
    hide FleetInv;
    hide SaveRow;
    hide Updated;
    hide AdvanceApply;
    hide AdvanceReconcile;
    hide AdvanceRecover;
    if Saves(p.at).None? {
      UnsavedStays(s, pid, p, saving, reached);
    } else if p.at.LastSave? {
      SaveUpdates(s, pid, p, p.at.to, saving, s.history, None);
    } else if p.at.Dispatch? || p.at.RecordApplied? || p.at.FinishApply? {
      ApplyUpdates(s, pid, p, saving, reached);
    } else {
      RecoverUpdates(s, pid, p, saving, reached);
    }
  }

  lemma OthersUpdateNothing(c: Config, s: State, e: Event)
    requires !e.Advance?
    ensures Do(c, s, e).row == s.row && Do(c, s, e).calls == s.calls && Do(c, s, e).history == s.history
  {
    hide Step;
    hide Begin;
  }

  /** `t` has sent what its counters say, and at most one message more than `s`. */
  ghost predicate CountsItsApplies(s: State, t: State) {
    || (t.calls == s.calls && t.history.applies == s.history.applies)
    || (exists m: Message :: m.recover && t.calls == s.calls + [m] && t.history.applies == s.history.applies)
    || (exists i: nat :: SentApply(s, t, i))
  }

  ghost predicate SentApply(s: State, t: State, i: nat) {
    && i < |s.history.applies|
    && t.calls == s.calls + [Message(i, false)] && t.history.applies == s.history.applies[i := s.history.applies[i] + 1]
  }

  lemma SaveCounts(s: State, pid: nat, p: Process, to: BatchStatus, saving: Saving, h: History, next: Option<ControlPoint>)
    requires h.applies == s.history.applies
    ensures CountsItsApplies(s, SaveRow(s, pid, p, to, saving, h, next))
  {
  }

  lemma ApplyCounts(s: State, pid: nat, p: Process, saving: Saving, reached: bool)
    requires |p.work.outcomes| == |s.sites| == |s.history.applies|
    ensures CountsItsApplies(s, AdvanceApply(s, pid, p, saving, reached))
    ensures p.at.ReconcileEntry? ==> CountsItsApplies(s, AdvanceReconcile(s, pid, p, reached))
  {
    hide SaveRow;
    var n := |s.sites|;
    match p.at
    case Dispatch(i) =>
      SaveCounts(s, pid, p, BatchApplying, saving,
            s.history.(dispatchedAt := s.history.dispatchedAt[i := s.row.revision + 1]), Some(SendApply(i)));
      hide CountsItsApplies;
    case RecordApplied(i) =>
      SaveCounts(s, pid, p, BatchApplying, saving, s.history, Some(if i + 1 < n then Inspect(i + 1) else FinishApply));
      hide CountsItsApplies;
    case FinishApply =>
      SaveCounts(s, pid, p, BatchCommitted, saving, s.history, None);
      hide CountsItsApplies;
    case SendApply(i) => assert i < n ==> SentApply(s, AdvanceApply(s, pid, p, saving, reached), i);
    case _ =>
  }

  lemma RecoverCounts(s: State, pid: nat, p: Process, saving: Saving, reached: bool)
    requires |p.work.outcomes| == |s.sites| == |s.history.recovers| == |s.history.repairsSent| == |s.history.repairedAt|
    ensures CountsItsApplies(s, AdvanceRecover(s, pid, p, saving, reached))
  {
    hide SaveRow;
    match p.at
    case RecordRepair(i) =>
      if i < |s.sites| { SaveCounts(s, pid, p, BatchRollingBack, saving, RepairsRecorded(s, i), Some(SendRecover(i))); }
    case RecordRecovered(i) =>
      SaveCounts(s, pid, p, BatchRollingBack, saving, s.history, Some(InspectRepair(i)));
      hide CountsItsApplies;
    case FinishRecover =>
      SaveCounts(s, pid, p, BatchRecovered, saving, s.history, None);
      hide CountsItsApplies;
    case SendRecover(i) =>
      if i < |s.sites| { assert Message(i, true).recover; }
    case _ =>
  }

  /** Whatever happens in one batch, its counters follow its messages. */
  lemma DoCounts(c: Config, s: State, e: Event)
    requires Shaped(c, s)
    ensures CountsItsApplies(s, Do(c, s, e))
  {
    if e.Advance? && e.pid in s.procs && |s.procs[e.pid].work.outcomes| == |c.plans| {
      var p := s.procs[e.pid];
      ApplyCounts(s, e.pid, p, e.saving, e.reached);
      RecoverCounts(s, e.pid, p, e.saving, e.reached);
      if p.at.LastSave? { SaveCounts(s, e.pid, p, p.at.to, e.saving, s.history, None); }
      hide CountsItsApplies;
      hide SaveRow;
      hide AdvanceApply;
      hide AdvanceReconcile;
      hide AdvanceRecover;
    } else if !e.Advance? {
      OthersUpdateNothing(c, s, e);
      hide Do;
    }
  }

  // ------------------------------------------------------------- the row is in the table

  /** The table compares what the controllers compare. */
  lemma GrantIsFresh(db: Db, b: Row, wanted: Row)
    requires Store.Sound(db) && Store.Acceptable(wanted) && b.id in db.batches && db.batches[b.id] == b
    requires wanted.id == b.id && wanted.plan == b.plan
    ensures b.revision > 0 && (Store.Grants(db, wanted, []) <==> wanted.revision == b.revision)
  {
    Store.SoundAt(db, b.id);
    hide Store.Sound;
    if wanted.revision > 0 { Store.GuardIsRevision(db, wanted); }
  }

  /** What a save leaves alone. */
  ghost predicate OnlyRow(db: Db, later: Db, id: string) {
    && later.claims == db.claims && later.batches.Keys == db.batches.Keys
    && forall j <- db.batches :: if j == id then later.batches[j].plan == db.batches[j].plan else later.batches[j] == db.batches[j]
  }

  lemma AnswerOfUpdate(db: Db, wanted: Row)
    ensures var later := Store.Answer(db, wanted, []);
      if Store.Grants(db, wanted, []) then
        later.claims == db.claims && later.batches == db.batches[wanted.id := wanted.(revision := wanted.revision + 1)]
      else later == db
  {
    hide Store.Grants;
  }

  lemma RowReplaced(db: Db, later: Db, next: Row)
    requires next.id in db.batches && next.plan == db.batches[next.id].plan
    requires later.claims == db.claims && later.batches == db.batches[next.id := next]
    ensures OnlyRow(db, later, next.id)
  {
  }

  lemma GrantedUpdates(db: Db, b: Row, wanted: Row)
    requires Store.Sound(db) && Store.Acceptable(wanted) && b.id in db.batches && db.batches[b.id] == b
    requires wanted.id == b.id && wanted.plan == b.plan
    ensures var later := Store.Answer(db, wanted, []);
      && OnlyRow(db, later, b.id) && Store.Sound(later) && b.id in later.batches
      && later.batches[b.id] == if wanted.revision == b.revision then wanted.(revision := b.revision + 1) else b
  {
    hide *;
    GrantIsFresh(db, b, wanted);
    Store.AnswerKeeps(db, wanted, []);
    AnswerOfUpdate(db, wanted);
    var next := if wanted.revision == b.revision then wanted.(revision := b.revision + 1) else b;
    var later := Store.Answer(db, wanted, []);
    assert later.batches == db.batches[b.id := next];
    RowReplaced(db, later, next);
  }

  /** Through a save, the row that the controllers have is the row that the table has. */
  lemma SaveAgrees(db: Db, b: Row, c: Config, s: State, e: Event)
    requires Store.Sound(db) && Store.Acceptable(b) && b.id in db.batches && db.batches[b.id] == b
    requires FleetInv(c, s) && s.row == BatchOf(b) && |c.plans| <= Store.MAX_CLAIMS
    ensures var later := SaveThrough(db, b, s, e);
      && OnlyRow(db, later, b.id) && Store.Sound(later) && b.id in later.batches
      && Store.Acceptable(later.batches[b.id]) && later.batches[b.id].id == b.id
      && Do(c, s, e).row == BatchOf(later.batches[b.id])
  {
    hide Store.Sound;
    if e.Advance? && e.pid in s.procs {
      var p := s.procs[e.pid];
      AdvanceUpdates(c, s, e.pid, e.saving, e.reached);
      ProcessShape(c, s, e.pid);
      hide FleetInv;
      hide DoAdvance;
      if Asked(b, s, e).Some? {
        var wanted := Asked(b, s, e).value;
        GrantedUpdates(db, b, wanted);
        StatusIsRead(Saves(p.at).value);
        hide Store.Answer;
        hide StatusText;
        hide ReadStatus;
        hide Saves;
      }
    } else {
      if !e.Advance? { OthersUpdateNothing(c, s, e); }
      hide FleetInv;
    }
  }

  // ------------------------------------------------------------- one event among many batches

  lemma SoundBatch(w: Controllers, id: string)
    requires AllSound(w) && id in w.fleets
    ensures BatchSound(w, id) && Store.Sound(w.db) && id in w.db.batches
  {
    hide BatchSound;
    hide Store.Sound;
    hide Owned;
    hide EachCounted;
  }

  /** `later` logs what the batch sent. */
  ghost predicate Logged(m: Manifest, s: State, t: State, more: seq<Claim>) {
    || (more == [] && t.history.applies == s.history.applies)
    || (exists i: nat :: LoggedApply(m, s, t, more, i))
  }

  ghost predicate LoggedApply(m: Manifest, s: State, t: State, more: seq<Claim>, i: nat) {
    && i < |s.history.applies| && i < |m.targets| == |m.config.plans|
    && more == [Key(m, i)] && t.history.applies == s.history.applies[i := s.history.applies[i] + 1]
  }

  function NewMessages(s: State, t: State): seq<Message> {
    if |s.calls| <= |t.calls| then t.calls[|s.calls|..] else []
  }

  lemma MessagesAreLogged(m: Manifest, s: State, t: State)
    requires CountsItsApplies(s, t) && |m.targets| == |m.config.plans| == |s.history.applies|
    ensures Logged(m, s, t, Applies(m, NewMessages(s, t)))
  {
    if exists i: nat :: SentApply(s, t, i) {
      var i: nat :| SentApply(s, t, i);
      assert NewMessages(s, t) == [Message(i, false)];
      assert Applies(m, [Message(i, false)]) == [Key(m, i)] + Applies(m, []);
      assert LoggedApply(m, s, t, Applies(m, NewMessages(s, t)), i);
    } else if t.calls == s.calls {
      assert NewMessages(s, t) == [];
    } else {
      var x: Message :| x.recover && t.calls == s.calls + [x];
      assert NewMessages(s, t) == [x];
      assert Applies(m, [x]) == Applies(m, []);
    }
  }

  /** Batch `id` has moved to `t` and logged `more`; `u` is what there is then. */
  ghost predicate Moved(w: Controllers, id: string, t: State, more: seq<Claim>, u: Controllers) {
    && id in w.db.batches && id in w.fleets && id in u.db.batches
    && Store.Sound(u.db) && OnlyRow(w.db, u.db, id) && Store.Acceptable(u.db.batches[id])
    && FleetInv(ManifestOf(w, id).config, t) && t.row == BatchOf(u.db.batches[id])
    && u.fleets == w.fleets[id := t] && u.sent == w.sent + more
    && Logged(ManifestOf(w, id), w.fleets[id], t, more)
  }

  lemma SameRowSame(s: State, b: Batch)
    requires s.row == b
    ensures s.(row := b) == s
  {
  }

  lemma WellFormedShape(w: Controllers, id: string)
    requires BatchSound(w, id)
    ensures id in w.db.batches && |ManifestOf(w, id).targets| == |ManifestOf(w, id).config.plans| <= Store.MAX_CLAIMS
    ensures Store.Acceptable(w.db.batches[id])
    ensures Shaped(ManifestOf(w, id).config, w.fleets[id])
  {
  }

  lemma RowKnowsItself(w: Controllers, id: string)
    requires AllSound(w) && id in w.fleets
    ensures id in w.db.batches && w.db.batches[id].id == id
  {
    SoundBatch(w, id);
    Store.SoundAt(w.db, id);
    hide Store.Sound;
    hide AllSound;
    hide BatchSound;
    hide Store.Log;
  }

  lemma MoveUnfolds(w: Controllers, id: string, e: Event)
    requires id in w.fleets && id in w.db.batches && |ManifestOf(w, id).targets| == |ManifestOf(w, id).config.plans|
    requires w.fleets[id].row == BatchOf(w.db.batches[id])
    requires var db := SaveThrough(w.db, w.db.batches[id], w.fleets[id], e);
      id in db.batches && Do(ManifestOf(w, id).config, w.fleets[id], e).row == BatchOf(db.batches[id])
    ensures var m, s, db := ManifestOf(w, id), w.fleets[id], SaveThrough(w.db, w.db.batches[id], w.fleets[id], e);
      var t := Do(m.config, s, e);
      Happen(w, Move(id, e)) == Controllers(db, w.fleets[id := t], w.sent + Applies(m, NewMessages(s, t)))
  {
    var m, s, db := ManifestOf(w, id), w.fleets[id], SaveThrough(w.db, w.db.batches[id], w.fleets[id], e);
    hide BatchOf;
    hide Do;
    hide SaveThrough;
    hide Applies;
    SameRowSame(s, BatchOf(w.db.batches[id]));
    SameRowSame(Do(m.config, s, e), BatchOf(db.batches[id]));
  }

  /** The state and the claims that an event of batch `id` leads to. */
  function Next(w: Controllers, id: string, e: Event): State
    requires id in w.fleets && id in w.db.batches
  {
    Do(ManifestOf(w, id).config, w.fleets[id], e)
  }

  function More(w: Controllers, id: string, e: Event): seq<Claim>
    requires id in w.fleets && id in w.db.batches && |ManifestOf(w, id).targets| == |ManifestOf(w, id).config.plans|
  {
    Applies(ManifestOf(w, id), NewMessages(w.fleets[id], Next(w, id, e)))
  }

  lemma MoveIs(w: Controllers, id: string, e: Event)
    requires AllSound(w) && id in w.fleets
    ensures id in w.db.batches && |ManifestOf(w, id).targets| == |ManifestOf(w, id).config.plans|
    ensures Moved(w, id, Next(w, id, e), More(w, id, e), Happen(w, Move(id, e)))
  {
    SoundBatch(w, id);
    RowKnowsItself(w, id);
    WellFormedShape(w, id);
    BatchIsRead(w, id);
    hide AllSound;
    hide BatchSound;
    hide FleetInv;
    hide Shaped;
    hide BatchOf;
    hide SaveThrough;
    hide Store.Sound;
    hide Store.Acceptable;
    hide Do;
    hide Happen;
    hide DoMove;
    hide OnlyRow;
    hide CountsItsApplies;
    hide Logged;
    hide Applies;
    hide NewMessages;
    var m, s := ManifestOf(w, id), w.fleets[id];
    SaveAgrees(w.db, w.db.batches[id], m.config, s, e);
    MoveUnfolds(w, id, e);
    DoKeeps(m.config, s, e);
    DoCounts(m.config, s, e);
    ShapeOfApplies(m.config, s);
    MessagesAreLogged(m, s, Do(m.config, s, e));
  }

  lemma BatchIsRead(w: Controllers, id: string)
    requires BatchSound(w, id)
    ensures FleetInv(ManifestOf(w, id).config, w.fleets[id]) && w.fleets[id].row == BatchOf(w.db.batches[id])
  {
    hide FleetInv;
  }

  lemma ShapeOfApplies(c: Config, s: State)
    requires Shaped(c, s)
    ensures |s.history.applies| == |c.plans|
  {
  }

  lemma SamePlan(w: Controllers, u: Controllers, id: string, j: string)
    requires OnlyRow(w.db, u.db, id) && j in w.db.batches
    ensures j in u.db.batches && ManifestOf(u, j) == ManifestOf(w, j) && u.db.claims == w.db.claims
    ensures j != id ==> u.db.batches[j] == w.db.batches[j]
  {
  }

  lemma WellFormedStays(db: Db, later: Db, j: string)
    requires WellFormed(db, j) && j in later.batches && Store.Acceptable(later.batches[j])
    requires later.batches[j].plan.manifest.says == db.batches[j].plan.manifest.says
    requires forall k <- db.claims :: k in later.claims && later.claims[k] == db.claims[k]
    ensures WellFormed(later, j)
  {
    hide Store.Acceptable;
    hide Store.Distinct;
    hide Keys;
  }

  lemma SoundParts(w: Controllers, j: string)
    requires WellFormed(w.db, j) && j in w.fleets && w.fleets[j].row == BatchOf(w.db.batches[j])
    requires FleetInv(ManifestOf(w, j).config, w.fleets[j])
    ensures BatchSound(w, j)
  {
    hide WellFormed;
    hide FleetInv;
    hide BatchOf;
  }

  lemma PartsOfSound(w: Controllers, j: string)
    requires BatchSound(w, j)
    ensures WellFormed(w.db, j) && j in w.fleets && j in w.db.batches && w.fleets[j].row == BatchOf(w.db.batches[j])
    ensures FleetInv(ManifestOf(w, j).config, w.fleets[j]) && Store.Acceptable(w.db.batches[j])
  {
    hide FleetInv;
    hide BatchOf;
    hide Store.Acceptable;
    hide Store.Distinct;
    hide Keys;
  }

  lemma MovedFacts(w: Controllers, id: string, t: State, more: seq<Claim>, u: Controllers)
    requires Moved(w, id, t, more, u)
    ensures id in w.db.batches && id in w.fleets && id in u.db.batches
    ensures OnlyRow(w.db, u.db, id) && Store.Acceptable(u.db.batches[id])
    ensures FleetInv(ManifestOf(w, id).config, t) && t.row == BatchOf(u.db.batches[id])
    ensures u.fleets == w.fleets[id := t] && u.sent == w.sent + more && Logged(ManifestOf(w, id), w.fleets[id], t, more)
    ensures Store.Sound(u.db)
  {
    hide FleetInv;
    hide OnlyRow;
    hide Logged;
    hide BatchOf;
    hide Store.Acceptable;
    hide Store.Sound;
  }

  lemma MovedIsSound(w: Controllers, id: string, t: State, more: seq<Claim>, u: Controllers, j: string)
    requires Moved(w, id, t, more, u) && BatchSound(w, j)
    ensures BatchSound(u, j)
  {
    hide *;
    MovedFacts(w, id, t, more, u);
    PartsOfSound(w, j);
    SamePlan(w, u, id, j);
    ManifestIs(w, j);
    ManifestIs(u, j);
    WellFormedStays(w.db, u.db, j);
    SoundParts(u, j);
  }

  lemma ManifestIs(w: Controllers, j: string)
    requires j in w.db.batches
    ensures ManifestOf(w, j) == w.db.batches[j].plan.manifest.says
  {
  }

  lemma KeysDiffer(w: Controllers, id: string, i: nat, j: string, k: nat)
    requires BatchSound(w, id) && BatchSound(w, j) && i < |ManifestOf(w, id).targets| && k < |ManifestOf(w, j).targets|
    ensures Key(ManifestOf(w, id), i) == Key(ManifestOf(w, j), k) <==> id == j && i == k
  {
    hide FleetInv;
    var a, b := Keys(ManifestOf(w, id)), Keys(ManifestOf(w, j));
    assert a[i] in a && b[k] in b;
    if id == j && i != k { assert a[i] != a[k]; }
  }

  lemma OneMore<T>(a: seq<T>, b: seq<T>, x: T, k: T)
    requires b == a + [x]
    ensures multiset(b)[k] == multiset(a)[k] + if k == x then 1 else 0
  {
  }

  /** By how much the log and the counter of entry `k` of batch `j` have grown. */
  lemma LoggedOnce(w: Controllers, id: string, t: State, more: seq<Claim>, j: string, k: nat)
    requires BatchSound(w, id) && Counted(w, j, k) && Logged(ManifestOf(w, id), w.fleets[id], t, more)
    requires k < |(if j == id then t else w.fleets[j]).history.applies|
    ensures
      multiset(w.sent + more)[Key(ManifestOf(w, j), k)] == (if j == id then t else w.fleets[j]).history.applies[k]
  {
    if more == [] && t.history.applies == w.fleets[id].history.applies {
      assert w.sent + more == w.sent;
    } else {
      var i: nat :| LoggedApply(ManifestOf(w, id), w.fleets[id], t, more, i);
      KeysDiffer(w, id, i, j, k);
      OneMore(w.sent, w.sent + more, Key(ManifestOf(w, id), i), Key(ManifestOf(w, j), k));
    }
    hide BatchSound;
    hide ManifestOf;
    hide Key;
  }

  lemma MovedCounts(w: Controllers, id: string, t: State, more: seq<Claim>, u: Controllers, j: string, k: nat)
    requires Moved(w, id, t, more, u) && BatchSound(w, id) && Counted(w, j, k)
    ensures Counted(u, j, k)
  {
    CountedFacts(w, j, k);
    hide *;
    PartsOfSound(w, j);
    MovedFacts(w, id, t, more, u);
    SamePlan(w, u, id, j);
    MovedIsSound(w, id, t, more, u, j);
    WellFormedShape(u, j);
    ShapeOfApplies(ManifestOf(u, j).config, u.fleets[j]);
    LoggedOnce(w, id, t, more, j, k);
    NowCounted(u, j, k);
  }

  lemma NowCounted(w: Controllers, j: string, k: nat)
    requires BatchSound(w, j) && k < |ManifestOf(w, j).targets| && k < |w.fleets[j].history.applies|
    requires multiset(w.sent)[Key(ManifestOf(w, j), k)] == w.fleets[j].history.applies[k]
    ensures Counted(w, j, k)
  {
    hide BatchSound;
  }

  lemma CountedFacts(w: Controllers, j: string, k: nat)
    requires Counted(w, j, k)
    ensures BatchSound(w, j) && k < |ManifestOf(w, j).targets| == |ManifestOf(w, j).config.plans|
  {
    PartsOfSound(w, j);
  }

  lemma LoggedIsClaimed(w: Controllers, id: string, t: State, more: seq<Claim>)
    requires BatchSound(w, id) && Logged(ManifestOf(w, id), w.fleets[id], t, more)
    ensures forall k <- more :: k in w.db.claims
  {
    hide FleetInv;
    if more != [] {
      var i: nat :| LoggedApply(ManifestOf(w, id), w.fleets[id], t, more, i);
      assert Keys(ManifestOf(w, id))[i] in Keys(ManifestOf(w, id));
    }
  }

  lemma StillOwned(w: Controllers, id: string, t: State, more: seq<Claim>, u: Controllers)
    requires Owned(w) && OnlyRow(w.db, u.db, id) && u.fleets == w.fleets[id := t] && u.sent == w.sent + more
    requires forall k <- more :: k in w.db.claims
    ensures Owned(u)
  {
    assert u.db.claims == w.db.claims;
    forall k <- u.db.claims ensures Owner(u, k) {
      assert Owner(w, k);
      SamePlan(w, u, id, w.db.claims[k]);
    }
  }

  lemma SameBatches(w: Controllers, id: string, t: State, u: Controllers)
    requires OnlyRow(w.db, u.db, id) && w.fleets.Keys == w.db.batches.Keys && id in w.fleets && u.fleets == w.fleets[id := t]
    ensures u.fleets.Keys == u.db.batches.Keys == w.fleets.Keys
  {
  }

  lemma MovedEachSound(w: Controllers, id: string, t: State, more: seq<Claim>, u: Controllers)
    requires EachSound(w) && Moved(w, id, t, more, u)
    ensures EachSound(u)
  {
    MovedFacts(w, id, t, more, u);
    hide BatchSound;
    hide Moved;
    hide OnlyRow;
    SameBatches(w, id, t, u);
    forall j <- u.fleets ensures BatchSound(u, j) {
      MovedIsSound(w, id, t, more, u, j);
    }
  }

  lemma MovedEachCounted(w: Controllers, id: string, t: State, more: seq<Claim>, u: Controllers)
    requires EachSound(w) && EachCounted(w) && Moved(w, id, t, more, u)
    ensures EachCounted(u)
  {
    MovedFacts(w, id, t, more, u);
    hide BatchSound;
    hide Counted;
    hide Moved;
    hide OnlyRow;
    hide ManifestOf;
    forall j <- u.fleets, i: nat | BatchSound(u, j) && i < |ManifestOf(u, j).targets| ensures Counted(u, j, i) {
      SamePlan(w, u, id, j);
      MovedCounts(w, id, t, more, u, j, i);
    }
  }

  lemma MovedKeeps(w: Controllers, id: string, t: State, more: seq<Claim>, u: Controllers)
    requires AllSound(w) && Moved(w, id, t, more, u)
    ensures AllSound(u)
  {
    hide EachCounted;
    hide Owned;
    hide Store.Sound;
    MovedEachSound(w, id, t, more, u);
    MovedEachCounted(w, id, t, more, u);
    MovedFacts(w, id, t, more, u);
    assert BatchSound(w, id);
    hide EachSound;
    LoggedIsClaimed(w, id, t, more);
    StillOwned(w, id, t, more, u);
    hide *;
    AllParts(u);
  }

  lemma AllParts(w: Controllers)
    requires Store.Sound(w.db) && Owned(w) && EachSound(w) && EachCounted(w)
    ensures AllSound(w)
  {
  }

  lemma MoveKeeps(w: Controllers, id: string, e: Event)
    requires AllSound(w) && id in w.fleets
    ensures AllSound(Happen(w, Move(id, e)))
  {
    hide *;
    SoundBatch(w, id);
    MoveIs(w, id, e);
    MovedKeeps(w, id, Next(w, id, e), More(w, id, e), Happen(w, Move(id, e)));
  }

  // ------------------------------------------------------------- a new batch

  /** Batch `id` has been prepared; `u` is what there is then. */
  ghost predicate Prepared(w: Controllers, id: string, row: Row, t: State, u: Controllers) {
    && id !in w.db.batches && row.id == id && Store.Sound(u.db)
    && u.db.batches == w.db.batches[id := row] && u.fleets == w.fleets[id := t] && u.sent == w.sent
    && WellFormed(u.db, id) && t.row == BatchOf(row) && FleetInv(row.plan.manifest.says.config, t)
    && (forall k <- w.db.claims :: k in u.db.claims && u.db.claims[k] == w.db.claims[k])
    && (forall k <- u.db.claims :: k in w.db.claims || (u.db.claims[k] == id && k in Keys(row.plan.manifest.says)))
    && (forall k <- Keys(row.plan.manifest.says) :: k !in w.db.claims)
    && (forall i | 0 <= i < |t.history.applies| :: t.history.applies[i] == 0)
  }

  /** What the table holds of a batch just prepared. */
  function Stored(id: string, r: Request, offers: seq<Offer>): Row {
    NewRow(id, r, offers).(revision := 1)
  }

  lemma NewIsInitial(r: Request, offers: seq<Offer>, row: Batch)
    requires Admissible(r, offers) && Genuine(PrepareBatch("", r, offers))
    requires row.status == BatchReady && row.outcomes == Undispatched(|offers|)
    ensures Initial(Offered(r, offers).config, NewState(row, offers))
  {
    hide Inv;
    hide ValidPlan;
    var c, s := Offered(r, offers).config, NewState(row, offers);
    forall p <- c.plans ensures ValidPlan(p) {
      var i :| 0 <= i < |c.plans| && c.plans[i] == p;
      assert offers[i] in offers;
    }
    forall i: nat | i < |c.plans|
      ensures Inv(c.plans[i], s.sites[i].machine) && s.sites[i].serving.None? && s.sites[i].committed == (StatusOf(s, i) == Committed)
    {
      assert offers[i] in offers;
    }
  }

  lemma GrantedNew(db: Db, row: Row, claims: seq<Claim>)
    requires Store.Sound(db) && Store.Grants(db, row, claims) && row.revision == 0
    ensures row.id !in db.batches && Store.Acceptable(row) && 1 <= |claims| <= Store.MAX_CLAIMS
    ensures Store.Distinct(claims) && forall k <- claims :: k !in db.claims
    ensures var u := Store.Answer(db, row, claims);
      && Store.Sound(u) && u.batches == db.batches[row.id := row.(revision := 1)]
      && (forall k :: k in u.claims <==> k in db.claims || k in claims)
      && (forall k <- u.claims :: u.claims[k] == if k in claims then row.id else db.claims[k])
  {
    Store.AnswerKeeps(db, row, claims);
    Store.ClaimedIs(db.claims, claims, row.id);
    hide Store.Sound;
    hide Store.Acceptable;
    hide Store.Claimed;
  }

  lemma PrepareIs(w: Controllers, id: string, r: Request, offers: seq<Offer>)
    requires Store.Sound(w.db) && Genuine(PrepareBatch(id, r, offers))
    requires Happen(w, PrepareBatch(id, r, offers)) != w
    ensures var row := Stored(id, r, offers);
      Prepared(w, id, row, NewState(BatchOf(row), offers), Happen(w, PrepareBatch(id, r, offers)))
  {
    hide Store.Sound;
    hide Store.Grants;
    hide Store.Answer;
    var claims := Keys(Offered(r, offers));
    GrantedNew(w.db, NewRow(id, r, offers), claims);
    hide FleetInv;
    hide Store.Distinct;
    var row := Stored(id, r, offers);
    StatusIsRead(BatchReady);
    NewIsInitial(r, offers, BatchOf(row));
    InitialIsSound(Offered(r, offers).config, NewState(BatchOf(row), offers));
    hide Initial;
    hide Inv;
  }

  lemma PreparedFacts(w: Controllers, id: string, row: Row, t: State, u: Controllers)
    requires Prepared(w, id, row, t, u)
    ensures id !in w.db.batches && Store.Sound(u.db) && WellFormed(u.db, id) && u.sent == w.sent
    ensures u.db.batches == w.db.batches[id := row] && u.fleets == w.fleets[id := t]
    ensures t.row == BatchOf(row) && FleetInv(row.plan.manifest.says.config, t)
    ensures forall k <- w.db.claims :: k in u.db.claims && u.db.claims[k] == w.db.claims[k]
    ensures forall i | 0 <= i < |t.history.applies| :: t.history.applies[i] == 0
  {
    hide Store.Sound;
    hide WellFormed;
    hide FleetInv;
    hide BatchOf;
  }

  lemma PreparedIsSound(w: Controllers, id: string, row: Row, t: State, u: Controllers, j: string)
    requires Prepared(w, id, row, t, u) && (j == id || BatchSound(w, j))
    ensures BatchSound(u, j)
  {
    hide *;
    PreparedFacts(w, id, row, t, u);
    if j == id {
      ManifestIs(u, id);
    } else {
      PartsOfSound(w, j);
      ManifestIs(w, j);
      ManifestIs(u, j);
      WellFormedStays(w.db, u.db, j);
    }
    SoundParts(u, j);
  }

  lemma NewKeysAreUnsent(w: Controllers, id: string, row: Row, t: State, u: Controllers, k: nat)
    requires Prepared(w, id, row, t, u) && Owned(w) && BatchSound(u, id) && k < |ManifestOf(u, id).targets|
    ensures k < |t.history.applies| && multiset(u.sent)[Key(ManifestOf(u, id), k)] == 0 == t.history.applies[k]
  {
    WellFormedShape(u, id);
    hide BatchSound;
    hide Store.Sound;
    hide FleetInv;
    hide BatchOf;
    hide WellFormed;
    var m := ManifestOf(u, id);
    assert m == row.plan.manifest.says;
    assert Keys(m)[k] == Key(m, k) && Keys(m)[k] in Keys(m);
    assert Key(m, k) !in w.sent;
  }

  lemma PreparedCounts(w: Controllers, id: string, row: Row, t: State, u: Controllers, j: string, k: nat)
    requires Prepared(w, id, row, t, u) && Owned(w) && BatchSound(u, j) && k < |ManifestOf(u, j).targets|
    requires j == id || Counted(w, j, k)
    ensures Counted(u, j, k)
  {
    if j != id { CountedFacts(w, j, k); assert multiset(w.sent)[Key(ManifestOf(w, j), k)] == w.fleets[j].history.applies[k]; }
    hide *;
    PreparedFacts(w, id, row, t, u);
    WellFormedShape(u, j);
    if j == id {
      NewKeysAreUnsent(w, id, row, t, u, k);
    } else {
      PartsOfSound(w, j);
      ManifestIs(w, j);
      ManifestIs(u, j);
      ShapeOfApplies(ManifestOf(u, j).config, u.fleets[j]);
    }
    NowCounted(u, j, k);
  }

  lemma PreparedOwned(w: Controllers, id: string, row: Row, t: State, u: Controllers)
    requires Prepared(w, id, row, t, u) && Owned(w)
    ensures Owned(u)
  {
    hide Store.Sound;
    hide FleetInv;
    hide BatchOf;
    hide Store.Acceptable;
    hide Store.Distinct;
    forall k <- u.db.claims ensures Owner(u, k) {
      if k in w.db.claims { assert Owner(w, k); }
    }
  }

  lemma EachSoundIf(w: Controllers)
    requires w.fleets.Keys == w.db.batches.Keys && forall j <- w.fleets :: BatchSound(w, j)
    ensures EachSound(w)
  {
    hide BatchSound;
  }

  lemma EachSoundAt(w: Controllers)
    requires EachSound(w)
    ensures w.fleets.Keys == w.db.batches.Keys && forall j <- w.fleets :: BatchSound(w, j)
  {
    hide BatchSound;
  }

  lemma PreparedEachSound(w: Controllers, id: string, row: Row, t: State, u: Controllers)
    requires EachSound(w) && Prepared(w, id, row, t, u)
    ensures EachSound(u)
  {
    hide *;
    PreparedFacts(w, id, row, t, u);
    EachSoundAt(w);
    forall j <- u.fleets ensures BatchSound(u, j) {
      PreparedIsSound(w, id, row, t, u, j);
    }
    EachSoundIf(u);
  }

  lemma PreparedEachCounted(w: Controllers, id: string, row: Row, t: State, u: Controllers)
    requires EachSound(w) && EachCounted(w) && Owned(w) && Prepared(w, id, row, t, u)
    ensures EachCounted(u)
  {
    PreparedFacts(w, id, row, t, u);
    hide BatchSound;
    hide Counted;
    hide Prepared;
    hide Owned;
    forall j <- u.fleets, i: nat | BatchSound(u, j) && i < |ManifestOf(u, j).targets| ensures Counted(u, j, i) {
      PreparedCounts(w, id, row, t, u, j, i);
    }
  }

  lemma PreparedKeeps(w: Controllers, id: string, row: Row, t: State, u: Controllers)
    requires AllSound(w) && Prepared(w, id, row, t, u)
    ensures AllSound(u)
  {
    hide EachCounted;
    hide Owned;
    hide EachSound;
    hide Store.Sound;
    PreparedEachSound(w, id, row, t, u);
    PreparedEachCounted(w, id, row, t, u);
    PreparedOwned(w, id, row, t, u);
    PreparedFacts(w, id, row, t, u);
    hide *;
    AllParts(u);
  }

  /** Every event of every batch keeps what holds of all of them. */
  lemma HappenKeeps(w: Controllers, a: Act)
    requires AllSound(w) && Genuine(a)
    ensures AllSound(Happen(w, a))
  {
    match a
    case PrepareBatch(id, r, offers) =>
      assert Store.Sound(w.db);
      hide AllSound;
      hide Genuine;
      if Happen(w, a) != w {
        PrepareIs(w, id, r, offers);
        hide Happen;
        PreparedKeeps(w, id, Stored(id, r, offers), NewState(BatchOf(Stored(id, r, offers)), offers), Happen(w, a));
      }
    case Move(id, e) =>
      hide AllSound;
      if id in w.fleets { MoveKeeps(w, id, e); }
  }

  lemma EmptyIsSound()
    ensures AllSound(EMPTY)
  {
  }

  lemma {:induction false} RunAllKeeps(w: Controllers, acts: seq<Act>)
    requires AllSound(w) && forall a <- acts :: Genuine(a)
    ensures AllSound(RunAll(w, acts))
    decreases |acts|
  {
    hide AllSound;
    hide Happen;
    hide Genuine;
    if acts != [] {
      assert acts[0] in acts && forall a <- acts[1..] :: a in acts;
      HappenKeeps(w, acts[0]);
      RunAllKeeps(Happen(w, acts[0]), acts[1..]);
    }
  }

  // ------------------------------------------------------------- results

  /** Entry `i` of batch `id` is the operation that `key` claims, and its dispatch is on record. */
  ghost predicate DispatchedBy(w: Controllers, id: string, i: nat, key: Claim) {
    && id in w.db.batches && i < |ManifestOf(w, id).targets| && i < |ManifestOf(w, id).config.plans|
    && Key(ManifestOf(w, id), i) == key && Dispatched(BatchOf(w.db.batches[id]), i)
  }

  /** Whatever batches are prepared, however their controllers, savers, networks and targets
      interleave, die and restart: of each operation of each target at most one apply is ever
      sent, and then by the batch that holds its claim, with its dispatch on record. */
  lemma AtMostOnceAcrossBatches(acts: seq<Act>, key: Claim)
    requires forall a <- acts :: Genuine(a)
    ensures var w := RunAll(EMPTY, acts);
      && multiset(w.sent)[key] <= 1
      && (key in w.sent ==> key in w.db.claims && exists i :: DispatchedBy(w, w.db.claims[key], i, key))
  {
    EmptyIsSound();
    RunAllKeeps(EMPTY, acts);
    var w := RunAll(EMPTY, acts);
    hide *;
    if key in w.sent {
      var i := SentByOwner(w, key);
    }
  }

  lemma OwnerOf(w: Controllers, key: Claim)
    requires AllSound(w) && key in w.sent
    ensures key in w.db.claims && Owner(w, key) && w.db.claims[key] in w.fleets
  {
    hide Store.Sound;
    hide EachSound;
    hide EachCounted;
  }

  lemma CountedAt(w: Controllers, id: string, i: nat)
    requires AllSound(w) && BatchSound(w, id) && i < |ManifestOf(w, id).targets|
    ensures Counted(w, id, i)
  {
    hide Store.Sound;
    hide EachSound;
    hide Owned;
    hide Counted;
    WellFormedShape(w, id);
    PartsOfSound(w, id);
    hide BatchSound;
  }

  lemma IndexOf(w: Controllers, key: Claim) returns (i: nat)
    requires key in w.db.claims && Owner(w, key)
    ensures var id := w.db.claims[key];
      id in w.db.batches && i < |ManifestOf(w, id).targets| && i < |ManifestOf(w, id).config.plans| && Key(ManifestOf(w, id), i) == key
  {
    hide ManifestOf;
    hide Key;
    var m := ManifestOf(w, w.db.claims[key]);
    var k :| 0 <= k < |Keys(m)| && Keys(m)[k] == key;
    i := k;
  }

  lemma CountIs(w: Controllers, id: string, i: nat)
    requires Counted(w, id, i)
    ensures BatchSound(w, id) && i < |ManifestOf(w, id).targets| == |ManifestOf(w, id).config.plans|
    ensures id in w.fleets && i < |w.fleets[id].history.applies|
    ensures multiset(w.sent)[Key(ManifestOf(w, id), i)] == w.fleets[id].history.applies[i]
  {
    CountedFacts(w, id, i);
    hide BatchSound;
  }

  lemma DispatchedByIf(w: Controllers, id: string, i: nat, key: Claim)
    requires id in w.db.batches && i < |ManifestOf(w, id).targets| && i < |ManifestOf(w, id).config.plans|
    requires Key(ManifestOf(w, id), i) == key && Dispatched(BatchOf(w.db.batches[id]), i)
    ensures DispatchedBy(w, id, i, key)
  {
    hide ManifestOf;
    hide Key;
    hide BatchOf;
    hide Dispatched;
  }

  lemma SentByOwner(w: Controllers, key: Claim) returns (i: nat)
    requires AllSound(w) && key in w.sent
    ensures multiset(w.sent)[key] <= 1
    ensures key in w.db.claims && DispatchedBy(w, w.db.claims[key], i, key)
  {
    hide *;
    OwnerOf(w, key);
    var id := w.db.claims[key];
    i := IndexOf(w, key);
    SoundBatch(w, id);
    CountedAt(w, id, i);
    CountIs(w, id, i);
    PartsOfSound(w, id);
    AppliedIsDispatched(ManifestOf(w, id).config, w.fleets[id], i);
    DispatchedByIf(w, id, i, key);
  }

  lemma AppliedIsDispatched(c: Config, s: State, i: nat)
    requires FleetInv(c, s) && i < |c.plans|
    ensures i < |s.history.applies| && s.history.applies[i] <= 1
    ensures s.history.applies[i] == 1 ==> Dispatched(s.row, i)
  {
    hide ProcSound;
    hide SitesSound;
    hide RepliesSound;
    hide Sound;
  }

  /** A target operation belongs to one batch for good: two batches never name the same one. */
  lemma BatchesShareNothing(acts: seq<Act>, a: string, b: string, i: nat, k: nat)
    requires forall x <- acts :: Genuine(x)
    requires var w := RunAll(EMPTY, acts);
      && a in w.db.batches && b in w.db.batches
      && i < |ManifestOf(w, a).targets| == |ManifestOf(w, a).config.plans|
      && k < |ManifestOf(w, b).targets| == |ManifestOf(w, b).config.plans|
    ensures var w := RunAll(EMPTY, acts);
      Key(ManifestOf(w, a), i) == Key(ManifestOf(w, b), k) <==> a == b && i == k
  {
    EmptyIsSound();
    RunAllKeeps(EMPTY, acts);
    var w := RunAll(EMPTY, acts);
    hide RunAll;
    assert a in w.fleets && b in w.fleets;
    SoundBatch(w, a);
    SoundBatch(w, b);
    hide AllSound;
    KeysDiffer(w, a, i, b, k);
  }

  /** The events of batch `id` alone. */
  function Own(acts: seq<Act>, id: string): seq<Event>
    decreases |acts|
  {
    if acts == [] then []
    else if acts[0].Move? && acts[0].id == id then [acts[0].event] + Own(acts[1..], id)
    else Own(acts[1..], id)
  }

  /** Batch `id` is where `t` says and otherwise as it was. */
  ghost predicate Onto(w: Controllers, u: Controllers, id: string, t: State) {
    && id in u.fleets && id in w.db.batches && id in u.db.batches && ManifestOf(u, id) == ManifestOf(w, id)
    && u.fleets[id] == t
  }

  lemma OntoIf(w: Controllers, u: Controllers, id: string, t: State)
    requires id in u.fleets && id in w.db.batches && id in u.db.batches && ManifestOf(u, id) == ManifestOf(w, id)
    requires u.fleets[id] == t
    ensures Onto(w, u, id, t)
  {
  }

  lemma NothingMoves(w: Controllers, id: string, e: Event)
    requires id !in w.fleets
    ensures Happen(w, Move(id, e)) == w
  {
  }

  lemma NextIs(w: Controllers, id: string, e: Event)
    requires id in w.fleets && id in w.db.batches
    ensures Next(w, id, e) == Do(ManifestOf(w, id).config, w.fleets[id], e)
  {
    hide Do;
  }

  lemma MovesAlone(w: Controllers, j: string, e: Event, id: string)
    requires AllSound(w) && id in w.fleets
    ensures id in w.db.batches
    ensures Onto(w, Happen(w, Move(j, e)), id, if j == id then Do(ManifestOf(w, id).config, w.fleets[id], e) else w.fleets[id])
  {
    hide *;
    SoundBatch(w, id);
    if j in w.fleets {
      MoveIs(w, j, e);
      MovedFacts(w, j, Next(w, j, e), More(w, j, e), Happen(w, Move(j, e)));
      SamePlan(w, Happen(w, Move(j, e)), j, id);
      NextIs(w, j, e);
    } else {
      NothingMoves(w, j, e);
    }
    OntoIf(w, Happen(w, Move(j, e)), id, if j == id then Do(ManifestOf(w, id).config, w.fleets[id], e) else w.fleets[id]);
  }

  lemma TableIsSound(w: Controllers)
    requires AllSound(w)
    ensures Store.Sound(w.db)
  {
    hide Store.Sound;
    hide Owned;
    hide EachSound;
    hide EachCounted;
  }

  lemma PreparesAlone(w: Controllers, j: string, r: Request, offers: seq<Offer>, id: string)
    requires AllSound(w) && id in w.fleets && Genuine(PrepareBatch(j, r, offers))
    ensures id in w.db.batches && Onto(w, Happen(w, PrepareBatch(j, r, offers)), id, w.fleets[id])
  {
    hide *;
    SoundBatch(w, id);
    TableIsSound(w);
    var u := Happen(w, PrepareBatch(j, r, offers));
    if u != w {
      PrepareIs(w, j, r, offers);
      PreparedFacts(w, j, Stored(j, r, offers), NewState(BatchOf(Stored(j, r, offers)), offers), u);
      ManifestIs(w, id);
      ManifestIs(u, id);
    }
    OntoIf(w, u, id, w.fleets[id]);
  }

  lemma HappensAlone(w: Controllers, a: Act, id: string)
    requires AllSound(w) && Genuine(a) && id in w.fleets
    ensures id in w.db.batches
    ensures Onto(w, Happen(w, a), id,
              if a.Move? && a.id == id then Do(ManifestOf(w, id).config, w.fleets[id], a.event) else w.fleets[id])
  {
    hide *;
    match a
    case Move(j, e) => MovesAlone(w, j, e, id);
    case PrepareBatch(j, r, offers) => PreparesAlone(w, j, r, offers, id);
  }

  /** Among any others, a batch runs as it would alone: the table refuses and grants its savers
      exactly as the fleet machine does, and nobody else touches it. So every result about one
      batch (`FleetTheorems`) holds of each of many. */
  lemma {:induction false} BatchRunsAlone(w: Controllers, acts: seq<Act>, id: string)
    requires AllSound(w) && id in w.fleets && forall a <- acts :: Genuine(a)
    ensures id in w.db.batches
    ensures Onto(w, RunAll(w, acts), id, Run(ManifestOf(w, id).config, w.fleets[id], Own(acts, id)))
    decreases |acts|
  {
    hide *;
    SoundBatch(w, id);
    if acts == [] {
      NothingHappens(ManifestOf(w, id).config, w, id);
      OntoIf(w, w, id, w.fleets[id]);
    } else {
      assert acts[0] in acts && forall a <- acts[1..] :: a in acts;
      HappenKeeps(w, acts[0]);
      HappensAlone(w, acts[0], id);
      var c, s, u := ManifestOf(w, id).config, w.fleets[id], Happen(w, acts[0]);
      var t := if acts[0].Move? && acts[0].id == id then Do(c, s, acts[0].event) else s;
      OntoFacts(w, u, id, t);
      BatchRunsAlone(u, acts[1..], id);
      OwnFirst(c, s, acts, id);
      RunAllFirst(w, acts);
      OntoFacts(u, RunAll(w, acts), id, Run(c, t, Own(acts[1..], id)));
      OntoIf(w, RunAll(w, acts), id, Run(c, s, Own(acts, id)));
    }
  }

  lemma OntoFacts(w: Controllers, u: Controllers, id: string, t: State)
    requires Onto(w, u, id, t)
    ensures id in u.fleets && id in w.db.batches && id in u.db.batches && ManifestOf(u, id) == ManifestOf(w, id) && u.fleets[id] == t
  {
  }

  lemma NothingHappens(c: Config, w: Controllers, id: string)
    ensures RunAll(w, []) == w && Own([], id) == [] && forall s :: Run(c, s, []) == s
  {
  }

  lemma RunAllFirst(w: Controllers, acts: seq<Act>)
    requires acts != []
    ensures RunAll(w, acts) == RunAll(Happen(w, acts[0]), acts[1..])
  {
    hide Happen;
  }

  lemma OwnFirst(c: Config, s: State, acts: seq<Act>, id: string)
    requires acts != []
    ensures Run(c, s, Own(acts, id)) ==
      Run(c, if acts[0].Move? && acts[0].id == id then Do(c, s, acts[0].event) else s, Own(acts[1..], id))
  {
    hide Do;
    if acts[0].Move? && acts[0].id == id {
      RunsFirst(c, s, acts[0].event, Own(acts[1..], id));
      hide Run;
    }
  }

  lemma RunsFirst(c: Config, s: State, e: Event, rest: seq<Event>)
    ensures Run(c, s, [e] + rest) == Run(c, Do(c, s, e), rest)
  {
    hide Do;
    assert ([e] + rest)[1..] == rest;
  }

  /** Fleet recovery is final among any number of batches. */
  lemma RecoveryIsFinalAmongBatches(before: seq<Act>, after: seq<Act>, id: string)
    requires forall a <- before + after :: Genuine(a)
    requires var w := RunAll(EMPTY, before); id in w.db.batches && BatchOf(w.db.batches[id]).status == BatchRecovered
    ensures var w, u := RunAll(EMPTY, before), RunAll(RunAll(EMPTY, before), after);
      && id in w.fleets && id in u.fleets && w.fleets[id].row == BatchOf(w.db.batches[id])
      && FinallyRecovered(ManifestOf(w, id).config, w.fleets[id], u.fleets[id])
  {
    assert forall a <- before :: a in before + after;
    assert forall a <- after :: a in before + after;
    EmptyIsSound();
    RunAllKeeps(EMPTY, before);
    var w := RunAll(EMPTY, before);
    hide RunAll;
    assert id in w.fleets by { hide Store.Sound; hide Owned; hide EachCounted; hide BatchSound; }
    SoundBatch(w, id);
    PartsOfSound(w, id);
    hide AllSound;
    hide BatchSound;
    hide FleetInv;
    hide FinallyRecovered;
    hide ManifestOf;
    hide Store.Sound;
    hide BatchOf;
    hide WellFormed;
    BatchRunsAlone(w, after, id);
    FinalFrom(ManifestOf(w, id).config, w.fleets[id], Own(after, id));
  }
}
