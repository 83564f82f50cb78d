/** Many batches over one store: PrepareBatch, saveBatch and InspectBatch of recovery/fleet.go
    on top of state/store_batch.go. A manifest and its claims enter the table in one
    transaction; from then on the controllers of a batch read its row from the table and save
    through it. Every apply that any controller sends is logged with its claim. */
module Batches {
  import opened RecoveryTypes
  import opened Engine
  import opened EngineSafety
  import opened Fleet
  import opened FleetSafety
  import opened FleetProtocol
  import opened FleetTheorems
  import opened Wrappers
  import Store = BatchStore

  type Claim = Store.Claim

  /** What a manifest says: whose operations, which, and the repair limit. */
  datatype Manifest = Manifest(targets: seq<string>, config: Config)

  type Row = Store.Batch<Manifest, seq<Outcome>>
  type Db = Store.Db<Manifest, seq<Outcome>>

  /** The claim of entry `i`: its target and the identity of its operation there. */
  function Key(m: Manifest, i: nat): Claim
    requires i < |m.targets| && i < |m.config.plans|
  {
    Store.Claim(m.targets[i], m.config.plans[i].id)
  }

  function Keys(m: Manifest): (keys: seq<Claim>)
    requires |m.targets| == |m.config.plans|
    ensures |keys| == |m.targets| && forall i: nat | i < |keys| :: keys[i] == Key(m, i)
  {
    seq(|m.targets|, i requires 0 <= i < |m.targets| => Key(m, i))
  }

  // ------------------------------------------------------------- rows

  function StatusText(st: BatchStatus): string {
    match st
    case BatchReady => "ready"
    case BatchApplying => "applying"
    case BatchCommitted => "committed"
    case BatchUnknown => "outcome_unknown"
    case RolloutStopped => "rollout_stopped"
    case BatchRollingBack => "rolling_back"
    case BatchRecovered => "recovered"
    case BatchRecoveryFailed => "recovery_failed"
  }

  function ReadStatus(text: string): BatchStatus {
    if text == "ready" then BatchReady
    else if text == "applying" then BatchApplying
    else if text == "committed" then BatchCommitted
    else if text == "rollout_stopped" then RolloutStopped
    else if text == "rolling_back" then BatchRollingBack
    else if text == "recovered" then BatchRecovered
    else if text == "recovery_failed" then BatchRecoveryFailed
    else BatchUnknown
  }

  lemma StatusIsRead(st: BatchStatus)
    ensures ReadStatus(StatusText(st)) == st
  {
    assert "committed"[0] != "recovered"[0];
    assert "outcome_unknown"[0] != "rollout_stopped"[0] && "outcome_unknown"[0] != "recovery_failed"[0];
    assert "rollout_stopped"[1] != "recovery_failed"[1];
  }

  /** No outcome takes more: two flags and names, a repair count and a revision. */
  const OUTCOME_BYTES := 128

  function Encoded(outcomes: seq<Outcome>): Doc<seq<Outcome>> {
    Doc(outcomes, OUTCOME_BYTES * (|outcomes| + 1), true)
  }

  /** The batch that a row holds. */
  function BatchOf(b: Row): Batch {
    Batch(ReadStatus(b.status), b.progress.says, b.revision)
  }

  // ------------------------------------------------------------- events

  /** What inspection of an operation answered. */
  datatype Offer = Offer(target: string, plan: Plan, site: Site)

  /** A request to put operations together: by whom, under which limits, and what its manifest
      takes to store. */
  datatype Request = Request(controller: string, policy: string, digest: string, maxHosts: nat, repairLimit: nat, bytes: nat, valid: bool)

  datatype Act =
    | PrepareBatch(id: string, request: Request, offers: seq<Offer>)
    | Move(id: string, event: Event)

  /** The table, the rest of each batch's controllers, network and targets, and every apply
      ever sent. */
  datatype Controllers = Controllers(db: Db, fleets: map<string, State>, sent: seq<Claim>)

  const EMPTY := Controllers(Store.Db(map[], map[], []), map[], [])

  function ManifestOf(w: Controllers, id: string): Manifest
    requires id in w.db.batches
  {
    w.db.batches[id].plan.manifest.says
  }

  function Offered(r: Request, offers: seq<Offer>): (m: Manifest)
    ensures |m.targets| == |m.config.plans| == |offers|
  {
    Manifest(seq(|offers|, i requires 0 <= i < |offers| => offers[i].target),
             Config(seq(|offers|, i requires 0 <= i < |offers| => offers[i].plan), r.repairLimit))
  }

  function Undispatched(n: nat): (outcomes: seq<Outcome>)
    ensures |outcomes| == n && forall i | 0 <= i < n :: outcomes[i] == Outcome(false, Ready, 0)
  {
    seq(n, _ => Outcome(false, Ready, 0))
  }

  function NewRow(id: string, r: Request, offers: seq<Offer>): Row {
    var manifest := Doc(Offered(r, offers), r.bytes, r.valid);
    Store.Batch(id, Store.Fixed(r.controller, r.policy, r.digest, manifest), Encoded(Undispatched(|offers|)), StatusText(BatchReady), "", 0)
  }

  function NewState(row: Batch, offers: seq<Offer>): State {
    var n := |offers|;
    State(row, map[], 0, seq(n, i requires 0 <= i < n => offers[i].site), [], {}, map[],
          History(map[], map[], seq(n, _ => {}), seq(n, _ => {}), seq(n, _ => 0), seq(n, _ => 0)))
  }

  /** All ready, within the host limit, and each target only once. */
  predicate Admissible(r: Request, offers: seq<Offer>) {
    && 1 <= |offers| <= r.maxHosts
    && (forall o <- offers :: o.site.machine.world.status == Ready)
    && (forall i, j | 0 <= i < j < |offers| :: offers[i].target != offers[j].target)
  }

  function DoPrepare(w: Controllers, id: string, r: Request, offers: seq<Offer>): Controllers {
    var row, claims := NewRow(id, r, offers), Keys(Offered(r, offers));
    if !Admissible(r, offers) || !Store.Grants(w.db, row, claims) then w
    else
      var db := Store.Answer(w.db, row, claims);
      assert id in db.batches;
      w.(db := db, fleets := w.fleets[id := NewState(BatchOf(db.batches[id]), offers)])
  }

  /** What a process asks the table to store at this event, if anything. */
  function Asked(b: Row, s: State, e: Event): Option<Row> {
    if e.Advance? && e.pid in s.procs && !e.saving.Rejected? && Saves(s.procs[e.pid].at).Some? then
      var p := s.procs[e.pid];
      Some(b.(progress := Encoded(p.work.outcomes), status := StatusText(Saves(p.at).value), problem := "", revision := p.base.revision))
    else None
  }

  function SaveThrough(db: Db, b: Row, s: State, e: Event): Db {
    match Asked(b, s, e)
    case Some(wanted) => Store.Answer(db, wanted, [])
    case None => db
  }

  /** The claims of the applies among `messages`. */
  function Applies(m: Manifest, messages: seq<Message>): seq<Claim>
    requires |m.targets| == |m.config.plans|
  {
    if messages == [] then []
    else
      var rest := Applies(m, messages[1..]);
      if messages[0].recover || messages[0].i >= |m.targets| then rest else [Key(m, messages[0].i)] + rest
  }

  function DoMove(w: Controllers, id: string, e: Event): Controllers {
    if id !in w.fleets || id !in w.db.batches || |ManifestOf(w, id).targets| != |ManifestOf(w, id).config.plans| then w
    else
      var b, m := w.db.batches[id], ManifestOf(w, id);
      var s := w.fleets[id].(row := BatchOf(b));
      var db := SaveThrough(w.db, b, s, e);
      assert id in db.batches;
      var t := Do(m.config, s, e).(row := BatchOf(db.batches[id]));
      var messages := if |s.calls| <= |t.calls| then t.calls[|s.calls|..] else [];
      Controllers(db, w.fleets[id := t], w.sent + Applies(m, messages))
  }

  function Happen(w: Controllers, a: Act): Controllers {
    match a
    case PrepareBatch(id, r, offers) => DoPrepare(w, id, r, offers)
    case Move(id, e) => DoMove(w, id, e)
  }

  function RunAll(w: Controllers, acts: seq<Act>): Controllers
    decreases |acts|
  {
    if acts == [] then w else RunAll(Happen(w, acts[0]), acts[1..])
  }

  /** Operations on offer are sound, as their own target keeps them (`EngineSafety`). */
  ghost predicate Genuine(a: Act) {
    a.PrepareBatch? ==>
      forall o <- a.offers ::
        ValidPlan(o.plan) && Inv(o.plan, o.site.machine) && o.site.serving.None?
        && o.site.committed == (o.site.machine.world.status == Committed)
  }

  // ------------------------------------------------------------- what holds of one batch

  ghost predicate WellFormed(db: Db, id: string) {
    && id in db.batches && Store.Acceptable(db.batches[id])
    && var m := db.batches[id].plan.manifest.says;
       1 <= |m.targets| == |m.config.plans| <= Store.MAX_CLAIMS && Store.Distinct(Keys(m))
       && forall k <- Keys(m) :: k in db.claims && db.claims[k] == id
  }

  ghost predicate BatchSound(w: Controllers, id: string) {
    && WellFormed(w.db, id) && id in w.fleets
    && w.fleets[id].row == BatchOf(w.db.batches[id])
    && FleetInv(ManifestOf(w, id).config, w.fleets[id])
  }

  /** The log holds one apply of entry `i` for each that its batch has counted. */
  ghost predicate Counted(w: Controllers, id: string, i: nat) {
    && BatchSound(w, id) && i < |ManifestOf(w, id).targets| && i < |w.fleets[id].history.applies|
    && multiset(w.sent)[Key(ManifestOf(w, id), i)] == w.fleets[id].history.applies[i]
  }

  /** Every claim is named by the manifest of its batch, and only claims were sent. */
  ghost predicate Owned(w: Controllers) {
    && (forall k <- w.sent :: k in w.db.claims)
    && (forall k <- w.db.claims :: Owner(w, k))
  }

  ghost predicate Owner(w: Controllers, k: Claim)
    requires k in w.db.claims
  {
    var id := w.db.claims[k];
    && id in w.fleets && id in w.db.batches && |ManifestOf(w, id).targets| == |ManifestOf(w, id).config.plans|
    && k in Keys(ManifestOf(w, id))
  }

  ghost predicate EachSound(w: Controllers) {
    w.fleets.Keys == w.db.batches.Keys && forall id <- w.fleets :: BatchSound(w, id)
  }

  ghost predicate EachCounted(w: Controllers) {
    forall id <- w.fleets, i: nat | BatchSound(w, id) && i < |ManifestOf(w, id).targets| :: Counted(w, id, i)
  }

  ghost predicate AllSound(w: Controllers) {
    Store.Sound(w.db) && Owned(w) && EachSound(w) && EachCounted(w)
  }
}
