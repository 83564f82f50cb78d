/** When operations can be put together to a batch, and what an undisturbed batch comes to. */
module BatchOutcomes {
  import opened RecoveryTypes
  import opened Engine
  import opened EngineSafety
  import opened Fleet
  import opened FleetOutcomes
  import opened Batches
  import opened Wrappers
  import Store = BatchStore

  /** What a request must meet: a fresh identity, a manifest that can be stored, no more hosts
      than allowed, every operation ready, every target once, and no operation claimed before. */
  predicate Grantable(w: Controllers, id: string, r: Request, offers: seq<Offer>) {
    && id != "" && id !in w.db.batches && r.valid && r.bytes <= 67108864
    && 1 <= |offers| <= r.maxHosts && |offers| <= 32
    && (forall o <- offers ::
          o.site.machine.world.status == Ready && Store.Claim(o.target, o.plan.id) !in w.db.claims)
    && (forall i, j | 0 <= i < j < |offers| :: offers[i].target != offers[j].target)
  }

  lemma NoEventsYet(db: Db, id: string)
    requires Store.Sound(db) && id !in db.batches
    ensures forall e <- db.events :: e.batch != id
  {
  }

  lemma KeysAre(r: Request, offers: seq<Offer>)
    ensures var keys := Keys(Offered(r, offers));
      |keys| == |offers| && forall i | 0 <= i < |offers| :: keys[i] == Store.Claim(offers[i].target, offers[i].plan.id)
  {
  }

  lemma GrantsIffGrantable(w: Controllers, id: string, r: Request, offers: seq<Offer>)
    requires Store.Sound(w.db)
    ensures Admissible(r, offers) && Store.Grants(w.db, NewRow(id, r, offers), Keys(Offered(r, offers))) <==> Grantable(w, id, r, offers)
  {
    if id !in w.db.batches { NoEventsYet(w.db, id); }
    hide Store.Sound;
    KeysAre(r, offers);
    hide Keys;
    hide Offered;
    var keys := Keys(Offered(r, offers));
    if Grantable(w, id, r, offers) {
      forall c <- keys ensures c !in w.db.claims {
        var i :| 0 <= i < |keys| && keys[i] == c;
        assert offers[i] in offers;
      }
    }
    if Admissible(r, offers) && Store.Grants(w.db, NewRow(id, r, offers), keys) {
      forall o <- offers ensures Store.Claim(o.target, o.plan.id) !in w.db.claims {
        var i :| 0 <= i < |offers| && offers[i] == o;
        assert keys[i] in keys;
      }
    }
  }

  /** A batch is prepared exactly when the request can be granted; otherwise nothing changes. It
      then starts ready and undispatched, holds every claim of its operations, and nobody is at
      work on it. */
  lemma BatchIsPrepared(w: Controllers, id: string, r: Request, offers: seq<Offer>)
    requires Store.Sound(w.db)
    ensures var u := Happen(w, PrepareBatch(id, r, offers));
      if !Grantable(w, id, r, offers) then u == w
      else
        && id in u.fleets && id in u.db.batches && u.db.batches[id].revision == 1
        && u.sent == w.sent
        && (forall o <- offers :: var c := Store.Claim(o.target, o.plan.id); c in u.db.claims && u.db.claims[c] == id)
        && var s := u.fleets[id];
           && s.row.status == BatchReady && |s.row.outcomes| == |s.sites| == |offers| && s.procs == map[] && s.calls == []
           && forall i | 0 <= i < |offers| :: s.row.outcomes[i] == Outcome(false, Ready, 0) && s.sites[i] == offers[i].site
  {
    GrantsIffGrantable(w, id, r, offers);
    hide Store.Sound;
    var row, keys := NewRow(id, r, offers), Keys(Offered(r, offers));
    if Grantable(w, id, r, offers) {
      KeysAre(r, offers);
      Store.ClaimedIs(w.db.claims, keys, id);
      assert BatchStatusRead();
      forall o <- offers ensures Store.Claim(o.target, o.plan.id) in keys {
        var i :| 0 <= i < |offers| && offers[i] == o;
        assert keys[i] in keys;
      }
      hide Keys;
      hide Offered;
      hide Store.Claimed;
    }
    hide Store.Grants;
    hide Grantable;
    hide Admissible;
  }

  predicate BatchStatusRead() { ReadStatus(StatusText(BatchReady)) == BatchReady }

  lemma PreparedIsQuiet(w: Controllers, id: string, r: Request, offers: seq<Offer>)
    requires Store.Sound(w.db) && Grantable(w, id, r, offers) && Genuine(PrepareBatch(id, r, offers))
    requires forall o <- offers :: o.site.machine.pc.Idle?
    ensures var u := Happen(w, PrepareBatch(id, r, offers));
      id in u.fleets && Quiet(Offered(r, offers).config, u.fleets[id])
  {
    GrantsIffGrantable(w, id, r, offers);
    hide Store.Sound;
    hide Store.Grants;
    hide Grantable;
    var u, c := Happen(w, PrepareBatch(id, r, offers)), Offered(r, offers).config;
    assert id in u.fleets && u.fleets[id] == NewState(u.fleets[id].row, offers);
    hide Happen;
    var s := u.fleets[id];
    forall i: nat | i < |offers|
      ensures ValidPlan(c.plans[i]) && Journal(c.plans[i], s.sites[i].machine.world) && Serving(c.plans[i], s.sites[i].machine.world)
      ensures s.sites[i].machine.pc.Idle? && s.sites[i].serving.None?
    {
      assert offers[i] in offers;
    }
    hide Journal;
    hide Serving;
    hide ValidPlan;
  }

  /** From the offers to the end: operations that are ready on idle targets are put together,
      and, when every target serves its call, all of them commit. */
  lemma OffersAreCommitted(w: Controllers, id: string, r: Request, offers: seq<Offer>, ceiling: nat, stamps: seq<Stamp>)
    requires Store.Sound(w.db) && Grantable(w, id, r, offers) && Genuine(PrepareBatch(id, r, offers))
    requires forall o <- offers :: o.site.machine.pc.Idle?
    requires |stamps| >= |offers| + Rest(Offered(r, offers).config, 0) + 2
    ensures var u := Happen(w, PrepareBatch(id, r, offers));
      && id in u.fleets
      && var t := Launched(Offered(r, offers).config, u.fleets[id], ApplyBatch, ceiling, seq(|offers|, i => Serves), stamps);
         && t.row.status == BatchCommitted && |t.row.outcomes| == |t.sites| == |t.history.applies| == |offers|
         && forall i: nat | i < |offers| ::
              t.row.outcomes[i].state == Committed && StatusOf(t, i) == Committed && t.history.applies[i] == 1
  {
    var c, env: seq<Manner> := Offered(r, offers).config, seq(|offers|, i => Serves);
    var u := Happen(w, PrepareBatch(id, r, offers));
    PreparedIsQuiet(w, id, r, offers);
    PreparedCounters(w, id, r, offers);
    hide Store.Sound;
    hide Happen;
    hide Genuine;
    hide Grantable;
    hide Quiet;
    hide Rest;
    assert |c.plans| == |offers|;
    hide Offered;
    hide Launched;
    BatchCommits(c, u.fleets[id], ceiling, env, stamps);
    hide Installed;
    hide StatusOf;
  }

  lemma PreparedCounters(w: Controllers, id: string, r: Request, offers: seq<Offer>)
    requires Store.Sound(w.db) && Grantable(w, id, r, offers)
    ensures var u := Happen(w, PrepareBatch(id, r, offers));
      && id in u.fleets && u.fleets[id].row.status == BatchReady && |u.fleets[id].sites| == |offers| == |u.fleets[id].history.applies|
      && forall i: nat | i < |offers| :: StatusOf(u.fleets[id], i) == Ready && u.fleets[id].history.applies[i] == 0
  {
    BatchIsPrepared(w, id, r, offers);
    GrantsIffGrantable(w, id, r, offers);
    hide Store.Sound;
    hide Store.Grants;
    var u := Happen(w, PrepareBatch(id, r, offers));
    assert u.fleets[id].history == NewState(u.fleets[id].row, offers).history;
    hide Happen;
    forall i: nat | i < |offers| ensures StatusOf(u.fleets[id], i) == Ready {
      assert offers[i] in offers;
    }
  }
}
