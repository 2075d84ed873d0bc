/** Every step of every run keeps server, store and tabs in order. */
module SyncSteps {
  import opened Common
  import opened MessageTables
  import ST = ServerTransactions
  import opened ServerInvariants
  import opened ServerTheorems
  import opened InboxStore
  import opened InboxAgreement
  import opened SyncMachine
  import opened SyncInvariants

  // ---- changes of the server ----

  lemma SameServerGrows(s: ST.Server)
    ensures ServerGrows(s, s)
  {
  }

  lemma StepServerGrows(s: ST.Server, l: ST.Label)
    requires Inv(s)
    ensures ServerGrows(s, ST.Apply(s, l))
  {
    hide Inv, ST.Apply, RowsEvolve;
    StepGrows(s, l);
    forall d ensures RowsEvolve(Log(s, d), Log(ST.Apply(s, l), d)) { StepMailboxEvolves(s, l, d); }
  }

  lemma ServerAlone(w: World, s: ST.Server)
    requires WorldOk(w) && Inv(s) && ServerGrows(w.server, s) && DeliveredOk(s, w.acks)
    ensures Grows(w, w.(server := s)) && WorldOk(w.(server := s))
  {
    hide Inv, ServerGrows, DeliveredOk, AckHeld, Known, PromiseKept, TabOk, CopyOf;
    var after := w.(server := s);
    AgreesStays(w.server, s, w.store);
    LogGrows(w.server, s, w.store.device);
    assert StoreOk(after) by {
      forall i | 0 <= i < w.store.cursor ensures Log(s, w.store.device)[i].id == Log(w.server, w.store.device)[i].id {}
      forall i | 0 <= i < w.store.cursor && Numbered(w, i) ensures Numbered(after, i) {}
    }
    RowsKeptSelf(w.store.rows);
    GrowthKeeps(w, after);
  }

  lemma RowsKeptSelf(rows: map<nat, MailboxEnvelope>)
    ensures RowsKept(rows, rows)
  {
  }

  lemma DeliveredStays(s: ST.Server, l: ST.Label, acks: set<Ack>)
    requires Inv(s) && DeliveredOk(s, acks) && !l.Acknowledge?
    ensures DeliveredOk(ST.Apply(s, l), acks)
  {
    hide Inv, ST.CommitSend, SendRows, ST.NewEnvelopes, SentRows, HoldsCounters, AckedBy;
    var after := ST.Apply(s, l);
    if l.Purge? {
      DeliveredAfterPurge(s.db.envelopes, l.selected, l.now);
      forall e | e in after.db.envelopes && e.deliveredAt.Some? ensures AckedBy(acks, e) {
        var p :| p in s.db.envelopes && p.deliveredAt.Some? && p.id == e.id && p.device == e.device;
        SameAck(acks, p, e);
      }
    } else if Sends(s, l) {
      CommitSendGrows(s, l.t, l.messageId, l.envelopeIds, l.now);
      if after.db != s.db {
        CommitIsFresh(s, l);
        ReadyHoldsCounters(s, l.t);
        SentRowsAre(s, s.txs[l.t], ST.NewMessage(s.txs[l.t], l.messageId, l.now), l.envelopeIds);
        NewRowsUndelivered(s.db, ST.NewMessage(s.txs[l.t], l.messageId, l.now),
                           SendRows(s.txs[l.t], ST.NewMessage(s.txs[l.t], l.messageId, l.now), l.envelopeIds));
      }
    } else {
      OtherStepsKeepRows(s, l);
    }
  }

  lemma SameAck(acks: set<Ack>, p: Envelope, e: Envelope)
    requires AckedBy(acks, p) && p.id == e.id && p.device == e.device
    ensures AckedBy(acks, e)
  {
  }

  lemma NewRowsUndelivered(db: Tables, m: Message, rows: seq<Envelope>)
    requires SentRows(db, m, rows)
    ensures forall e :: e in rows ==> e.deliveredAt.None?
  {
  }

  lemma DeliveredAfterPurge(rows: seq<Envelope>, selected: set<nat>, now: int)
    ensures forall e :: e in PurgeRows(rows, selected, now) && e.deliveredAt.Some? ==>
      exists p :: p in rows && p.deliveredAt.Some? && p.id == e.id && p.device == e.device
  {
    var after := PurgeRows(rows, selected, now);
    forall e | e in after && e.deliveredAt.Some?
      ensures exists p :: p in rows && p.deliveredAt.Some? && p.id == e.id && p.device == e.device
    {
      var i :| 0 <= i < |after| && after[i] == e;
      assert rows[i] in rows;
    }
  }

  /** Marking an envelope delivered is justified by the acknowledgement that asked for it. */
  lemma AckDelivers(s: ST.Server, acks: set<Ack>, a: Ack, now: int)
    requires DeliveredOk(s, acks) && a in acks
    ensures DeliveredOk(ST.Apply(s, ST.Acknowledge(a.device, a.envelope, now)), acks)
  {
    var rows := AcknowledgeRows(s.db.envelopes, a.device, a.envelope, now);
    forall e | e in rows && e.deliveredAt.Some? ensures AckedBy(acks, e) {
      var i :| 0 <= i < |rows| && rows[i] == e;
      var p := s.db.envelopes[i];
      assert p in s.db.envelopes;
      if p.deliveredAt.Some? { SameAck(acks, p, e); }
    }
  }

  lemma ServerStepOk(w: World, l: ST.Label)
    requires WorldOk(w) && !l.Acknowledge?
    ensures WorldOk(w.(server := ST.Apply(w.server, l)))
    ensures Grows(w, w.(server := ST.Apply(w.server, l)))
  {
    hide WorldOk, Inv, ST.Apply, DeliveredOk, ServerGrows, Grows;
    WorldServer(w);
    ApplyKeeps(w.server, l);
    StepServerGrows(w.server, l);
    DeliveredStays(w.server, l, w.acks);
    ServerAlone(w, ST.Apply(w.server, l));
  }

  lemma AckStepOk(w: World, a: Ack, now: int)
    requires WorldOk(w) && a in w.acks
    ensures WorldOk(w.(server := ST.Apply(w.server, ST.Acknowledge(a.device, a.envelope, now))))
    ensures Grows(w, w.(server := ST.Apply(w.server, ST.Acknowledge(a.device, a.envelope, now))))
  {
    hide WorldOk, Inv, ST.Apply, DeliveredOk, ServerGrows, Grows;
    WorldServer(w);
    var l := ST.Acknowledge(a.device, a.envelope, now);
    ApplyKeeps(w.server, l);
    StepServerGrows(w.server, l);
    AckDelivers(w.server, w.acks, a, now);
    ServerAlone(w, ST.Apply(w.server, l));
  }

  lemma WorldServer(w: World)
    requires WorldOk(w)
    ensures Inv(w.server) && DeliveredOk(w.server, w.acks) && StoreOk(w)
  {
  }

  // ---- changes of one tab ----

  /** What is proved of every step. */
  ghost predicate Kept(w: World, after: World)
  {
    WorldOk(after) && Grows(w, after)
  }

  lemma KeptThen(w: World, mid: World, after: World)
    requires Kept(w, mid) && Kept(mid, after)
    ensures Kept(w, after)
  {
    hide WorldOk, StoreOk, RowsEvolve, RowKept;
    forall d ensures RowsEvolve(Log(w.server, d), Log(after.server, d)) {
      RowsEvolveTransitive(Log(w.server, d), Log(mid.server, d), Log(after.server, d));
    }
    if after.store.generation in w.generations {
      RowsKeptThen(w.store.rows, mid.store.rows, after.store.rows);
    }
  }

  lemma RowsKeptThen(a: map<nat, MailboxEnvelope>, b: map<nat, MailboxEnvelope>, c: map<nat, MailboxEnvelope>)
    requires RowsKept(a, b) && RowsKept(b, c)
    ensures RowsKept(a, c)
  {
    forall id | id in a ensures id in c && RowKept(a[id], c[id]) {
      assert RowKept(a[id], b[id]) && RowKept(b[id], c[id]);
    }
  }

  lemma KeptSelf(w: World)
    requires WorldOk(w)
    ensures Kept(w, w)
  {
    hide Inv, AcksOk, DeliveredOk, LiveOk, PromisesOk, TabsOk, StoreOk;
    SameServerGrows(w.server);
    RowsKeptSelf(w.store.rows);
  }

  lemma TabsAlone(w: World, after: World)
    requires WorldOk(w)
    requires after == w.(tabs := after.tabs, acks := after.acks, promises := after.promises, live := after.live)
    requires w.acks <= after.acks
    ensures Grows(w, after)
  {
    hide Inv, AcksOk, DeliveredOk, LiveOk, PromisesOk, TabsOk;
    SameServerGrows(w.server);
    SameStoreOk(w, after);
    RowsKeptSelf(w.store.rows);
  }

  lemma SameStoreOk(w: World, after: World)
    requires StoreOk(w) && after.server == w.server && after.store == w.store && after.legacy == w.legacy
    requires after.generations == w.generations
    ensures StoreOk(after)
  {
    forall i | 0 <= i < w.store.cursor && Numbered(w, i) ensures Numbered(after, i) {}
  }

  lemma MoveKeeps(w: World, t: nat, tab: Tab)
    requires WorldOk(w) && TabOk(w, tab)
    ensures Kept(w, SetTab(w, t, tab))
  {
    hide Inv, AckHeld, DeliveredOk, Known, PromiseKept, TabOk, StoreOk, Grows;
    var after := SetTab(w, t, tab);
    TabsAlone(w, after);
    TabStays(w, after, tab);
    GrowthKeeps(w, after);
  }

  lemma BusyTab(w: World, t: nat)
    requires WorldOk(w) && t in w.tabs
    ensures TabOk(w, w.tabs[t])
  {
  }

  lemma PointMove(w: World, t: nat, at: Point)
    requires WorldOk(w) && t in w.tabs && w.tabs[t].op.Busy?
    requires PointOk(w, w.tabs[t].op.job, w.tabs[t].op.floor, at)
    ensures Kept(w, At(w, t, at))
  {
    hide WorldOk, PointOk, JobOk, ScopeOk;
    BusyTab(w, t);
    MoveKeeps(w, t, w.tabs[t].(op := w.tabs[t].op.(at := at)));
  }

  lemma FailMove(w: World, t: nat)
    requires WorldOk(w) && t in w.tabs
    ensures Kept(w, Fail(w, t))
  {
    hide WorldOk, PointOk, JobOk, ScopeOk;
    BusyTab(w, t);
    MoveKeeps(w, t, w.tabs[t].(op := Idle));
  }

  lemma OpFacts(w: World, t: nat)
    requires WorldOk(w) && t in w.tabs && w.tabs[t].op.Busy?
    ensures var op := w.tabs[t].op;
      && JobOk(w, op.job) && ScopeOk(w, op.job.session.scope) && PointOk(w, op.job, op.floor, op.at)
      && op.floor <= |Log(w.server, op.job.session.scope.device)|
      && (op.job.goal.Ingest? ==> op.job.goal.envelope.routing.device == op.job.session.scope.device
                                  && Fresh(w.server, op.job.goal.envelope))
      && StoreOk(w) && Inv(w.server)
  {
    hide Inv, PointOk, Known, StoreOk;
    BusyTab(w, t);
  }

  /** Committing a stretch of consecutive rows that starts at or below the cursor. */
  lemma CommitMid(w: World, scope: Scope, expected: nat, a: nat, es: seq<MailboxEnvelope>)
    requires WorldOk(w) && Range(w.server, scope.device, a, es) && a <= expected
    ensures match CommitPage(w.store, scope, expected, es, Max(expected, a + |es|))
      case Err(_) => true
      case Ok(r) =>
        var mid := w.(store := r.0);
        && WorldOk(mid) && Grows(w, mid) && expected == w.store.cursor && ValidScope(w.store, scope)
        && r.0.cursor == Max(expected, a + |es|) && r.0.generation == w.store.generation && r.0.device == w.store.device
        && StoreOk(mid) && RowsKept(w.store.rows, r.0.rows)
        && forall i :: a <= i < a + |es| ==> Numbered(mid, i)
  {
    hide WorldOk, CommitPage, TablesInv, TxsInv, Range, Grows;
    WorldServer(w);
    LogIsOk(w.server, w.store.device);
    CommitKeepsAgreement(w.server, w.store, scope, expected, a, es);
    if CommitPage(w.store, scope, expected, es, Max(expected, a + |es|)).Ok? {
      var store := CommitPage(w.store, scope, expected, es, Max(expected, a + |es|)).value.0;
      StoreCommitted(w, store, expected, a, es);
      StoreAlone(w, store);
    }
  }

  lemma StoreCommitted(w: World, store: Store, expected: nat, a: nat, es: seq<MailboxEnvelope>)
    requires StoreOk(w) && Agrees(w.server, store) && RowsKept(w.store.rows, store.rows)
    requires Range(w.server, store.device, a, es) && a <= expected == w.store.cursor
    requires store == w.store.(cursor := Max(expected, a + |es|), rows := store.rows)
    requires forall i :: 0 <= i < |es| ==> es[i].id in store.rows && store.rows[es[i].id].chatSeq.Some?
    ensures StoreOk(w.(store := store)) && StoreGrows(w.store, store)
    ensures forall i :: a <= i < a + |es| ==> Numbered(w.(store := store), i)
  {
    hide CopyOf;
    var mid, log := w.(store := store), Log(w.server, store.device);
    forall i | a <= i < a + |es| ensures i < store.cursor && Numbered(mid, i) {
      assert Fresh(w.server, es[i - a]);
      CopyId(w.server.contents, es[i - a], log[i]);
    }
    forall i | 0 <= i < expected && Numbered(w, i) ensures Numbered(mid, i) {
      assert RowKept(w.store.rows[log[i].id], store.rows[log[i].id]);
    }
  }

  lemma StoreAlone(w: World, store: Store)
    requires WorldOk(w) && StoreOk(w.(store := store)) && StoreGrows(w.store, store)
    ensures Grows(w, w.(store := store)) && WorldOk(w.(store := store))
  {
    hide Inv, AckHeld, DeliveredOk, Known, PromiseKept, TabOk, StoreOk;
    SameServerGrows(w.server);
    GrowthKeeps(w, w.(store := store));
  }
}
