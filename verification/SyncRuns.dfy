/** Every run of server, store and tabs, and what a client may rely on in it. */
module SyncRuns {
  import opened Common
  import opened MessageTables
  import ST = ServerTransactions
  import opened ServerInvariants
  import opened InboxStore
  import opened InboxAgreement
  import opened SyncMachine
  import opened SyncInvariants
  import opened SyncSteps

  // ---- commits ----

  /** What a commit of consecutive rows from `a` on has achieved. */
  ghost predicate Committed(w: World, mid: World, scope: Scope, expected: nat, a: nat, n: nat)
  {
    && Kept(w, mid) && mid.tabs == w.tabs && mid.server == w.server && mid.generations == w.generations
    && mid.store.generation == w.store.generation && ValidScope(mid.store, scope)
    && mid.store.cursor == Max(expected, a + n) && StoreOk(mid)
    && forall i :: a <= i < a + n ==> Numbered(mid, i)
  }

  lemma CommitCase(w: World, t: nat, expected: nat, a: nat, es: seq<MailboxEnvelope>, ok: bool, failed: World,
                   at: Point)
    returns (mid: World, done: bool)
    requires WorldOk(w) && t in w.tabs && w.tabs[t].op.Busy?
    requires Range(w.server, w.tabs[t].op.job.session.scope.device, a, es) && a <= expected
    ensures !done ==> Commits(w, t, expected, es, Max(expected, a + |es|), ok, failed, at) == failed
    ensures done ==> Committed(w, mid, w.tabs[t].op.job.session.scope, expected, a, |es|)
    ensures done ==> Commits(w, t, expected, es, Max(expected, a + |es|), ok, failed, at) == At(mid, t, at)
  {
    hide WorldOk, CommitPage, Range, StoreOk, Grows;
    var scope := w.tabs[t].op.job.session.scope;
    var r := CommitPage(w.store, scope, expected, es, Max(expected, a + |es|));
    mid, done := w, false;
    if ok && r.Ok? {
      CommitMid(w, scope, expected, a, es);
      mid, done := w.(store := r.value.0), true;
    }
  }

  /** Continue after a commit. */
  lemma CommittedMove(w: World, mid: World, t: nat, scope: Scope, expected: nat, a: nat, n: nat, at: Point)
    requires Committed(w, mid, scope, expected, a, n) && t in w.tabs && w.tabs[t].op.Busy?
    requires PointOk(mid, w.tabs[t].op.job, w.tabs[t].op.floor, at)
    ensures Kept(w, At(mid, t, at))
  {
    hide WorldOk, PointOk, Grows, StoreOk;
    PointMove(mid, t, at);
    KeptThen(w, mid, At(mid, t, at));
  }

  // ---- backfill ----

  lemma BackfillAdvances(w: World, mid: World, scope: Scope, through: nat, after: nat, cursor: nat, n: nat)
    requires BackfillOk(w, scope, through, after) && ScopeOk(w, scope) && Committed(w, mid, scope, cursor, after, n)
    ensures BackfillOk(mid, scope, through, after + n)
  {
    hide WorldOk, StoreOk, Grows, Numbered;
    BackfillStays(w, mid, scope, through, after);
  }

  lemma BackfillCommitKeeps(w: World, t: nat, ok: bool)
    requires WorldOk(w) && t in w.tabs && w.tabs[t].op.Busy? && w.tabs[t].op.at.BackfillCommit?
    ensures Kept(w, BackfillStep(w, t, ok))
  {
    hide WorldOk, Grows, StoreOk, Commits, BackfillOk, Range, Inv, Known;
    OpFacts(w, t);
    FailMove(w, t);
    var op := w.tabs[t].op;
    var BackfillCommit(through, after, page, cursor) := op.at;
    var scope := op.job.session.scope;
    var at := if page.hasMore then BackfillLoop(through, page.nextSeq) else BackfillFinish(through);
    var mid, done := CommitCase(w, t, cursor, after, page.envelopes, ok, Fail(w, t), at);
    if done {
      BackfillAdvances(w, mid, scope, through, after, cursor, |page.envelopes|);
      if !page.hasMore { BackfillDone(mid, scope, through, page.nextSeq); }
      CommittedMove(w, mid, t, scope, cursor, after, |page.envelopes|, at);
    }
  }

  lemma BackfillDone(w: World, scope: Scope, through: nat, after: nat)
    requires BackfillOk(w, scope, through, after) && through <= after
    ensures BackfillOk(w, scope, through, through)
  {
    hide StoreOk, Numbered;
  }

  lemma BackfillBegins(w: World, scope: Scope)
    requires StoreOk(w) && ValidScope(w.store, scope)
    ensures BackfillOk(w, scope, w.store.cursor, 0)
  {
    hide CopyOf, Numbered;
  }

  lemma BackfillCommitPoint(w: World, scope: Scope, through: nat, after: nat)
    requires BackfillOk(w, scope, through, after) && StoreOk(w) && ValidScope(w.store, scope)
    ensures through <= w.store.cursor
  {
    hide StoreOk, Numbered;
  }

  lemma BackfilledKeeps(w: World, scope: Scope, through: nat)
    requires WorldOk(w) && BackfillOk(w, scope, through, through) && ValidScope(w.store, scope)
    ensures Kept(w, w.(store := w.store.(backfilled := true)))
  {
    hide Inv, AcksOk, DeliveredOk, LiveOk, PromisesOk, TabsOk, CopyOf;
    var after := w.(store := w.store.(backfilled := true));
    assert StoreOk(after) by {
      forall i | 0 <= i < w.store.cursor ensures Numbered(after, i) { assert Numbered(w, i); }
    }
    RowsKeptSelf(w.store.rows);
    StoreAlone(w, after.store);
  }

  lemma BackfillFinishKeeps(w: World, t: nat, ok: bool)
    requires WorldOk(w) && t in w.tabs && w.tabs[t].op.Busy? && w.tabs[t].op.at.BackfillFinish?
    ensures Kept(w, BackfillStep(w, t, ok))
  {
    hide WorldOk, Grows, StoreOk, BackfillOk, Inv, Known;
    OpFacts(w, t);
    FailMove(w, t);
    if ok && Current(w.tabs[t]) && Reads(w, t) {
      var mid := w.(store := w.store.(backfilled := true));
      BackfilledKeeps(w, w.tabs[t].op.job.session.scope, w.tabs[t].op.at.through);
      PointMove(mid, t, FetchPending(ToPaging));
      KeptThen(w, mid, At(mid, t, FetchPending(ToPaging)));
    }
  }

  lemma BackfillKeeps(w: World, t: nat, ok: bool)
    requires WorldOk(w) && t in w.tabs && w.tabs[t].op.Busy?
    ensures Kept(w, BackfillStep(w, t, ok))
  {
    hide WorldOk, Grows, StoreOk, BackfillOk, Range, Inv, Known, ValidPage;
    var op := w.tabs[t].op;
    OpFacts(w, t);
    FailMove(w, t);
    KeptSelf(w);
    match op.at
    case BackfillCheck =>
      if ok && Reads(w, t) { PointMove(w, t, if w.store.backfilled then FetchPending(ToPaging) else BackfillStart); }
    case BackfillStart =>
      if ok && Reads(w, t) {
        BackfillBegins(w, op.job.session.scope);
        PointMove(w, t, BackfillLoop(w.store.cursor, 0));
      }
    case BackfillLoop(through, after) =>
      if after >= through {
        BackfillDone(w, op.job.session.scope, through, after);
        PointMove(w, t, BackfillFinish(through));
      } else if Current(w.tabs[t]) {
        PointMove(w, t, BackfillWait(through, after));
      }
    case BackfillPage(through, after, page) =>
      if ok && Reads(w, t) {
        BackfillCommitPoint(w, op.job.session.scope, through, after);
        PointMove(w, t, BackfillCommit(through, after, page, w.store.cursor));
      }
    case BackfillCommit(_, _, _, _) => BackfillCommitKeeps(w, t, ok);
    case BackfillFinish(_) => BackfillFinishKeeps(w, t, ok);
    case _ =>
  }

  // ---- acknowledgements ----

  lemma StoredIsKnown(w: World, id: nat)
    requires Agrees(w.server, w.store) && LogOk(w.server, w.store.device) && id in w.store.rows
    ensures Known(w.server, w.store.rows[id]) && w.store.rows[id].id == id
    ensures w.store.rows[id].routing.device == w.store.device && w.store.rows[id].routing.mailboxSeq <= w.store.cursor
  {
    hide PayloadState, RowContents;
    var log := Log(w.server, w.store.device);
    var i :| 0 <= i < w.store.cursor && log[i].id == id;
    CopyId(w.server.contents, w.store.rows[id], log[i]);
  }

  lemma WorldLog(w: World, device: nat)
    requires WorldOk(w)
    ensures LogOk(w.server, device) && Agrees(w.server, w.store) && StoreOk(w)
  {
    hide TablesInv, TxsInv, LogOk, Agrees, AcksOk, DeliveredOk, LiveOk, PromisesOk, TabsOk, Numbered;
    LogIsOk(w.server, device);
  }

  lemma FetchedQueue(w: World, scope: Scope, queue: seq<MailboxEnvelope>)
    requires WorldOk(w) && ValidScope(w.store, scope)
    requires queue == Pending(w.store.rows, Ascending(w.store.rows.Keys))
    ensures QueueOk(w, scope, queue)
  {
    hide WorldOk, Agrees, LogOk, Known, Pending, StoreOk;
    WorldLog(w, w.store.device);
    forall q | q in queue ensures QueuedOk(w, scope, q) {
      var id :| id in w.store.rows && w.store.rows[id] == q && NeedsAck(q);
      StoredIsKnown(w, id);
    }
  }

  lemma FetchKeeps(w: World, t: nat, ok: bool)
    requires WorldOk(w) && t in w.tabs && w.tabs[t].op.Busy? && w.tabs[t].op.at.FetchPending?
    ensures Kept(w, AckStep(w, t, ok))
  {
    hide WorldOk, Grows, StoreOk, QueueOk, NextOk, Inv, Known, Pending, Ascending;
    OpFacts(w, t);
    FailMove(w, t);
    if ok && Reads(w, t) {
      var queue := Pending(w.store.rows, Ascending(w.store.rows.Keys));
      FetchedQueue(w, w.tabs[t].op.job.session.scope, queue);
      PointMove(w, t, SendAck(queue, w.tabs[t].op.at.next));
    }
  }

  lemma ReturnKeeps(w: World, t: nat, next: After)
    requires WorldOk(w) && t in w.tabs && w.tabs[t].op.Busy? && NextOk(w, w.tabs[t].op.job, w.tabs[t].op.floor, next)
    ensures Kept(w, Return(w, t, next))
  {
    hide WorldOk, Kept, Reached;
    var op := w.tabs[t].op;
    match next
    case ToPaging => PointMove(w, t, ReadCursor);
    case ToPage(hasMore) =>
      PointMove(w, t, if hasMore then ReadCursor else if op.job.goal.Ingest? then IngestRead(true) else Finish);
    case ToEnd => PointMove(w, t, Finish);
  }

  lemma NewAckKeeps(w: World, a: Ack)
    requires WorldOk(w) && AckHeld(w, a)
    ensures Kept(w, w.(acks := w.acks + {a}))
  {
    hide Inv, StoreOk, LiveOk, PromisesOk, TabsOk, Grows, AckedBy, Known;
    var after := w.(acks := w.acks + {a});
    TabsAlone(w, after);
    forall e | e in w.server.db.envelopes && e.deliveredAt.Some? ensures AckedBy(after.acks, e) {
      MoreAcks(w.acks, after.acks, e);
    }
    hide DeliveredOk;
    GrowthKeeps(w, after);
  }

  lemma MoreAcks(acks: set<Ack>, more: set<Ack>, e: Envelope)
    requires AckedBy(acks, e) && acks <= more
    ensures AckedBy(more, e)
  {
  }

  lemma SendAckKeeps(w: World, t: nat, ok: bool)
    requires WorldOk(w) && t in w.tabs && w.tabs[t].op.Busy? && w.tabs[t].op.at.SendAck?
    ensures Kept(w, AckStep(w, t, ok))
  {
    hide WorldOk, Grows, StoreOk, NextOk, Inv, Known, Return;
    OpFacts(w, t);
    FailMove(w, t);
    var op := w.tabs[t].op;
    var SendAck(queue, next) := op.at;
    if queue == [] {
      ReturnKeeps(w, t, next);
    } else if Current(w.tabs[t]) {
      var scope := op.job.session.scope;
      assert QueuedOk(w, scope, queue[0]);
      var a := Ack(scope.device, scope.generation, queue[0].id);
      var mid := w.(acks := w.acks + {a});
      NewAckKeeps(w, a);
      PointKept(w, mid, t);
      PointMove(mid, t, AckWait(queue, next));
      KeptThen(w, mid, At(mid, t, AckWait(queue, next)));
    }
  }

  /** A point that was in order still is after anything kept. */
  lemma PointKept(w: World, mid: World, t: nat)
    requires WorldOk(w) && t in w.tabs && w.tabs[t].op.Busy? && Kept(w, mid)
    ensures PointOk(mid, w.tabs[t].op.job, w.tabs[t].op.floor, w.tabs[t].op.at)
  {
    hide WorldOk, PointOk, Grows, StoreOk, ScopeOk, JobOk, Known;
    OpFacts(w, t);
    PointStays(w, mid, w.tabs[t].op.job, w.tabs[t].op.floor, w.tabs[t].op.at);
  }

  lemma QueuePlace(w: World, scope: Scope, q: MailboxEnvelope)
    requires WorldOk(w) && ValidScope(w.store, scope) && QueuedOk(w, scope, q)
    ensures q.routing.mailboxSeq <= w.store.cursor
  {
    hide WorldOk, PayloadState, RowContents, StoreOk, Agrees;
    WorldLog(w, w.store.device);
    StoredIsKnown(w, q.id);
    var log := Log(w.server, w.store.device);
    CopyId(w.server.contents, q, log[q.routing.mailboxSeq - 1]);
    CopyId(w.server.contents, w.store.rows[q.id], log[w.store.rows[q.id].routing.mailboxSeq - 1]);
  }

  lemma ReceiptKeeps(w: World, t: nat, ok: bool)
    requires WorldOk(w) && t in w.tabs && w.tabs[t].op.Busy? && w.tabs[t].op.at.AckReceipt?
    ensures Kept(w, AckStep(w, t, ok))
  {
    hide WorldOk, Grows, StoreOk, NextOk, Inv, ReceiptOk, QueuedOk, ValidReceipt, Known;
    OpFacts(w, t);
    FailMove(w, t);
    var AckReceipt(queue, next, receipt) := w.tabs[t].op.at;
    if queue != [] && ok && Reads(w, t) {
      QueuePlace(w, w.tabs[t].op.job.session.scope, queue[0]);
      PointMove(w, t, AckCommit(queue, next, receipt, w.store.cursor));
    }
  }

  lemma ReceiptedIsFresh(w: World, scope: Scope, q: MailboxEnvelope, receipt: MailboxEnvelope)
    requires QueuedOk(w, scope, q) && Fresh(w.server, receipt) && receipt.id == q.id && receipt.routing == q.routing
    ensures Fresh(w.server, Receipted(q, receipt))
  {
  }

  lemma DroppedQueue(w: World, scope: Scope, queue: seq<MailboxEnvelope>)
    requires QueueOk(w, scope, queue)
    ensures QueueOk(w, scope, Drop(queue))
  {
    hide QueuedOk;
  }

  lemma AckCommitKeeps(w: World, t: nat, ok: bool)
    requires WorldOk(w) && t in w.tabs && w.tabs[t].op.Busy? && w.tabs[t].op.at.AckCommit?
    ensures Kept(w, AckStep(w, t, ok))
  {
    hide WorldOk, Grows, StoreOk, NextOk, Inv, Commits, QueueOk, Receipted, Drop, QueuedOk, Known;
    OpFacts(w, t);
    FailMove(w, t);
    var op := w.tabs[t].op;
    var AckCommit(queue, next, receipt, cursor) := op.at;
    var scope := op.job.session.scope;
    if queue != [] {
      DroppedQueue(w, scope, queue);
      var at := SendAck(Drop(queue), next);
      var failed := if Current(w.tabs[t]) then At(w, t, at) else Fail(w, t);
      PointMove(w, t, at);
      if ValidScope(w.store, scope) {
        AckCommitValid(w, t, ok, failed, at);
      } else {
        StaleCommit(w, t, cursor, [Receipted(queue[0], receipt)], ok, failed, at);
      }
    }
  }

  lemma StaleCommit(w: World, t: nat, cursor: nat, es: seq<MailboxEnvelope>, ok: bool, failed: World, at: Point)
    requires t in w.tabs && w.tabs[t].op.Busy? && !ValidScope(w.store, w.tabs[t].op.job.session.scope)
    ensures Commits(w, t, cursor, es, cursor, ok, failed, at) == failed
  {
  }

  lemma AckCommitValid(w: World, t: nat, ok: bool, failed: World, at: Point)
    requires WorldOk(w) && t in w.tabs && w.tabs[t].op.Busy? && w.tabs[t].op.at.AckCommit? && Kept(w, failed)
    requires var op := w.tabs[t].op;
      && ValidScope(w.store, op.job.session.scope) && op.at.queue != [] && at == SendAck(Drop(op.at.queue), op.at.next)
    ensures var at' := w.tabs[t].op.at;
      Kept(w, Commits(w, t, at'.cursor, [Receipted(at'.queue[0], at'.receipt)], at'.cursor, ok, failed, at))
  {
    hide WorldOk, Grows, StoreOk, NextOk, Inv, Commits, Receipted, Drop, QueuedOk, Known;
    OpFacts(w, t);
    var op := w.tabs[t].op;
    var AckCommit(queue, next, receipt, cursor) := op.at;
    var scope := op.job.session.scope;
    QueuedSeq(w, scope, queue[0]);
    ReceiptedIsFresh(w, scope, queue[0], receipt);
    ReceiptedPlace(queue[0], receipt);
    var a, es := queue[0].routing.mailboxSeq - 1, [Receipted(queue[0], receipt)];
    var mid, done := CommitCase(w, t, cursor, a, es, ok, failed, at);
    if done {
      QueueStays(w, mid, scope, queue);
      DroppedQueue(mid, scope, queue);
      NextStays(w, mid, op.job, op.floor, next);
      CommittedMove(w, mid, t, scope, cursor, a, 1, at);
    }
  }

  lemma QueuedSeq(w: World, scope: Scope, q: MailboxEnvelope)
    requires QueuedOk(w, scope, q)
    ensures q.routing.mailboxSeq >= 1 && q.routing.device == scope.device
  {
  }

  lemma ReceiptedPlace(q: MailboxEnvelope, receipt: MailboxEnvelope)
    ensures Receipted(q, receipt).routing == receipt.routing && Receipted(q, receipt).id == receipt.id
  {
  }

  lemma AckKeeps(w: World, t: nat, ok: bool)
    requires WorldOk(w) && t in w.tabs && w.tabs[t].op.Busy?
    ensures Kept(w, AckStep(w, t, ok))
  {
    hide WorldOk, Grows;
    KeptSelf(w);
    match w.tabs[t].op.at
    case FetchPending(_) => FetchKeeps(w, t, ok);
    case SendAck(_, _) => SendAckKeeps(w, t, ok);
    case AckReceipt(_, _, _) => ReceiptKeeps(w, t, ok);
    case AckCommit(_, _, _, _) => AckCommitKeeps(w, t, ok);
    case _ =>
  }

  // ---- paging ----

  lemma PageArrivedKeeps(w: World, t: nat, ok: bool)
    requires WorldOk(w) && t in w.tabs && w.tabs[t].op.Busy? && w.tabs[t].op.at.PageArrived?
    ensures Kept(w, PageStep(w, t, ok))
  {
    hide WorldOk, Grows, StoreOk, Commits, Range, Inv, Known, ValidPage;
    OpFacts(w, t);
    FailMove(w, t);
    var op := w.tabs[t].op;
    var PageArrived(cursor, page) := op.at;
    var at := FetchPending(ToPage(page.hasMore));
    var mid, done := CommitCase(w, t, cursor, cursor, page.envelopes, ok, Fail(w, t), at);
    if done { CommittedMove(w, mid, t, op.job.session.scope, cursor, cursor, |page.envelopes|, at); }
  }

  lemma OneIsRange(w: World, device: nat, e: MailboxEnvelope)
    requires Fresh(w.server, e) && e.routing.device == device
    ensures e.routing.mailboxSeq >= 1 && Range(w.server, device, e.routing.mailboxSeq - 1, [e])
  {
  }

  lemma IngestCommitKeeps(w: World, t: nat, ok: bool)
    requires WorldOk(w) && t in w.tabs && w.tabs[t].op.Busy? && w.tabs[t].op.at.IngestCommit?
    ensures Kept(w, PageStep(w, t, ok))
  {
    hide WorldOk, Grows, StoreOk, Commits, Range, Inv, Fresh;
    OpFacts(w, t);
    FailMove(w, t);
    var op := w.tabs[t].op;
    var e, cursor, at := op.job.goal.envelope, op.at.cursor, FetchPending(ToEnd);
    OneIsRange(w, op.job.session.scope.device, e);
    var mid, done := CommitCase(w, t, cursor, e.routing.mailboxSeq - 1, [e], ok, Fail(w, t), at);
    if done { CommittedMove(w, mid, t, op.job.session.scope, cursor, e.routing.mailboxSeq - 1, 1, at); }
  }

  lemma NewPromiseKeeps(w: World, p: Promise)
    requires WorldOk(w) && PromiseKept(w, p)
    ensures Kept(w, w.(promises := w.promises + {p}))
  {
    hide Inv, StoreOk, LiveOk, AcksOk, DeliveredOk, TabsOk, Grows, Known;
    var after := w.(promises := w.promises + {p});
    TabsAlone(w, after);
    GrowthKeeps(w, after);
  }

  lemma SucceedKeeps(w: World, t: nat)
    requires WorldOk(w) && t in w.tabs && w.tabs[t].op.Busy? && w.tabs[t].op.at.Finish?
    ensures Kept(w, Succeed(w, t))
  {
    hide WorldOk, Grows, StoreOk, Inv, Known;
    OpFacts(w, t);
    var op := w.tabs[t].op;
    var p := Promise(op.job.session.scope.generation, Promised(op));
    var mid := w.(promises := w.promises + {p});
    NewPromiseKeeps(w, p);
    FailMove(mid, t);
    KeptThen(w, mid, Fail(mid, t));
  }

  lemma PagingKeeps(w: World, t: nat, ok: bool)
    requires WorldOk(w) && t in w.tabs && w.tabs[t].op.Busy?
    ensures Kept(w, PageStep(w, t, ok))
  {
    hide WorldOk, Grows, StoreOk, Inv, Known, Succeed;
    OpFacts(w, t);
    FailMove(w, t);
    KeptSelf(w);
    match w.tabs[t].op.at
    case ReadCursor => PointMove(w, t, PageWait(w.store.cursor));
    case PageArrived(_, _) => PageArrivedKeeps(w, t, ok);
    case IngestRead(_) =>
      PointMove(w, t, ReadCursor);
      if w.tabs[t].op.job.goal.Ingest? && w.tabs[t].op.job.goal.envelope.routing.mailboxSeq <= w.store.cursor + 1 {
        PointMove(w, t, IngestCommit(w.store.cursor));
      }
    case IngestCommit(_) => IngestCommitKeeps(w, t, ok);
    case Finish => SucceedKeeps(w, t);
    case _ =>
  }

  lemma AdvanceKeeps(w: World, t: nat, ok: bool)
    requires WorldOk(w)
    ensures Kept(w, AdvanceStep(w, t, ok))
  {
    hide WorldOk, Kept, BackfillStep, AckStep, PageStep;
    KeptSelf(w);
    if t in w.tabs && w.tabs[t].op.Busy? {
      BackfillKeeps(w, t, ok);
      AckKeeps(w, t, ok);
      PagingKeeps(w, t, ok);
    }
  }

  // ---- answers of the server ----

  lemma ServedPage(w: World, t: nat, now: int, after: nat, least: nat)
    returns (mid: World, page: Page)
    requires WorldOk(w) && t in w.tabs && w.tabs[t].op.Busy?
    requires least <= |Log(w.server, w.tabs[t].op.job.session.scope.device)|
    ensures var device := w.tabs[t].op.job.session.scope.device;
      && mid == w.(server := ST.Apply(w.server, ST.Purge(DeviceRows(w.server, device), now)))
      && page == MailboxPage(mid.server, device, after, PAGE_LIMIT)
      && Kept(w, mid) && PageOk(mid, device, after, page, least)
  {
    hide WorldOk, StoreOk, ST.Apply, MailboxPage, Range, TablesInv, RowsEvolve;
    var device := w.tabs[t].op.job.session.scope.device;
    var l := ST.Purge(DeviceRows(w.server, device), now);
    mid := w.(server := ST.Apply(w.server, l));
    ServerStepOk(w, l);
    WorldTables(mid);
    ServedPageIsValid(mid.server, device, after, PAGE_LIMIT);
    LogGrows(w.server, mid.server, device);
    page := MailboxPage(mid.server, device, after, PAGE_LIMIT);
    PageLength(device, after, page);
  }

  lemma PageLength(device: nat, after: nat, page: Page)
    requires ValidPage(device, after, page)
    ensures page.nextSeq == after + |page.envelopes|
  {
  }

  lemma WorldTables(w: World)
    requires WorldOk(w)
    ensures TablesInv(w.server.db, w.server.contents)
  {
    hide TablesInv, TxsInv, StoreOk, AcksOk, DeliveredOk, LiveOk, PromisesOk, TabsOk;
  }

  lemma ServeBackfillKeeps(w: World, t: nat, now: int)
    requires WorldOk(w) && t in w.tabs && w.tabs[t].op.Busy? && w.tabs[t].op.at.BackfillWait?
    ensures Kept(w, ServeStep(w, t, now))
  {
    hide WorldOk, StoreOk, Grows, ST.Apply, MailboxPage, PageOk, Inv, Known, DeviceRows;
    OpFacts(w, t);
    var BackfillWait(through, after) := w.tabs[t].op.at;
    BackfillThrough(w, w.tabs[t].op.job.session.scope, through, after);
    var mid, page := ServedPage(w, t, now, after, through);
    PointKept(w, mid, t);
    PointMove(mid, t, BackfillPage(through, after, page));
    KeptThen(w, mid, At(mid, t, BackfillPage(through, after, page)));
  }

  lemma BackfillThrough(w: World, scope: Scope, through: nat, after: nat)
    requires BackfillOk(w, scope, through, after)
    ensures through <= |Log(w.server, scope.device)|
  {
    hide StoreOk;
  }

  lemma ServePageKeeps(w: World, t: nat, now: int)
    requires WorldOk(w) && t in w.tabs && w.tabs[t].op.Busy? && w.tabs[t].op.at.PageWait?
    ensures Kept(w, ServeStep(w, t, now))
  {
    hide WorldOk, StoreOk, Grows, ST.Apply, MailboxPage, PageOk, Inv, Known, DeviceRows;
    OpFacts(w, t);
    var cursor := w.tabs[t].op.at.cursor;
    var mid, page := ServedPage(w, t, now, cursor, w.tabs[t].op.floor);
    PointMove(mid, t, PageArrived(cursor, page));
    KeptThen(w, mid, At(mid, t, PageArrived(cursor, page)));
  }

  /** The receipt the server returns for an envelope is the row at the envelope's own place. */
  lemma ServedReceipt(w: World, q: MailboxEnvelope)
    requires WorldOk(w) && Known(w.server, q)
    ensures var log := Log(w.server, q.routing.device);
      var i := RowIndex(log, q.id);
      && i < |log| && Fresh(w.server, Render(log[i])) && Render(log[i]).id == q.id
      && Render(log[i]).routing == q.routing
  {
    hide WorldOk, PayloadState, RowContents, StoreOk, Agrees;
    var log := Log(w.server, q.routing.device);
    WorldLog(w, q.routing.device);
    CopyId(w.server.contents, q, log[q.routing.mailboxSeq - 1]);
    RenderIsFresh(w.server, q.routing.device, q.routing.mailboxSeq - 1);
  }

  lemma ServeAckKeeps(w: World, t: nat, now: int)
    requires WorldOk(w) && t in w.tabs && w.tabs[t].op.Busy? && w.tabs[t].op.at.AckWait?
    ensures Kept(w, ServeStep(w, t, now))
  {
    hide WorldOk, StoreOk, Grows, ST.Apply, Inv, Known, NextOk, RowIndex, Render;
    OpFacts(w, t);
    KeptSelf(w);
    var AckWait(queue, next) := w.tabs[t].op.at;
    if queue != [] {
      var scope := w.tabs[t].op.job.session.scope;
      var mid := w.(server := ST.Apply(w.server, ST.Acknowledge(scope.device, queue[0].id, now)));
      AckStepOk(w, Ack(scope.device, scope.generation, queue[0].id), now);
      PointKept(w, mid, t);
      assert QueuedOk(mid, scope, queue[0]);
      ServedReceipt(mid, queue[0]);
      var log := Mailbox(mid.server.db.envelopes, scope.device);
      var at := AckReceipt(queue, next, Render(log[RowIndex(log, queue[0].id)]));
      PointMove(mid, t, at);
      KeptThen(w, mid, At(mid, t, at));
    }
  }

  lemma ServeKeeps(w: World, t: nat, now: int)
    requires WorldOk(w)
    ensures Kept(w, ServeStep(w, t, now))
  {
    hide WorldOk, Kept, ST.Apply, MailboxPage, RowIndex, Render, DeviceRows;
    KeptSelf(w);
    if t in w.tabs && w.tabs[t].op.Busy? {
      match w.tabs[t].op.at
      case BackfillWait(_, _) => ServeBackfillKeeps(w, t, now);
      case PageWait(_) => ServePageKeeps(w, t, now);
      case AckWait(_, _) => ServeAckKeeps(w, t, now);
      case _ =>
    }
  }

  lemma LoseKeeps(w: World, t: nat)
    requires WorldOk(w)
    ensures Kept(w, LoseStep(w, t))
  {
    hide WorldOk, Kept, QueueOk, NextOk, Drop, Inv, StoreOk, Known;
    KeptSelf(w);
    if t in w.tabs && w.tabs[t].op.Busy? {
      FailMove(w, t);
      OpFacts(w, t);
      if w.tabs[t].op.at.AckWait? {
        var AckWait(queue, next) := w.tabs[t].op.at;
        DroppedQueue(w, w.tabs[t].op.job.session.scope, queue);
        PointMove(w, t, SendAck(Drop(queue), next));
      }
    }
  }

  // ---- the other events ----

  lemma BeginKeeps(w: World, t: nat)
    requires WorldOk(w)
    ensures Kept(w, BeginStep(w, t))
  {
    hide WorldOk, Kept, JobOk, OpOk, ScopeOk;
    KeptSelf(w);
    if t in w.tabs && w.tabs[t].op.Idle? && w.tabs[t].queue != [] {
      BusyTab(w, t);
      var tab := w.tabs[t];
      var job := tab.queue[0];
      var floor := |Mailbox(w.server.db.envelopes, job.session.scope.device)|;
      assert JobOk(w, job);
      var waiting := tab.(queue := tab.queue[1..]);
      assert TabOk(w, waiting);
      MoveKeeps(w, t, waiting);
      var at := if job.goal.Synchronize? then BackfillCheck else IngestRead(false);
      if job.goal.Synchronize? || job.goal.envelope.routing.device == job.session.scope.device {
        BeginOp(w, job, floor, at);
        MoveKeeps(w, t, waiting.(op := Busy(job, floor, at)));
      }
    }
  }

  lemma BeginOp(w: World, job: Job, floor: nat, at: Point)
    requires JobOk(w, job) && floor == |Log(w.server, job.session.scope.device)|
    requires job.goal.Ingest? ==> job.goal.envelope.routing.device == job.session.scope.device
    requires at == BackfillCheck || at == IngestRead(false)
    ensures OpOk(w, Busy(job, floor, at))
  {
    hide ScopeOk, CopyOf;
  }

  lemma PublishKeeps(w: World, device: nat, place: nat)
    requires WorldOk(w) && place < |Log(w.server, device)|
    ensures Kept(w, w.(live := w.live + {Render(Log(w.server, device)[place])}))
  {
    WorldLog(w, device);
    hide Inv, StoreOk, AcksOk, DeliveredOk, PromisesOk, TabsOk, Grows, Known, LogOk, Render;
    var after := w.(live := w.live + {Render(Log(w.server, device)[place])});
    RenderIsFresh(w.server, device, place);
    TabsAlone(w, after);
    GrowthKeeps(w, after);
  }

  lemma NewIdentityKeeps(w: World, device: nat, generation: nat)
    requires WorldOk(w) && generation !in w.generations
    ensures Kept(w, Next(w, NewIdentity(device, generation)))
  {
    hide Inv, AckHeld, DeliveredOk, Known, PromiseKept, TabOk;
    SameServerGrows(w.server);
    var after := Next(w, NewIdentity(device, generation));
    assert StoreOk(after);
    hide StoreOk;
    GrowthKeeps(w, after);
  }

  lemma TabEventKeeps(w: World, event: Event)
    requires WorldOk(w)
    requires event.OpenTab? || event.Activate? || event.ReadIdentity? || event.FinishActivation? || event.Deactivate?
    ensures Kept(w, Next(w, event))
  {
    hide OpOk, JobOk, Inv, AcksOk, DeliveredOk, LiveOk, PromisesOk, Numbered, Agrees;
    hide Kept;
    KeptSelf(w);
    var t := event.tab;
    if event.OpenTab? {
      assert OpOk(w, Idle) by { IdleOk(w); }
      MoveKeeps(w, t, Tab(None, 0, Inactive, [], Idle));
    } else if t in w.tabs {
      var after := Next(w, event).tabs[t];
      assert TabOk(w, w.tabs[t]);
      assert TabOk(w, after);
      MoveKeeps(w, t, after);
      SetSame(w, t);
    }
  }

  lemma IdleOk(w: World)
    ensures OpOk(w, Idle)
  {
  }

  lemma SetSame(w: World, t: nat)
    requires t in w.tabs
    ensures SetTab(w, t, w.tabs[t]) == w
  {
    assert w.tabs[t := w.tabs[t]] == w.tabs;
  }

  lemma EnqueueKeeps(w: World, t: nat, goal: Goal)
    requires WorldOk(w)
    ensures Kept(w, Next(w, Enqueue(t, goal)))
  {
    hide OpOk, ScopeOk, Known, Inv, AcksOk, DeliveredOk, PromisesOk, StoreOk;
    hide Kept;
    KeptSelf(w);
    if t in w.tabs && w.tabs[t].current.Some? && (goal.Synchronize? || goal.envelope in w.live) {
      var tab, job := w.tabs[t], Job(w.tabs[t].current.value, goal);
      assert TabOk(w, tab);
      assert JobOk(w, job);
      MoveKeeps(w, t, tab.(queue := tab.queue + [job]));
    }
  }

  /** Every step of server, network, stores and tabs, and every failure, keeps the world in order. */
  lemma NextKeeps(w: World, event: Event)
    requires WorldOk(w)
    ensures Kept(w, Next(w, event))
  {
    hide WorldOk, Grows, StoreOk, Render, ST.Apply, AdvanceStep, ServeStep, BeginStep, LoseStep;
    KeptSelf(w);
    match event
    case ServerStep(l) => if !l.Acknowledge? { ServerStepOk(w, l); }
    case DeliverAck(a, now) => if a in w.acks { AckStepOk(w, a, now); }
    case Publish(device, place) => if place < |Log(w.server, device)| { PublishKeeps(w, device, place); }
    case NewIdentity(device, generation) => if generation !in w.generations { NewIdentityKeeps(w, device, generation); }
    case Enqueue(t, goal) => EnqueueKeeps(w, t, goal);
    case Begin(t) => BeginKeeps(w, t);
    case Serve(t, now) => ServeKeeps(w, t, now);
    case Advance(t, ok) => AdvanceKeeps(w, t, ok);
    case Lose(t) => LoseKeeps(w, t);
    case _ => TabEventKeeps(w, event);
  }

  lemma {:induction false} HistoryKeeps(w: World, events: seq<Event>)
    requires WorldOk(w)
    ensures Kept(w, History(w, events))
  {
    hide WorldOk, Grows, Next;
    if events == [] {
      KeptSelf(w);
    } else {
      var n := |events| - 1;
      var mid := History(w, events[..n]);
      HistoryKeeps(w, events[..n]);
      NextKeeps(mid, events[n]);
      KeptThen(w, mid, Next(mid, events[n]));
    }
  }
}
