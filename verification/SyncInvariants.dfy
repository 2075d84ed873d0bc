/** What holds at every moment of every run of server, store and tabs, and its preservation. */
module SyncInvariants {
  import opened MessageTables
  import opened ServerTransactions
  import opened ServerInvariants
  import opened InboxStore
  import opened InboxAgreement
  import opened SyncMachine

  // ---- the store and the server ----

  /** Row `i` of the local log carries its chat number. */
  ghost predicate Numbered(w: World, i: nat)
    requires Agrees(w.server, w.store) && i < w.store.cursor
  {
    w.store.rows[Log(w.server, w.store.device)[i].id].chatSeq.Some?
  }

  ghost predicate StoreOk(w: World)
  {
    && Agrees(w.server, w.store) && w.store.generation in w.generations && w.legacy <= w.store.cursor
    && (forall i :: w.legacy <= i < w.store.cursor ==> Numbered(w, i))
    && (w.store.backfilled ==> forall i :: 0 <= i < w.store.cursor ==> Numbered(w, i))
  }

  /** Whatever a store generation has acknowledged, it still holds the content of. */
  ghost predicate AckHeld(w: World, a: Ack)
  {
    && a.generation in w.generations
    && (a.generation == w.store.generation ==>
         a.device == w.store.device && a.envelope in w.store.rows && w.store.rows[a.envelope].payload.Some?)
  }

  ghost predicate AcksOk(w: World)
  {
    forall a :: a in w.acks ==> AckHeld(w, a)
  }

  ghost predicate AckedBy(acks: set<Ack>, e: Envelope)
  {
    exists a :: a in acks && a.device == e.device && a.envelope == e.id
  }

  /** The server marks nothing delivered that no store has acknowledged. */
  ghost predicate DeliveredOk(server: Server, acks: set<Ack>)
  {
    forall e :: e in server.db.envelopes && e.deliveredAt.Some? ==> AckedBy(acks, e)
  }

  ghost predicate LiveOk(w: World)
  {
    forall v :: v in w.live ==> Fresh(w.server, v)
  }

  ghost predicate PromiseKept(w: World, p: Promise)
  {
    p.generation in w.generations && (p.generation == w.store.generation ==> p.cursor <= w.store.cursor)
  }

  ghost predicate PromisesOk(w: World)
  {
    forall p :: p in w.promises ==> PromiseKept(w, p)
  }

  // ---- the tabs ----

  ghost predicate ScopeOk(w: World, scope: Scope)
  {
    scope.generation in w.generations && (scope.generation == w.store.generation ==> scope.device == w.store.device)
  }

  ghost predicate JobOk(w: World, job: Job)
  {
    ScopeOk(w, job.session.scope) && (job.goal.Ingest? ==> Fresh(w.server, job.goal.envelope))
  }

  /** A page as served: copies of the rows after `after`; without `hasMore` it reaches `through`. */
  ghost predicate PageOk(w: World, device: nat, after: nat, page: Page, through: nat)
  {
    && Range(w.server, device, after, page.envelopes) && page.nextSeq == after + |page.envelopes|
    && (page.hasMore || through <= page.nextSeq)
  }

  /** A backfill loop: rows up to `after` are numbered, and `through` was the cursor it began with. */
  ghost predicate BackfillOk(w: World, scope: Scope, through: nat, after: nat)
  {
    && through <= |Log(w.server, scope.device)|
    && (StoreOk(w) && ValidScope(w.store, scope) ==>
         w.legacy <= through <= w.store.cursor && forall i :: 0 <= i < after && i < through ==> Numbered(w, i))
  }

  ghost predicate QueuedOk(w: World, scope: Scope, q: MailboxEnvelope)
  {
    && Known(w.server, q) && q.routing.device == scope.device && q.payload.Some?
    && (ValidScope(w.store, scope) ==> q.id in w.store.rows && w.store.rows[q.id].payload.Some?)
  }

  ghost predicate QueueOk(w: World, scope: Scope, queue: seq<MailboxEnvelope>)
  {
    forall q :: q in queue ==> QueuedOk(w, scope, q)
  }

  ghost predicate Reached(w: World, scope: Scope, n: nat)
  {
    ValidScope(w.store, scope) ==> n <= w.store.cursor
  }

  ghost predicate NextOk(w: World, job: Job, floor: nat, next: After)
  {
    match next
    case ToPaging => true
    case ToPage(hasMore) => hasMore || Reached(w, job.session.scope, floor)
    case ToEnd => job.goal.Ingest? && Reached(w, job.session.scope, job.goal.envelope.routing.mailboxSeq)
  }

  ghost predicate ReceiptOk(w: World, queue: seq<MailboxEnvelope>, receipt: MailboxEnvelope)
  {
    queue != [] ==> Fresh(w.server, receipt) && receipt.id == queue[0].id && receipt.routing == queue[0].routing
  }

  ghost predicate PointOk(w: World, job: Job, floor: nat, at: Point)
  {
    var scope := job.session.scope;
    match at
    case BackfillCheck => true
    case BackfillStart => true
    case BackfillLoop(through, after) => BackfillOk(w, scope, through, after)
    case BackfillWait(through, after) => after < through && BackfillOk(w, scope, through, after)
    case BackfillPage(through, after, page) =>
      after < through && BackfillOk(w, scope, through, after) && PageOk(w, scope.device, after, page, through)
    case BackfillCommit(through, after, page, cursor) =>
      after < through && BackfillOk(w, scope, through, after) && PageOk(w, scope.device, after, page, through)
        && after <= cursor
    case BackfillFinish(through) => BackfillOk(w, scope, through, through)
    case FetchPending(next) => NextOk(w, job, floor, next)
    case SendAck(queue, next) => QueueOk(w, scope, queue) && NextOk(w, job, floor, next)
    case AckWait(queue, next) =>
      && QueueOk(w, scope, queue) && NextOk(w, job, floor, next)
      && (queue != [] ==> Ack(scope.device, scope.generation, queue[0].id) in w.acks)
    case AckReceipt(queue, next, receipt) =>
      QueueOk(w, scope, queue) && NextOk(w, job, floor, next) && ReceiptOk(w, queue, receipt)
    case AckCommit(queue, next, receipt, cursor) =>
      && QueueOk(w, scope, queue) && NextOk(w, job, floor, next) && ReceiptOk(w, queue, receipt)
      && (queue != [] && ValidScope(w.store, scope) ==> queue[0].routing.mailboxSeq <= cursor)
    case ReadCursor => true
    case PageWait(cursor) => true
    case PageArrived(cursor, page) => PageOk(w, scope.device, cursor, page, floor)
    case IngestRead(paged) => paged ==> Reached(w, scope, floor)
    case IngestCommit(cursor) => job.goal.Ingest? && job.goal.envelope.routing.mailboxSeq <= cursor + 1
    case Finish => Reached(w, scope, Promised(Busy(job, floor, at)))
  }

  ghost predicate OpOk(w: World, op: Op)
  {
    op.Busy? ==>
      && JobOk(w, op.job) && op.floor <= |Log(w.server, op.job.session.scope.device)|
      && (op.job.goal.Ingest? ==>
           op.job.goal.envelope.routing.device == op.job.session.scope.device
             && op.job.goal.envelope.routing.mailboxSeq <= op.floor)
      && PointOk(w, op.job, op.floor, op.at)
  }

  ghost predicate TabOk(w: World, tab: Tab)
  {
    && (tab.current.Some? ==> ScopeOk(w, tab.current.value.scope))
    && (tab.activation.Identified? ==> ScopeOk(w, tab.activation.session.scope))
    && (forall j :: j in tab.queue ==> JobOk(w, j))
    && OpOk(w, tab.op)
  }

  ghost predicate TabsOk(w: World)
  {
    forall t :: t in w.tabs ==> TabOk(w, w.tabs[t])
  }

  ghost predicate WorldOk(w: World)
  {
    && Inv(w.server) && StoreOk(w) && AcksOk(w) && DeliveredOk(w.server, w.acks) && LiveOk(w) && PromisesOk(w)
    && TabsOk(w)
  }

  // ---- growth: what every step of anyone guarantees to everyone else ----

  ghost predicate StoreGrows(a: Store, b: Store)
  {
    && a.generation == b.generation && a.device == b.device && a.cursor <= b.cursor
    && RowsKept(a.rows, b.rows) && (a.backfilled ==> b.backfilled)
  }

  ghost predicate Grows(w: World, after: World)
  {
    && ServerGrows(w.server, after.server) && w.generations <= after.generations && w.acks <= after.acks
    && StoreOk(w) && StoreOk(after)
    && (if after.store.generation in w.generations
        then StoreGrows(w.store, after.store) && after.legacy == w.legacy
        else true)
  }

  lemma RangeStays(w: World, after: World, device: nat, a: nat, es: seq<MailboxEnvelope>)
    requires Range(w.server, device, a, es) && ServerGrows(w.server, after.server)
    ensures Range(after.server, device, a, es)
  {
    hide Known, ServerGrows;
    forall i | 0 <= i < |es| ensures Fresh(after.server, es[i]) {
      assert Fresh(w.server, es[i]);
      KnownStays(w.server, after.server, es[i]);
    }
  }

  lemma LogGrows(s: Server, after: Server, device: nat)
    requires ServerGrows(s, after)
    ensures |Log(s, device)| <= |Log(after, device)|
    ensures forall i :: 0 <= i < |Log(s, device)| ==> Log(after, device)[i].id == Log(s, device)[i].id
  {
    assert RowsEvolve(Log(s, device), Log(after, device));
    assert forall i :: 0 <= i < |Log(s, device)| ==> RowEvolves(Log(s, device)[i], Log(after, device)[i]);
  }

  lemma NumberedStays(w: World, after: World, i: nat)
    requires Grows(w, after) && after.store.generation in w.generations && i < w.store.cursor && Numbered(w, i)
    ensures Numbered(after, i)
  {
    hide ServerGrows, CopyOf;
    LogGrows(w.server, after.server, w.store.device);
    var id := Log(w.server, w.store.device)[i].id;
    assert RowKept(w.store.rows[id], after.store.rows[id]);
  }

  lemma BackfillStays(w: World, after: World, scope: Scope, through: nat, upTo: nat)
    requires BackfillOk(w, scope, through, upTo) && Grows(w, after) && ScopeOk(w, scope)
    ensures BackfillOk(after, scope, through, upTo)
  {
    hide ServerGrows, Numbered, Agrees;
    LogGrows(w.server, after.server, scope.device);
    if ValidScope(after.store, scope) {
      forall i | 0 <= i < upTo && i < through ensures Numbered(after, i) {
        NumberedStays(w, after, i);
      }
    }
  }

  lemma QueueStays(w: World, after: World, scope: Scope, queue: seq<MailboxEnvelope>)
    requires QueueOk(w, scope, queue) && Grows(w, after) && ScopeOk(w, scope)
    ensures QueueOk(after, scope, queue)
  {
    hide StoreOk, Known, ServerGrows;
    forall q | q in queue ensures QueuedOk(after, scope, q) {
      assert QueuedOk(w, scope, q);
      KnownStays(w.server, after.server, q);
      if ValidScope(after.store, scope) {
        assert RowKept(w.store.rows[q.id], after.store.rows[q.id]);
      }
    }
  }

  lemma ReachedStays(w: World, after: World, scope: Scope, n: nat)
    requires Reached(w, scope, n) && Grows(w, after) && ScopeOk(w, scope)
    ensures Reached(after, scope, n)
  {
    hide StoreOk, ServerGrows;
  }

  lemma NextStays(w: World, after: World, job: Job, floor: nat, next: After)
    requires NextOk(w, job, floor, next) && Grows(w, after) && ScopeOk(w, job.session.scope)
    ensures NextOk(after, job, floor, next)
  {
    hide Grows, ScopeOk, Reached;
    match next
    case ToPaging =>
    case ToPage(hasMore) => if !hasMore { ReachedStays(w, after, job.session.scope, floor); }
    case ToEnd => ReachedStays(w, after, job.session.scope, job.goal.envelope.routing.mailboxSeq);
  }

  lemma ReceiptStays(w: World, after: World, queue: seq<MailboxEnvelope>, receipt: MailboxEnvelope)
    requires ReceiptOk(w, queue, receipt) && ServerGrows(w.server, after.server)
    ensures ReceiptOk(after, queue, receipt)
  {
    hide Known, ServerGrows;
    if queue != [] { KnownStays(w.server, after.server, receipt); }
  }

  lemma JobStays(w: World, after: World, job: Job)
    requires JobOk(w, job) && Grows(w, after)
    ensures JobOk(after, job)
  {
    hide StoreOk, Known, ServerGrows;
    ScopeStays(w, after, job.session.scope);
    if job.goal.Ingest? { KnownStays(w.server, after.server, job.goal.envelope); }
  }

  lemma ScopeStays(w: World, after: World, scope: Scope)
    requires ScopeOk(w, scope) && Grows(w, after)
    ensures ScopeOk(after, scope)
  {
    hide StoreOk, ServerGrows;
  }

  lemma PointStays(w: World, after: World, job: Job, floor: nat, at: Point)
    requires PointOk(w, job, floor, at) && Grows(w, after) && ScopeOk(w, job.session.scope)
    ensures PointOk(after, job, floor, at)
  {
    hide ScopeOk, Reached, NextOk, ReceiptOk, QueueOk, BackfillOk, Range, StoreOk, ServerGrows, StoreGrows;
    var scope := job.session.scope;
    match at
    case BackfillLoop(through, a) => BackfillStays(w, after, scope, through, a);
    case BackfillWait(through, a) => BackfillStays(w, after, scope, through, a);
    case BackfillPage(through, a, page) =>
      BackfillStays(w, after, scope, through, a);
      RangeStays(w, after, scope.device, a, page.envelopes);
    case BackfillCommit(through, a, page, cursor) =>
      BackfillStays(w, after, scope, through, a);
      RangeStays(w, after, scope.device, a, page.envelopes);
    case BackfillFinish(through) => BackfillStays(w, after, scope, through, through);
    case FetchPending(next) => NextStays(w, after, job, floor, next);
    case SendAck(queue, next) =>
      NextStays(w, after, job, floor, next);
      QueueStays(w, after, scope, queue);
    case AckWait(queue, next) =>
      NextStays(w, after, job, floor, next);
      QueueStays(w, after, scope, queue);
    case AckReceipt(queue, next, receipt) =>
      NextStays(w, after, job, floor, next);
      QueueStays(w, after, scope, queue);
      ReceiptStays(w, after, queue, receipt);
    case AckCommit(queue, next, receipt, cursor) =>
      NextStays(w, after, job, floor, next);
      QueueStays(w, after, scope, queue);
      ReceiptStays(w, after, queue, receipt);
      StillValid(w, after, scope);
    case PageArrived(cursor, page) => RangeStays(w, after, scope.device, cursor, page.envelopes);
    case IngestRead(paged) => if paged { ReachedStays(w, after, scope, floor); }
    case Finish => ReachedStays(w, after, scope, Promised(Busy(job, floor, at)));
    case _ =>
  }

  /** A scope that is valid now was valid before: a generation never comes back. */
  lemma StillValid(w: World, after: World, scope: Scope)
    requires Grows(w, after) && ScopeOk(w, scope)
    ensures ValidScope(after.store, scope) ==> ValidScope(w.store, scope)
  {
    hide StoreOk, ServerGrows;
  }

  lemma OpStays(w: World, after: World, op: Op)
    requires OpOk(w, op) && Grows(w, after)
    ensures OpOk(after, op)
  {
    hide PointOk, JobOk, ServerGrows, StoreOk, StoreGrows;
    if op.Busy? {
      JobStays(w, after, op.job);
      JobScope(w, op.job);
      PointStays(w, after, op.job, op.floor, op.at);
      LogGrows(w.server, after.server, op.job.session.scope.device);
    }
  }

  lemma JobScope(w: World, job: Job)
    requires JobOk(w, job)
    ensures ScopeOk(w, job.session.scope)
  {
  }

  lemma TabStays(w: World, after: World, tab: Tab)
    requires TabOk(w, tab) && Grows(w, after)
    ensures TabOk(after, tab)
  {
    hide OpOk, JobOk, ScopeOk, Grows;
    OpStays(w, after, tab.op);
    forall j | j in tab.queue ensures JobOk(after, j) { JobStays(w, after, j); }
    if tab.current.Some? { ScopeStays(w, after, tab.current.value.scope); }
    if tab.activation.Identified? { ScopeStays(w, after, tab.activation.session.scope); }
  }

  lemma AckStays(w: World, after: World, a: Ack)
    requires AckHeld(w, a) && Grows(w, after)
    ensures AckHeld(after, a)
  {
    hide StoreOk, ServerGrows;
    if a.generation == after.store.generation {
      assert RowKept(w.store.rows[a.envelope], after.store.rows[a.envelope]);
    }
  }

  lemma PromiseStays(w: World, after: World, p: Promise)
    requires PromiseKept(w, p) && Grows(w, after)
    ensures PromiseKept(after, p)
  {
    hide StoreOk, ServerGrows;
  }

  /** A step that grows the world keeps it well-formed if what is new in it is. */
  lemma GrowthKeeps(w: World, after: World)
    requires WorldOk(w) && Grows(w, after) && Inv(after.server) && DeliveredOk(after.server, after.acks)
    requires forall a :: a in after.acks ==> a in w.acks || AckHeld(after, a)
    requires forall v :: v in after.live ==> v in w.live || Fresh(after.server, v)
    requires forall p :: p in after.promises ==> p in w.promises || PromiseKept(after, p)
    requires forall t :: t in after.tabs ==> (t in w.tabs && after.tabs[t] == w.tabs[t]) || TabOk(after, after.tabs[t])
    ensures WorldOk(after)
  {
    hide Inv, AckHeld, PromiseKept, TabOk, DeliveredOk, Known, StoreOk, ServerGrows, StoreGrows;
    forall a | a in after.acks ensures AckHeld(after, a) {
      if a in w.acks { AckStays(w, after, a); }
    }
    forall v | v in after.live ensures Fresh(after.server, v) {
      if v in w.live { assert Fresh(w.server, v); KnownStays(w.server, after.server, v); }
    }
    forall p | p in after.promises ensures PromiseKept(after, p) {
      if p in w.promises { PromiseStays(w, after, p); }
    }
    forall t | t in after.tabs ensures TabOk(after, after.tabs[t]) {
      if t in w.tabs && after.tabs[t] == w.tabs[t] { TabStays(w, after, w.tabs[t]); }
    }
  }
}
