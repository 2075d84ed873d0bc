/** What a client may rely on in every run, however its tabs, the network and the server interleave. */
module SyncTheorems {
  import opened Common
  import opened Base64
  import opened MessageTables
  import ST = ServerTransactions
  import opened ServerInvariants
  import opened InboxStore
  import opened InboxAgreement
  import opened SyncMachine
  import opened SyncInvariants
  import opened SyncRuns

  /** A browser that opens a store written earlier, perhaps without chat numbers, against a
      server in any reachable state. A new installation is the case of an empty store. */
  ghost predicate Start(w: World)
  {
    && Inv(w.server) && Agrees(w.server, w.store) && w.legacy == w.store.cursor && !w.store.backfilled
    && w.store.generation in w.generations && AcksOk(w) && DeliveredOk(w.server, w.acks)
    && w.tabs == map[] && w.live == {} && w.promises == {}
  }

  /** What was acknowledged before, by stores of earlier generations. */
  function EarlierAcks(s: ST.Server, earlier: nat): set<Ack>
  {
    set e | e in s.db.envelopes && e.deliveredAt.Some? :: Ack(e.device, earlier, e.id)
  }

  /** A new installation is such a start, whatever the server already holds. */
  lemma FreshStart(s: ST.Server, device: nat, generation: nat, earlier: nat)
    requires Inv(s) && generation != earlier
    ensures Start(World(s, Store(device, generation, 0, map[], false), 0, {generation, earlier}, map[], {},
                        EarlierAcks(s, earlier), {}))
  {
    hide Inv;
    forall e | e in s.db.envelopes && e.deliveredAt.Some? ensures AckedBy(EarlierAcks(s, earlier), e) {
      assert Ack(e.device, earlier, e.id) in EarlierAcks(s, earlier);
    }
  }

  ghost predicate InRun(w0: World, w: World)
  {
    Start(w0) && exists events :: w == History(w0, events)
  }

  lemma RunOk(w0: World, w: World)
    requires InRun(w0, w)
    ensures WorldOk(w)
  {
    hide Inv, Grows, Agrees, AcksOk, DeliveredOk, Numbered;
    var events :| w == History(w0, events);
    assert StoreOk(w0);
    hide StoreOk;
    assert WorldOk(w0);
    HistoryKeeps(w0, events);
  }

  function LastSeq(s: ST.Server, device: nat): nat
  {
    if device in s.db.mailboxes then s.db.mailboxes[device] else 0
  }

  /** A stored envelope says of a server row only what is true of it. */
  ghost predicate TellsOf(v: MailboxEnvelope, e: Envelope, contents: map<nat, Bytes>)
  {
    && v.id == e.id && v.routing == Render(e).routing
    && (v.chatSeq.Some? ==> v.chatSeq.value == e.message.chatSeq)
    && (v.payload.Some? ==> e.id in contents && v.payload.value == contents[e.id])
    && (v.payload.None? ==> e.payload.None?)
    && (v.deliveredAt.Some? ==> v.deliveredAt == e.deliveredAt)
    && (v.purgedAt.Some? ==> v.purgedAt == e.purgedAt)
  }

  ghost predicate ToldBy(w: World, v: MailboxEnvelope)
  {
    exists e :: e in w.server.db.envelopes && e.device == w.store.device && TellsOf(v, e, w.server.contents)
  }

  ghost predicate HoldsExactly(w: World)
  {
    && w.store.cursor <= LastSeq(w.server, w.store.device)
    && (forall e :: e in w.server.db.envelopes && e.device == w.store.device ==>
         (e.id in w.store.rows <==> 1 <= e.mailboxSeq <= w.store.cursor))
    && (forall id :: id in w.store.rows ==> ToldBy(w, w.store.rows[id]))
  }

  /** In every run the local store holds exactly the envelopes 1..cursor of its device, and the
      cursor never passes the server's counter. */
  lemma StoreMirrorsServer(w0: World, w: World)
    requires InRun(w0, w)
    ensures HoldsExactly(w)
  {
    hide WorldOk, InRun, LogOk, CopyOf, TellsOf, StoreOk, TablesInv;
    RunOk(w0, w);
    var device := w.store.device;
    WorldLog(w, device);
    WorldTables(w);
    LogLength(w.server, device);
    MailboxMembers(w.server.db.envelopes, device);
    var log := Log(w.server, device);
    forall e | e in w.server.db.envelopes && e.device == device
      ensures e.id in w.store.rows <==> 1 <= e.mailboxSeq <= w.store.cursor
    {
      assert e in log;
      var i :| 0 <= i < |log| && log[i] == e;
      RowStored(w, i);
    }
    forall id | id in w.store.rows ensures ToldBy(w, w.store.rows[id])
    {
      var i :| 0 <= i < w.store.cursor && log[i].id == id;
      CopyTells(w.server.contents, w.store.rows[id], log[i]);
      assert log[i] in log;
    }
  }

  lemma CopyTells(contents: map<nat, Bytes>, v: MailboxEnvelope, e: Envelope)
    requires CopyOf(contents, v, e)
    ensures TellsOf(v, e, contents)
  {
  }

  lemma RowStored(w: World, i: nat)
    requires LogOk(w.server, w.store.device) && Agrees(w.server, w.store) && i < |Log(w.server, w.store.device)|
    ensures var e := Log(w.server, w.store.device)[i];
      e.mailboxSeq == i + 1 && (e.id in w.store.rows <==> i < w.store.cursor)
  {
    hide CopyOf, PayloadState, RowContents;
    var log := Log(w.server, w.store.device);
    if log[i].id in w.store.rows {
      var j :| 0 <= j < w.store.cursor && log[j].id == log[i].id;
      assert j == i;
    }
  }

  lemma LogLength(s: ST.Server, device: nat)
    requires TablesInv(s.db, s.contents)
    ensures |Log(s, device)| == LastSeq(s, device)
  {
    hide ChatsGapless, MailboxesInChatOrder, ClientIdsUnique, AccountsKnown, PositionsBounded, RowContents,
         PayloadState;
    if device in s.db.mailboxes {
      assert NumberedRows(Log(s, device), s.db.mailboxes[device]);
    } else {
      NoMailbox(s.db.envelopes, device);
    }
  }

  /** `a` acknowledged `e`, and if its store generation lives on, the store holds the content. */
  ghost predicate HeldBy(w: World, a: Ack, e: Envelope)
  {
    && a.device == e.device && a.envelope == e.id && a.generation in w.generations
    && (a.generation == w.store.generation ==>
         e.id in w.store.rows && e.id in w.server.contents
           && w.store.rows[e.id].payload == Some(w.server.contents[e.id]))
  }

  /** Whatever the server has marked delivered was acknowledged from a store generation; while
      that generation lives, the store holds the original content. */
  lemma AcknowledgementLosesNothing(w0: World, w: World, e: Envelope)
    requires InRun(w0, w) && e in w.server.db.envelopes && e.deliveredAt.Some?
    ensures exists a :: a in w.acks && HeldBy(w, a, e)
  {
    hide Inv, InRun, StoreOk, LiveOk, PromisesOk, TabsOk;
    RunOk(w0, w);
    assert AckedBy(w.acks, e);
    var a :| a in w.acks && a.device == e.device && a.envelope == e.id;
    assert AckHeld(w, a);
    if a.generation == w.store.generation { HeldContent(w, e.id); }
    assert HeldBy(w, a, e);
  }

  lemma HeldContent(w: World, id: nat)
    requires WorldOk(w) && id in w.store.rows && w.store.rows[id].payload.Some?
    ensures id in w.server.contents && w.store.rows[id].payload.value == w.server.contents[id]
  {
    hide WorldOk, StoreOk, LogOk;
    WorldLog(w, w.store.device);
    var i :| 0 <= i < w.store.cursor && Log(w.server, w.store.device)[i].id == id;
  }

  /** Within one generation rows and contents stay, chat numbers stay and the cursor never goes back. */
  lemma LocalContentStays(w0: World, w: World, events: seq<Event>, id: nat)
    requires InRun(w0, w) && id in w.store.rows && History(w, events).store.generation == w.store.generation
    ensures var after := History(w, events).store;
      && after.cursor >= w.store.cursor && id in after.rows && after.rows[id].routing == w.store.rows[id].routing
      && (w.store.rows[id].payload.Some? ==> after.rows[id].payload == w.store.rows[id].payload)
      && (w.store.rows[id].chatSeq.Some? ==> after.rows[id].chatSeq == w.store.rows[id].chatSeq)
  {
    hide Inv, InRun, AcksOk, DeliveredOk, LiveOk, PromisesOk, TabsOk, ServerGrows, Agrees, Numbered, History;
    RunOk(w0, w);
    HistoryKeeps(w, events);
    assert RowKept(w.store.rows[id], History(w, events).store.rows[id]);
  }

  /** The server erases a payload only on a receipt or on expiry. */
  lemma ErasedByReceiptOrExpiry(w0: World, w: World, e: Envelope)
    requires InRun(w0, w) && e in w.server.db.envelopes && e.payload.None? && e.deliveredAt.None?
    ensures e.purgedAt.Some? && e.expiresAt <= e.purgedAt.value
  {
    hide InRun, StoreOk, AcksOk, DeliveredOk, LiveOk, PromisesOk, TabsOk, TxsInv, ChatsGapless, BoxesGapless,
         MailboxesInChatOrder;
    hide ClientIdsUnique, EnvelopesKnown, AccountsKnown, PositionsBounded;
    RunOk(w0, w);
  }

  lemma PromisedIsStored(w: World, p: Promise, e: Envelope)
    requires WorldOk(w) && p in w.promises && p.generation == w.store.generation
    requires e in w.server.db.envelopes && e.device == w.store.device && e.mailboxSeq <= p.cursor
    ensures e.id in w.store.rows && TellsOf(w.store.rows[e.id], e, w.server.contents)
  {
    hide WorldOk, InRun, LogOk, CopyOf, TellsOf, StoreOk;
    PromiseReached(w, p);
    WorldLog(w, w.store.device);
    MailboxMembers(w.server.db.envelopes, w.store.device);
    var log := Log(w.server, w.store.device);
    var i :| 0 <= i < |log| && log[i] == e;
    RowStored(w, i);
    CopyTells(w.server.contents, w.store.rows[e.id], e);
  }

  /** A synchronization that succeeded has stored every envelope the mailbox held when it began,
      and an ingest that succeeded has stored its envelope: both are recorded as a promise. */
  lemma SuccessMeansStored(w0: World, w: World, p: Promise, e: Envelope)
    requires InRun(w0, w) && p in w.promises && p.generation == w.store.generation
    requires e in w.server.db.envelopes && e.device == w.store.device && e.mailboxSeq <= p.cursor
    ensures e.id in w.store.rows && TellsOf(w.store.rows[e.id], e, w.server.contents)
  {
    hide WorldOk, InRun, TellsOf;
    RunOk(w0, w);
    PromisedIsStored(w, p, e);
  }

  lemma PromiseReached(w: World, p: Promise)
    requires WorldOk(w) && p in w.promises && p.generation == w.store.generation
    ensures p.cursor <= w.store.cursor
  {
    hide Inv, StoreOk, AcksOk, DeliveredOk, LiveOk, TabsOk;
    assert PromiseKept(w, p);
  }

  // ---- an operation from its beginning to its end ----

  /** What a step leaves of an operation that goes on: what it was asked and what it found at its beginning. */
  ghost predicate SameOperation(w: World, after: World, t: nat)
  {
    t in w.tabs && w.tabs[t].op.Busy? && t in after.tabs && after.tabs[t].op.Busy? ==>
      after.tabs[t].op.job == w.tabs[t].op.job && after.tabs[t].op.floor == w.tabs[t].op.floor
  }

  lemma CommitsSame(w: World, u: nat, expected: nat, es: seq<MailboxEnvelope>, next: nat, ok: bool, failed: World,
                    at: Point, t: nat)
    requires u in w.tabs && w.tabs[u].op.Busy? && SameOperation(w, failed, t)
    ensures SameOperation(w, Commits(w, u, expected, es, next, ok, failed, at), t)
  {
    hide CommitPage;
  }

  lemma BackfillSame(w: World, u: nat, ok: bool, t: nat)
    requires u in w.tabs && w.tabs[u].op.Busy?
    ensures SameOperation(w, BackfillStep(w, u, ok), t)
  {
    hide Commits, ValidPage;
    if w.tabs[u].op.at.BackfillCommit? {
      var BackfillCommit(through, after, page, cursor) := w.tabs[u].op.at;
      CommitsSame(w, u, cursor, page.envelopes, Max(cursor, page.nextSeq), ok, Fail(w, u),
                  if page.hasMore then BackfillLoop(through, page.nextSeq) else BackfillFinish(through), t);
    }
  }

  lemma AckSame(w: World, u: nat, ok: bool, t: nat)
    requires u in w.tabs && w.tabs[u].op.Busy?
    ensures SameOperation(w, AckStep(w, u, ok), t)
  {
    hide Commits, Pending, Ascending, ValidReceipt, Receipted;
    if w.tabs[u].op.at.AckCommit? && w.tabs[u].op.at.queue != [] {
      var AckCommit(queue, next, receipt, cursor) := w.tabs[u].op.at;
      CommitsSame(w, u, cursor, [Receipted(queue[0], receipt)], cursor, ok,
                  if Current(w.tabs[u]) then At(w, u, SendAck(Drop(queue), next)) else Fail(w, u),
                  SendAck(Drop(queue), next), t);
    }
  }

  lemma PageSame(w: World, u: nat, ok: bool, t: nat)
    requires u in w.tabs && w.tabs[u].op.Busy?
    ensures SameOperation(w, PageStep(w, u, ok), t)
  {
    hide Commits, ValidPage;
    match w.tabs[u].op.at
    case PageArrived(cursor, page) =>
      CommitsSame(w, u, cursor, page.envelopes, page.nextSeq, ok, Fail(w, u), FetchPending(ToPage(page.hasMore)), t);
    case IngestCommit(cursor) =>
      if w.tabs[u].op.job.goal.Ingest? {
        var e := w.tabs[u].op.job.goal.envelope;
        CommitsSame(w, u, cursor, [e], Max(cursor, e.routing.mailboxSeq), ok, Fail(w, u), FetchPending(ToEnd), t);
      }
    case _ =>
  }

  lemma ServeSame(w: World, u: nat, now: int, t: nat)
    ensures SameOperation(w, ServeStep(w, u, now), t) && SameOperation(w, LoseStep(w, u), t)
    ensures SameOperation(w, BeginStep(w, u), t)
  {
    hide ST.Apply, MailboxPage, RowIndex, Render;
  }

  /** No event puts a busy tab to another operation: it first has to end the one it is in. */
  lemma NextSame(w: World, event: Event, t: nat)
    ensures SameOperation(w, Next(w, event), t)
  {
    hide ST.Apply, BackfillStep, AckStep, PageStep, ServeStep, LoseStep, BeginStep, Render;
    match event
    case Advance(u, ok) =>
      if u in w.tabs && w.tabs[u].op.Busy? {
        BackfillSame(w, u, ok, t);
        AckSame(w, u, ok, t);
        PageSame(w, u, ok, t);
      }
    case Begin(u) => ServeSame(w, u, 0, t);
    case Serve(u, now) => ServeSame(w, u, now, t);
    case Lose(u) => ServeSame(w, u, 0, t);
    case _ =>
  }

  /** The tab is in an operation at every moment from `w` on. */
  ghost predicate BusyThroughout(w: World, events: seq<Event>, t: nat)
  {
    forall k :: 0 <= k <= |events| ==> t in History(w, events[..k]).tabs && History(w, events[..k]).tabs[t].op.Busy?
  }

  lemma {:induction false} SameThroughout(w: World, events: seq<Event>, t: nat)
    requires BusyThroughout(w, events, t)
    ensures t in w.tabs && w.tabs[t].op.Busy?
    ensures var after := History(w, events);
      && t in after.tabs && after.tabs[t].op.Busy?
      && after.tabs[t].op.job == w.tabs[t].op.job && after.tabs[t].op.floor == w.tabs[t].op.floor
  {
    hide Next;
    assert events[..|events|] == events && History(w, events[..0]) == w;
    if events != [] {
      var n := |events| - 1;
      forall k | 0 <= k <= n ensures events[..n][..k] == events[..k] {}
      SameThroughout(w, events[..n], t);
      NextSame(History(w, events[..n]), events[n], t);
    }
  }

  /** What a job has to store: all the mailbox held when the operation began, or up to its envelope. */
  function Goals(s: ST.Server, job: Job): nat
  {
    match job.goal
    case Synchronize => LastSeq(s, job.session.scope.device)
    case Ingest(e) => e.routing.mailboxSeq
  }

  ghost predicate IsBusy(w: World, t: nat)
  {
    t in w.tabs && w.tabs[t].op.Busy?
  }

  /** The next step of the tab ends its operation with success. */
  ghost predicate EndsWell(w: World, t: nat)
  {
    IsBusy(w, t) && w.tabs[t].op.at.Finish? && Reads(w, t)
  }

  /** The operation the tab began at `w` is still under way at `before`, `events` later, and was in between. */
  ghost predicate Operation(w: World, t: nat, events: seq<Event>, before: World)
  {
    && t in w.tabs && w.tabs[t].op.Idle? && w.tabs[t].queue != []
    && BusyThroughout(BeginStep(w, t), events, t) && before == History(BeginStep(w, t), events)
  }

  /** In every run: when an operation begun at `w` ends successfully, whatever other tabs, the server
      and the network did meanwhile, the store holds every envelope its mailbox held when it began;
      an ingested envelope likewise, with all before it. */
  lemma SuccessStoresAll(w0: World, w: World, t: nat, events: seq<Event>, before: World, after: World, e: Envelope)
    requires InRun(w0, w) && Operation(w, t, events, before) && EndsWell(before, t)
    requires after == Next(before, Advance(t, true))
    requires e in after.server.db.envelopes && e.device == w.tabs[t].queue[0].session.scope.device
    requires e.mailboxSeq <= Goals(w.server, w.tabs[t].queue[0])
    ensures ValidScope(after.store, w.tabs[t].queue[0].session.scope)
    ensures e.id in after.store.rows && TellsOf(after.store.rows[e.id], e, after.server.contents)
  {
    hide InRun, WorldOk, TellsOf, Grows, History, Next, BeginStep;
    RunOk(w0, w);
    var begun, job := BeginStep(w, t), w.tabs[t].queue[0];
    BeginIsNext(w, t);
    NextKeeps(w, Begin(t));
    HistoryKeeps(begun, events);
    NextKeeps(before, Advance(t, true));
    SameThroughout(begun, events, t);
    BeginFloor(w, t);
    Finished(before, t);
    PromisedIsStored(after, Promise(job.session.scope.generation, Goals(w.server, job)), e);
  }

  lemma BeginIsNext(w: World, t: nat)
    ensures Next(w, Begin(t)) == BeginStep(w, t)
  {
    hide BeginStep;
  }

  lemma BeginFloor(w: World, t: nat)
    requires WorldOk(w) && t in w.tabs && w.tabs[t].op.Idle? && w.tabs[t].queue != [] && IsBusy(BeginStep(w, t), t)
    ensures var op := BeginStep(w, t).tabs[t].op;
      op.job == w.tabs[t].queue[0] && Promised(op) == Goals(w.server, op.job)
  {
    hide WorldOk;
    WorldTables(w);
    LogLength(w.server, w.tabs[t].queue[0].session.scope.device);
  }

  lemma Finished(w: World, t: nat)
    requires EndsWell(w, t)
    ensures var after, op := Next(w, Advance(t, true)), w.tabs[t].op;
      && after.store == w.store && ValidScope(after.store, op.job.session.scope)
      && Promise(op.job.session.scope.generation, Promised(op)) in after.promises
  {
  }

  /** Once the backfill is marked finished, every stored envelope carries its chat number; and
      from the first open of this version on, every newer envelope does. */
  lemma BackfillNumbersAll(w0: World, w: World, e: Envelope)
    requires InRun(w0, w) && e in w.server.db.envelopes && e.device == w.store.device && e.id in w.store.rows
    requires w.store.backfilled || e.mailboxSeq > w.legacy
    ensures w.store.rows[e.id].chatSeq == Some(e.message.chatSeq)
  {
    hide WorldOk, InRun, LogOk, CopyOf, StoreOk;
    RunOk(w0, w);
    WorldLog(w, w.store.device);
    MailboxMembers(w.server.db.envelopes, w.store.device);
    var log := Log(w.server, w.store.device);
    var i :| 0 <= i < |log| && log[i] == e;
    RowStored(w, i);
    RowNumbered(w, i);
    CopyChat(w.server.contents, w.store.rows[e.id], e);
  }

  lemma CopyChat(contents: map<nat, Bytes>, v: MailboxEnvelope, e: Envelope)
    requires CopyOf(contents, v, e) && v.chatSeq.Some?
    ensures v.chatSeq == Some(e.message.chatSeq)
  {
  }

  lemma RowNumbered(w: World, i: nat)
    requires StoreOk(w) && i < w.store.cursor && (w.store.backfilled || i >= w.legacy)
    ensures Numbered(w, i)
  {
    hide Agrees, Numbered;
  }

  /** A live event that was missing rows pages them in first; after that there is no gap left. */
  lemma IngestFindsNoGap(w0: World, w: World, t: nat)
    requires InRun(w0, w) && t in w.tabs && w.tabs[t].op.Busy? && w.tabs[t].op.at == IngestRead(true)
    requires w.tabs[t].op.job.goal.Ingest? && ValidScope(w.store, w.tabs[t].op.job.session.scope)
    ensures w.tabs[t].op.job.goal.envelope.routing.mailboxSeq <= w.store.cursor
  {
    hide InRun, Inv, StoreOk, AcksOk, DeliveredOk, LiveOk, PromisesOk, ScopeOk, CopyOf;
    RunOk(w0, w);
    assert TabOk(w, w.tabs[t]);
  }
}
