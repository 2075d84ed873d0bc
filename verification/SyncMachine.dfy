/** Server, network, one browser store and any number of tabs, as one step machine. Every
    await of the sync manager ends a step: between two steps of one tab the server, other tabs,
    restarts and failures may do anything they can do. */
module SyncMachine {
  import opened Common
  import opened MessageTables
  import opened ServerTransactions
  import opened InboxStore
  import opened InboxAgreement

  const PAGE_LIMIT: nat := 100

  /** The scope object a tab works under. The token is the revision of the activation that made it,
      so two activations never give the same one. */
  datatype Session = Session(scope: Scope, token: nat)

  datatype Goal = Synchronize | Ingest(envelope: MailboxEnvelope)

  datatype Job = Job(session: Session, goal: Goal)

  /** Where acknowledgePending returns to. */
  datatype After = ToPaging | ToPage(hasMore: bool) | ToEnd

  datatype Point =
    | BackfillCheck
    | BackfillStart
    | BackfillLoop(through: nat, after: nat)
    | BackfillWait(through: nat, after: nat)
    | BackfillPage(through: nat, after: nat, page: Page)
    | BackfillCommit(through: nat, after: nat, page: Page, cursor: nat)
    | BackfillFinish(through: nat)
    | FetchPending(next: After)
    | SendAck(queue: seq<MailboxEnvelope>, next: After)
    | AckWait(queue: seq<MailboxEnvelope>, next: After)
    | AckReceipt(queue: seq<MailboxEnvelope>, next: After, receipt: MailboxEnvelope)
    | AckCommit(queue: seq<MailboxEnvelope>, next: After, receipt: MailboxEnvelope, cursor: nat)
    | ReadCursor
    | PageWait(cursor: nat)
    | PageArrived(cursor: nat, page: Page)
    | IngestRead(paged: bool)
    | IngestCommit(cursor: nat)
    | Finish

  /** `floor` records how many envelopes the mailbox held when the operation began; never read. */
  datatype Op = Idle | Busy(job: Job, floor: nat, at: Point)

  /** An activation in flight: the identity is still to be read, or was read under `revision`. */
  datatype Activation = Inactive | Reading(device: nat, revision: nat) | Identified(session: Session)

  datatype Tab = Tab(current: Option<Session>, revision: nat, activation: Activation, queue: seq<Job>, op: Op)

  /** A delivery acknowledgement some store generation has put on the network. */
  datatype Ack = Ack(device: nat, generation: nat, envelope: nat)

  /** What a successful operation promised: the store of `generation` has reached `cursor`. */
  datatype Promise = Promise(generation: nat, cursor: nat)

  /** `legacy` is the cursor the store had when this version first opened it. `generations`,
      `acks` and `promises` are never read by a tab. */
  datatype World = World(server: Server, store: Store, legacy: nat, generations: set<nat>, tabs: map<nat, Tab>,
                         live: set<MailboxEnvelope>, acks: set<Ack>, promises: set<Promise>)

  datatype Event =
    | ServerStep(step: Label)
    | DeliverAck(ack: Ack, now: int)                    // the server handles an acknowledgement, perhaps again
    | Publish(device: nat, place: nat)                  // a live event for a stored envelope
    | NewIdentity(device: nat, generation: nat)
    | OpenTab(tab: nat)                                 // a new tab, or a restarted one
    | Activate(tab: nat, device: nat)
    | ReadIdentity(tab: nat)
    | FinishActivation(tab: nat)
    | Deactivate(tab: nat)
    | Enqueue(tab: nat, goal: Goal)
    | Begin(tab: nat)
    | Serve(tab: nat, now: int)                         // the answer a tab waits for is produced
    | Advance(tab: nat, ok: bool)                       // a tab takes its next step; without ok its transaction fails
    | Lose(tab: nat)                                    // the request or its answer is lost

  // ---- helpers ----

  function SetTab(w: World, t: nat, tab: Tab): World
  {
    w.(tabs := w.tabs[t := tab])
  }

  function At(w: World, t: nat, at: Point): World
    requires t in w.tabs && w.tabs[t].op.Busy?
  {
    SetTab(w, t, w.tabs[t].(op := w.tabs[t].op.(at := at)))
  }

  /** The operation throws. */
  function Fail(w: World, t: nat): World
    requires t in w.tabs
  {
    SetTab(w, t, w.tabs[t].(op := Idle))
  }

  predicate Current(tab: Tab)
  {
    tab.op.Busy? && tab.current == Some(tab.op.job.session)
  }

  /** acknowledgePending is done: return to the caller. */
  function Return(w: World, t: nat, next: After): World
    requires t in w.tabs && w.tabs[t].op.Busy?
  {
    match next
    case ToPaging => At(w, t, ReadCursor)
    case ToPage(true) => At(w, t, ReadCursor)
    case ToPage(false) =>
      At(w, t, if w.tabs[t].op.job.goal.Ingest? then IngestRead(true) else Finish)
    case ToEnd => At(w, t, Finish)
  }

  /** The cursor an operation has promised to reach when it succeeds. */
  function Promised(op: Op): nat
    requires op.Busy?
  {
    match op.job.goal
    case Synchronize => op.floor
    case Ingest(e) => e.routing.mailboxSeq
  }

  function Succeed(w: World, t: nat): World
    requires t in w.tabs && w.tabs[t].op.Busy?
  {
    var op := w.tabs[t].op;
    Fail(w, t).(promises := w.promises + {Promise(op.job.session.scope.generation, Promised(op))})
  }

  function Drop(queue: seq<MailboxEnvelope>): seq<MailboxEnvelope>
  {
    if queue == [] then [] else queue[1..]
  }

  /** The stored envelopes that still have to be acknowledged, in key order. */
  function Pending(rows: map<nat, MailboxEnvelope>, order: seq<nat>): (queue: seq<MailboxEnvelope>)
    ensures forall q :: q in queue ==> exists id :: id in rows && rows[id] == q && NeedsAck(q)
  {
    if order == [] then [] else
    (if order[0] in rows && NeedsAck(rows[order[0]]) then [rows[order[0]]] else []) + Pending(rows, order[1..])
  }

  /** A receipt is stored with the content the envelope already had. */
  function Receipted(e: MailboxEnvelope, receipt: MailboxEnvelope): MailboxEnvelope
  {
    receipt.(payload := e.payload, chatSeq := receipt.chatSeq.Or(e.chatSeq))
  }

  predicate ValidReceipt(scope: Scope, e: MailboxEnvelope, receipt: MailboxEnvelope)
  {
    && receipt.id == e.id && receipt.routing.messageId == e.routing.messageId
    && receipt.routing.device == scope.device && receipt.deliveredAt.Some?
  }

  function RowIndex(log: seq<Envelope>, id: nat): (i: nat)
    ensures i <= |log| && (i < |log| ==> log[i].id == id)
    ensures i == |log| ==> forall k :: 0 <= k < |log| ==> log[k].id != id
  {
    if log == [] then 0 else if log[0].id == id then 0 else 1 + RowIndex(log[1..], id)
  }

  function DeviceRows(s: Server, device: nat): set<nat>
  {
    set i | 0 <= i < |s.db.envelopes| && s.db.envelopes[i].device == device :: s.db.envelopes[i].id
  }

  // ---- the steps of an operation ----

  /** Commits envelopes for tab `t`; on failure `failed`, otherwise continue at `at`. */
  function Commits(w: World, t: nat, expected: nat, es: seq<MailboxEnvelope>, next: nat, ok: bool, failed: World,
                   at: Point): World
    requires t in w.tabs && w.tabs[t].op.Busy?
  {
    match (if ok then CommitPage(w.store, w.tabs[t].op.job.session.scope, expected, es, next) else Err(CursorChanged))
    case Err(_) => failed
    case Ok(result) => At(w.(store := result.0), t, at)
  }

  function Reads(w: World, t: nat): bool
    requires t in w.tabs && w.tabs[t].op.Busy?
  {
    ValidScope(w.store, w.tabs[t].op.job.session.scope)
  }

  function BackfillStep(w: World, t: nat, ok: bool): World
    requires t in w.tabs && w.tabs[t].op.Busy?
  {
    var tab := w.tabs[t];
    match tab.op.at
    case BackfillCheck =>
      if !ok || !Reads(w, t) then Fail(w, t)
      else At(w, t, if w.store.backfilled then FetchPending(ToPaging) else BackfillStart)
    case BackfillStart =>
      if !ok || !Reads(w, t) then Fail(w, t)
      else At(w, t, BackfillLoop(w.store.cursor, 0))
    case BackfillLoop(through, after) =>
      if after >= through then At(w, t, BackfillFinish(through))
      else if !Current(tab) then Fail(w, t)
      else At(w, t, BackfillWait(through, after))
    case BackfillPage(through, after, page) =>
      if !ok || !Current(tab) || !ValidPage(tab.op.job.session.scope.device, after, page) || !Reads(w, t)
      then Fail(w, t)
      else At(w, t, BackfillCommit(through, after, page, w.store.cursor))
    case BackfillCommit(through, after, page, cursor) =>
      Commits(w, t, cursor, page.envelopes, Max(cursor, page.nextSeq), ok, Fail(w, t),
              if page.hasMore then BackfillLoop(through, page.nextSeq) else BackfillFinish(through))
    case BackfillFinish(_) =>
      if !ok || !Current(tab) || !Reads(w, t) then Fail(w, t)
      else At(w.(store := w.store.(backfilled := true)), t, FetchPending(ToPaging))
    case _ => w
  }

  function AckStep(w: World, t: nat, ok: bool): World
    requires t in w.tabs && w.tabs[t].op.Busy?
  {
    var tab := w.tabs[t];
    match tab.op.at
    case FetchPending(next) =>
      if !ok || !Reads(w, t) then Fail(w, t)
        else At(w, t, SendAck(Pending(w.store.rows, Ascending(w.store.rows.Keys)), next))
    case SendAck(queue, next) =>
      if queue == [] then Return(w, t, next)
      else if !Current(tab) then Fail(w, t)
      else
        var scope := tab.op.job.session.scope;
        At(w.(acks := w.acks + {Ack(scope.device, scope.generation, queue[0].id)}), t, AckWait(queue, next))
    case AckReceipt(queue, next, receipt) =>
      if queue == [] || !Current(tab) || !ValidReceipt(tab.op.job.session.scope, queue[0], receipt)
         || !ok || !Reads(w, t) then Fail(w, t)
      else At(w, t, AckCommit(queue, next, receipt, w.store.cursor))
    case AckCommit(queue, next, receipt, cursor) =>
      if queue == [] then Fail(w, t) else
      Commits(w, t, cursor, [Receipted(queue[0], receipt)], cursor, ok,
              if Current(tab) then At(w, t, SendAck(Drop(queue), next)) else Fail(w, t),
              SendAck(Drop(queue), next))
    case _ => w
  }

  function PageStep(w: World, t: nat, ok: bool): World
    requires t in w.tabs && w.tabs[t].op.Busy?
  {
    var tab := w.tabs[t];
    match tab.op.at
    case ReadCursor =>
      if !ok || !Current(tab) || !Reads(w, t) then Fail(w, t) else At(w, t, PageWait(w.store.cursor))
    case PageArrived(cursor, page) =>
      if !Current(tab) || !ValidPage(tab.op.job.session.scope.device, cursor, page) then Fail(w, t)
      else Commits(w, t, cursor, page.envelopes, page.nextSeq, ok, Fail(w, t), FetchPending(ToPage(page.hasMore)))
    case IngestRead(paged) =>
      if !tab.op.job.goal.Ingest? || !ok || !Reads(w, t) then Fail(w, t)
      else if tab.op.job.goal.envelope.routing.mailboxSeq > w.store.cursor + 1 then
        (if paged then Fail(w, t) else At(w, t, ReadCursor))
      else if !Current(tab) then Fail(w, t)
      else At(w, t, IngestCommit(w.store.cursor))
    case IngestCommit(cursor) =>
      if !tab.op.job.goal.Ingest? then Fail(w, t) else
      var e := tab.op.job.goal.envelope;
      Commits(w, t, cursor, [e], Max(cursor, e.routing.mailboxSeq), ok, Fail(w, t), FetchPending(ToEnd))
    case Finish => if !ok || !Reads(w, t) then Fail(w, t) else Succeed(w, t)
    case _ => w
  }

  function AdvanceStep(w: World, t: nat, ok: bool): World
  {
    if t !in w.tabs || !w.tabs[t].op.Busy? then w else
    match w.tabs[t].op.at
    case BackfillCheck => BackfillStep(w, t, ok)
    case BackfillStart => BackfillStep(w, t, ok)
    case BackfillLoop(_, _) => BackfillStep(w, t, ok)
    case BackfillPage(_, _, _) => BackfillStep(w, t, ok)
    case BackfillCommit(_, _, _, _) => BackfillStep(w, t, ok)
    case BackfillFinish(_) => BackfillStep(w, t, ok)
    case FetchPending(_) => AckStep(w, t, ok)
    case SendAck(_, _) => AckStep(w, t, ok)
    case AckReceipt(_, _, _) => AckStep(w, t, ok)
    case AckCommit(_, _, _, _) => AckStep(w, t, ok)
    case ReadCursor => PageStep(w, t, ok)
    case PageArrived(_, _) => PageStep(w, t, ok)
    case IngestRead(_) => PageStep(w, t, ok)
    case IngestCommit(_) => PageStep(w, t, ok)
    case Finish => PageStep(w, t, ok)
    case BackfillWait(_, _) => w
    case AckWait(_, _) => w
    case PageWait(_) => w
  }

  /** The server answers the request a tab waits for. A mailbox request first erases what has
      expired; an acknowledgement returns the row it has marked. */
  function ServeStep(w: World, t: nat, now: int): World
  {
    if t !in w.tabs || !w.tabs[t].op.Busy? then w else
    var device := w.tabs[t].op.job.session.scope.device;
    match w.tabs[t].op.at
    case BackfillWait(through, after) =>
      var s := Apply(w.server, Purge(DeviceRows(w.server, device), now));
      At(w.(server := s), t, BackfillPage(through, after, MailboxPage(s, device, after, PAGE_LIMIT)))
    case PageWait(cursor) =>
      var s := Apply(w.server, Purge(DeviceRows(w.server, device), now));
      At(w.(server := s), t, PageArrived(cursor, MailboxPage(s, device, cursor, PAGE_LIMIT)))
    case AckWait(queue, next) =>
      if queue == [] then w else
      var s := Apply(w.server, Acknowledge(device, queue[0].id, now));
      var log := Mailbox(s.db.envelopes, device);
      var i := RowIndex(log, queue[0].id);
      if i < |log| then At(w.(server := s), t, AckReceipt(queue, next, Render(log[i]))) else w.(server := s)
    case _ => w
  }

  /** No answer arrives. A lost mailbox answer ends the operation; a lost acknowledgement only
      leaves the envelope for the next synchronization. */
  function LoseStep(w: World, t: nat): World
  {
    if t !in w.tabs || !w.tabs[t].op.Busy? then w else
    match w.tabs[t].op.at
    case BackfillWait(_, _) => Fail(w, t)
    case PageWait(_) => Fail(w, t)
    case AckWait(queue, next) =>
      if Current(w.tabs[t]) then At(w, t, SendAck(Drop(queue), next)) else Fail(w, t)
    case _ => w
  }

  function BeginStep(w: World, t: nat): World
  {
    if t !in w.tabs || w.tabs[t].op.Busy? || w.tabs[t].queue == [] then w else
    var tab := w.tabs[t];
    var job := tab.queue[0];
    var floor := |Mailbox(w.server.db.envelopes, job.session.scope.device)|;
    var waiting := tab.(queue := tab.queue[1..]);
    match job.goal
    case Synchronize => SetTab(w, t, waiting.(op := Busy(job, floor, BackfillCheck)))
    case Ingest(e) =>
      if tab.current != Some(job.session) || e.routing.device != job.session.scope.device || e.routing.mailboxSeq < 1
      then SetTab(w, t, waiting)
      else SetTab(w, t, waiting.(op := Busy(job, floor, IngestRead(false))))
  }

  function Next(w: World, event: Event): World
  {
    match event
    case ServerStep(l) => if l.Acknowledge? then w else w.(server := Apply(w.server, l))
    case DeliverAck(ack, now) =>
      if ack !in w.acks then w else w.(server := Apply(w.server, Acknowledge(ack.device, ack.envelope, now)))
    case Publish(device, place) =>
      var log := Mailbox(w.server.db.envelopes, device);
      if place < |log| then w.(live := w.live + {Render(log[place])}) else w
    case NewIdentity(device, generation) =>
      if generation in w.generations then w
      else w.(store := Store(device, generation, 0, map[], false), legacy := 0,
              generations := w.generations + {generation})
    case OpenTab(t) => SetTab(w, t, Tab(None, 0, Inactive, [], Idle))
    case Activate(t, device) =>
      if t !in w.tabs then w else
      var revision := w.tabs[t].revision + 1;
      SetTab(w, t, w.tabs[t].(current := None, revision := revision, activation := Reading(device, revision)))
    case ReadIdentity(t) =>
      if t !in w.tabs || !w.tabs[t].activation.Reading? then w else
      var reading := w.tabs[t].activation;
      SetTab(w, t, w.tabs[t].(activation :=
        if w.store.device == reading.device
        then Identified(Session(Scope(reading.device, w.store.generation), reading.revision)) else Inactive))
    case FinishActivation(t) =>
      if t !in w.tabs || !w.tabs[t].activation.Identified? then w else
      var session, tab := w.tabs[t].activation.session, w.tabs[t].(activation := Inactive);
      SetTab(w, t, if session.token == tab.revision then tab.(current := Some(session)) else tab)
    case Deactivate(t) =>
      if t !in w.tabs then w else SetTab(w, t, w.tabs[t].(current := None, revision := w.tabs[t].revision + 1))
    case Enqueue(t, goal) =>
      if t !in w.tabs || w.tabs[t].current.None? || (goal.Ingest? && goal.envelope !in w.live) then w
      else SetTab(w, t, w.tabs[t].(queue := w.tabs[t].queue + [Job(w.tabs[t].current.value, goal)]))
    case Begin(t) => BeginStep(w, t)
    case Serve(t, now) => ServeStep(w, t, now)
    case Advance(t, ok) => AdvanceStep(w, t, ok)
    case Lose(t) => LoseStep(w, t)
  }

  function History(w: World, events: seq<Event>): World
  {
    if events == [] then w else Next(History(w, events[..|events| - 1]), events[|events| - 1])
  }
}
