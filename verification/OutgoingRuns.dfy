/** Every run of the outgoing path: at most one message per client message id, its content what
    was first typed, a durable row before any transmission, acceptance for good. */
module OutgoingRuns {
  import opened Common
  import opened Base64
  import opened MessageTables
  import ST = ServerTransactions
  import opened ServerInvariants
  import opened ServerTheorems
  import opened OutgoingMachine
  import opened OutgoingInvariants

  lemma Goes(w: Outbox, p: nat, at: Point)
    requires OutboxOk(w) && p in w.procs && ProcessOk(w, w.procs[p].(at := at))
    ensures Kept(w, Goto(w, p, at))
  {
    hide OutboxOk, ProcessOk, Kept;
    MoveKeeps(w, p, w.procs[p].(at := at));
  }

  lemma FailKeeps(w: Outbox, p: nat)
    requires OutboxOk(w) && p in w.procs
    ensures Kept(w, Fail(w, p))
  {
    hide OutboxOk, Kept;
    Goes(w, p, Ended(None));
  }

  lemma ProcFacts(w: Outbox, p: nat)
    requires OutboxOk(w) && p in w.procs
    ensures ProcessOk(w, w.procs[p]) && RowsOk(w)
  {
    hide ServerOk, CallsOk, MessagesOk, ContentsOk, RowsOk, WireOk, ProcessOk;
  }

  // ---- the durable rows ----

  lemma SameText(es: seq<ClientEnvelope>, a: Bytes, b: Bytes)
    requires Says(es, a) && Says(es, b)
    ensures a == b
  {
    hide Encode;
    assert es[0] in es;
    EncodeInjective(a, b);
  }

  /** The rows after a stored command: it says what was first typed, and nothing accepted is touched. */
  lemma PutGrows(w: Outbox, p: nat)
    requires RowsOk(w) && p in w.procs && w.procs[p].at.PutRow? && ProcessOk(w, w.procs[p])
    requires PutOutgoing(w.rows, w.procs[p].at.command, w.procs[p].at.replace).Ok?
    ensures var PutRow(text, _, replace, command) := w.procs[p].at;
      var rows := PutOutgoing(w.rows, command, replace).value;
      var typed := if command.clientId in w.rows then w.typed else w.typed[command.clientId := text];
      && RowsGrow(w.rows, rows) && TypedGrows(w.typed, typed) && rows.Keys == typed.Keys
      && command.clientId in rows && typed[command.clientId] == text && rows[command.clientId].command == command
      && (rows[command.clientId] == Row(command, None) || rows == w.rows)
      && forall c :: c in rows && c != command.clientId ==> c in w.rows && rows[c] == w.rows[c]
  {
    hide Says;
    var PutRow(text, _, replace, command) := w.procs[p].at;
    if command.clientId in w.rows && !replace {
      SameText(command.envelopes, text, w.typed[command.clientId]);
    }
  }

  lemma PutKeeps(w: Outbox, p: nat)
    requires OutboxOk(w) && p in w.procs && w.procs[p].at.PutRow?
    ensures Kept(w, PutStep(w, p))
  {
    hide OutboxOk, PutOutgoing, RowsOk, Says, RowsGrow, TypedGrows;
    ProcFacts(w, p);
    var PutRow(text, attempt, replace, command) := w.procs[p].at;
    if PutOutgoing(w.rows, command, replace).Err? {
      FailKeeps(w, p);
    } else {
      PutGrows(w, p);
      var rows := PutOutgoing(w.rows, command, replace).value;
      var typed := if command.clientId in w.rows then w.typed else w.typed[command.clientId := text];
      var mid := w.(rows := rows, typed := typed);
      RowsChangeKeeps(w, mid, command.clientId);
      Goes(mid, p, Transmit(NewText(text, attempt), command, 0));
      KeptThen(w, mid, PutStep(w, p));
    }
  }

  /** Rows may change at one key if they grow and the new row is in order. */
  lemma RowsChangeKeeps(w: Outbox, mid: Outbox, key: nat)
    requires OutboxOk(w) && mid == w.(rows := mid.rows, typed := mid.typed) && mid.rows.Keys == mid.typed.Keys
    requires RowsGrow(w.rows, mid.rows) && TypedGrows(w.typed, mid.typed) && key in mid.rows
    requires mid.rows == w.rows || (mid.rows[key].command.clientId == key && RowOk(mid, mid.rows[key]))
    requires forall c :: c in mid.rows && c != key ==> c in w.rows && mid.rows[c] == w.rows[c]
    ensures Kept(w, mid)
  {
    hide ServerOk, RowsOk, RowFor, ContentOk, RequestOk, ProcessOk, RowOk, RowsGrow, TypedGrows;
    assert Grows(w, mid);
    hide Grows;
    GrowthKeeps(w, mid);
  }

  lemma OursOnce(w: Outbox, m: Message, n: Message)
    requires OutboxOk(w) && Ours(w, m) && Ours(w, n) && m.clientId == n.clientId
    ensures m == n
  {
    ClientIdsOnce(w.server.db.messages);
  }

  lemma OursRow(w: Outbox, m: Message)
    requires OutboxOk(w) && Ours(w, m)
    ensures RowFor(w, m) && w.rows[m.clientId].command.clientId == m.clientId && RowOk(w, w.rows[m.clientId])
    ensures w.rows[m.clientId].accepted.Some? ==> w.rows[m.clientId].accepted == Some(m)
    ensures w.rows.Keys == w.typed.Keys
  {
    hide ServerOk, CommandOk;
    if w.rows[m.clientId].accepted.Some? {
      hide OutboxOk;
      OursOnce(w, m, w.rows[m.clientId].accepted.value);
    }
  }

  /** Binding an acceptance never fails for this device's own messages, and never rebinds. */
  lemma AcceptKeeps(w: Outbox, p: nat, m: Message)
    requires OutboxOk(w) && p in w.procs && Ours(w, m)
    ensures Kept(w, AcceptStep(w, p, m)) && AcceptStep(w, p, m).procs[p].at == Ended(Some(m))
  {
    hide OutboxOk, RowsOk, CommandOk, Grows;
    OursRow(w, m);
    var row := w.rows[m.clientId].(accepted := Some(m));
    var mid := w.(rows := w.rows[m.clientId := row]);
    BoundRowOk(w, mid, m);
    hide RowOk;
    RowsChangeKeeps(w, mid, m.clientId);
    Goes(mid, p, Ended(Some(m)));
    KeptThen(w, mid, AcceptStep(w, p, m));
  }

  lemma BoundRowOk(w: Outbox, mid: Outbox, m: Message)
    requires Ours(w, m) && m.clientId in w.rows && RowOk(w, w.rows[m.clientId])
    requires w.rows[m.clientId].command.clientId == m.clientId
    requires w.rows[m.clientId].accepted.Some? ==> w.rows[m.clientId].accepted == Some(m)
    requires mid == w.(rows := w.rows[m.clientId := w.rows[m.clientId].(accepted := Some(m))])
    ensures RowOk(mid, mid.rows[m.clientId]) && RowsGrow(w.rows, mid.rows) && TypedGrows(w.typed, mid.typed)
  {
    hide Says;
  }

  // ---- the network ----

  lemma TransmitKeeps(w: Outbox, p: nat)
    requires OutboxOk(w) && p in w.procs && w.procs[p].at.Transmit?
    ensures Kept(w, AdvanceStep(w, p))
  {
    ProcFacts(w, p);
    var Transmit(caller, command, tries) := w.procs[p].at;
    var mid := w.(wire := w.wire + {Request(w, command)});
    assert Kept(w, mid) by {
      hide ServerOk, RowsOk, RowFor, ContentOk, ProcessOk, RowOk, CommandOk, RowsGrow, TypedGrows, ContentsGrow;
      WireGrows(w, mid);
      RequestIsOk(w, mid, command);
      hide Grows, RequestOk;
      GrowthKeeps(w, mid);
    }
    hide OutboxOk, CommandOk, Grows, CallerOk, RowsOk;
    CallerStays(w, mid, w.procs[p].clientId, caller, command);
    Goes(mid, p, AnswerWait(caller, command, tries));
    KeptThen(w, mid, AdvanceStep(w, p));
  }

  lemma WireGrows(w: Outbox, mid: Outbox)
    requires mid == w.(wire := mid.wire) && w.wire <= mid.wire
    ensures Grows(w, mid)
  {
  }

  lemma RequestIsOk(w: Outbox, mid: Outbox, c: Command)
    requires CommandOk(w, c) && Grows(w, mid)
    ensures RequestOk(mid, Request(w, c))
  {
    hide CommandOk;
    CommandStays(w, mid, c);
    assert Command(c.chat, c.clientId, c.envelopes) == c;
  }

  /** What the server returns for one of this device's calls is one of its messages. */
  lemma StoredIsOurs(w: Outbox, t: nat)
    requires OutboxOk(w) && t in w.server.outcomes && w.server.outcomes[t].Stored?
    requires t in w.server.calls && w.server.calls[t].Send? && w.server.calls[t].request.device == w.device
    ensures Ours(w, w.server.outcomes[t].message)
    ensures w.server.outcomes[t].message.clientId == w.server.calls[t].request.clientId
  {
    hide Inv, CallsOk, MessagesOk, ContentsOk, RowsOk, WireOk, ProcessesOk;
    assert OutcomeHonest(w.server, t);
  }

  lemma RejectedKeeps(w: Outbox, p: nat, caller: Caller)
    requires OutboxOk(w) && p in w.procs && CallerOk(w, w.procs[p].clientId, caller)
    ensures Kept(w, Rejected(w, p, caller))
  {
    hide OutboxOk, Says, DecodeIncoming;
    FailKeeps(w, p);
    match caller
    case NewText(text, attempt) => if attempt < 1 { Goes(w, p, Devices(text, attempt + 1, true)); }
    case Recovery(row) =>
      if row.accepted.None? && row.command.envelopes != [] {
        SaysDecodes(row.command.envelopes, w.typed[row.command.clientId]);
        assert row.command.envelopes[0] in row.command.envelopes;
        MoveKeeps(w, p,
                  Process(row.command.chat, row.command.clientId, Devices(w.typed[row.command.clientId], 0, true)));
      }
  }

  lemma UnclearKeeps(w: Outbox, p: nat, caller: Caller, command: Command, round: nat)
    requires OutboxOk(w) && p in w.procs && CallerOk(w, w.procs[p].clientId, caller) && CommandOk(w, command)
    ensures Kept(w, Unclear(w, p, caller, command, round))
  {
    hide OutboxOk, CallerOk, CommandOk;
    FailKeeps(w, p);
    if round < 3 { Goes(w, p, ConfirmRead(caller, command, round)); }
  }

  lemma AnswerKeeps(w: Outbox, p: nat, t: nat)
    requires OutboxOk(w) && p in w.procs && w.procs[p].at.AnswerWait?
    ensures Kept(w, AnswerStep(w, p, t))
  {
    hide OutboxOk, CallerOk, CommandOk, Rejected, Unclear, RowsOk;
    ProcFacts(w, p);
    KeptSelf(w);
    FailKeeps(w, p);
    var AnswerWait(caller, command, tries) := w.procs[p].at;
    RejectedKeeps(w, p, caller);
    UnclearKeeps(w, p, caller, command, tries);
    if t in w.server.outcomes && t in w.server.calls && w.server.calls[t] == ST.Send(Request(w, command))
       && w.server.outcomes[t].Stored? {
      StoredIsOurs(w, t);
      Goes(w, p, Accept(w.server.outcomes[t].message));
    }
  }

  lemma AcceptedIsOurs(w: Outbox, clientId: nat)
    requires RowsOk(w)
    ensures AcceptedOf(w, clientId).Some? ==> Ours(w, AcceptedOf(w, clientId).value)
  {
    hide CommandOk;
  }

  lemma FoundIsOurs(w: Outbox, clientId: nat)
    ensures var found := FindByClient(w.server.db.messages, w.device, clientId);
      found.Some? ==> Ours(w, found.value) && found.value.clientId == clientId
  {
  }

  lemma DevicesKeeps(w: Outbox, p: nat, devices: seq<DestinationDevice>)
    requires OutboxOk(w) && p in w.procs && w.procs[p].at.Devices?
    ensures Kept(w, DevicesStep(w, p, devices))
  {
    hide OutboxOk, RowsOk;
    ProcFacts(w, p);
    FailKeeps(w, p);
    var Process(chat, clientId, Devices(text, attempt, replace)) := w.procs[p];
    if exists d :: d in devices && d.user != w.user {
      var command := Command(chat, clientId, BuildOutgoing(text, devices));
      assert Says(command.envelopes, text);
      Goes(w, p, PutRow(text, attempt, replace, command));
    }
  }

  lemma AcceptOrKeeps(w: Outbox, p: nat, found: Option<Message>, otherwise: Point)
    requires OutboxOk(w) && p in w.procs && ProcessOk(w, w.procs[p].(at := otherwise))
    requires found.Some? ==> Ours(w, found.value)
    ensures Kept(w, AcceptOr(w, p, found, otherwise))
  {
    hide OutboxOk, Kept, Ours;
    if found.Some? {
      Goes(w, p, Accept(found.value));
    } else {
      Goes(w, p, otherwise);
    }
  }

  lemma ConfirmKeeps(w: Outbox, p: nat)
    requires OutboxOk(w) && p in w.procs
    ensures Kept(w, ConfirmStep(w, p))
  {
    hide OutboxOk, RowsOk, CommandOk, CallerOk, Kept, Ours, FindByClient, AcceptedOf, AcceptOr, Settled, RowOk;
    ProcFacts(w, p);
    KeptSelf(w);
    match w.procs[p].at
    case ConfirmRead(caller, command, round) =>
      AcceptedIsOurs(w, command.clientId);
      AcceptOrKeeps(w, p, AcceptedOf(w, command.clientId), ConfirmLookup(caller, command, round));
    case ConfirmLookup(caller, command, round) =>
      FoundIsOurs(w, command.clientId);
      AcceptOrKeeps(w, p, FindByClient(w.server.db.messages, w.device, command.clientId),
                    ConfirmReread(caller, command, round));
    case ConfirmReread(caller, command, round) =>
      AcceptedIsOurs(w, command.clientId);
      AcceptOrKeeps(w, p, AcceptedOf(w, command.clientId), Transmit(caller, command, round + 1));
    case _ =>
  }

  lemma RecoverKeeps(w: Outbox, p: nat)
    requires OutboxOk(w) && p in w.procs
    ensures Kept(w, RecoverStep(w, p))
  {
    hide OutboxOk, RowsOk, CommandOk, CallerOk, Kept, Ours, FindByClient, AcceptedOf, AcceptOr, Settled, RowOk;
    ProcFacts(w, p);
    KeptSelf(w);
    match w.procs[p].at
    case RecoverLookup(row) =>
      FoundIsOurs(w, row.command.clientId);
      RowIsOk(w, row);
      AcceptOrKeeps(w, p, FindByClient(w.server.db.messages, w.device, row.command.clientId).Or(row.accepted),
                    RecoverRead(row));
    case RecoverRead(row) =>
      AcceptedIsOurs(w, row.command.clientId);
      RowIsOk(w, row);
      AcceptOrKeeps(w, p, AcceptedOf(w, row.command.clientId), Transmit(Recovery(row), row.command, 0));
    case _ =>
  }

  lemma RowIsOk(w: Outbox, row: Row)
    requires RowOk(w, row)
    ensures CommandOk(w, row.command) 
    ensures forall c :: CallerOk(w, c, Recovery(row))
    ensures row.accepted.Some? ==> Ours(w, row.accepted.value)
  {
    hide CommandOk;
  }

  lemma BegunKeeps(w: Outbox, p: nat)
    requires OutboxOk(w) && p in w.procs && w.procs[p].at.Begun?
    ensures Kept(w, AdvanceStep(w, p))
  {
    ProcFacts(w, p);
    hide OutboxOk, RowOk;
    FailKeeps(w, p);
    var clientId := w.procs[p].clientId;
    if clientId in w.rows { Goes(w, p, RecoverLookup(w.rows[clientId])); }
    Goes(w, p, Devices(w.procs[p].at.text, 0, false));
  }

  lemma AdvanceKeeps(w: Outbox, p: nat)
    requires OutboxOk(w) && p in w.procs
    ensures Kept(w, AdvanceStep(w, p))
  {
    hide OutboxOk, Kept, PutStep, AcceptStep, ConfirmStep, RecoverStep;
    KeptSelf(w);
    match w.procs[p].at
    case Begun(_, _) => BegunKeeps(w, p);
    case PutRow(_, _, _, _) => PutKeeps(w, p);
    case Transmit(_, _, _) => TransmitKeeps(w, p);
    case ConfirmRead(_, _, _) => ConfirmKeeps(w, p);
    case ConfirmLookup(_, _, _) => ConfirmKeeps(w, p);
    case ConfirmReread(_, _, _) => ConfirmKeeps(w, p);
    case RecoverLookup(_) => RecoverKeeps(w, p);
    case RecoverRead(_) => RecoverKeeps(w, p);
    case LateRead(_) => LateReadKeeps(w, p);
    case Accept(m) =>
      ProcOurs(w, p);
      AcceptKeeps(w, p, m);
    case _ =>
  }

  lemma ProcOurs(w: Outbox, p: nat)
    requires OutboxOk(w) && p in w.procs && w.procs[p].at.Accept?
    ensures Ours(w, w.procs[p].at.message)
  {
    hide OutboxOk, RowsOk;
    ProcFacts(w, p);
  }

  lemma LateReadKeeps(w: Outbox, p: nat)
    requires OutboxOk(w) && p in w.procs && w.procs[p].at.LateRead?
    ensures Kept(w, AdvanceStep(w, p))
  {
    ProcFacts(w, p);
    hide OutboxOk, RowsOk;
    FailKeeps(w, p);
    Goes(w, p, Accept(w.procs[p].at.message));
  }

  lemma UnconfirmedKeeps(w: Outbox, p: nat)
    requires OutboxOk(w) && p in w.procs
    ensures Kept(w, UnconfirmedStep(w, p))
  {
    hide OutboxOk, CommandOk, CallerOk, RowOk, RowsOk, Unclear, Says;
    ProcFacts(w, p);
    KeptSelf(w);
    FailKeeps(w, p);
    match w.procs[p].at
    case AnswerWait(caller, command, tries) => UnclearKeeps(w, p, caller, command, tries);
    case ConfirmLookup(caller, command, round) => UnclearKeeps(w, p, caller, command, round + 1);
    case _ =>
  }

  lemma SpawnKeeps(w: Outbox, p: nat, proc: Process)
    requires OutboxOk(w) && ProcessOk(w, proc)
    ensures Kept(w, Spawn(w, p, proc))
  {
    hide OutboxOk, ProcessOk;
    KeptSelf(w);
    MoveKeeps(w, p, proc);
  }

  // ---- the server ----

  lemma CallsStay(s: ST.Server, l: ST.Label)
    ensures var after := ST.Apply(s, l);
      forall t :: t in after.calls ==>
        (t in s.calls && after.calls[t] == s.calls[t]) || (l.Begin? && l.t == t && after.calls[t] == l.call)
  {
    hide ST.BeginStep, ST.LockStep, ST.ReadStep, ST.CommitStep;
    match l
    case Begin(t, call) => BeginCalls(s, t, call);
    case TakeLock(t) => LockKeepsTables(s, t);
    case Read(t) => ReadKeepsTables(s, t);
    case Commit(t, messageId, ids, now) => CommitCalls(s, t, messageId, ids, now);
    case _ =>
  }

  lemma BeginCalls(s: ST.Server, t: nat, call: ST.Call)
    ensures ST.BeginStep(s, t, call).calls == if t in s.calls then s.calls else s.calls[t := call]
  {
    hide ST.ValidateEnvelopes, FindByClient;
  }

  lemma CommitCalls(s: ST.Server, t: nat, messageId: nat, ids: map<nat, nat>, now: int)
    ensures ST.CommitStep(s, t, messageId, ids, now).calls == s.calls
  {
    hide FindByClient, ST.NumberTaken, ST.NewEnvelopes, ST.PositionExists, ST.FreshIds, ST.ReadyToSend, ST.Inserted,
         ST.Record;
  }

  lemma ServerCallsOk(w: Outbox, l: ST.Label)
    requires CallsOk(w) && (l.Begin? && l.call.Send? && l.call.request.device == w.device ==> l.call.request in w.wire)
    ensures CallsOk(w.(server := ST.Apply(w.server, l)))
  {
    hide ST.Apply;
    CallsStay(w.server, l);
  }

  /** A message this device commits was asked for by a request it transmitted. */
  lemma CommittedRequest(w: Outbox, l: ST.Label)
    requires OutboxOk(w) && Sends(w.server, l) && w.server.txs[l.t].call.request.device == w.device
    ensures var r := w.server.txs[l.t].call.request; r in w.wire && RequestOk(w, r)
  {
    hide Inv, MessagesOk, ContentsOk, RowsOk, ProcessesOk, RequestOk;
  }

  lemma NewMessageIsSent(s: ST.Server, l: ST.Label, m: Message)
    requires Inv(s) && m in ST.Apply(s, l).db.messages && m !in s.db.messages
    ensures Sends(s, l) && ST.ReadyToSend(s.txs[l.t]) && m == ST.NewMessage(s.txs[l.t], l.messageId, l.now)
  {
    hide Inv, ST.BeginStep, ST.LockStep, ST.ReadStep, ST.CommitSend, ST.NewEnvelopes, SendRows, ST.ReadyToSend;
    if Sends(s, l) {
      CommitSendGrows(s, l.t, l.messageId, l.envelopeIds, l.now);
    } else if !l.Acknowledge? && !l.Purge? {
      OtherStepsKeepRows(s, l);
    }
  }

  lemma NewMessageRow(w: Outbox, l: ST.Label, m: Message)
    requires OutboxOk(w) && Ours(w.(server := ST.Apply(w.server, l)), m)
    ensures Ours(w, m) || RowFor(w, m)
  {
    hide OutboxOk, ST.Apply, ST.ReadyToSend, RowFor, RequestOk, Inv, OutcomesHonest, ContentsOk;
    OutboxServer(w);
    if m !in w.server.db.messages {
      NewMessageIsSent(w.server, l, m);
      CommittedRequest(w, l);
      RequestRow(w, w.server.txs[l.t].call.request, m);
    }
  }

  lemma OutboxServer(w: Outbox)
    requires OutboxOk(w)
    ensures Inv(w.server) && OutcomesHonest(w.server) && CallsOk(w) && ContentsOk(w) && w.rows.Keys == w.typed.Keys
  {
    hide Inv, OutcomesHonest, CallsOk, MessagesOk, ContentsOk, WireOk, ProcessesOk, RowOk;
  }

  lemma RequestRow(w: Outbox, r: ST.SendRequest, m: Message)
    requires RequestOk(w, r) && m.clientId == r.clientId && m.chat == r.chat && m.senderUser == r.user
    ensures RowFor(w, m)
  {
  }

  lemma RequestText(w: Outbox, r: ST.SendRequest)
    requires RequestOk(w, r)
    ensures r.clientId in w.typed && Says(r.envelopes, w.typed[r.clientId])
  {
    hide Says;
  }

  /** What is stored for a message this device commits is what was first typed. */
  lemma CommittedContent(w: Outbox, l: ST.Label, e: Envelope)
    requires OutboxOk(w) && Sends(w.server, l) && ST.Apply(w.server, l).db != w.server.db
    requires w.server.txs[l.t].call.request.device == w.device
    requires e in ST.Apply(w.server, l).db.envelopes && ST.ReadyToSend(w.server.txs[l.t])
    requires e.message == ST.NewMessage(w.server.txs[l.t], l.messageId, l.now)
    ensures ContentOk(w.(server := ST.Apply(w.server, l)), e)
  {
    hide OutboxOk, ST.Apply, RequestOk, ActiveDevices, RoutedTo, OneEach, Says, TxsInv, PayloadState;
    hide ChatsGapless, BoxesGapless, MailboxesInChatOrder, ClientIdsUnique, EnvelopesKnown, AccountsKnown,
         PositionsBounded;
    OutboxServer(w);
    CommitRoutes(w.server, l);
    CommittedRequest(w, l);
    var r := w.server.txs[l.t].call.request;
    RequestText(w, r);
    SaysEach(r.envelopes, w.typed[r.clientId]);
    SaysValidates(r.envelopes, w.typed[r.clientId]);
    ApplyKeeps(w.server, l);
    assert RowContents(ST.Apply(w.server, l).contents, e);
  }

  lemma SaysEach(es: seq<ClientEnvelope>, text: Bytes)
    requires Says(es, text)
    ensures forall e :: e in es ==>
      e.protocol == PLAINTEXT_PROTOCOL && e.kind == PLAINTEXT_TYPE && e.payload == Encode(text)
  {
  }

  lemma ServerContent(w: Outbox, l: ST.Label, e: Envelope)
    requires OutboxOk(w) && e in ST.Apply(w.server, l).db.envelopes && e.message.senderDevice == w.device
    ensures ContentOk(w, e) || ContentOk(w.(server := ST.Apply(w.server, l)), e)
  {
    hide OutboxOk, ST.Apply, Inv, SendRows, ST.NewEnvelopes, ContentOk, ST.ReadyToSend, OutcomesHonest;
    OutboxServer(w);
    StepGrows(w.server, l);
    var rows, rows' := w.server.db.envelopes, ST.Apply(w.server, l).db.envelopes;
    var i :| 0 <= i < |rows'| && rows'[i] == e;
    if i < |rows| {
      assert rows[i] in rows && RowEvolves(rows[i], rows'[i]);
      SameContentRow(w, rows[i], e);
    } else {
      NewRowIsSent(w, l, i);
      CommittedContent(w, l, e);
    }
  }

  lemma SameContentRow(w: Outbox, a: Envelope, b: Envelope)
    requires ContentOk(w, a) && RowEvolves(a, b)
    ensures ContentOk(w, b)
  {
  }

  lemma NewRowIsSent(w: Outbox, l: ST.Label, i: nat)
    requires OutboxOk(w) && |w.server.db.envelopes| <= i < |ST.Apply(w.server, l).db.envelopes|
    ensures Sends(w.server, l) && ST.Apply(w.server, l).db != w.server.db && ST.ReadyToSend(w.server.txs[l.t])
    ensures var m := ST.NewMessage(w.server.txs[l.t], l.messageId, l.now);
      ST.Apply(w.server, l).db.envelopes[i].message == m && m.senderDevice == w.server.txs[l.t].call.request.device
  {
    hide OutboxOk, Inv, ST.CommitSend, SendRows, ST.NewEnvelopes, OutcomesHonest, ST.ReadyToSend, SentRows,
         HoldsCounters;
    OutboxServer(w);
    if Sends(w.server, l) {
      CommitSendGrows(w.server, l.t, l.messageId, l.envelopeIds, l.now);
      CommitIsFresh(w.server, l);
      ReadyHoldsCounters(w.server, l.t);
      var m := ST.NewMessage(w.server.txs[l.t], l.messageId, l.now);
      SentRowsAre(w.server, w.server.txs[l.t], m, l.envelopeIds);
      SentRowMessage(w.server.db, m, SendRows(w.server.txs[l.t], m, l.envelopeIds));
      var j := i - |w.server.db.envelopes|;
      assert ST.Apply(w.server, l).db.envelopes[i] == SendRows(w.server.txs[l.t], m, l.envelopeIds)[j];
    } else if !l.Acknowledge? && !l.Purge? {
      OtherStepsKeepRows(w.server, l);
    }
  }

  lemma SentRowMessage(db: Tables, m: Message, rows: seq<Envelope>)
    requires SentRows(db, m, rows)
    ensures forall i :: 0 <= i < |rows| ==> rows[i].message == m
  {
  }

  lemma ServerKeeps(w: Outbox, l: ST.Label)
    requires OutboxOk(w)
    requires l.Begin? && l.call.Send? && l.call.request.device == w.device ==> l.call.request in w.wire
    ensures Kept(w, w.(server := ST.Apply(w.server, l)))
  {
    hide OutboxOk, ST.Apply, Inv, OutcomesHonest, CallsOk, ContentOk, RowFor, ProcessOk, RowOk, RequestOk, RowsEvolve;
    var after := w.(server := ST.Apply(w.server, l));
    OutboxServer(w);
    ApplyKeeps(w.server, l);
    StepKeepsHonest(w.server, l);
    ServerCallsOk(w, l);
    StepGrows(w.server, l);
    assert Grows(w, after);
    hide Grows;
    forall m | Ours(after, m) ensures Ours(w, m) || RowFor(after, m) {
      NewMessageRow(w, l, m);
      SameRow(w, after, m);
    }
    forall e | e in after.server.db.envelopes && e.message.senderDevice == w.device
      ensures ContentOk(w, e) || ContentOk(after, e)
    {
      ServerContent(w, l, e);
    }
    GrowthKeeps(w, after);
  }

  lemma SameRow(w: Outbox, after: Outbox, m: Message)
    requires after == w.(server := after.server)
    ensures RowFor(w, m) ==> RowFor(after, m)
  {
  }

  /** Every event keeps the outbox in order. */
  lemma NextKeeps(w: Outbox, event: Event)
    requires OutboxOk(w)
    ensures Kept(w, Next(w, event))
  {
    hide OutboxOk, Kept, ST.Apply, AdvanceStep, AnswerStep, DevicesStep, UnconfirmedStep, Spawn, RowOk, RowsOk;
    KeptSelf(w);
    match event
    case ServerStep(l) =>
      if !(l.Begin? && l.call.Send? && l.call.request.device == w.device && l.call.request !in w.wire) {
        ServerKeeps(w, l);
      }
    case SendText(p, chat, text, clientId, given) => SpawnKeeps(w, p, Process(chat, clientId, Begun(text, given)));
    case Retry(p, clientId) =>
      if clientId in w.rows {
        StoredRowOk(w, clientId);
        SpawnKeeps(w, p, Process(w.rows[clientId].command.chat, clientId, RecoverLookup(w.rows[clientId])));
      }
    case LateAcceptance(p, t) => LateKeeps(w, p, t);
    case GotDevices(p, devices) => if p in w.procs && w.procs[p].at.Devices? { DevicesKeeps(w, p, devices); }
    case Advance(p) => if p in w.procs { AdvanceKeeps(w, p); }
    case Answer(p, t) => if p in w.procs && w.procs[p].at.AnswerWait? { AnswerKeeps(w, p, t); }
    case Unconfirmed(p) => if p in w.procs { UnconfirmedKeeps(w, p); }
    case Throw(p) => if p in w.procs { FailKeeps(w, p); }
  }

  lemma StoredRowOk(w: Outbox, clientId: nat)
    requires OutboxOk(w) && clientId in w.rows
    ensures RowOk(w, w.rows[clientId])
  {
    hide ServerOk, CallsOk, MessagesOk, ContentsOk, WireOk, ProcessesOk, RowOk;
  }

  lemma LateKeeps(w: Outbox, p: nat, t: nat)
    requires OutboxOk(w)
    ensures Kept(w, Next(w, LateAcceptance(p, t)))
  {
    hide OutboxOk, Kept, Spawn, Ours;
    KeptSelf(w);
    if t in w.server.outcomes && t in w.server.calls && w.server.outcomes[t].Stored? && w.server.calls[t].Send?
       && w.server.calls[t].request.device == w.device {
      StoredIsOurs(w, t);
      var m := w.server.outcomes[t].message;
      SpawnKeeps(w, p, Process(m.chat, m.clientId, LateRead(m)));
    }
  }

  lemma {:induction false} HistoryKeeps(w: Outbox, events: seq<Event>)
    requires OutboxOk(w)
    ensures Kept(w, History(w, events))
  {
    hide OutboxOk, Grows, Next;
    if events == [] {
      KeptSelf(w);
    } else {
      var mid := History(w, events[..|events| - 1]);
      HistoryKeeps(w, events[..|events| - 1]);
      NextKeeps(mid, events[|events| - 1]);
      KeptThen(w, mid, Next(mid, events[|events| - 1]));
    }
  }

  // ---- what a sender may rely on ----

  /** A device that has not sent anything yet, on a server in any reachable state. */
  ghost predicate Start(w: Outbox)
  {
    && Reachable(w.server) && w.rows == map[] && w.wire == {} && w.procs == map[] && w.typed == map[]
    && (forall m :: m in w.server.db.messages ==> m.senderDevice != w.device)
    && (forall t :: t in w.server.calls && w.server.calls[t].Send? ==> w.server.calls[t].request.device != w.device)
  }

  ghost predicate InRun(w0: Outbox, w: Outbox)
  {
    Start(w0) && exists events :: w == History(w0, events)
  }

  lemma StartOk(w: Outbox)
    requires Start(w)
    ensures OutboxOk(w)
  {
    var s0, labels :| ServerTheorems.Start(s0) && w.server == ST.Run(s0, labels);
    RunKeepsHonest(s0, labels);
    assert EnvelopesKnown(w.server.db);
    hide Inv, OutcomesHonest;
  }

  lemma RunOk(w0: Outbox, w: Outbox)
    requires InRun(w0, w)
    ensures OutboxOk(w)
  {
    hide OutboxOk;
    StartOk(w0);
    var events :| w == History(w0, events);
    HistoryKeeps(w0, events);
  }

  /** Exactly once: a client message id has at most one message on the server, and what any of
      its envelopes was stored with is what the user first typed; its row existed before. */
  lemma SentOnceAsTyped(w0: Outbox, w: Outbox, m: Message, n: Message, e: Envelope)
    requires InRun(w0, w) && Ours(w, m)
    ensures Ours(w, n) && n.clientId == m.clientId ==> n == m
    ensures m.clientId in w.rows && m.chat == w.rows[m.clientId].command.chat
    ensures e in w.server.db.envelopes && e.message == m ==>
      e.id in w.server.contents && m.clientId in w.typed && w.server.contents[e.id] == w.typed[m.clientId]
  {
    hide OutboxOk, InRun, RowOk;
    RunOk(w0, w);
    OursRow(w, m);
    OutboxServer(w);
    if Ours(w, n) && n.clientId == m.clientId { OursOnce(w, m, n); }
  }

  /** Nothing is transmitted for a message before its row is durable, and every command ever
      stored or transmitted for it decodes to what was first typed. */
  lemma TransmittedIsDurable(w0: Outbox, w: Outbox, r: ST.SendRequest)
    requires InRun(w0, w) && r in w.wire
    ensures r.clientId in w.rows && r.clientId in w.typed && r.chat == w.rows[r.clientId].command.chat
    ensures forall e :: e in r.envelopes ==> DecodeIncoming(e) == Some(w.typed[r.clientId])
    ensures forall e :: e in w.rows[r.clientId].command.envelopes ==> DecodeIncoming(e) == Some(w.typed[r.clientId])
  {
    hide OutboxOk, InRun, Says, DecodeIncoming;
    RunOk(w0, w);
    WireRequest(w, r);
    StoredRowOk(w, r.clientId);
    RowKey(w, r.clientId);
    SaysDecodes(r.envelopes, w.typed[r.clientId]);
    SaysDecodes(w.rows[r.clientId].command.envelopes, w.typed[r.clientId]);
  }

  lemma RowKey(w: Outbox, clientId: nat)
    requires OutboxOk(w) && clientId in w.rows
    ensures w.rows[clientId].command.clientId == clientId
  {
    hide ServerOk, CallsOk, MessagesOk, ContentsOk, WireOk, ProcessesOk, RowOk;
  }

  lemma WireRequest(w: Outbox, r: ST.SendRequest)
    requires OutboxOk(w) && r in w.wire
    ensures RequestOk(w, r)
  {
    hide ServerOk, CallsOk, MessagesOk, ContentsOk, RowsOk, ProcessesOk, RequestOk;
  }

  /** From any moment of a run on: a row stays with its chat, what was typed stays, and once
      accepted a row never changes again, so it is bound to one server message for good. */
  lemma RowsAreForGood(w0: Outbox, w: Outbox, events: seq<Event>, clientId: nat)
    requires InRun(w0, w) && clientId in w.rows
    ensures var after := History(w, events);
      && clientId in after.rows && after.rows[clientId].command.chat == w.rows[clientId].command.chat
      && clientId in w.typed && clientId in after.typed && after.typed[clientId] == w.typed[clientId]
      && (w.rows[clientId].accepted.Some? ==> after.rows[clientId] == w.rows[clientId])
  {
    hide OutboxOk, InRun, History;
    RunOk(w0, w);
    OutboxServer(w);
    HistoryKeeps(w, events);
    assert RowGrows(w.rows[clientId], History(w, events).rows[clientId]);
  }

  /** A send that reports success has its message on the server and its row bound to it; an
      accepted row always names the one server message of its id. */
  lemma SuccessIsDurable(w0: Outbox, w: Outbox, p: nat)
    requires InRun(w0, w) && p in w.procs && w.procs[p].at.Ended? && w.procs[p].at.result.Some?
    ensures var m := w.procs[p].at.result.value;
      Ours(w, m) && m.clientId in w.rows && w.rows[m.clientId].accepted == Some(m)
  {
    hide OutboxOk, InRun, RowsOk;
    RunOk(w0, w);
    ProcFacts(w, p);
  }
}
