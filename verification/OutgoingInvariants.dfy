/** What holds at every moment of every run of the outgoing path, and its preservation. */
module OutgoingInvariants {
  import opened Common
  import opened Base64
  import opened MessageTables
  import ST = ServerTransactions
  import opened ServerInvariants
  import opened ServerTheorems
  import opened OutgoingMachine

  // ---- texts ----

  /** Every envelope of a command carries the one encoding of `text`. */
  ghost predicate Says(es: seq<ClientEnvelope>, text: Bytes)
  {
    && es != []
    && forall e :: e in es ==> e.protocol == PLAINTEXT_PROTOCOL && e.kind == PLAINTEXT_TYPE && e.payload == Encode(text)
  }

  lemma SaysDecodes(es: seq<ClientEnvelope>, text: Bytes)
    requires Says(es, text)
    ensures forall e :: e in es ==> DecodeIncoming(e) == Some(text)
  {
    DecodeEncode(text);
  }

  /** What the server stores for such a command is the text. */
  lemma {:induction false} SaysValidates(es: seq<ClientEnvelope>, text: Bytes)
    requires (forall e :: e in es ==>
              e.protocol == PLAINTEXT_PROTOCOL && e.kind == PLAINTEXT_TYPE && e.payload == Encode(text))
    ensures ST.ValidateEnvelopes(es).Ok? ==>
      forall d :: d in ST.ValidateEnvelopes(es).value ==> ST.ValidateEnvelopes(es).value[d] == text
  {
    hide ValidateEnvelope, Encode, Decode;
    if es != [] {
      var last := es[|es| - 1];
      SaysValidates(es[..|es| - 1], text);
      if ValidateEnvelope(last).Ok? {
        ValidatesExactlyEncodings(last, ValidateEnvelope(last).value);
        EncodeInjective(ValidateEnvelope(last).value, text);
      }
    }
  }

  // ---- the server's part ----

  /** A message of this device on the server. */
  ghost predicate Ours(w: Outbox, m: Message)
  {
    m in w.server.db.messages && m.senderDevice == w.device
  }

  /** Every send the server was asked for in this device's name was transmitted by it. */
  ghost predicate CallsOk(w: Outbox)
  {
    forall t :: t in w.server.calls && w.server.calls[t].Send? && w.server.calls[t].request.device == w.device ==>
      w.server.calls[t].request in w.wire
  }

  /** A message belongs to a stored row: same chat, same user. */
  ghost predicate RowFor(w: Outbox, m: Message)
  {
    m.clientId in w.rows && m.clientId in w.typed && m.chat == w.rows[m.clientId].command.chat && m.senderUser == w.user
  }

  ghost predicate MessagesOk(w: Outbox)
  {
    forall m :: Ours(w, m) ==> RowFor(w, m)
  }

  ghost predicate ContentOk(w: Outbox, e: Envelope)
  {
    && e.id in w.server.contents && e.message.clientId in w.typed
    && w.server.contents[e.id] == w.typed[e.message.clientId]
  }

  ghost predicate ContentsOk(w: Outbox)
  {
    forall e :: e in w.server.db.envelopes && e.message.senderDevice == w.device ==> ContentOk(w, e)
  }

  // ---- rows, wire, processes ----

  ghost predicate CommandOk(w: Outbox, c: Command)
  {
    && c.clientId in w.rows && c.clientId in w.typed
    && c.chat == w.rows[c.clientId].command.chat && Says(c.envelopes, w.typed[c.clientId])
  }

  /** A row as stored now or at some time before. */
  ghost predicate RowOk(w: Outbox, row: Row)
  {
    && CommandOk(w, row.command)
    && (row.accepted.Some? ==> Ours(w, row.accepted.value) && row.accepted.value.clientId == row.command.clientId)
  }

  ghost predicate RowsOk(w: Outbox)
  {
    && w.rows.Keys == w.typed.Keys
    && forall c :: c in w.rows ==> w.rows[c].command.clientId == c && RowOk(w, w.rows[c])
  }

  ghost predicate RequestOk(w: Outbox, r: ST.SendRequest)
  {
    r.user == w.user && r.device == w.device && CommandOk(w, Command(r.chat, r.clientId, r.envelopes))
  }

  /** A row is durable before anything is transmitted for it. */
  ghost predicate WireOk(w: Outbox)
  {
    forall r :: r in w.wire ==> RequestOk(w, r)
  }

  ghost predicate Known(w: Outbox, clientId: nat, text: Bytes)
  {
    clientId in w.rows && clientId in w.typed && w.typed[clientId] == text
  }

  ghost predicate CallerOk(w: Outbox, clientId: nat, caller: Caller)
  {
    match caller
    case NewText(text, _) => Known(w, clientId, text)
    case Recovery(row) => RowOk(w, row)
  }

  ghost predicate ProcessOk(w: Outbox, proc: Process)
  {
    match proc.at
    case Begun(_, _) => true
    case Devices(text, _, replace) => replace ==> Known(w, proc.clientId, text)
    case PutRow(text, _, replace, command) =>
      && command.clientId == proc.clientId && command.chat == proc.chat && Says(command.envelopes, text)
      && (replace ==> Known(w, proc.clientId, text))
    case Transmit(caller, command, _) => CommandOk(w, command) && CallerOk(w, proc.clientId, caller)
    case AnswerWait(caller, command, _) => CommandOk(w, command) && CallerOk(w, proc.clientId, caller)
    case ConfirmRead(caller, command, _) => CommandOk(w, command) && CallerOk(w, proc.clientId, caller)
    case ConfirmLookup(caller, command, _) => CommandOk(w, command) && CallerOk(w, proc.clientId, caller)
    case ConfirmReread(caller, command, _) => CommandOk(w, command) && CallerOk(w, proc.clientId, caller)
    case RecoverLookup(row) => RowOk(w, row)
    case RecoverRead(row) => RowOk(w, row)
    case LateRead(m) => Ours(w, m)
    case Accept(m) => Ours(w, m)
    case Ended(result) => result.Some? ==> Settled(w, result.value)
  }

  /** The durable row of `m` is bound to it. */
  ghost predicate Settled(w: Outbox, m: Message)
  {
    Ours(w, m) && m.clientId in w.rows && w.rows[m.clientId].accepted == Some(m)
  }

  ghost predicate ProcessesOk(w: Outbox)
  {
    forall p :: p in w.procs ==> ProcessOk(w, w.procs[p])
  }

  ghost predicate ServerOk(s: ST.Server)
  {
    Inv(s) && OutcomesHonest(s)
  }

  ghost predicate OutboxOk(w: Outbox)
  {
    && ServerOk(w.server) && CallsOk(w) && MessagesOk(w) && ContentsOk(w)
    && RowsOk(w) && WireOk(w) && ProcessesOk(w)
  }

  // ---- growth ----

  /** A stored row stays: its chat is fixed, its command changes only while it is not accepted,
      and an acceptance is never withdrawn, replaced or bound to another message. */
  ghost predicate RowGrows(a: Row, b: Row)
  {
    a.command.chat == b.command.chat && (a.accepted.Some? ==> b == a)
  }

  ghost predicate RowsGrow(a: map<nat, Row>, b: map<nat, Row>)
  {
    forall c :: c in a ==> c in b && RowGrows(a[c], b[c])
  }

  ghost predicate TypedGrows(a: map<nat, Bytes>, b: map<nat, Bytes>)
  {
    forall c :: c in a ==> c in b && b[c] == a[c]
  }

  ghost predicate Grows(w: Outbox, after: Outbox)
  {
    && after.user == w.user && after.device == w.device && w.wire <= after.wire
    && RowsGrow(w.rows, after.rows) && TypedGrows(w.typed, after.typed)
    && w.server.db.messages <= after.server.db.messages && ContentsGrow(w.server.contents, after.server.contents)
  }

  ghost predicate ContentsGrow(a: map<nat, Bytes>, b: map<nat, Bytes>)
  {
    forall id :: id in a ==> id in b && b[id] == a[id]
  }

  lemma GrowsSelf(w: Outbox)
    ensures Grows(w, w)
  {
  }

  lemma GrowsThen(w: Outbox, mid: Outbox, after: Outbox)
    requires Grows(w, mid) && Grows(mid, after)
    ensures Grows(w, after)
  {
    forall c | c in w.rows ensures c in after.rows && RowGrows(w.rows[c], after.rows[c]) {
      assert RowGrows(w.rows[c], mid.rows[c]) && RowGrows(mid.rows[c], after.rows[c]);
    }
  }

  lemma CommandStays(w: Outbox, after: Outbox, c: Command)
    requires CommandOk(w, c) && Grows(w, after)
    ensures CommandOk(after, c)
  {
    hide Says;
    assert RowGrows(w.rows[c.clientId], after.rows[c.clientId]);
  }

  lemma RowStays(w: Outbox, after: Outbox, row: Row)
    requires RowOk(w, row) && Grows(w, after)
    ensures RowOk(after, row)
  {
    hide CommandOk;
    CommandStays(w, after, row.command);
  }

  lemma ProcessStays(w: Outbox, after: Outbox, proc: Process)
    requires ProcessOk(w, proc) && Grows(w, after)
    ensures ProcessOk(after, proc)
  {
    hide CommandOk, RowOk, Says;
    match proc.at
    case Transmit(caller, command, _) => CallerStays(w, after, proc.clientId, caller, command);
    case AnswerWait(caller, command, _) => CallerStays(w, after, proc.clientId, caller, command);
    case ConfirmRead(caller, command, _) => CallerStays(w, after, proc.clientId, caller, command);
    case ConfirmLookup(caller, command, _) => CallerStays(w, after, proc.clientId, caller, command);
    case ConfirmReread(caller, command, _) => CallerStays(w, after, proc.clientId, caller, command);
    case RecoverLookup(row) => RowStays(w, after, row);
    case RecoverRead(row) => RowStays(w, after, row);
    case _ =>
  }

  lemma CallerStays(w: Outbox, after: Outbox, clientId: nat, caller: Caller, command: Command)
    requires CommandOk(w, command) && CallerOk(w, clientId, caller) && Grows(w, after)
    ensures CommandOk(after, command) && CallerOk(after, clientId, caller)
  {
    hide CommandOk, RowOk;
    CommandStays(w, after, command);
    if caller.Recovery? { RowStays(w, after, caller.row); }
  }

  // ---- processes alone ----

  ghost predicate Kept(w: Outbox, after: Outbox)
  {
    OutboxOk(after) && Grows(w, after)
  }

  lemma KeptSelf(w: Outbox)
    requires OutboxOk(w)
    ensures Kept(w, w)
  {
    hide OutboxOk;
    GrowsSelf(w);
  }

  lemma KeptThen(w: Outbox, mid: Outbox, after: Outbox)
    requires Kept(w, mid) && Kept(mid, after)
    ensures Kept(w, after)
  {
    hide OutboxOk, Grows;
    GrowsThen(w, mid, after);
  }

  /** A step that only grows the outbox keeps it well-formed if what is new in it is. */
  lemma GrowthKeeps(w: Outbox, after: Outbox)
    requires OutboxOk(w) && Grows(w, after) && ServerOk(after.server) && CallsOk(after)
    requires forall m :: Ours(after, m) ==> Ours(w, m) || RowFor(after, m)
    requires forall e :: e in after.server.db.envelopes && e.message.senderDevice == w.device ==>
      ContentOk(w, e) || ContentOk(after, e)
    requires after.rows.Keys == after.typed.Keys
    requires forall c :: c in after.rows ==>
      (c in w.rows && after.rows[c] == w.rows[c])
        || (after.rows[c].command.clientId == c && RowOk(after, after.rows[c]))
    requires forall r :: r in after.wire ==> r in w.wire || RequestOk(after, r)
    requires forall p :: p in after.procs ==>
      (p in w.procs && after.procs[p] == w.procs[p]) || ProcessOk(after, after.procs[p])
    ensures Kept(w, after)
  {
    hide ServerOk, CallsOk;
    OldRowsStay(w, after);
    OldProcessesStay(w, after);
    OldWireStays(w, after);
    hide ProcessOk, RowOk, RequestOk, Grows;
    forall e | e in after.server.db.envelopes && e.message.senderDevice == after.device ensures ContentOk(after, e) {
      if ContentOk(w, e) { SameContent(w, after, e); }
    }
    forall m | Ours(after, m) ensures RowFor(after, m) {
      if Ours(w, m) { SameRowFor(w, after, m); }
    }
  }

  lemma OldRowsStay(w: Outbox, after: Outbox)
    requires OutboxOk(w) && Grows(w, after)
    ensures forall c :: c in after.rows && c in w.rows && after.rows[c] == w.rows[c] ==>
      after.rows[c].command.clientId == c && RowOk(after, after.rows[c])
    ensures after.device == w.device
  {
    hide ServerOk, CallsOk, MessagesOk, ContentsOk, WireOk, ProcessesOk, RowOk;
    forall c | c in after.rows && c in w.rows && after.rows[c] == w.rows[c] ensures RowOk(after, after.rows[c]) {
      RowStays(w, after, w.rows[c]);
    }
  }

  lemma OldProcessesStay(w: Outbox, after: Outbox)
    requires OutboxOk(w) && Grows(w, after)
    ensures forall p :: p in after.procs && p in w.procs && after.procs[p] == w.procs[p] ==>
      ProcessOk(after, after.procs[p])
  {
    hide ServerOk, CallsOk, MessagesOk, ContentsOk, WireOk, RowsOk, Grows, ProcessOk;
    forall p | p in after.procs && p in w.procs && after.procs[p] == w.procs[p]
      ensures ProcessOk(after, after.procs[p])
    {
      ProcessStays(w, after, w.procs[p]);
    }
  }

  lemma OldWireStays(w: Outbox, after: Outbox)
    requires OutboxOk(w) && Grows(w, after)
    ensures forall r :: r in w.wire ==> RequestOk(after, r)
  {
    hide ServerOk, CallsOk, MessagesOk, ContentsOk, RowsOk, ProcessesOk, CommandOk;
    forall r | r in w.wire ensures RequestOk(after, r) {
      CommandStays(w, after, Command(r.chat, r.clientId, r.envelopes));
    }
  }

  lemma SameContent(w: Outbox, after: Outbox, e: Envelope)
    requires ContentOk(w, e) && Grows(w, after)
    ensures ContentOk(after, e)
  {
  }

  lemma SameRowFor(w: Outbox, after: Outbox, m: Message)
    requires RowFor(w, m) && Grows(w, after)
    ensures RowFor(after, m)
  {
    assert RowGrows(w.rows[m.clientId], after.rows[m.clientId]);
  }

  lemma MoveKeeps(w: Outbox, p: nat, proc: Process)
    requires OutboxOk(w) && ProcessOk(w, proc)
    ensures Kept(w, w.(procs := w.procs[p := proc]))
  {
    hide ServerOk, RowFor, ContentOk, RowOk, RequestOk, ProcessOk, Grows;
    var after := w.(procs := w.procs[p := proc]);
    ProcsGrow(w, after);
    ProcessStays(w, after, proc);
    GrowthKeeps(w, after);
  }

  lemma ProcsGrow(w: Outbox, after: Outbox)
    requires after == w.(procs := after.procs)
    ensures Grows(w, after)
  {
  }
}
