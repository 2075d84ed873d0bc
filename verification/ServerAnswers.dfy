/** What the server says of its rows, and why it stays true: an answer may arrive late, repeated or
    never, but no later step of the server contradicts it. */
module ServerAnswers {
  import opened Common
  import opened MessageTables
  import ST = ServerTransactions
  import opened ServerInvariants
  import opened ServerTheorems
  import opened InboxStore
  import opened InboxAgreement
  import OS = OutgoingStore

  // ---- incoming envelopes ----

  ghost predicate RowOfEnvelope(e: MailboxEnvelope, row: Envelope)
  {
    row.id == e.id && Render(row).routing == e.routing
  }

  /** The envelope names a row of the server with its immutable fields; payload and times may be old. */
  ghost predicate IsRow(s: ST.Server, e: MailboxEnvelope)
  {
    exists row :: row in s.db.envelopes && RowOfEnvelope(e, row)
  }

  // ---- sent messages ----

  ghost predicate SaidBy(row: Envelope, d: OS.Delivery)
  {
    && d.id == row.id && d.messageId == row.message.id && d.device == row.device && d.user == row.user
    && (d.deliveredAt.Some? ==> row.deliveredAt == d.deliveredAt)
    && (d.purgedAt.Some? ==> row.purgedAt == d.purgedAt)
  }

  /** A delivery row as the server told it at some time. */
  ghost predicate IsDelivery(s: ST.Server, d: OS.Delivery)
  {
    exists row :: row in s.db.envelopes && SaidBy(row, d)
  }

  ghost predicate SameMessage(m: OS.Sent, o: Message)
  {
    && m.id == o.id && m.chat == o.chat && m.senderUser == o.senderUser && m.senderDevice == o.senderDevice
    && m.clientId == o.clientId && m.createdAt == o.createdAt && (m.chatSeq.Some? ==> m.chatSeq.value == o.chatSeq)
  }

  ghost predicate DistinctDeliveries(es: seq<OS.Delivery>)
  {
    forall i, j :: 0 <= i < j < |es| ==> es[i].id != es[j].id
  }

  /** The deliveries are those of the message, each once, in whatever order. */
  ghost predicate DeliveriesOf(s: ST.Server, o: Message, es: seq<OS.Delivery>)
  {
    && DistinctDeliveries(es)
    && (forall d :: d in es ==> IsDelivery(s, d) && d.messageId == o.id)
    && (forall row :: row in s.db.envelopes && row.message == o ==> exists d :: d in es && d.id == row.id)
  }

  ghost predicate Describes(s: ST.Server, m: OS.Sent, o: Message)
  {
    o in s.db.messages && SameMessage(m, o) && DeliveriesOf(s, o, m.envelopes)
  }

  /** A sent message as the server told it at some time. */
  ghost predicate IsSent(s: ST.Server, m: OS.Sent)
  {
    exists o :: Describes(s, m, o)
  }

  // ---- identifiers belong together ----

  lemma SameEnvelopeRow(s: ST.Server, a: Envelope, b: Envelope)
    requires EnvelopesKnown(s.db) && a in s.db.envelopes && b in s.db.envelopes && a.id == b.id
    ensures a == b
  {
    var i :| 0 <= i < |s.db.envelopes| && s.db.envelopes[i] == a;
    var j :| 0 <= j < |s.db.envelopes| && s.db.envelopes[j] == b;
  }

  lemma SameRouting(s: ST.Server, a: MailboxEnvelope, b: MailboxEnvelope)
    requires EnvelopesKnown(s.db) && IsRow(s, a) && IsRow(s, b) && a.id == b.id
    ensures a.routing == b.routing
  {
    var r :| r in s.db.envelopes && RowOfEnvelope(a, r);
    var q :| q in s.db.envelopes && RowOfEnvelope(b, q);
    SameEnvelopeRow(s, r, q);
  }

  lemma SameMessageRow(s: ST.Server, a: Message, b: Message)
    requires ClientIdsUnique(s.db.messages) && a in s.db.messages && b in s.db.messages
    requires a.id == b.id || SentBy(a, b.senderDevice, b.clientId)
    ensures a == b
  {
    var i :| 0 <= i < |s.db.messages| && s.db.messages[i] == a;
    var j :| 0 <= j < |s.db.messages| && s.db.messages[j] == b;
  }

  /** Two answers about one message, by its identifier or by its sender's, agree on all of it. */
  lemma SameAnswer(s: ST.Server, m: OS.Sent, n: OS.Sent)
    requires ClientIdsUnique(s.db.messages) && IsSent(s, m) && IsSent(s, n)
    requires m.id == n.id || (m.senderDevice == n.senderDevice && m.clientId == n.clientId)
    ensures m.id == n.id && m.chat == n.chat && m.senderUser == n.senderUser && m.senderDevice == n.senderDevice
    ensures m.clientId == n.clientId && m.createdAt == n.createdAt
  {
    hide DeliveriesOf;
    var o :| Describes(s, m, o);
    var p :| Describes(s, n, p);
    SameMessageRow(s, o, p);
  }

  // ---- answers stay true ----

  ghost predicate StaysTrue(s: ST.Server, after: ST.Server)
  {
    && (forall e :: IsRow(s, e) ==> IsRow(after, e))
    && (forall d :: IsDelivery(s, d) ==> IsDelivery(after, d))
    && (forall m :: IsSent(s, m) ==> IsSent(after, m))
  }

  /** No envelope is ever added to a message that was stored before. */
  ghost predicate RowsOfOldMessages(s: ST.Server, after: ST.Server)
  {
    forall row :: row in after.db.envelopes && row.message in s.db.messages ==>
      exists prior :: prior in s.db.envelopes && prior.message == row.message && prior.id == row.id
  }

  lemma EvolvedRow(s: ST.Server, after: ST.Server, row: Envelope) returns (later: Envelope)
    requires RowsEvolve(s.db.envelopes, after.db.envelopes) && row in s.db.envelopes
    ensures later in after.db.envelopes && RowEvolves(row, later)
  {
    var i :| 0 <= i < |s.db.envelopes| && s.db.envelopes[i] == row;
    later := after.db.envelopes[i];
  }

  lemma RowStaysTrue(s: ST.Server, after: ST.Server, e: MailboxEnvelope)
    requires RowsEvolve(s.db.envelopes, after.db.envelopes) && IsRow(s, e)
    ensures IsRow(after, e)
  {
    hide RowsEvolve;
    var row :| row in s.db.envelopes && RowOfEnvelope(e, row);
    var later := EvolvedRow(s, after, row);
    assert RowOfEnvelope(e, later);
  }

  lemma DeliveryStaysTrue(s: ST.Server, after: ST.Server, d: OS.Delivery)
    requires RowsEvolve(s.db.envelopes, after.db.envelopes) && IsDelivery(s, d)
    ensures IsDelivery(after, d)
  {
    hide RowsEvolve;
    var row :| row in s.db.envelopes && SaidBy(row, d);
    var later := EvolvedRow(s, after, row);
    assert SaidBy(later, d);
  }

  lemma SentStaysTrue(s: ST.Server, after: ST.Server, m: OS.Sent)
    requires RowsEvolve(s.db.envelopes, after.db.envelopes) && s.db.messages <= after.db.messages
    requires RowsOfOldMessages(s, after) && IsSent(s, m)
    ensures IsSent(after, m)
  {
    hide RowsEvolve, SameMessage, IsDelivery;
    var o :| Describes(s, m, o);
    forall d | d in m.envelopes ensures IsDelivery(after, d) { DeliveryStaysTrue(s, after, d); }
    assert Describes(after, m, o);
  }

  /** The rows a step adds are those of a message it adds. */
  lemma StepAddsNoRows(s: ST.Server, l: ST.Label)
    requires Inv(s)
    ensures RowsOfOldMessages(s, ST.Apply(s, l))
  {
    hide Inv, RowsEvolve, ST.Apply;
    var after := ST.Apply(s, l);
    forall row | row in after.db.envelopes && row.message in s.db.messages
      ensures exists prior :: prior in s.db.envelopes && prior.message == row.message && prior.id == row.id
    {
      OldRowsOf(s, l, row);
    }
  }

  lemma OldRowsOf(s: ST.Server, l: ST.Label, row: Envelope)
    requires Inv(s) && row in ST.Apply(s, l).db.envelopes && row.message in s.db.messages
    ensures exists prior :: prior in s.db.envelopes && prior.message == row.message && prior.id == row.id
  {
    hide Inv, ST.CommitSend, SendRows, ST.NewEnvelopes, RowEvolves;
    var after := ST.Apply(s, l).db.envelopes;
    var i :| 0 <= i < |after| && after[i] == row;
    StepGrows(s, l);
    if i < |s.db.envelopes| {
      EvolvesSame(s.db.envelopes[i], row);
    } else {
      AddedRowIsNew(s, l, row, i);
    }
  }

  lemma EvolvesSame(a: Envelope, b: Envelope)
    requires RowEvolves(a, b)
    ensures a.message == b.message && a.id == b.id
  {
  }

  lemma AddedRowIsNew(s: ST.Server, l: ST.Label, row: Envelope, i: nat)
    requires Inv(s) && |s.db.envelopes| <= i < |ST.Apply(s, l).db.envelopes| && ST.Apply(s, l).db.envelopes[i] == row
    ensures row.message !in s.db.messages
  {
    hide Inv, ST.CommitSend, SendRows, ST.NewEnvelopes, HoldsCounters;
    if Sends(s, l) {
      CommitSendGrows(s, l.t, l.messageId, l.envelopeIds, l.now);
      CommitIsFresh(s, l);
      ReadyHoldsCounters(s, l.t);
      var m := ST.NewMessage(s.txs[l.t], l.messageId, l.now);
      MessageIsNew(s, s.txs[l.t], m, l.envelopeIds);
      SentRowAt(s.db, s.txs[l.t], m, l.envelopeIds, i - |s.db.envelopes|);
    } else if !l.Acknowledge? && !l.Purge? {
      OtherStepsKeepRows(s, l);
    }
  }

  /** Whatever the server does next, what it said stays true. */
  lemma AnswersStayTrue(s: ST.Server, l: ST.Label)
    requires Inv(s)
    ensures StaysTrue(s, ST.Apply(s, l))
  {
    hide Inv, RowsEvolve, IsRow, IsDelivery, IsSent, ST.Apply, RowsOfOldMessages;
    var after := ST.Apply(s, l);
    StepGrows(s, l);
    StepAddsNoRows(s, l);
    forall e | IsRow(s, e) ensures IsRow(after, e) { RowStaysTrue(s, after, e); }
    forall d | IsDelivery(s, d) ensures IsDelivery(after, d) { DeliveryStaysTrue(s, after, d); }
    forall m | IsSent(s, m) ensures IsSent(after, m) { SentStaysTrue(s, after, m); }
  }

  // ---- what the server answers with ----

  /** A served envelope, however old, names its row. */
  lemma ServedIsRow(s: ST.Server, v: MailboxEnvelope)
    requires Known(s, v)
    ensures IsRow(s, v)
  {
    hide CopyOf;
    var row := Log(s, v.routing.device)[v.routing.mailboxSeq - 1];
    MailboxMembers(s.db.envelopes, v.routing.device);
    assert row in s.db.envelopes;
    CopyNamesRow(s, v, row);
  }

  lemma CopyNamesRow(s: ST.Server, v: MailboxEnvelope, row: Envelope)
    requires CopyOf(s.contents, v, row)
    ensures RowOfEnvelope(v, row)
  {
  }

  function Told(row: Envelope): OS.Delivery
  {
    OS.Delivery(row.id, row.message.id, row.device, row.user, row.deliveredAt, row.purgedAt)
  }

  function RowsOf(rows: seq<Envelope>, o: Message): (r: seq<Envelope>)
    ensures forall row :: row in r <==> row in rows && row.message == o
  {
    if rows == [] then [] else
    var last := rows[|rows| - 1];
    assert forall row :: row in rows <==> row in rows[..|rows| - 1] || row == last;
    RowsOf(rows[..|rows| - 1], o) + (if last.message == o then [last] else [])
  }

  /** The answer about a stored message, to a send, a lookup or a page of sent messages. */
  function AnswerOf(s: ST.Server, o: Message): OS.Sent
  {
    var rows := RowsOf(s.db.envelopes, o);
    OS.Sent(o.id, o.chat, o.senderUser, o.senderDevice, o.clientId, o.createdAt, Some(o.chatSeq),
            seq(|rows|, i requires 0 <= i < |rows| => Told(rows[i])))
  }

  lemma {:induction false} RowsOfDiffer(rows: seq<Envelope>, o: Message)
    requires IdsDiffer(rows)
    ensures IdsDiffer(RowsOf(rows, o))
  {
    if rows != [] {
      var n := |rows| - 1;
      RowsOfDiffer(rows[..n], o);
      var before := RowsOf(rows[..n], o);
      forall i | 0 <= i < |before| ensures before[i].id != rows[n].id {
        assert before[i] in rows[..n];
        var k :| 0 <= k < n && rows[..n][k] == before[i];
        assert rows[k] == before[i];
      }
    }
  }

  /** What the server answers about a message, and the receipt it publishes for a row, is true. */
  lemma AnswersAreTrue(s: ST.Server, o: Message, told: Envelope)
    requires EnvelopesKnown(s.db) && o in s.db.messages && told in s.db.envelopes
    ensures IsSent(s, AnswerOf(s, o)) && IsDelivery(s, Told(told))
  {
    var rows, m := RowsOf(s.db.envelopes, o), AnswerOf(s, o);
    RowsOfDiffer(s.db.envelopes, o);
    forall d | d in m.envelopes ensures IsDelivery(s, d) && d.messageId == o.id {
      var i :| 0 <= i < |rows| && m.envelopes[i] == d;
      assert rows[i] in rows && SaidBy(rows[i], d);
    }
    forall row | row in s.db.envelopes && row.message == o ensures exists d :: d in m.envelopes && d.id == row.id {
      assert row in rows;
      var i :| 0 <= i < |rows| && rows[i] == row;
      assert m.envelopes[i] in m.envelopes;
    }
    assert Describes(s, m, o) && SaidBy(told, Told(told));
  }
}
