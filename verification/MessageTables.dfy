/** The server's tables: chats with their counters, device mailboxes, messages and the
    envelopes that carry them. Rows are kept in commit order. A message row never changes
    after its commit, so an envelope holds the row itself where the database holds its key.
    `migrated` is no table: it records which messages are older than the chat numbers, and no
    transaction reads it. */
module MessageTables {
  import opened Common
  import opened Base64

  const PAYLOAD_RETENTION: int := 45 * 24 * 3600

  datatype Chat = Chat(low: nat, high: nat, lastSeq: nat)
  {
    predicate HasMember(user: nat) { user == low || user == high }

    function Other(user: nat): nat { if user == low then high else low }
  }

  datatype Device = Device(user: nat, revoked: bool)

  datatype Message = Message(id: nat, chat: nat, senderUser: nat, senderDevice: nat, clientId: nat,
                             chatSeq: nat, createdAt: int)

  datatype Envelope = Envelope(id: nat, message: Message, device: nat, user: nat, mailboxSeq: nat,
                               payload: Option<Bytes>, createdAt: int, expiresAt: int,
                               deliveredAt: Option<int>, purgedAt: Option<int>)

  datatype Tables = Tables(users: map<nat, bool>,      // user -> account is active
                           chats: map<nat, Chat>,
                           devices: map<nat, Device>,
                           mailboxes: map<nat, nat>,   // device -> last_seq
                           messages: seq<Message>,
                           envelopes: seq<Envelope>,
                           positions: map<(nat, nat), nat>, // (chat, user) -> last_read_seq
                           migrated: map<nat, nat>)         // chat -> its counter when chat numbers came

  // ---- queries ----

  function Mailbox(envelopes: seq<Envelope>, device: nat): (rows: seq<Envelope>)
  {
    if envelopes == [] then [] else
    var last := envelopes[|envelopes| - 1];
    Mailbox(envelopes[..|envelopes| - 1], device) + (if last.device == device then [last] else [])
  }

  function ActiveDevices(db: Tables, user: nat): (active: set<nat>)
  {
    if user in db.users && db.users[user]
    then set d | d in db.devices && db.devices[d].user == user && !db.devices[d].revoked
    else {}
  }

  /** A message that got its chat number from the migration and not from its own commit. */
  predicate BeforeNumbers(migrated: map<nat, nat>, m: Message)
  {
    m.chat in migrated && m.chatSeq <= migrated[m.chat]
  }

  predicate SentBy(m: Message, device: nat, clientId: nat)
  {
    m.senderDevice == device && m.clientId == clientId
  }

  function FindByClient(messages: seq<Message>, device: nat, clientId: nat): (found: Option<Message>)
    ensures found.Some? ==> found.value in messages && SentBy(found.value, device, clientId)
    ensures found.None? ==> forall m :: m in messages ==> !SentBy(m, device, clientId)
  {
    if messages == [] then None else
    if SentBy(messages[0], device, clientId) then Some(messages[0])
    else FindByClient(messages[1..], device, clientId)
  }

  // ---- transitions of envelope rows ----

  function Acknowledged(e: Envelope, now: int): Envelope
  {
    e.(deliveredAt := e.deliveredAt.Or(Some(now)), payload := None, purgedAt := e.purgedAt.Or(Some(now)))
  }

  function Expired(e: Envelope, now: int): Envelope
  {
    if e.payload.Some? && e.expiresAt <= now then e.(payload := None, purgedAt := Some(now)) else e
  }

  function AcknowledgeRows(rows: seq<Envelope>, device: nat, id: nat, now: int): (r: seq<Envelope>)
    ensures |r| == |rows|
    ensures forall i :: 0 <= i < |r| ==>
      r[i] == if rows[i].id == id && rows[i].device == device then Acknowledged(rows[i], now) else rows[i]
  {
    seq(|rows|, i requires 0 <= i < |rows| =>
      if rows[i].id == id && rows[i].device == device then Acknowledged(rows[i], now) else rows[i])
  }

  function PurgeRows(rows: seq<Envelope>, selected: set<nat>, now: int): (r: seq<Envelope>)
    ensures |r| == |rows|
    ensures forall i :: 0 <= i < |r| ==>
      r[i] == if rows[i].id in selected then Expired(rows[i], now) else rows[i]
  {
    seq(|rows|, i requires 0 <= i < |rows| =>
      if rows[i].id in selected then Expired(rows[i], now) else rows[i])
  }

  /** What may ever happen to one stored row: it keeps its identity, its payload is kept or
      erased, and a receipt or purge time once set stays. */
  predicate RowEvolves(a: Envelope, b: Envelope)
  {
    && b == a.(payload := b.payload, deliveredAt := b.deliveredAt, purgedAt := b.purgedAt)
    && (b.payload == a.payload || b.payload == None)
    && (a.deliveredAt.Some? ==> b.deliveredAt == a.deliveredAt)
    && (a.purgedAt.Some? ==> b.purgedAt == a.purgedAt)
  }

  /** Rows are appended and evolve in place; none is removed or moved. */
  predicate RowsEvolve(a: seq<Envelope>, b: seq<Envelope>)
  {
    |a| <= |b| && forall i :: 0 <= i < |a| ==> RowEvolves(a[i], b[i])
  }

  // ---- facts about the queries ----

  lemma {:induction false} MailboxMembers(rows: seq<Envelope>, device: nat)
    ensures forall e :: e in Mailbox(rows, device) <==> e in rows && e.device == device
  {
    if rows != [] {
      var n := |rows| - 1;
      MailboxMembers(rows[..n], device);
      assert rows == rows[..n] + [rows[n]];
    }
  }

  lemma {:induction false} NoMailbox(rows: seq<Envelope>, device: nat)
    requires forall e :: e in rows ==> e.device != device
    ensures Mailbox(rows, device) == []
  {
    if rows != [] {
      NoMailbox(rows[..|rows| - 1], device);
      assert rows[|rows| - 1] in rows;
    }
  }

  lemma {:induction false} MailboxConcat(rows: seq<Envelope>, more: seq<Envelope>, device: nat)
    ensures Mailbox(rows + more, device) == Mailbox(rows, device) + Mailbox(more, device)
  {
    if more == [] {
      assert rows + more == rows;
    } else {
      var n := |more| - 1;
      MailboxConcat(rows, more[..n], device);
      assert (rows + more)[..|rows| + n] == rows + more[..n];
    }
  }

  /** A mailbox that evolves as a whole table evolves as its own log. */
  lemma {:induction false} MailboxEvolves(a: seq<Envelope>, b: seq<Envelope>, device: nat)
    requires RowsEvolve(a, b)
    ensures RowsEvolve(Mailbox(a, device), Mailbox(b, device))
  {
    if b != [] {
      var n := |b| - 1;
      if |a| == |b| {
        MailboxEvolves(a[..n], b[..n], device);
        assert RowEvolves(a[n], b[n]);
        SameLengthMailbox(a[..n], b[..n], device);
      } else {
        MailboxEvolves(a, b[..n], device);
      }
    }
  }

  lemma {:induction false} SameLengthMailbox(a: seq<Envelope>, b: seq<Envelope>, device: nat)
    requires RowsEvolve(a, b) && |a| == |b|
    ensures |Mailbox(a, device)| == |Mailbox(b, device)|
  {
    if b != [] {
      var n := |b| - 1;
      SameLengthMailbox(a[..n], b[..n], device);
      assert RowEvolves(a[n], b[n]);
    }
  }

  lemma RowsEvolveTransitive(a: seq<Envelope>, b: seq<Envelope>, c: seq<Envelope>)
    requires RowsEvolve(a, b) && RowsEvolve(b, c)
    ensures RowsEvolve(a, c)
  {
    forall i | 0 <= i < |a| ensures RowEvolves(a[i], c[i]) {
      assert RowEvolves(a[i], b[i]) && RowEvolves(b[i], c[i]);
    }
  }

  lemma AcknowledgeEvolves(rows: seq<Envelope>, device: nat, id: nat, now: int)
    requires forall e :: e in rows ==> PayloadState(e)
    ensures RowsEvolve(rows, AcknowledgeRows(rows, device, id, now))
  {
    assert forall i :: 0 <= i < |rows| ==> rows[i] in rows;
  }

  lemma PurgeEvolves(rows: seq<Envelope>, selected: set<nat>, now: int)
    requires forall e :: e in rows ==> PayloadState(e)
    ensures RowsEvolve(rows, PurgeRows(rows, selected, now))
  {
    assert forall i :: 0 <= i < |rows| ==> rows[i] in rows;
  }

  /** How payload, receipt and purge time go together: the payload is gone exactly when a
      purge time is set, a receipt erases it, and without a receipt only expiry does. */
  predicate PayloadState(e: Envelope)
  {
    && (e.payload.None? <==> e.purgedAt.Some?)
    && (e.deliveredAt.Some? ==> e.payload.None?)
    && (e.deliveredAt.None? && e.purgedAt.Some? ==> e.expiresAt <= e.purgedAt.value)
  }
}
