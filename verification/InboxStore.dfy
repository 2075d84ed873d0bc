/** The client's durable inbox: envelopes and cursor of one device, written in transactions
    that either happen completely or not at all. */
module InboxStore {
  import opened Common
  import opened Base64
  import opened MessageTables

  /** The parts of an envelope that never change, including those of its message. */
  datatype Routing = Routing(messageId: nat, device: nat, mailboxSeq: nat, chat: nat, senderUser: nat,
                             senderDevice: nat, clientId: nat, messageCreatedAt: int, createdAt: int, expiresAt: int)

  /** An envelope as it travels and as it is stored. Rows stored by older versions lack the chat number. */
  datatype MailboxEnvelope = MailboxEnvelope(id: nat, routing: Routing, chatSeq: Option<nat>,
                                             payload: Option<Bytes>, deliveredAt: Option<int>, purgedAt: Option<int>)

  datatype Page = Page(envelopes: seq<MailboxEnvelope>, nextSeq: nat, hasMore: bool)

  datatype Scope = Scope(device: nat, generation: nat)

  datatype Store = Store(device: nat, generation: nat, cursor: nat, rows: map<nat, MailboxEnvelope>, backfilled: bool)

  datatype StoreError = InvalidCursor | GenerationChanged | CursorChanged | OtherDevice

  function Render(e: Envelope): MailboxEnvelope
  {
    MailboxEnvelope(e.id,
      Routing(e.message.id, e.device, e.mailboxSeq, e.message.chat, e.message.senderUser,
              e.message.senderDevice, e.message.clientId, e.message.createdAt, e.createdAt, e.expiresAt),
      Some(e.message.chatSeq), e.payload, e.deliveredAt, e.purgedAt)
  }

  predicate ValidScope(store: Store, scope: Scope)
  {
    store.device == scope.device && store.generation == scope.generation
  }

  /** What is written for an incoming envelope: its own values first, then those already stored.
      Expiry on the server never removes a local payload. */
  function MergeRow(e: MailboxEnvelope, existing: Option<MailboxEnvelope>): MailboxEnvelope
  {
    if existing.None? then e else
    var prior := existing.value;
    e.(chatSeq := e.chatSeq.Or(prior.chatSeq), payload := e.payload.Or(prior.payload),
       deliveredAt := e.deliveredAt.Or(prior.deliveredAt), purgedAt := e.purgedAt.Or(prior.purgedAt))
  }

  function Lookup(rows: map<nat, MailboxEnvelope>, id: nat): Option<MailboxEnvelope>
  {
    if id in rows then Some(rows[id]) else None
  }

  /** The rows after a page, and the envelopes among it that were new or changed something. Rows are
      compared by their values; the store compares their JSON text, for which two rows with the same
      values in another order of keys differ too, so it may report and write such a row once more. */
  function MergeRows(rows: map<nat, MailboxEnvelope>, es: seq<MailboxEnvelope>)
    : (map<nat, MailboxEnvelope>, seq<MailboxEnvelope>)
  {
    if es == [] then (rows, []) else
    var (before, changes) := MergeRows(rows, es[..|es| - 1]);
    var e := es[|es| - 1];
    var merged := MergeRow(e, Lookup(before, e.id));
    (before[e.id := merged], if Lookup(before, e.id) == Some(merged) then changes else changes + [merged])
  }

  /** The reported changes cover every row a page touched, as it is stored afterwards; a row that is
      not reported is as before. */
  lemma {:induction false} ChangesCover(rows: map<nat, MailboxEnvelope>, es: seq<MailboxEnvelope>, id: nat)
    ensures var (after, changes) := MergeRows(rows, es);
      && (id in after && (id !in rows || after[id] != rows[id]) ==> after[id] in changes)
      && (id in rows ==> id in after)
      && forall c :: c in changes ==> c.id in after && exists e :: e in es && e.id == c.id
  {
    hide MergeRow;
    if es != [] {
      var n := |es| - 1;
      ChangesCover(rows, es[..n], id);
      assert es[n] in es && forall e :: e in es[..n] ==> e in es;
      MergedId(es[n], Lookup(MergeRows(rows, es[..n]).0, es[n].id));
    }
  }

  lemma MergedId(e: MailboxEnvelope, existing: Option<MailboxEnvelope>)
    ensures MergeRow(e, existing).id == e.id
  {
  }

  predicate ForDevice(es: seq<MailboxEnvelope>, device: nat)
  {
    forall e :: e in es ==> e.routing.device == device
  }

  function CommitPage(store: Store, scope: Scope, expected: nat, es: seq<MailboxEnvelope>, next: nat)
    : (r: Result<(Store, seq<MailboxEnvelope>), StoreError>)
  {
    if next < expected then Err(InvalidCursor)
    else if !ValidScope(store, scope) then Err(GenerationChanged)
    else if store.cursor != expected then Err(CursorChanged)
    else if !ForDevice(es, scope.device) then Err(OtherDevice)
    else
      var (rows, changes) := MergeRows(store.rows, es);
      Ok((store.(cursor := next, rows := rows), changes))
  }

  predicate NeedsAck(e: MailboxEnvelope)
  {
    e.payload.Some? && e.deliveredAt.None?
  }

  /** The client's check of a page: the numbers follow the cursor without a gap, the next
      cursor is the last of them, and a page that promises more is not empty. */
  predicate ValidPage(device: nat, cursor: nat, page: Page)
  {
    && (forall i :: 0 <= i < |page.envelopes| ==>
         page.envelopes[i].routing.device == device && page.envelopes[i].routing.mailboxSeq == cursor + i + 1)
    && page.nextSeq == cursor + |page.envelopes|
    && !(page.hasMore && page.envelopes == [])
  }

  method CheckPage(device: nat, cursor: nat, page: Page) returns (ok: bool)
    ensures ok <==> ValidPage(device, cursor, page)
    ensures ok && page.hasMore ==> page.nextSeq > cursor
  {
    var expected := cursor;
    for i := 0 to |page.envelopes|
      invariant expected == cursor + i
      invariant forall k :: 0 <= k < i ==>
        page.envelopes[k].routing.device == device && page.envelopes[k].routing.mailboxSeq == cursor + k + 1
    {
      var e := page.envelopes[i];
      expected := expected + 1;
      if e.routing.device != device || e.routing.mailboxSeq != expected {
        return false;
      }
    }
    return !(page.nextSeq != expected || (page.hasMore && expected == cursor));
  }

  class DurableInbox {
    var device: nat
    var generation: nat
    var cursor: nat
    var rows: map<nat, MailboxEnvelope>
    var backfilled: bool

    ghost function Contents(): Store
      reads this
    {
      Store(device, generation, cursor, rows, backfilled)
    }

    constructor (device: nat, generation: nat)
      ensures Contents() == Store(device, generation, 0, map[], false)
    {
      this.device, this.generation, cursor, rows, backfilled := device, generation, 0, map[], false;
    }

    /** One transaction: on any error nothing is written. */
    method Commit(scope: Scope, expected: nat, es: seq<MailboxEnvelope>, next: nat)
      returns (r: Result<seq<MailboxEnvelope>, StoreError>)
      modifies this
      ensures match CommitPage(old(Contents()), scope, expected, es, next)
              case Ok(result) => r == Ok(result.1) && Contents() == result.0
              case Err(why) => r == Err(why) && Contents() == old(Contents())
    {
      if next < expected { return Err(InvalidCursor); }
      if device != scope.device || generation != scope.generation { return Err(GenerationChanged); }
      if cursor != expected { return Err(CursorChanged); }
      var written: map<nat, MailboxEnvelope>, changes: seq<MailboxEnvelope> := rows, [];
      for i := 0 to |es|
        invariant (written, changes) == MergeRows(rows, es[..i])
        invariant ForDevice(es[..i], scope.device)
      {
        var e := es[i];
        assert es[..i + 1][..i] == es[..i];
        if e.routing.device != scope.device {
          assert !ForDevice(es, scope.device);
          return Err(OtherDevice);
        }
        var existing := if e.id in written then Some(written[e.id]) else None;
        var merged := e;
        if existing.Some? {
          merged := e.(chatSeq := if e.chatSeq.Some? then e.chatSeq else existing.value.chatSeq,
                       payload := if e.payload.Some? then e.payload else existing.value.payload,
                       deliveredAt := if e.deliveredAt.Some? then e.deliveredAt else existing.value.deliveredAt,
                       purgedAt := if e.purgedAt.Some? then e.purgedAt else existing.value.purgedAt);
        }
        if existing != Some(merged) {
          written := written[e.id := merged];
          changes := changes + [merged];
        }
        assert written == MergeRows(rows, es[..i + 1]).0;
      }
      assert es[..|es|] == es;
      rows, cursor := written, next;
      return Ok(changes);
    }

    /** A new identity clears every store in one transaction. */
    method Write(observed: nat, newDevice: nat, newGeneration: nat) returns (ok: bool)
      modifies this
      ensures ok <==> old(generation) == observed
      ensures Contents() == if ok then Store(newDevice, newGeneration, 0, map[], false) else old(Contents())
    {
      if generation != observed { return false; }
      device, generation, cursor, rows, backfilled := newDevice, newGeneration, 0, map[], false;
      return true;
    }
  }
}
