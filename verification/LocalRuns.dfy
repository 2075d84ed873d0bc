/** The local database beside the server it is told about: pages of envelopes are committed, commands
    stored, and acceptances, receipts and sent metadata merged, in any order and at any time, each
    transaction indexing the records it writes. What a transaction is given is what the server said
    at some time, late, repeated or out of order. */
module LocalRuns {
  import opened Common
  import opened MessageTables
  import ST = ServerTransactions
  import opened ServerInvariants
  import opened ServerTheorems
  import opened InboxStore
  import opened ServerAnswers
  import opened History
  import OM = OutgoingMachine
  import OS = OutgoingStore

  /** `used` records the generations ever drawn; a new identity draws one that is not among them. */
  datatype World = World(server: ST.Server, user: nat, device: nat, generation: nat, used: set<nat>, cursor: nat,
                         db: Db, receipts: map<nat, OS.Delivery>, metadata: map<nat, OS.Sent>)

  datatype Event =
    | ServerStep(step: ST.Label)
    | Commit(scope: Scope, expected: nat, envelopes: seq<MailboxEnvelope>, next: nat)
    | Put(scope: Scope, command: OM.Command, replace: bool, now: int)
    | Accept(scope: Scope, message: OS.Sent)
    | Receipt(scope: Scope, receipt: OS.Delivery)
    | MergeMetadata(scope: Scope, message: OS.Sent)
    | Write(observed: nat, newUser: nat, newDevice: nat, newGeneration: nat)

  // ---- the transactions on indexed records ----

  function Values<V>(records: map<nat, Stored<V>>): (r: map<nat, V>)
    ensures r.Keys == records.Keys && forall k :: k in records ==> r[k] == records[k].value
  {
    map k | k in records :: records[k].value
  }

  function InboxOf(w: World): Store
  {
    Store(w.device, w.generation, w.cursor, Values(w.db.envelopes), false)
  }

  function OutgoingOf(w: World): OS.Store
  {
    OS.Store(Values(w.db.outgoing), w.receipts, w.metadata)
  }

  /** The puts of a page: one record for every envelope that is new or changed something. */
  function PutEnvelopes(records: map<nat, Stored<MailboxEnvelope>>, changes: seq<MailboxEnvelope>)
    : map<nat, Stored<MailboxEnvelope>>
  {
    if changes == [] then records else
    var last := changes[|changes| - 1];
    PutEnvelopes(records, changes[..|changes| - 1])[last.id := EnvelopeRecord(last)]
  }

  /** The put of an outgoing transaction: a changed row is indexed anew, every other record stays. */
  function PutRows(records: map<nat, Stored<OS.Row>>, rows: map<nat, OS.Row>): map<nat, Stored<OS.Row>>
  {
    map c | c in rows :: if c in records && records[c].value == rows[c] then records[c] else OutgoingRecord(rows[c])
  }

  function Transacted(w: World, scope: Scope, r: Result<OS.Store, OS.StoreError>): World
  {
    if scope != Scope(w.device, w.generation) || r.Err? then w else
    w.(db := w.db.(outgoing := PutRows(w.db.outgoing, r.value.outgoing)),
       receipts := r.value.receipts, metadata := r.value.metadata)
  }

  ghost function Next(w: World, event: Event): World
  {
    match event
    case ServerStep(l) => w.(server := ST.Apply(w.server, l))
    case Commit(scope, expected, es, next) =>
      if exists e :: e in es && !IsRow(w.server, e) then w else
      (match CommitPage(InboxOf(w), scope, expected, es, next)
       case Err(_) => w
       case Ok((store, changes)) =>
         w.(cursor := store.cursor, db := w.db.(envelopes := PutEnvelopes(w.db.envelopes, changes))))
    case Put(scope, command, replace, now) =>
      Transacted(w, scope, OS.PutOutgoing(OutgoingOf(w), command, replace, now))
    case Accept(scope, m) =>
      if !IsSent(w.server, m) then w else Transacted(w, scope, OS.AcceptOutgoing(OutgoingOf(w), w.user, w.device, m))
    case Receipt(scope, r) =>
      if !IsDelivery(w.server, r) then w else Transacted(w, scope, OS.ApplyReceipt(OutgoingOf(w), r))
    case MergeMetadata(scope, m) =>
      if !IsSent(w.server, m) then w else Transacted(w, scope, OS.MergeMetadata(OutgoingOf(w), w.user, m))
    case Write(observed, user, device, generation) =>
      if observed != w.generation || generation in w.used then w else
      World(w.server, user, device, generation, w.used + {generation}, 0, Db(map[], map[]), map[], map[])
  }

  ghost function Run(w: World, events: seq<Event>): World
  {
    if events == [] then w else Next(Run(w, events[..|events| - 1]), events[|events| - 1])
  }

  // ---- what every event keeps ----

  ghost predicate EnvelopesTrue(s: ST.Server, rows: map<nat, MailboxEnvelope>)
  {
    forall id :: id in rows ==> rows[id].id == id && IsRow(s, rows[id])
  }

  ghost predicate AcceptedTrue(s: ST.Server, device: nat, c: nat, m: OS.Sent)
  {
    m.clientId == c && m.senderDevice == device && IsSent(s, m)
  }

  ghost predicate RowsTrue(s: ST.Server, device: nat, rows: map<nat, OS.Row>)
  {
    forall c :: c in rows ==>
      rows[c].command.clientId == c && (rows[c].accepted.Some? ==> AcceptedTrue(s, device, c, rows[c].accepted.value))
  }

  ghost predicate ReceiptsTrue(s: ST.Server, receipts: map<nat, OS.Delivery>)
  {
    forall id :: id in receipts ==>
      receipts[id].id == id && receipts[id].deliveredAt.Some? && IsDelivery(s, receipts[id])
  }

  ghost predicate MetadataTrue(s: ST.Server, metadata: map<nat, OS.Sent>)
  {
    forall id :: id in metadata ==> metadata[id].id == id && IsSent(s, metadata[id])
  }

  ghost predicate OutgoingTrue(s: ST.Server, device: nat, store: OS.Store)
  {
    RowsTrue(s, device, store.outgoing) && ReceiptsTrue(s, store.receipts) && MetadataTrue(s, store.metadata)
  }

  /** The indexes are current, and nothing stored contradicts the server. */
  ghost predicate WorldOk(w: World)
  {
    && Inv(w.server) && w.generation in w.used && IndexesCurrent(w.db)
    && EnvelopesTrue(w.server, Values(w.db.envelopes))
    && OutgoingTrue(w.server, w.device, OutgoingOf(w))
  }

  /** Every record stays, in its chat and at its place in the history. */
  ghost predicate PlacesKept(db: Db, after: Db)
  {
    && (forall id :: id in db.envelopes ==> id in after.envelopes && SamePlace(db.envelopes[id], after.envelopes[id]))
    && (forall c :: c in db.outgoing ==> c in after.outgoing && SamePlace(db.outgoing[c], after.outgoing[c]))
  }

  predicate SamePlace<V>(a: Stored<V>, b: Stored<V>)
  {
    a.chat == b.chat && a.place == b.place
  }

  /** The rows of one generation keep their places; a generation, once left, never comes back. */
  ghost predicate Moves(w: World, after: World)
  {
    && w.used <= after.used
    && (after.generation == w.generation || after.generation !in w.used)
    && (after.generation == w.generation ==> PlacesKept(w.db, after.db))
  }

  ghost predicate Kept(w: World, after: World)
  {
    WorldOk(after) && Moves(w, after)
  }

  // ---- committing a page ----

  /** The puts of a page leave exactly the rows the commit specifies, all of them indexed anew. */
  lemma {:induction false} PutsAreTheCommit(records: map<nat, Stored<MailboxEnvelope>>, es: seq<MailboxEnvelope>)
    ensures var (rows, changes) := MergeRows(Values(records), es);
      && Values(PutEnvelopes(records, changes)) == rows
      && (forall id :: id in PutEnvelopes(records, changes) ==>
           (id in records && PutEnvelopes(records, changes)[id] == records[id])
           || PutEnvelopes(records, changes)[id] == EnvelopeRecord(rows[id]))
  {
    hide MergeRow, EnvelopeRecord;
    if es != [] {
      var n := |es| - 1;
      PutsAreTheCommit(records, es[..n]);
      var (rows, changes) := MergeRows(Values(records), es[..n]);
      var merged := MergeRow(es[n], Lookup(rows, es[n].id));
      MergedId(es[n], Lookup(rows, es[n].id));
      RecordValue(merged);
      if Lookup(rows, es[n].id) == Some(merged) {
        assert rows[es[n].id := merged] == rows;
      } else {
        assert (changes + [merged])[..|changes|] == changes;
      }
    }
  }

  lemma RecordValue(e: MailboxEnvelope)
    ensures EnvelopeRecord(e).value == e
  {
  }

  lemma {:induction false} MergedAreTrue(s: ST.Server, rows: map<nat, MailboxEnvelope>, es: seq<MailboxEnvelope>)
    requires EnvelopesTrue(s, rows) && forall e :: e in es ==> IsRow(s, e)
    ensures EnvelopesTrue(s, MergeRows(rows, es).0)
    ensures rows.Keys <= MergeRows(rows, es).0.Keys
  {
    hide MergeRow;
    if es != [] {
      var n := |es| - 1;
      assert forall e :: e in es[..n] ==> e in es;
      MergedAreTrue(s, rows, es[..n]);
      var before := MergeRows(rows, es[..n]).0;
      assert es[n] in es;
      MergedIsTrue(s, es[n], Lookup(before, es[n].id));
    }
  }

  lemma MergedIsTrue(s: ST.Server, e: MailboxEnvelope, existing: Option<MailboxEnvelope>)
    requires IsRow(s, e)
    ensures MergeRow(e, existing).id == e.id && IsRow(s, MergeRow(e, existing))
  {
    var row :| row in s.db.envelopes && RowOfEnvelope(e, row);
    assert RowOfEnvelope(MergeRow(e, existing), row);
  }

  lemma CommitKeeps(w: World, event: Event)
    requires WorldOk(w) && event.Commit?
    ensures Kept(w, Next(w, event))
  {
    hide Inv, IsRow, OutgoingTrue, EnvelopeRecord, MergeRows, IndexesCurrent;
    PlacesStay(w.db);
    if (forall e :: e in event.envelopes ==> IsRow(w.server, e))
       && CommitPage(InboxOf(w), event.scope, event.expected, event.envelopes, event.next).Ok? {
      var (rows, changes) := MergeRows(Values(w.db.envelopes), event.envelopes);
      PutsAreTheCommit(w.db.envelopes, event.envelopes);
      MergedAreTrue(w.server, Values(w.db.envelopes), event.envelopes);
      PutsAreIndexed(w.db, PutEnvelopes(w.db.envelopes, changes), rows);
      EnvelopesKeepPlaces(w, PutEnvelopes(w.db.envelopes, changes));
    }
  }

  lemma PlacesStay(db: Db)
    ensures PlacesKept(db, db)
  {
  }

  lemma PutsAreIndexed(db: Db, after: map<nat, Stored<MailboxEnvelope>>, rows: map<nat, MailboxEnvelope>)
    requires IndexesCurrent(db) && Values(after) == rows
    requires forall id :: id in after ==>
      (id in db.envelopes && after[id] == db.envelopes[id]) || after[id] == EnvelopeRecord(rows[id])
    ensures IndexesCurrent(db.(envelopes := after))
  {
    hide EnvelopeRecord, OutgoingRecord;
  }

  /** A record of an envelope always names the same row of the server, so it keeps its place. */
  lemma EnvelopesKeepPlaces(w: World, after: map<nat, Stored<MailboxEnvelope>>)
    requires Inv(w.server) && IndexesCurrent(w.db) && IndexesCurrent(w.db.(envelopes := after))
    requires EnvelopesTrue(w.server, Values(w.db.envelopes)) && EnvelopesTrue(w.server, Values(after))
    requires w.db.envelopes.Keys <= after.Keys
    ensures PlacesKept(w.db, w.db.(envelopes := after))
  {
    hide IsRow, OutgoingRecord;
    assert EnvelopesKnown(w.server.db);
    hide Inv;
    forall id | id in w.db.envelopes ensures SamePlace(w.db.envelopes[id], after[id]) {
      assert id in Values(w.db.envelopes) && id in Values(after);
      SameRouting(w.server, w.db.envelopes[id].value, after[id].value);
    }
  }

  // ---- outgoing transactions ----

  lemma MergedDelivery(s: ST.Server, d: OS.Delivery, p: Option<OS.Delivery>)
    requires EnvelopesKnown(s.db) && IsDelivery(s, d) && (p.Some? ==> IsDelivery(s, p.value) && p.value.id == d.id)
    ensures IsDelivery(s, OS.MergeDeliveryMetadata(d, p)) && IsDelivery(s, OS.MergeReceipt(d, p))
  {
    hide EnvelopesKnown;
    var row :| row in s.db.envelopes && SaidBy(row, d);
    if p.Some? {
      var other :| other in s.db.envelopes && SaidBy(other, p.value);
      SameEnvelopeRow(s, row, other);
    }
    assert SaidBy(row, OS.MergeDeliveryMetadata(d, p)) && SaidBy(row, OS.MergeReceipt(d, p));
  }

  /** The same deliveries with times merged into them. */
  ghost predicate Retold(s: ST.Server, es: seq<OS.Delivery>, later: seq<OS.Delivery>)
  {
    && |later| == |es|
    && forall i :: 0 <= i < |es| ==>
         later[i].id == es[i].id && later[i].messageId == es[i].messageId && IsDelivery(s, later[i])
  }

  lemma RetoldDeliveries(s: ST.Server, o: Message, es: seq<OS.Delivery>, later: seq<OS.Delivery>)
    requires DeliveriesOf(s, o, es) && Retold(s, es, later)
    ensures DeliveriesOf(s, o, later)
  {
    hide IsDelivery;
    forall row | row in s.db.envelopes && row.message == o ensures exists d :: d in later && d.id == row.id {
      var d :| d in es && d.id == row.id;
      var i :| 0 <= i < |es| && es[i] == d;
      assert later[i] in later;
    }
    forall d | d in later ensures IsDelivery(s, d) && d.messageId == o.id {
      var i :| 0 <= i < |later| && later[i] == d;
      assert es[i] in es;
    }
  }

  ghost predicate AllDeliveries(s: ST.Server, es: seq<OS.Delivery>)
  {
    forall d :: d in es ==> IsDelivery(s, d)
  }

  lemma ReceivedRetold(s: ST.Server, es: seq<OS.Delivery>, receipt: OS.Delivery)
    requires EnvelopesKnown(s.db) && AllDeliveries(s, es) && IsDelivery(s, receipt)
    ensures Retold(s, es, OS.Receive(es, receipt))
  {
    hide IsDelivery, EnvelopesKnown;
    var later := OS.Receive(es, receipt);
    forall i | 0 <= i < |es|
      ensures later[i].id == es[i].id && later[i].messageId == es[i].messageId && IsDelivery(s, later[i])
    {
      assert es[i] in es;
      if es[i].id == receipt.id { MergedDelivery(s, es[i], Some(receipt)); }
    }
  }

  lemma FoundIsDelivery(s: ST.Server, prior: Option<OS.Sent>, id: nat)
    requires prior.Some? ==> AllDeliveries(s, prior.value.envelopes)
    ensures OS.FindIn(prior, id).Some? ==>
      IsDelivery(s, OS.FindIn(prior, id).value) && OS.FindIn(prior, id).value.id == id
  {
    hide IsDelivery, OS.Find;
  }

  /** One envelope takes times from an earlier copy of it and from a receipt for it. */
  lemma MergedTwice(s: ST.Server, d: OS.Delivery, prior: Option<OS.Delivery>, receipts: map<nat, OS.Delivery>)
    requires EnvelopesKnown(s.db) && IsDelivery(s, d) && ReceiptsTrue(s, receipts)
    requires prior.Some? ==> IsDelivery(s, prior.value) && prior.value.id == d.id
    ensures var later := OS.MergeReceipt(OS.MergeDeliveryMetadata(d, prior), OS.Get(receipts, d.id));
      later.id == d.id && later.messageId == d.messageId && IsDelivery(s, later)
  {
    hide IsDelivery, EnvelopesKnown;
    MergedDelivery(s, d, prior);
    MergedDelivery(s, OS.MergeDeliveryMetadata(d, prior), OS.Get(receipts, d.id));
  }

  lemma {:induction false} AcceptedRetold(s: ST.Server, es: seq<OS.Delivery>, prior: Option<OS.Sent>,
                                          receipts: map<nat, OS.Delivery>)
    requires EnvelopesKnown(s.db) && AllDeliveries(s, es) && ReceiptsTrue(s, receipts)
    requires prior.Some? ==> AllDeliveries(s, prior.value.envelopes)
    ensures Retold(s, es, OS.AcceptEnvelopes(es, prior, receipts).0)
    ensures ReceiptsTrue(s, OS.AcceptEnvelopes(es, prior, receipts).1)
  {
    hide IsDelivery, EnvelopesKnown, OS.FindIn, OS.MergeReceipt, OS.MergeDeliveryMetadata;
    if es != [] {
      var n := |es| - 1;
      assert forall d :: d in es[..n] ==> d in es;
      AcceptedRetold(s, es[..n], prior, receipts);
      assert es[n] in es;
      FoundIsDelivery(s, prior, es[n].id);
      MergedTwice(s, es[n], OS.FindIn(prior, es[n].id), OS.AcceptEnvelopes(es[..n], prior, receipts).1);
    }
  }

  lemma MetadataRetold(s: ST.Server, es: seq<OS.Delivery>, prior: Option<OS.Sent>, accepted: Option<OS.Sent>,
                       receipts: map<nat, OS.Delivery>)
    requires EnvelopesKnown(s.db) && AllDeliveries(s, es) && ReceiptsTrue(s, receipts)
    requires prior.Some? ==> AllDeliveries(s, prior.value.envelopes)
    requires accepted.Some? ==> AllDeliveries(s, accepted.value.envelopes)
    ensures Retold(s, es, OS.MetadataEnvelopes(es, prior, accepted, receipts))
  {
    hide IsDelivery, EnvelopesKnown, OS.FindIn, OS.MergeReceipt, OS.MergeDeliveryMetadata;
    forall i | 0 <= i < |es| ensures
      var later := OS.MetadataEnvelopes(es, prior, accepted, receipts)[i];
      later.id == es[i].id && later.messageId == es[i].messageId && IsDelivery(s, later)
    {
      assert es[i] in es;
      FoundIsDelivery(s, prior, es[i].id);
      FoundIsDelivery(s, accepted, es[i].id);
      MergedTwice(s, es[i], OS.FindIn(prior, es[i].id).Or(OS.FindIn(accepted, es[i].id)), receipts);
    }
  }

  lemma SentDeliveries(s: ST.Server, m: OS.Sent)
    requires IsSent(s, m)
    ensures AllDeliveries(s, m.envelopes)
  {
    hide IsDelivery;
  }

  /** An answer with times merged into its deliveries is still an answer. */
  lemma RetoldIsSent(s: ST.Server, m: OS.Sent, later: seq<OS.Delivery>)
    requires IsSent(s, m) && Retold(s, m.envelopes, later)
    ensures IsSent(s, m.(envelopes := later))
  {
    hide DeliveriesOf, Retold;
    var o :| Describes(s, m, o);
    RetoldDeliveries(s, o, m.envelopes, later);
    assert Describes(s, m.(envelopes := later), o);
  }

  /** A chat number known from an earlier answer about the same message fits. */
  lemma NumberedIsSent(s: ST.Server, m: OS.Sent, prior: Option<OS.Sent>)
    requires ClientIdsUnique(s.db.messages) && IsSent(s, m)
    requires prior.Some? ==>
      IsSent(s, prior.value) && prior.value.senderDevice == m.senderDevice && prior.value.clientId == m.clientId
    ensures IsSent(s, m.(chatSeq := m.chatSeq.Or(OS.SeqOf(prior))))
  {
    hide DeliveriesOf, ClientIdsUnique;
    var o :| Describes(s, m, o);
    if prior.Some? {
      var p :| Describes(s, prior.value, p);
      SameMessageRow(s, o, p);
    }
    assert Describes(s, m.(chatSeq := m.chatSeq.Or(OS.SeqOf(prior))), o);
  }

  /** Every stored row stays in its chat and at its place. */
  ghost predicate RowKeeps(a: OS.Row, b: OS.Row)
  {
    a.command.chat == b.command.chat && OutgoingPlace(a) == OutgoingPlace(b)
  }

  ghost predicate RowsKeep(rows: map<nat, OS.Row>, after: map<nat, OS.Row>)
  {
    forall c :: c in rows ==> c in after && RowKeeps(rows[c], after[c])
  }

  ghost predicate Keeps(s: ST.Server, device: nat, store: OS.Store, r: Result<OS.Store, OS.StoreError>)
  {
    r.Ok? ==> OutgoingTrue(s, device, r.value) && RowsKeep(store.outgoing, r.value.outgoing)
  }

  lemma PutKeeps(s: ST.Server, device: nat, store: OS.Store, command: OM.Command, replace: bool, now: int)
    requires OutgoingTrue(s, device, store)
    ensures Keeps(s, device, store, OS.PutOutgoing(store, command, replace, now))
  {
    hide AcceptedTrue, ReceiptsTrue, MetadataTrue;
  }

  lemma AcceptKeeps(s: ST.Server, user: nat, device: nat, store: OS.Store, m: OS.Sent)
    requires EnvelopesKnown(s.db) && ClientIdsUnique(s.db.messages) && OutgoingTrue(s, device, store) && IsSent(s, m)
    ensures Keeps(s, device, store, OS.AcceptOutgoing(store, user, device, m))
  {
    hide EnvelopesKnown, ClientIdsUnique, IsSent, IsDelivery, MetadataTrue, ReceiptsTrue, OS.AcceptEnvelopes;
    var r := OS.AcceptOutgoing(store, user, device, m);
    if r.Ok? {
      var prior := store.outgoing[m.clientId].accepted;
      if prior.Some? { SentDeliveries(s, prior.value); }
      SentDeliveries(s, m);
      AcceptedRetold(s, m.envelopes, prior, store.receipts);
      var later := OS.AcceptEnvelopes(m.envelopes, prior, store.receipts).0;
      NumberedIsSent(s, m, prior);
      RetoldIsSent(s, m.(chatSeq := m.chatSeq.Or(OS.SeqOf(prior))), later);
    }
  }

  lemma ReceiptKeeps(s: ST.Server, device: nat, store: OS.Store, receipt: OS.Delivery)
    requires EnvelopesKnown(s.db) && OutgoingTrue(s, device, store) && IsDelivery(s, receipt)
    ensures Keeps(s, device, store, OS.ApplyReceipt(store, receipt))
  {
    hide EnvelopesKnown, IsSent, IsDelivery, OS.Receive;
    if receipt.deliveredAt.Some? {
      ReceivedMetadata(s, store.metadata, receipt);
      var c := OS.RowOfMessage(store.outgoing, receipt.messageId);
      if c.Some? { ReceivedIsSent(s, store.outgoing[c.value].accepted.value, receipt); }
    }
  }

  lemma ReceivedIsSent(s: ST.Server, m: OS.Sent, receipt: OS.Delivery)
    requires EnvelopesKnown(s.db) && IsSent(s, m) && IsDelivery(s, receipt)
    ensures IsSent(s, m.(envelopes := OS.Receive(m.envelopes, receipt)))
  {
    hide EnvelopesKnown, IsSent, IsDelivery, OS.Receive;
    SentDeliveries(s, m);
    ReceivedRetold(s, m.envelopes, receipt);
    RetoldIsSent(s, m, OS.Receive(m.envelopes, receipt));
  }

  lemma ReceivedMetadata(s: ST.Server, metadata: map<nat, OS.Sent>, receipt: OS.Delivery)
    requires EnvelopesKnown(s.db) && MetadataTrue(s, metadata) && IsDelivery(s, receipt)
    ensures MetadataTrue(s, OS.ReceiveMetadata(metadata, receipt))
  {
    hide EnvelopesKnown, IsSent, IsDelivery, OS.Receive;
    if receipt.messageId in metadata { ReceivedIsSent(s, metadata[receipt.messageId], receipt); }
  }

  lemma MetadataKeeps(s: ST.Server, user: nat, device: nat, store: OS.Store, m: OS.Sent)
    requires EnvelopesKnown(s.db) && ClientIdsUnique(s.db.messages) && OutgoingTrue(s, device, store) && IsSent(s, m)
    ensures Keeps(s, device, store, OS.MergeMetadata(store, user, m))
  {
    hide EnvelopesKnown, ClientIdsUnique, IsSent, IsDelivery, OS.MetadataEnvelopes;
    if m.senderUser == user {
      var prior, accepted := OS.Get(store.metadata, m.id), OS.AcceptedAs(store.outgoing, m.id);
      var c := OS.RowOfMessage(store.outgoing, m.id);
      if prior.Some? { SentDeliveries(s, prior.value); }
      if c.Some? {
        SentDeliveries(s, accepted.value);
        SameAnswer(s, accepted.value, m);
      }
      SentDeliveries(s, m);
      MetadataRetold(s, m.envelopes, prior, accepted, store.receipts);
      RetoldIsSent(s, m, OS.MetadataEnvelopes(m.envelopes, prior, accepted, store.receipts));
    }
  }

  lemma RowsAreIndexed(db: Db, rows: map<nat, OS.Row>)
    requires IndexesCurrent(db)
    ensures Values(PutRows(db.outgoing, rows)) == rows && IndexesCurrent(db.(outgoing := PutRows(db.outgoing, rows)))
  {
    hide EnvelopeRecord, OutgoingPlace;
  }

  lemma RowsKeepPlaces(db: Db, rows: map<nat, OS.Row>)
    requires IndexesCurrent(db) && RowsKeep(Values(db.outgoing), rows)
    ensures PlacesKept(db, db.(outgoing := PutRows(db.outgoing, rows)))
  {
    hide EnvelopeRecord, OutgoingPlace;
    forall c | c in db.outgoing ensures c in rows && SamePlace(db.outgoing[c], PutRows(db.outgoing, rows)[c]) {
      assert RowKeeps(Values(db.outgoing)[c], rows[c]);
    }
  }

  lemma TransactedKeeps(w: World, scope: Scope, r: Result<OS.Store, OS.StoreError>)
    requires WorldOk(w) && Keeps(w.server, w.device, OutgoingOf(w), r)
    ensures Kept(w, Transacted(w, scope, r))
  {
    hide Inv, IndexesCurrent, EnvelopesTrue, RowsTrue, ReceiptsTrue, MetadataTrue, PutRows, RowsKeep;
    PlacesStay(w.db);
    if r.Ok? {
      RowsAreIndexed(w.db, r.value.outgoing);
      RowsKeepPlaces(w.db, r.value.outgoing);
    }
  }

  // ---- every event, every run ----

  lemma OutgoingStaysTrue(s: ST.Server, after: ST.Server, device: nat, store: OS.Store)
    requires StaysTrue(s, after) && OutgoingTrue(s, device, store)
    ensures OutgoingTrue(after, device, store)
  {
    hide IsRow, IsSent, IsDelivery;
  }

  lemma EnvelopesStayTrue(s: ST.Server, after: ST.Server, rows: map<nat, MailboxEnvelope>)
    requires StaysTrue(s, after) && EnvelopesTrue(s, rows)
    ensures EnvelopesTrue(after, rows)
  {
    hide IsRow, IsSent, IsDelivery;
  }

  lemma ServerStepKeeps(w: World, l: ST.Label)
    requires WorldOk(w)
    ensures Kept(w, w.(server := ST.Apply(w.server, l)))
  {
    PlacesStay(w.db);
    hide Inv, PlacesKept, StaysTrue, ST.Apply, EnvelopesTrue, OutgoingTrue, IndexesCurrent;
    ApplyKeeps(w.server, l);
    AnswersStayTrue(w.server, l);
    EnvelopesStayTrue(w.server, ST.Apply(w.server, l), Values(w.db.envelopes));
    OutgoingStaysTrue(w.server, ST.Apply(w.server, l), w.device, OutgoingOf(w));
  }

  lemma ServerKnows(w: World)
    requires WorldOk(w)
    ensures EnvelopesKnown(w.server.db) && ClientIdsUnique(w.server.db.messages)
    ensures OutgoingTrue(w.server, w.device, OutgoingOf(w)) && w.generation in w.used
  {
  }

  lemma StillKept(w: World)
    requires WorldOk(w)
    ensures Kept(w, w)
  {
    hide Inv, IndexesCurrent, EnvelopesTrue, OutgoingTrue;
    PlacesStay(w.db);
  }

  /** A new identity starts with empty stores under a generation that was never used. */
  lemma WriteKeeps(w: World, event: Event)
    requires WorldOk(w) && event.Write?
    ensures Kept(w, Next(w, event))
  {
    hide Inv, IsRow, AcceptedTrue, IsSent, IsDelivery, EnvelopeRecord, OutgoingRecord, PlacesKept;
    PlacesStay(w.db);
  }

  /** Every transaction, with every answer however late, and every step of the server keeps the
      indexes current, what is stored true, and the place of every row. */
  lemma NextKeeps(w: World, event: Event)
    requires WorldOk(w)
    ensures Kept(w, Next(w, event))
  {
    hide Kept;
    ServerKnows(w);
    StillKept(w);
    if event.Write? {
      WriteKeeps(w, event);
    } else {
      hide WorldOk, OutgoingTrue, EnvelopesKnown, ClientIdsUnique, Keeps, PlacesKept, IsSent, IsDelivery, IsRow,
           ST.Apply, CommitPage, OS.PutOutgoing, OS.AcceptOutgoing, OS.ApplyReceipt, OS.MergeMetadata;
      match event
      case ServerStep(l) => ServerStepKeeps(w, l);
      case Commit(_, _, _, _) => CommitKeeps(w, event);
      case Put(scope, command, replace, now) =>
        PutKeeps(w.server, w.device, OutgoingOf(w), command, replace, now);
        TransactedKeeps(w, scope, OS.PutOutgoing(OutgoingOf(w), command, replace, now));
      case Accept(scope, m) =>
        if IsSent(w.server, m) {
          AcceptKeeps(w.server, w.user, w.device, OutgoingOf(w), m);
          TransactedKeeps(w, scope, OS.AcceptOutgoing(OutgoingOf(w), w.user, w.device, m));
        }
      case Receipt(scope, r) =>
        if IsDelivery(w.server, r) {
          ReceiptKeeps(w.server, w.device, OutgoingOf(w), r);
          TransactedKeeps(w, scope, OS.ApplyReceipt(OutgoingOf(w), r));
        }
      case MergeMetadata(scope, m) =>
        if IsSent(w.server, m) {
          MetadataKeeps(w.server, w.user, w.device, OutgoingOf(w), m);
          TransactedKeeps(w, scope, OS.MergeMetadata(OutgoingOf(w), w.user, m));
        }
      case _ =>
    }
  }

  lemma {:induction false} RunKeeps(w: World, events: seq<Event>)
    requires WorldOk(w)
    ensures WorldOk(Run(w, events))
  {
    hide WorldOk, Next, Moves;
    if events != [] {
      RunKeeps(w, events[..|events| - 1]);
      NextKeeps(Run(w, events[..|events| - 1]), events[|events| - 1]);
    }
  }

  /** A new database beside any reachable server. */
  lemma NewDatabaseOk(s: ST.Server, user: nat, device: nat, generation: nat)
    requires Reachable(s)
    ensures WorldOk(World(s, user, device, generation, {generation}, 0, Db(map[], map[]), map[], map[]))
  {
    hide Inv;
    ReachableInv(s);
  }

  /** At any moment of a run a page can be read as the indexes and keys of the records require. */
  lemma HistoryIsReadable(w: World, events: seq<Event>)
    requires WorldOk(w)
    ensures IndexesCurrent(Run(w, events).db) && Keyed(Run(w, events).db)
  {
    RunKeeps(w, events);
    RecordsAreKeyed(Run(w, events));
  }

  lemma RecordsAreKeyed(w: World)
    requires WorldOk(w)
    ensures IndexesCurrent(w.db) && Keyed(w.db)
  {
    hide Inv, IndexesCurrent, IsRow, AcceptedTrue, ReceiptsTrue, MetadataTrue;
    assert forall id :: id in w.db.envelopes ==> id in Values(w.db.envelopes);
    assert forall c :: c in w.db.outgoing ==> c in Values(w.db.outgoing);
  }

  // ---- the history while everything goes on ----

  ghost function At(w: World, events: seq<Event>, n: nat): World
    requires n <= |events|
  {
    Run(w, events[..n])
  }

  lemma StepAt(w: World, events: seq<Event>, n: nat)
    requires WorldOk(w) && n < |events|
    ensures WorldOk(At(w, events, n)) && Moves(At(w, events, n), At(w, events, n + 1))
  {
    hide WorldOk, Next, Moves;
    assert events[..n + 1][..n] == events[..n];
    RunKeeps(w, events[..n]);
    NextKeeps(At(w, events, n), events[n]);
  }

  lemma {:induction false} PlacesGrow(w: World, events: seq<Event>, chat: nat, i: nat, j: nat)
    requires WorldOk(w) && i <= j <= |events|
    ensures At(w, events, i).generation in At(w, events, j).used
    ensures At(w, events, i).generation == At(w, events, j).generation ==>
      PlacesOf(At(w, events, i).db, chat) <= PlacesOf(At(w, events, j).db, chat)
    decreases j
  {
    hide At, PlacesKept, PlacesOf, WorldOk;
    if i == j {
      RunAt(w, events, i);
      ServerKnows(At(w, events, i));
    } else {
      PlacesGrow(w, events, chat, i, j - 1);
      StepAt(w, events, j - 1);
      KeptPlacesGrow(At(w, events, j - 1).db, At(w, events, j).db, chat);
    }
  }

  lemma RunAt(w: World, events: seq<Event>, n: nat)
    requires WorldOk(w) && n <= |events|
    ensures WorldOk(At(w, events, n))
  {
    hide WorldOk, Run;
    RunKeeps(w, events[..n]);
  }

  lemma KeptPlacesGrow(db: Db, after: Db, chat: nat)
    ensures PlacesKept(db, after) ==> PlacesOf(db, chat) <= PlacesOf(after, chat)
  {
  }

  /** The places of the chat when each page is read. */
  ghost function Seen(w: World, events: seq<Event>, times: seq<nat>, chat: nat): (r: seq<set<Place>>)
    requires forall i :: 0 <= i < |times| ==> times[i] <= |events|
    ensures |r| == |times| && forall i :: 0 <= i < |r| ==> r[i] == PlacesOf(At(w, events, times[i]).db, chat)
  {
    seq(|times|, i requires 0 <= i < |times| => PlacesOf(At(w, events, times[i]).db, chat))
  }

  /** In every run: the pages that follow nextBefore to its end, read at any times of one generation
      with commits, sends, acceptances, replacements, receipts and metadata in between, hold every
      row the chat had when the first was read exactly once, newest first. */
  lemma HistoryWalk(w: World, events: seq<Event>, times: seq<nat>, chat: nat, limit: nat)
    requires WorldOk(w) && limit >= 1 && times != []
    requires forall i :: 0 <= i < |times| ==> times[i] <= |events|
    requires forall i, j :: 0 <= i <= j < |times| ==> times[i] <= times[j]
    requires forall i :: 0 <= i < |times| ==> At(w, events, times[i]).generation == At(w, events, times[0]).generation
    requires Walk(Seen(w, events, times, chat), limit).1.None?
    ensures var read, first := Walk(Seen(w, events, times, chat), limit).0, At(w, events, times[0]);
      && (forall i, j :: 0 <= i < j < |read| ==> Newer(read[i], read[j]) && read[i] != read[j])
      && (forall id :: id in first.db.envelopes && first.db.envelopes[id].value.routing.chat == chat ==>
           EnvelopePlace(first.db.envelopes[id].value) in read)
      && (forall c :: c in first.db.outgoing && first.db.outgoing[c].value.command.chat == chat ==>
           OutgoingPlace(first.db.outgoing[c].value) in read)
  {
    hide Walk, Newer, PlacesOf, At, WorldOk, EnvelopePlace, OutgoingPlace;
    var states, first := Seen(w, events, times, chat), At(w, events, times[0]);
    forall i, j | 0 <= i <= j < |states| ensures states[i] <= states[j] {
      PlacesGrow(w, events, chat, times[i], times[j]);
    }
    forall p | p in states[0] ensures p in Walk(states, limit).0 { WalkReturnsAll(states, limit, p); }
    WalkReturnsAll(states, limit, Place(0, 0, 0));
    RunAt(w, events, times[0]);
    RowsHavePlaces(first, chat);
  }

  lemma RowsHavePlaces(w: World, chat: nat)
    requires WorldOk(w)
    ensures forall id :: id in w.db.envelopes && w.db.envelopes[id].value.routing.chat == chat ==>
      EnvelopePlace(w.db.envelopes[id].value) in PlacesOf(w.db, chat)
    ensures forall c :: c in w.db.outgoing && w.db.outgoing[c].value.command.chat == chat ==>
      OutgoingPlace(w.db.outgoing[c].value) in PlacesOf(w.db, chat)
  {
    hide Inv, EnvelopesTrue, OutgoingTrue;
  }

  // ---- what is stored is true ----

  /** `d` says of an envelope of the device's message `c` only what the server stores for it. */
  ghost predicate TrueOfSent(s: ST.Server, device: nat, c: nat, d: OS.Delivery)
  {
    exists row ::
      && row in s.db.envelopes && row.id == d.id && row.message.clientId == c && row.message.senderDevice == device
      && (d.deliveredAt.Some? ==> row.deliveredAt == d.deliveredAt)
      && (d.purgedAt.Some? ==> row.purgedAt == d.purgedAt)
  }

  /** Whatever was merged, in whatever order: a delivery or purge time stored with an accepted
      message is the one the server stores for that envelope. */
  lemma DeliveriesAreTrue(w: World, events: seq<Event>, c: nat, d: OS.Delivery)
    requires WorldOk(w) && var db := Run(w, events).db;
      c in db.outgoing && db.outgoing[c].value.accepted.Some? && d in db.outgoing[c].value.accepted.value.envelopes
    ensures TrueOfSent(Run(w, events).server, Run(w, events).device, c, d)
  {
    hide Run, WorldOk, Inv;
    RunKeeps(w, events);
    AcceptedDelivery(Run(w, events), c, d);
  }

  lemma AcceptedDelivery(w: World, c: nat, d: OS.Delivery)
    requires WorldOk(w) && c in w.db.outgoing
    requires var accepted := w.db.outgoing[c].value.accepted; accepted.Some? && d in accepted.value.envelopes
    ensures TrueOfSent(w.server, w.device, c, d)
  {
    ServerKnows(w);
    hide WorldOk;
    var m := OutgoingOf(w).outgoing[c].accepted.value;
    var o :| Describes(w.server, m, o);
    assert IsDelivery(w.server, d) && d.messageId == o.id;
    var row :| row in w.server.db.envelopes && SaidBy(row, d);
    assert row.message in w.server.db.messages;
    SameMessageRow(w.server, row.message, o);
  }
}
