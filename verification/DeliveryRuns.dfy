/** Delivery metadata in the runs of the local database: what reaches it is what the server said, so
    the results about honest events hold of every run, and the rows are those of the outgoing path. */
module DeliveryRuns {
  import opened Common
  import opened MessageTables
  import ST = ServerTransactions
  import opened ServerInvariants
  import opened ServerAnswers
  import OM = OutgoingMachine
  import opened OutgoingStore
  import opened DeliveryMetadata
  import IS = InboxStore
  import H = History
  import LR = LocalRuns

  // ---- what the server says is honest ----

  ghost predicate RowsFor(s: ST.Server, o: Message, row: Envelope)
  {
    row in s.db.envelopes && row.message == o
  }

  ghost function DeviceOf(s: ST.Server, o: Message, x: nat): (device: nat)
    requires EnvelopesKnown(s.db) && exists row :: RowsFor(s, o, row) && row.id == x
    ensures forall row :: RowsFor(s, o, row) && row.id == x ==> row.device == device
  {
    var found :| RowsFor(s, o, found) && found.id == x;
    assert forall row :: RowsFor(s, o, row) && row.id == x ==> row.device == found.device by {
      forall row | RowsFor(s, o, row) && row.id == x
        ensures row.device == found.device
      {
        SameEnvelopeRow(s, row, found);
      }
    }
    found.device
  }

  ghost function IdsOf(s: ST.Server, o: Message): set<nat>
  {
    set row | row in s.db.envelopes && RowsFor(s, o, row) :: row.id
  }

  /** The shape of a message as the server stores it. */
  ghost function ShapeOf(s: ST.Server, o: Message): (shape: Shape)
    requires EnvelopesKnown(s.db)
    ensures forall row :: RowsFor(s, o, row) ==> row.id in shape.route && shape.route[row.id] == row.device
    ensures forall x :: x in shape.route ==> exists row :: RowsFor(s, o, row) && row.id == x
  {
    Shape(o.id, o.chat, o.senderUser, o.senderDevice, o.clientId, map x | x in IdsOf(s, o) :: DeviceOf(s, o, x))
  }

  ghost predicate TrueEvent(s: ST.Server, e: Event)
  {
    match e
    case Put(_, _, _) => true
    case Receipt(r) => IsDelivery(s, r)
    case Acceptance(m) => IsSent(s, m)
    case Metadata(m) => IsSent(s, m)
  }

  lemma SentIsCopy(s: ST.Server, o: Message, m: Sent)
    requires EnvelopesKnown(s.db) && ClientIdsUnique(s.db.messages) && Describes(s, m, o)
    ensures CopyOf(ShapeOf(s, o), m)
  {
    var shape := ShapeOf(s, o);
    forall d | d in m.envelopes ensures d.id in shape.route && d.device == shape.route[d.id] && d.messageId == o.id {
      DeliveryIsOnRoute(s, o, d);
    }
    forall x | x in shape.route ensures exists d :: d in m.envelopes && d.id == x {
      var row :| RowsFor(s, o, row) && row.id == x;
    }
  }

  lemma DeliveryIsOnRoute(s: ST.Server, o: Message, d: Delivery)
    requires EnvelopesKnown(s.db) && ClientIdsUnique(s.db.messages) && o in s.db.messages
    requires IsDelivery(s, d) && d.messageId == o.id
    ensures d.id in ShapeOf(s, o).route && d.device == ShapeOf(s, o).route[d.id]
  {
    hide ShapeOf;
    var row :| row in s.db.envelopes && SaidBy(row, d);
    SameMessageRow(s, row.message, o);
    assert RowsFor(s, o, row);
  }

  /** An identifier of an envelope of `o` never occurs with another message. */
  lemma RouteIsOwn(s: ST.Server, o: Message, x: nat, d: Delivery)
    requires EnvelopesKnown(s.db) && x in ShapeOf(s, o).route && IsDelivery(s, d) && d.id == x
    ensures d.messageId == o.id && d.device == ShapeOf(s, o).route[x]
    ensures forall row :: row in s.db.envelopes && row.id == x ==> SaidBy(row, d)
  {
    hide ShapeOf;
    var row :| RowsFor(s, o, row) && row.id == x;
    var other :| other in s.db.envelopes && SaidBy(other, d);
    SameEnvelopeRow(s, row, other);
    forall r | r in s.db.envelopes && r.id == x ensures SaidBy(r, d) { SameEnvelopeRow(s, r, other); }
  }

  /** What is said of the delivery of `x` is what the server stores. */
  ghost predicate ServerSays(s: ST.Server, x: nat, time: Option<int>)
  {
    time.Some? ==> forall row :: row in s.db.envelopes && row.id == x ==> row.deliveredAt == time
  }

  lemma SentTime(s: ST.Server, o: Message, x: nat, m: Sent)
    requires EnvelopesKnown(s.db) && x in ShapeOf(s, o).route && IsSent(s, m)
    ensures ServerSays(s, x, TimeOf(m.envelopes, x))
  {
    hide ShapeOf, Find;
    if Find(m.envelopes, x).Some? {
      var d := Find(m.envelopes, x).value;
      var p :| Describes(s, m, p);
      assert IsDelivery(s, d);
      RouteIsOwn(s, o, x, d);
    }
  }

  lemma TrueSentIsHonest(s: ST.Server, o: Message, x: nat, m: Sent)
    requires EnvelopesKnown(s.db) && ClientIdsUnique(s.db.messages) && o in s.db.messages && x in ShapeOf(s, o).route
    requires IsSent(s, m)
    ensures Honest(ShapeOf(s, o), x, Acceptance(m)) && Honest(ShapeOf(s, o), x, Metadata(m))
  {
    hide ShapeOf, CopyOf, DeliveriesOf, Avoids, ClientIdsUnique, EnvelopesKnown;
    ShapeNames(s, o);
    var p :| Describes(s, m, p);
    if p == o {
      SentIsCopy(s, o, m);
    } else {
      if m.id == o.id || SentBy(p, o.senderDevice, o.clientId) { SameMessageRow(s, p, o); }
      OtherAvoids(s, o, x, m, p);
    }
  }

  lemma OtherAvoids(s: ST.Server, o: Message, x: nat, m: Sent, p: Message)
    requires EnvelopesKnown(s.db) && x in ShapeOf(s, o).route && DeliveriesOf(s, p, m.envelopes) && p.id != o.id
    ensures Avoids(m.envelopes, x)
  {
    hide ShapeOf, IsDelivery, EnvelopesKnown;
    forall d | d in m.envelopes ensures d.id != x {
      assert IsDelivery(s, d) && d.messageId == p.id;
      if d.id == x { RouteIsOwn(s, o, x, d); }
    }
  }

  /** Whatever the server says is honest about every message it stores, and true of its delivery. */
  lemma TrueIsHonest(s: ST.Server, o: Message, x: nat, e: Event)
    requires EnvelopesKnown(s.db) && ClientIdsUnique(s.db.messages) && o in s.db.messages && x in ShapeOf(s, o).route
    requires TrueEvent(s, e)
    ensures Honest(ShapeOf(s, o), x, e) && ServerSays(s, x, Saying(ShapeOf(s, o), x, e))
  {
    hide ShapeOf, IsDelivery, IsSent, TimeOf, CopyOf;
    ShapeNames(s, o);
    match e
    case Put(_, _, _) =>
    case Receipt(r) => if r.id == x { RouteIsOwn(s, o, x, r); }
    case Acceptance(m) => TrueSentIsHonest(s, o, x, m); SentTime(s, o, x, m);
    case Metadata(m) => TrueSentIsHonest(s, o, x, m); SentTime(s, o, x, m);
  }

  // ---- the runs of the local database ----

  /** The events of a run that reach the outgoing stores. */
  ghost function EventOf(w: LR.World, e: LR.Event): seq<Event>
  {
    match e
    case Put(scope, command, replace, now) =>
      if scope != IS.Scope(w.device, w.generation) then [] else [Put(command, replace, now)]
    case Accept(scope, m) =>
      if scope != IS.Scope(w.device, w.generation) || !IsSent(w.server, m) then [] else [Acceptance(m)]
    case Receipt(scope, r) =>
      if scope != IS.Scope(w.device, w.generation) || !IsDelivery(w.server, r) then [] else [Receipt(r)]
    case MergeMetadata(scope, m) =>
      if scope != IS.Scope(w.device, w.generation) || !IsSent(w.server, m) then [] else [Metadata(m)]
    case _ => []
  }

  ghost function Trace(w: LR.World, events: seq<LR.Event>): seq<Event>
  {
    if events == [] then [] else
    var n := |events| - 1;
    Trace(w, events[..n]) + EventOf(LR.Run(w, events[..n]), events[n])
  }

  lemma StepIsTraced(w: LR.World, e: LR.Event)
    requires !e.Write?
    ensures var after, trace := LR.Next(w, e), EventOf(w, e);
      && after.user == w.user && after.device == w.device && |trace| <= 1
      && LR.OutgoingOf(after) == if trace == [] then LR.OutgoingOf(w)
           else Step(LR.OutgoingOf(w), w.user, w.device, trace[0])
  {
    hide ST.Apply, IsSent, IsDelivery, IsRow, IS.CommitPage, LR.PutEnvelopes,
         PutOutgoing, AcceptOutgoing, ApplyReceipt, MergeMetadata, LR.PutRows;
    forall db, rows ensures LR.Values(LR.PutRows(db, rows)) == rows { PutValues(db, rows); }
  }

  lemma PutValues(records: map<nat, H.Stored<Row>>, rows: map<nat, Row>)
    ensures LR.Values(LR.PutRows(records, rows)) == rows
  {
    hide H.OutgoingPlace;
  }

  lemma {:induction false} RunIsTraced(w: LR.World, events: seq<LR.Event>)
    requires forall e :: e in events ==> !e.Write?
    ensures var after := LR.Run(w, events);
      && after.user == w.user && after.device == w.device
      && LR.OutgoingOf(after) == Run(LR.OutgoingOf(w), w.user, w.device, Trace(w, events))
  {
    hide LR.Next, LR.OutgoingOf, EventOf, Step;
    if events != [] {
      var n := |events| - 1;
      RunIsTraced(w, events[..n]);
      var mid, trace := LR.Run(w, events[..n]), Trace(w, events[..n]);
      StepIsTraced(mid, events[n]);
      var last := EventOf(mid, events[n]);
      if last == [] {
        assert trace + last == trace;
      } else {
        assert last == [last[0]] && (trace + last)[..|trace|] == trace;
      }
    }
  }

  /** All that reached the stores by then is still what the server says in the end. */
  lemma {:induction false} TraceStaysTrue(w: LR.World, events: seq<LR.Event>)
    requires LR.WorldOk(w)
    ensures var s := LR.Run(w, events).server;
      && (forall e :: e in Trace(w, events) ==> TrueEvent(s, e))
      && LR.OutgoingTrue(s, w.device, LR.OutgoingOf(w))
  {
    hide LR.WorldOk, LR.OutgoingTrue, LR.Next, IsSent, IsDelivery, StaysTrue;
    LR.ServerKnows(w);
    if events != [] {
      var n := |events| - 1;
      TraceStaysTrue(w, events[..n]);
      LR.RunKeeps(w, events[..n]);
      var mid := LR.Run(w, events[..n]);
      ServerMoves(mid, events[n]);
      LR.OutgoingStaysTrue(mid.server, LR.Next(mid, events[n]).server, w.device, LR.OutgoingOf(w));
      forall e | e in Trace(w, events) ensures TrueEvent(LR.Next(mid, events[n]).server, e) {
        assert e in Trace(w, events[..n]) || e in EventOf(mid, events[n]);
        EventStaysTrue(mid.server, LR.Next(mid, events[n]).server, e);
      }
    }
  }

  lemma ServerMoves(w: LR.World, e: LR.Event)
    requires LR.WorldOk(w)
    ensures StaysTrue(w.server, LR.Next(w, e).server)
  {
    hide Inv, ST.Apply, StaysTrue, IsSent, IsDelivery, IsRow, LR.EnvelopesTrue, LR.OutgoingTrue;
    NothingChanges(w.server);
    if e.ServerStep? { AnswersStayTrue(w.server, e.step); }
  }

  lemma NothingChanges(s: ST.Server)
    ensures StaysTrue(s, s)
  {
  }

  lemma EventStaysTrue(s: ST.Server, after: ST.Server, e: Event)
    requires StaysTrue(s, after)
    ensures TrueEvent(s, e) ==> TrueEvent(after, e)
  {
    hide IsSent, IsDelivery, IsRow;
  }

  /** A command of the device waiting in the store, with what the server says of its message. */
  lemma StoreIsOk(s: ST.Server, o: Message, x: nat, store: Store)
    requires EnvelopesKnown(s.db) && ClientIdsUnique(s.db.messages) && o in s.db.messages && x in ShapeOf(s, o).route
    requires LR.OutgoingTrue(s, o.senderDevice, store) && x !in store.receipts
    requires o.clientId in store.outgoing && store.outgoing[o.clientId].command.chat == o.chat
    ensures StoreOk(store, ShapeOf(s, o), x)
    ensures o.id in store.metadata ==> ServerSays(s, x, TimeOf(store.metadata[o.id].envelopes, x))
    ensures IsAccepted(store, ShapeOf(s, o)) ==> ServerSays(s, x, DeliveredAt(store, ShapeOf(s, o), x))
  {
    hide ShapeOf, IsDelivery, TimeOf, CopyOf, ServerSays;
    var row := store.outgoing[o.clientId];
    if row.accepted.Some? { OwnAnswer(s, o, x, row.accepted.value); }
    if o.id in store.metadata { OwnAnswer(s, o, x, store.metadata[o.id]); }
    forall c | c in store.outgoing && c != o.clientId ensures !Binds(store.outgoing[c], o.id) {
      if Binds(store.outgoing[c], o.id) { OwnAnswer(s, o, x, store.outgoing[c].accepted.value); }
    }
    ShapeNames(s, o);
  }

  lemma ShapeNames(s: ST.Server, o: Message)
    requires EnvelopesKnown(s.db)
    ensures var shape := ShapeOf(s, o);
      && shape.id == o.id && shape.chat == o.chat && shape.clientId == o.clientId
      && shape.user == o.senderUser && shape.device == o.senderDevice
  {
  }

  lemma OwnAnswer(s: ST.Server, o: Message, x: nat, m: Sent)
    requires EnvelopesKnown(s.db) && ClientIdsUnique(s.db.messages) && o in s.db.messages && x in ShapeOf(s, o).route
    requires IsSent(s, m) && (m.id == o.id || (m.senderDevice == o.senderDevice && m.clientId == o.clientId))
    ensures CopyOf(ShapeOf(s, o), m) && m.clientId == o.clientId && ServerSays(s, x, TimeOf(m.envelopes, x))
  {
    hide ShapeOf, TimeOf, ServerSays, CopyOf;
    var p :| Describes(s, m, p);
    SameMessageRow(s, p, o);
    SentIsCopy(s, o, m);
    SentTime(s, o, x, m);
  }

  // ---- deliveries in every run ----

  /** A message of the device that the server stores in the end, and one of its envelopes. */
  ghost predicate SentHere(w: LR.World, after: LR.World, o: Message, x: nat)
  {
    && LR.WorldOk(w) && EnvelopesKnown(after.server.db) && o in after.server.db.messages
    && o.senderDevice == w.device && o.senderUser == w.user && x in ShapeOf(after.server, o).route
    && o.clientId in w.db.outgoing && w.db.outgoing[o.clientId].value.command.chat == o.chat && x !in w.receipts
  }

  ghost predicate OneIdentity(events: seq<LR.Event>)
  {
    forall e :: e in events ==> !e.Write?
  }

  lemma RunIsHonest(w: LR.World, events: seq<LR.Event>, o: Message, x: nat, time: int)
    requires OneIdentity(events) && SentHere(w, LR.Run(w, events), o, x)
    requires forall row :: row in LR.Run(w, events).server.db.envelopes && row.id == x ==> TimeIs(row.deliveredAt, time)
    ensures var shape, store := ShapeOf(LR.Run(w, events).server, o), LR.OutgoingOf(w);
      && StoreOk(store, shape, x) && TimeOk(store, shape, x, time) && AllHonest(shape, x, Trace(w, events))
      && forall e :: e in Trace(w, events) ==> Agree(shape, x, e, time)
  {
    hide LR.WorldOk, LR.Run, LR.OutgoingTrue, ShapeOf, Honest, Saying, TrueEvent, StoreOk, DeliveredAt, TimeOf;
    var s := LR.Run(w, events).server;
    TraceStaysTrue(w, events);
    LR.RunKeeps(w, events);
    LR.ServerKnows(LR.Run(w, events));
    StoreIsOk(s, o, x, LR.OutgoingOf(w));
    ShapeNames(s, o);
    var row :| RowsFor(s, o, row) && row.id == x;
    forall e | e in Trace(w, events) ensures Honest(ShapeOf(s, o), x, e) && Agree(ShapeOf(s, o), x, e, time) {
      TrueIsHonest(s, o, x, e);
    }
  }

  /** In every run without fetched metadata, however late, repeated or out of order the answers come:
      a stored command is accepted exactly when an acceptance came, and each envelope then carries
      the server's delivery time exactly when some receipt or acceptance said so. */
  lemma DeliveredInRuns(w: LR.World, events: seq<LR.Event>, o: Message, x: nat, time: int)
    requires OneIdentity(events) && SentHere(w, LR.Run(w, events), o, x)
    requires forall row :: row in LR.Run(w, events).server.db.envelopes && row.id == x ==> TimeIs(row.deliveredAt, time)
    requires w.db.outgoing[o.clientId].value.accepted.None? && forall e :: e in events ==> !e.MergeMetadata?
    ensures var shape, store := ShapeOf(LR.Run(w, events).server, o), LR.OutgoingOf(LR.Run(w, events));
      && (IsAccepted(store, shape) <==> EverAccepted(shape, Trace(w, events)))
      && (IsAccepted(store, shape) ==>
           DeliveredAt(store, shape, x) == if Said(shape, x, Trace(w, events)) then Some(time) else None)
  {
    hide LR.Run, ShapeOf, Honest, Agree, StoreOk, TimeOf, LR.WorldOk, Said, EverAccepted, AllHonest;
    var s, shape := LR.Run(w, events).server, ShapeOf(LR.Run(w, events).server, o);
    RunIsHonest(w, events, o, x, time);
    RunIsTraced(w, events);
    ShapeNames(s, o);
    NoMetadataTraced(w, events);
    DeliveredIffSaid(LR.OutgoingOf(w), shape, x, Trace(w, events));
    TimeInRun(LR.OutgoingOf(w), shape, x, Trace(w, events), time);
  }

  lemma {:induction false} NoMetadataTraced(w: LR.World, events: seq<LR.Event>)
    requires forall e :: e in events ==> !e.MergeMetadata?
    ensures forall e :: e in Trace(w, events) ==> !e.Metadata?
  {
    hide LR.Run, IsSent, IsDelivery;
    if events != [] { NoMetadataTraced(w, events[..|events| - 1]); }
  }

  /** The same with fetched metadata, from an acceptance on, when every merge meets the condition. */
  lemma CoveredInRuns(w: LR.World, events: seq<LR.Event>, o: Message, x: nat, time: int)
    requires OneIdentity(events) && SentHere(w, LR.Run(w, events), o, x)
    requires forall row :: row in LR.Run(w, events).server.db.envelopes && row.id == x ==> TimeIs(row.deliveredAt, time)
    requires var shape, store := ShapeOf(LR.Run(w, events).server, o), LR.OutgoingOf(w);
      IsAccepted(store, shape) && Silent(store, shape, x) && AllCovered(store, shape, x, Trace(w, events))
    ensures var shape, store := ShapeOf(LR.Run(w, events).server, o), LR.OutgoingOf(LR.Run(w, events));
      IsAccepted(store, shape)
      && DeliveredAt(store, shape, x) == if Said(shape, x, Trace(w, events)) then Some(time) else None
  {
    hide LR.Run, ShapeOf, Honest, Agree, StoreOk, TimeOf, LR.WorldOk, Said, AllHonest, Silent, AllCovered;
    RunIsHonest(w, events, o, x, time);
    RunIsTraced(w, events);
    ShapeNames(LR.Run(w, events).server, o);
    CoveredDeliveredIffSaid(LR.OutgoingOf(w), ShapeOf(LR.Run(w, events).server, o), x, Trace(w, events), time);
  }

  // ---- the rows of the outgoing path ----

  function MessageOf(m: Sent): Message
  {
    Message(m.id, m.chat, m.senderUser, m.senderDevice, m.clientId, m.chatSeq.Or(Some(0)).value, m.createdAt)
  }

  /** A stored row as the outgoing path sees it: the command and the message it is bound to. */
  function Seen(row: Row): OM.Row
  {
    OM.Row(row.command, match row.accepted case None => None case Some(m) => Some(MessageOf(m)))
  }

  function SeenRows(outgoing: map<nat, Row>): map<nat, OM.Row>
  {
    map c | c in outgoing :: Seen(outgoing[c])
  }

  /** Acceptances by this version carry the chat number. */
  ghost predicate NumbersKnown(outgoing: map<nat, Row>)
  {
    forall c :: c in outgoing && outgoing[c].accepted.Some? ==> outgoing[c].accepted.value.chatSeq.Some?
  }

  lemma SeenIsStored(s: ST.Server, m: Sent, o: Message)
    requires Describes(s, m, o) && m.chatSeq.Some?
    ensures MessageOf(m) == o
  {
  }

  /** The transactions here are those of the outgoing path, with times and deliveries added. */
  lemma PutIsSeen(s: Store, command: OM.Command, replace: bool, now: int)
    ensures var r, seen := PutOutgoing(s, command, replace, now),
      OM.PutOutgoing(SeenRows(s.outgoing), command, replace);
      r.Ok? == seen.Ok? && (r.Ok? ==> SeenRows(r.value.outgoing) == seen.value)
  {
  }

  /** A message is only ever bound to the row of its own client id. */
  lemma NeverBoundElsewhere(s: ST.Server, device: nat, store: Store, m: Sent)
    requires ClientIdsUnique(s.db.messages) && LR.OutgoingTrue(s, device, store) && IsSent(s, m)
    ensures !BoundElsewhere(store.outgoing, m.clientId, m.id)
  {
    hide IsSent, IsDelivery;
    forall k | k in store.outgoing && Binds(store.outgoing[k], m.id) ensures k == m.clientId {
      SameAnswer(s, store.outgoing[k].accepted.value, m);
    }
  }

  lemma AcceptIsSeen(s: ST.Server, store: Store, user: nat, device: nat, m: Sent)
    requires ClientIdsUnique(s.db.messages) && LR.OutgoingTrue(s, device, store) && IsSent(s, m) && m.chatSeq.Some?
    ensures var r := AcceptOutgoing(store, user, device, m);
      var seen := OM.AcceptOutgoing(SeenRows(store.outgoing), user, device, MessageOf(m));
      r.Ok? == seen.Ok? && (r.Ok? ==> SeenRows(r.value.outgoing) == seen.value)
  {
    NeverBoundElsewhere(s, device, store, m);
    hide AcceptEnvelopes, LR.OutgoingTrue, IsSent, BoundElsewhere;
    if AcceptOutgoing(store, user, device, m).Ok? {
      var after := AcceptOutgoing(store, user, device, m).value;
      assert Seen(after.outgoing[m.clientId]) == SeenRows(store.outgoing)[m.clientId].(accepted := Some(MessageOf(m)));
      assert SeenRows(after.outgoing) == SeenRows(store.outgoing)[m.clientId := Seen(after.outgoing[m.clientId])];
    }
  }

  /** A receipt changes nothing the outgoing path sees. */
  lemma ReceiptIsSeen(s: Store, receipt: Delivery)
    requires ApplyReceipt(s, receipt).Ok?
    ensures SeenRows(ApplyReceipt(s, receipt).value.outgoing) == SeenRows(s.outgoing)
  {
    hide Receive;
  }

  /** Neither do fetched metadata: they name the message the row is bound to. */
  lemma MetadataIsSeen(s: ST.Server, store: Store, user: nat, device: nat, m: Sent)
    requires ClientIdsUnique(s.db.messages) && LR.OutgoingTrue(s, device, store) && NumbersKnown(store.outgoing)
    requires IsSent(s, m) && m.chatSeq.Some? && MergeMetadata(store, user, m).Ok?
    ensures SeenRows(MergeMetadata(store, user, m).value.outgoing) == SeenRows(store.outgoing)
    ensures NumbersKnown(MergeMetadata(store, user, m).value.outgoing)
  {
    hide MetadataEnvelopes, DeliveriesOf, IsDelivery, ClientIdsUnique;
    var c := RowOfMessage(store.outgoing, m.id);
    if c.Some? {
      var accepted := store.outgoing[c.value].accepted.value;
      var o :| Describes(s, m, o);
      var p :| Describes(s, accepted, p);
      SameMessageRow(s, o, p);
      SeenIsStored(s, m, o);
      SeenIsStored(s, accepted, o);
    }
  }
}
