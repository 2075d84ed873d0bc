/** Delivery metadata of sent messages: receipts may come before or after the acceptance they
    belong to, acceptances may be repeated with old copies, and everything may be repeated. */
module DeliveryMetadata {
  import opened Common
  import OM = OutgoingMachine
  import opened OutgoingStore

  datatype Event =
    | Put(command: OM.Command, replace: bool, now: int)
    | Receipt(receipt: Delivery)
    | Acceptance(message: Sent)
    | Metadata(message: Sent)

  /** What is known of one sent message: who sent it, and to which device each envelope goes. */
  datatype Shape = Shape(id: nat, chat: nat, user: nat, device: nat, clientId: nat, route: map<nat, nat>)

  function Step(s: Store, user: nat, device: nat, e: Event): Store
  {
    match (match e
           case Put(command, replace, now) => PutOutgoing(s, command, replace, now)
           case Receipt(r) => ApplyReceipt(s, r)
           case Acceptance(m) => AcceptOutgoing(s, user, device, m)
           case Metadata(m) => MergeMetadata(s, user, m))
    case Ok(after) => after
    case Err(_) => s
  }

  function Run(s: Store, user: nat, device: nat, events: seq<Event>): Store
  {
    if events == [] then s else Step(Run(s, user, device, events[..|events| - 1]), user, device, events[|events| - 1])
  }

  // ---- copies of one message ----

  /** Every envelope of the route occurs once, in whatever order. */
  ghost predicate OnRoute(shape: Shape, es: seq<Delivery>)
  {
    && (forall i, j :: 0 <= i < j < |es| ==> es[i].id != es[j].id)
    && (forall e :: e in es ==> e.id in shape.route && e.device == shape.route[e.id] && e.messageId == shape.id)
    && (forall x :: x in shape.route ==> exists e :: e in es && e.id == x)
  }

  ghost predicate CopyOf(shape: Shape, m: Sent)
  {
    && m.id == shape.id && m.chat == shape.chat && m.senderUser == shape.user && m.senderDevice == shape.device
    && m.clientId == shape.clientId && OnRoute(shape, m.envelopes)
  }

  ghost predicate Avoids(es: seq<Delivery>, x: nat)
  {
    forall e :: e in es ==> e.id != x
  }

  /** An acceptance of another device or user is refused. */
  predicate FromSender(shape: Shape, m: Sent)
  {
    m.senderUser == shape.user && m.senderDevice == shape.device
  }

  /** What is said about envelope `x` of the message, and what is said about others, is as the
      server says it: identifiers belong together. */
  ghost predicate Honest(shape: Shape, x: nat, e: Event)
    requires x in shape.route
  {
    match e
    case Put(_, _, _) => true
    case Receipt(r) => r.id == x ==> r.messageId == shape.id && r.device == shape.route[x]
    case Acceptance(m) =>
      FromSender(shape, m) ==>
        if m.clientId == shape.clientId then CopyOf(shape, m) else m.id != shape.id && Avoids(m.envelopes, x)
    case Metadata(m) => m.id == shape.id ==> CopyOf(shape, m)
  }

  /** The delivery time listed for an envelope. */
  function TimeOf(es: seq<Delivery>, x: nat): Option<int>
  {
    var found := Find(es, x);
    if found.Some? then found.value.deliveredAt else None
  }

  /** What the event says about the delivery of envelope `x`. */
  function Saying(shape: Shape, x: nat, e: Event): Option<int>
  {
    match e
    case Put(_, _, _) => None
    case Receipt(r) => if r.id == x then r.deliveredAt else None
    case Acceptance(m) => if FromSender(shape, m) && m.clientId == shape.clientId then TimeOf(m.envelopes, x) else None
    case Metadata(m) => if m.id == shape.id then TimeOf(m.envelopes, x) else None
  }

  /** The event says that envelope `x` was delivered. */
  predicate Says(shape: Shape, x: nat, e: Event)
  {
    Saying(shape, x, e).Some?
  }

  // ---- the store and one message ----

  predicate IsAccepted(s: Store, shape: Shape)
  {
    shape.clientId in s.outgoing && s.outgoing[shape.clientId].accepted.Some?
  }

  function DeliveredAt(s: Store, shape: Shape, x: nat): Option<int>
    requires IsAccepted(s, shape)
  {
    TimeOf(s.outgoing[shape.clientId].accepted.value.envelopes, x)
  }

  ghost predicate OutgoingOk(outgoing: map<nat, Row>, shape: Shape)
  {
    && shape.clientId in outgoing && outgoing[shape.clientId].command.chat == shape.chat
    && (outgoing[shape.clientId].accepted.Some? ==> CopyOf(shape, outgoing[shape.clientId].accepted.value))
    && forall c :: c in outgoing && c != shape.clientId ==> !Binds(outgoing[c], shape.id)
  }

  ghost predicate ReceiptsOk(receipts: map<nat, Delivery>, shape: Shape, x: nat)
    requires x in shape.route
  {
    x in receipts ==>
      receipts[x].messageId == shape.id && receipts[x].device == shape.route[x] && receipts[x].deliveredAt.Some?
  }

  ghost predicate MetadataOk(metadata: map<nat, Sent>, shape: Shape)
  {
    shape.id in metadata ==> CopyOf(shape, metadata[shape.id])
  }

  ghost predicate StoreOk(s: Store, shape: Shape, x: nat)
    requires x in shape.route
  {
    && OutgoingOk(s.outgoing, shape) && ReceiptsOk(s.receipts, shape, x) && MetadataOk(s.metadata, shape)
    && (IsAccepted(s, shape) ==> x !in s.receipts)
  }

  /** The store has heard that envelope `x` was delivered: in the acceptance if there is one,
      otherwise as an early receipt. */
  predicate Heard(s: Store, shape: Shape, x: nat)
  {
    if IsAccepted(s, shape) then DeliveredAt(s, shape, x).Some? else x in s.receipts
  }

  /** Merging a fetched copy keeps what the acceptance has heard of envelope `x`: the copy says it
      itself, no metadata is stored yet, or the stored metadata says it. */
  predicate Covers(s: Store, shape: Shape, x: nat, m: Sent)
  {
    || TimeOf(m.envelopes, x).Some?
    || shape.id !in s.metadata
    || TimeOf(s.metadata[shape.id].envelopes, x).Some?
  }

  // ---- one envelope of a route ----

  lemma {:induction false} FindFirst(es: seq<Delivery>, x: nat, k: nat)
    requires k < |es| && es[k].id == x && forall i :: 0 <= i < k ==> es[i].id != x
    ensures Find(es, x) == Some(es[k])
  {
    if k > 0 { FindFirst(es[1..], x, k - 1); }
  }

  /** Where envelope `x` stands in a copy, and in any later version of that copy. */
  lemma Place(shape: Shape, es: seq<Delivery>, x: nat) returns (k: nat)
    requires x in shape.route && OnRoute(shape, es)
    ensures k < |es| && es[k].id == x && Find(es, x) == Some(es[k])
    ensures es[k].device == shape.route[x] && es[k].messageId == shape.id
    ensures forall i :: 0 <= i < |es| && i != k ==> es[i].id != x
  {
    var e :| e in es && e.id == x;
    k :| 0 <= k < |es| && es[k] == e;
    FindFirst(es, x, k);
  }

  predicate SameRoute(a: Delivery, b: Delivery)
  {
    a.id == b.id && a.device == b.device && a.messageId == b.messageId
  }

  lemma RouteKept(shape: Shape, es: seq<Delivery>, later: seq<Delivery>)
    requires OnRoute(shape, es) && |later| == |es| && forall i :: 0 <= i < |es| ==> SameRoute(es[i], later[i])
    ensures OnRoute(shape, later)
  {
    forall x | x in shape.route ensures exists e :: e in later && e.id == x {
      var e :| e in es && e.id == x;
      var k :| 0 <= k < |es| && es[k] == e;
      assert later[k] in later;
    }
    forall e | e in later ensures e.id in shape.route && e.device == shape.route[e.id] && e.messageId == shape.id {
      var k :| 0 <= k < |later| && later[k] == e;
      assert es[k] in es;
    }
  }

  lemma {:induction false} AcceptedAvoids(es: seq<Delivery>, prior: Option<Sent>, receipts: map<nat, Delivery>, x: nat)
    requires Avoids(es, x)
    ensures Get(AcceptEnvelopes(es, prior, receipts).1, x) == Get(receipts, x)
  {
    if es != [] {
      assert es[|es| - 1] in es;
      AcceptedAvoids(es[..|es| - 1], prior, receipts, x);
    }
  }

  /** Acceptance of a copy: envelope `x`, the `k`-th listed, takes its own time, the one accepted
      before, or that of the early receipt, which is gone afterwards. */
  lemma {:induction false} AcceptedAt(es: seq<Delivery>, prior: Option<Sent>, receipts: map<nat, Delivery>, x: nat,
                                      k: nat, n: nat)
    requires k < n <= |es| && es[k].id == x && forall i :: 0 <= i < |es| && i != k ==> es[i].id != x
    ensures var r := AcceptEnvelopes(es[..n], prior, receipts);
      && r.0[k] == MergeReceipt(MergeDeliveryMetadata(es[k], FindIn(prior, x)), Get(receipts, x))
      && x !in r.1
  {
    assert es[..n][..n - 1] == es[..n - 1];
    if n == k + 1 {
      AcceptedAvoids(es[..k], prior, receipts, x);
    } else {
      AcceptedAt(es, prior, receipts, x, k, n - 1);
    }
  }

  lemma {:induction false} AcceptedRoute(es: seq<Delivery>, prior: Option<Sent>, receipts: map<nat, Delivery>)
    ensures forall i :: 0 <= i < |es| ==> SameRoute(es[i], AcceptEnvelopes(es, prior, receipts).0[i])
  {
    if es != [] { AcceptedRoute(es[..|es| - 1], prior, receipts); }
  }

  lemma AcceptedTime(shape: Shape, x: nat, es: seq<Delivery>, prior: Option<Sent>, receipts: map<nat, Delivery>)
    requires x in shape.route && OnRoute(shape, es) && ReceiptsOk(receipts, shape, x)
    requires prior.Some? ==> OnRoute(shape, prior.value.envelopes)
    ensures var r := AcceptEnvelopes(es, prior, receipts);
      && OnRoute(shape, r.0) && x !in r.1
      && TimeOf(r.0, x) == TimeOf(es, x)
           .Or(if prior.Some? then TimeOf(prior.value.envelopes, x) else None)
           .Or(if x in receipts then receipts[x].deliveredAt else None)
  {
    var k := Place(shape, es, x);
    hide OnRoute, Find;
    assert es[..|es|] == es;
    AcceptedAt(es, prior, receipts, x, k, |es|);
    AcceptedRoute(es, prior, receipts);
    var later := AcceptEnvelopes(es, prior, receipts).0;
    RouteKept(shape, es, later);
    FindFirst(later, x, k);
    if prior.Some? { var j := Place(shape, prior.value.envelopes, x); }
  }

  lemma ReceivedTime(shape: Shape, x: nat, es: seq<Delivery>, r: Delivery)
    requires x in shape.route && OnRoute(shape, es) && Honest(shape, x, Receipt(r))
    ensures OnRoute(shape, Receive(es, r))
    ensures TimeOf(Receive(es, r), x) == TimeOf(es, x).Or(if r.id == x then r.deliveredAt else None)
  {
    var k := Place(shape, es, x);
    hide OnRoute, Find;
    RouteKept(shape, es, Receive(es, r));
    FindFirst(Receive(es, r), x, k);
  }

  /** Fetched metadata: envelope `x` takes its own time, that of the one copy consulted, or the receipt's. */
  lemma MetadataTime(shape: Shape, x: nat, es: seq<Delivery>, prior: Option<Sent>, accepted: Option<Sent>,
                     receipts: map<nat, Delivery>)
    requires x in shape.route && OnRoute(shape, es) && ReceiptsOk(receipts, shape, x)
    requires prior.Some? ==> OnRoute(shape, prior.value.envelopes)
    requires accepted.Some? ==> OnRoute(shape, accepted.value.envelopes)
    ensures var later := MetadataEnvelopes(es, prior, accepted, receipts);
      && OnRoute(shape, later)
      && TimeOf(later, x) == TimeOf(es, x)
           .Or(if prior.Some? then TimeOf(prior.value.envelopes, x)
               else if accepted.Some? then TimeOf(accepted.value.envelopes, x) else None)
           .Or(if x in receipts then receipts[x].deliveredAt else None)
  {
    hide OnRoute, Find, MergeReceipt, MergeDeliveryMetadata;
    var k := Place(shape, es, x);
    if prior.Some? { var i := Place(shape, prior.value.envelopes, x); }
    if accepted.Some? { var j := Place(shape, accepted.value.envelopes, x); }
    var later := MetadataEnvelopes(es, prior, accepted, receipts);
    forall i | 0 <= i < |es| ensures SameRoute(es[i], later[i]) {
      MergedOnce(es[i], FindIn(prior, es[i].id).Or(FindIn(accepted, es[i].id)), Get(receipts, es[i].id));
    }
    RouteKept(shape, es, later);
    FindFirst(later, x, k);
    MergedOnce(es[k], FindIn(prior, x).Or(FindIn(accepted, x)), Get(receipts, x));
  }

  lemma MergedOnce(d: Delivery, prior: Option<Delivery>, receipt: Option<Delivery>)
    ensures var later := MergeReceipt(MergeDeliveryMetadata(d, prior), receipt);
      && SameRoute(d, later)
      && (receipt.None? || (receipt.value.messageId == d.messageId && receipt.value.device == d.device) ==>
           later.deliveredAt == d.deliveredAt
             .Or(if prior.Some? then prior.value.deliveredAt else None)
             .Or(if receipt.Some? then receipt.value.deliveredAt else None))
  {
  }

  lemma RowOfShape(outgoing: map<nat, Row>, shape: Shape)
    requires OutgoingOk(outgoing, shape)
    ensures RowOfMessage(outgoing, shape.id)
            == if outgoing[shape.clientId].accepted.Some? then Some(shape.clientId) else None
  {
  }

  // ---- one step ----

  lemma PutStep(s: Store, shape: Shape, x: nat, e: Event)
    requires x in shape.route && StoreOk(s, shape, x) && e.Put?
    ensures var after := Step(s, shape.user, shape.device, e);
      && StoreOk(after, shape, x) && IsAccepted(after, shape) == IsAccepted(s, shape)
      && Heard(after, shape, x) == Heard(s, shape, x) && after.receipts == s.receipts && after.metadata == s.metadata
      && (IsAccepted(s, shape) ==> DeliveredAt(after, shape, x) == DeliveredAt(s, shape, x))
  {
    hide OnRoute, TimeOf;
  }

  /** The time of the stored metadata is what it was, or what the event says. */
  predicate StoredOrSaid(s: Store, shape: Shape, x: nat, time: Option<int>, e: Event)
    requires shape.id in s.metadata
  {
    time == TimeOf(s.metadata[shape.id].envelopes, x) || time == Saying(shape, x, e)
  }

  lemma ReceiptStep(s: Store, shape: Shape, x: nat, e: Event)
    requires x in shape.route && StoreOk(s, shape, x) && e.Receipt? && Honest(shape, x, e)
    ensures var after := Step(s, shape.user, shape.device, e);
      && StoreOk(after, shape, x) && IsAccepted(after, shape) == IsAccepted(s, shape)
      && (Heard(after, shape, x) <==> Heard(s, shape, x) || Says(shape, x, e))
      && (IsAccepted(s, shape) ==> DeliveredAt(after, shape, x) == DeliveredAt(s, shape, x).Or(Saying(shape, x, e)))
      && (!IsAccepted(s, shape) && x in after.receipts ==>
           (x in s.receipts && after.receipts[x] == s.receipts[x])
             || after.receipts[x].deliveredAt == Saying(shape, x, e))
      && (shape.id in after.metadata ==>
           shape.id in s.metadata && StoredOrSaid(s, shape, x, TimeOf(after.metadata[shape.id].envelopes, x), e))
  {
    hide Receive, OnRoute, TimeOf;
    var r := e.receipt;
    RowOfShape(s.outgoing, shape);
    if r.deliveredAt.Some? {
      var c := RowOfMessage(s.outgoing, r.messageId);
      if c.Some? && c.value != shape.clientId { assert r.messageId != shape.id; }
      if s.outgoing[shape.clientId].accepted.Some? {
        ReceivedTime(shape, x, s.outgoing[shape.clientId].accepted.value.envelopes, r);
      }
      if shape.id in s.metadata { ReceivedTime(shape, x, s.metadata[shape.id].envelopes, r); }
    }
  }

  /** What an acceptance of the message leaves for envelope `x`. */
  lemma OwnAcceptance(s: Store, shape: Shape, x: nat, m: Sent)
    requires x in shape.route && StoreOk(s, shape, x) && CopyOf(shape, m)
    ensures AcceptOutgoing(s, shape.user, shape.device, m).Ok?
    ensures var after := AcceptOutgoing(s, shape.user, shape.device, m).value;
      && StoreOk(after, shape, x) && IsAccepted(after, shape)
      && DeliveredAt(after, shape, x) == TimeOf(m.envelopes, x)
           .Or(if IsAccepted(s, shape) then DeliveredAt(s, shape, x) else None)
           .Or(if x in s.receipts then s.receipts[x].deliveredAt else None)
      && x !in after.receipts && after.metadata == s.metadata
  {
    hide TimeOf, AcceptEnvelopes, OnRoute;
    AcceptedTime(shape, x, m.envelopes, s.outgoing[shape.clientId].accepted, s.receipts);
  }

  lemma AcceptanceStep(s: Store, shape: Shape, x: nat, e: Event)
    requires x in shape.route && StoreOk(s, shape, x) && e.Acceptance? && Honest(shape, x, e)
    ensures var after := Step(s, shape.user, shape.device, e);
      && StoreOk(after, shape, x) && after.metadata == s.metadata
      && (IsAccepted(after, shape) <==> IsAccepted(s, shape) || Accepts(shape, e))
      && (Heard(after, shape, x) <==> Heard(s, shape, x) || Says(shape, x, e))
      && (!Accepts(shape, e) ==> Get(after.receipts, x) == Get(s.receipts, x))
      && (!Accepts(shape, e) && IsAccepted(s, shape) ==> DeliveredAt(after, shape, x) == DeliveredAt(s, shape, x))
  {
    hide TimeOf, OnRoute, AcceptEnvelopes;
    var m := e.message;
    if Accepts(shape, e) {
      OwnAcceptance(s, shape, x, m);
    } else if FromSender(shape, m) {
      AcceptedAvoids(m.envelopes, if m.clientId in s.outgoing then s.outgoing[m.clientId].accepted else None,
                     s.receipts, x);
    }
  }

  /** What a merge of fetched metadata leaves for envelope `x`: its own time, that of the one copy
      consulted, or the early receipt's. */
  function MergedTime(s: Store, shape: Shape, x: nat, m: Sent): Option<int>
  {
    TimeOf(m.envelopes, x)
      .Or(if shape.id in s.metadata then TimeOf(s.metadata[shape.id].envelopes, x)
          else if IsAccepted(s, shape) then DeliveredAt(s, shape, x) else None)
      .Or(if x in s.receipts then s.receipts[x].deliveredAt else None)
  }

  lemma MetadataStep(s: Store, shape: Shape, x: nat, e: Event)
    requires x in shape.route && StoreOk(s, shape, x) && e.Metadata? && Honest(shape, x, e)
    ensures var after := Step(s, shape.user, shape.device, e);
      && StoreOk(after, shape, x) && IsAccepted(after, shape) == IsAccepted(s, shape) && after.receipts == s.receipts
      && (e.message.id != shape.id ==>
           after.outgoing[shape.clientId].accepted == s.outgoing[shape.clientId].accepted
           && Get(after.metadata, shape.id) == Get(s.metadata, shape.id))
      && (e.message.id == shape.id ==>
           shape.id in after.metadata
           && TimeOf(after.metadata[shape.id].envelopes, x) == MergedTime(s, shape, x, e.message)
           && (IsAccepted(s, shape) ==> DeliveredAt(after, shape, x) == MergedTime(s, shape, x, e.message)))
  {
    hide TimeOf, OnRoute, MetadataEnvelopes;
    var m := e.message;
    RowOfShape(s.outgoing, shape);
    if m.id == shape.id {
      MetadataTime(shape, x, m.envelopes, Get(s.metadata, m.id), AcceptedAs(s.outgoing, m.id), s.receipts);
    }
  }

  /** The exact condition under which merging fetched metadata keeps a delivery: it consults
      only one earlier copy, so a stored copy that has not heard hides an acceptance that has. */
  lemma MetadataKeepsIff(s: Store, shape: Shape, x: nat, m: Sent)
    requires x in shape.route && StoreOk(s, shape, x) && CopyOf(shape, m)
    requires IsAccepted(s, shape) && DeliveredAt(s, shape, x).Some?
    ensures var after := Step(s, shape.user, shape.device, Metadata(m));
      IsAccepted(after, shape) && (DeliveredAt(after, shape, x).Some? <==> Covers(s, shape, x, m))
  {
    hide TimeOf, OnRoute, Step;
    MetadataStep(s, shape, x, Metadata(m));
  }

  // ---- whole runs ----

  ghost predicate AllHonest(shape: Shape, x: nat, events: seq<Event>)
    requires x in shape.route
  {
    forall e :: e in events ==> Honest(shape, x, e)
  }

  ghost predicate Said(shape: Shape, x: nat, events: seq<Event>)
  {
    exists e :: e in events && Says(shape, x, e)
  }

  predicate Accepts(shape: Shape, e: Event)
  {
    e.Acceptance? && FromSender(shape, e.message) && e.message.clientId == shape.clientId
  }

  ghost predicate EverAccepted(shape: Shape, events: seq<Event>)
  {
    exists e :: e in events && Accepts(shape, e)
  }

  /** A stored command that is not accepted yet and of which nothing was heard. */
  ghost predicate Fresh(s: Store, shape: Shape, x: nat)
    requires x in shape.route
  {
    StoreOk(s, shape, x) && !IsAccepted(s, shape) && !Heard(s, shape, x)
  }

  lemma SaidLast(shape: Shape, x: nat, events: seq<Event>)
    requires x in shape.route && events != []
    ensures var n := |events| - 1;
      && (Said(shape, x, events) <==> Said(shape, x, events[..n]) || Says(shape, x, events[n]))
      && (EverAccepted(shape, events) <==> EverAccepted(shape, events[..n]) || Accepts(shape, events[n]))
      && (AllHonest(shape, x, events) ==> AllHonest(shape, x, events[..n]) && Honest(shape, x, events[n]))
  {
    hide Says, Honest, Accepts;
    var n := |events| - 1;
    assert events == events[..n] + [events[n]];
    assert events[n] in events;
  }

  /** For every interleaving and repetition of receipts and acceptances, early, late or stale: the
      message is accepted exactly when an acceptance occurred, and its envelope is then delivered
      exactly when some receipt or acceptance said so. */
  lemma {:induction false} DeliveredIffSaid(s: Store, shape: Shape, x: nat, events: seq<Event>)
    requires x in shape.route && Fresh(s, shape, x) && AllHonest(shape, x, events)
    requires forall e :: e in events ==> !e.Metadata?
    ensures var after := Run(s, shape.user, shape.device, events);
      && StoreOk(after, shape, x)
      && (IsAccepted(after, shape) <==> EverAccepted(shape, events))
      && (Heard(after, shape, x) <==> Said(shape, x, events))
      && (IsAccepted(after, shape) ==> (DeliveredAt(after, shape, x).Some? <==> Said(shape, x, events)))
  {
    hide StoreOk, Honest, Step, Saying, AllHonest, Said, EverAccepted, DeliveredAt;
    if events == [] {
      NothingSaid(shape, x);
    } else {
      var n := |events| - 1;
      var mid := Run(s, shape.user, shape.device, events[..n]);
      SaidLast(shape, x, events);
      DeliveredIffSaid(s, shape, x, events[..n]);
      assert events[n] in events;
      match events[n]
      case Put(_, _, _) => PutStep(mid, shape, x, events[n]); NothingIn(shape, x, events[n]);
      case Receipt(_) => ReceiptStep(mid, shape, x, events[n]);
      case Acceptance(_) => AcceptanceStep(mid, shape, x, events[n]);
      case _ =>
    }
  }

  lemma NothingSaid(shape: Shape, x: nat)
    ensures !Said(shape, x, []) && !EverAccepted(shape, [])
  {
  }

  lemma NothingIn(shape: Shape, x: nat, e: Event)
    requires e.Put?
    ensures !Says(shape, x, e)
  {
  }

  /** The server never changes a delivery time once set, so all that is said of it agrees. */
  ghost predicate Agree(shape: Shape, x: nat, e: Event, time: int)
  {
    Says(shape, x, e) ==> Saying(shape, x, e) == Some(time)
  }

  ghost predicate TimeIs(t: Option<int>, time: int)
  {
    t.None? || t == Some(time)
  }

  /** All that is stored of the delivery is that time. */
  ghost predicate TimeOk(s: Store, shape: Shape, x: nat, time: int)
  {
    && (x in s.receipts ==> s.receipts[x].deliveredAt == Some(time))
    && (IsAccepted(s, shape) ==> TimeIs(DeliveredAt(s, shape, x), time))
    && (shape.id in s.metadata ==> TimeIs(TimeOf(s.metadata[shape.id].envelopes, x), time))
  }

  lemma TimeStep(s: Store, shape: Shape, x: nat, e: Event, time: int)
    requires x in shape.route && StoreOk(s, shape, x) && Honest(shape, x, e)
    requires TimeOk(s, shape, x, time) && Agree(shape, x, e, time)
    ensures TimeOk(Step(s, shape.user, shape.device, e), shape, x, time)
  {
    hide StoreOk, Honest, TimeOf, OnRoute;
    match e
    case Put(_, _, _) =>
      hide Step;
      PutStep(s, shape, x, e);
    case Receipt(r) =>
      ReceiptStep(s, shape, x, e);
      hide Receive;
    case Acceptance(m) =>
      AcceptanceStep(s, shape, x, e);
      if Accepts(shape, e) { AcceptedCopy(shape, x, m); OwnAcceptance(s, shape, x, m); }
      hide AcceptEnvelopes;
    case Metadata(m) =>
      hide Step;
      MetadataStep(s, shape, x, e);
  }

  lemma AcceptedCopy(shape: Shape, x: nat, m: Sent)
    requires x in shape.route && Honest(shape, x, Acceptance(m)) && Accepts(shape, Acceptance(m))
    ensures CopyOf(shape, m)
  {
  }

  lemma {:induction false} TimeInRun(s: Store, shape: Shape, x: nat, events: seq<Event>, time: int)
    requires x in shape.route && StoreOk(s, shape, x) && TimeOk(s, shape, x, time) && AllHonest(shape, x, events)
    requires forall e :: e in events ==> Agree(shape, x, e, time)
    ensures var after := Run(s, shape.user, shape.device, events);
      StoreOk(after, shape, x) && TimeOk(after, shape, x, time)
  {
    hide StoreOk, Honest, Step, Agree, TimeOk;
    if events != [] {
      var n := |events| - 1;
      SaidLast(shape, x, events);
      TimeInRun(s, shape, x, events[..n], time);
      assert events[n] in events;
      StepStoreOk(Run(s, shape.user, shape.device, events[..n]), shape, x, events[n]);
      TimeStep(Run(s, shape.user, shape.device, events[..n]), shape, x, events[n], time);
    }
  }

  lemma StepStoreOk(s: Store, shape: Shape, x: nat, e: Event)
    requires x in shape.route && StoreOk(s, shape, x) && Honest(shape, x, e)
    ensures StoreOk(Step(s, shape.user, shape.device, e), shape, x)
    ensures IsAccepted(s, shape) ==> IsAccepted(Step(s, shape.user, shape.device, e), shape)
  {
    hide StoreOk, Honest, Step, DeliveredAt, Saying;
    match e
    case Put(_, _, _) => PutStep(s, shape, x, e);
    case Receipt(_) => ReceiptStep(s, shape, x, e);
    case Acceptance(_) => AcceptanceStep(s, shape, x, e);
    case Metadata(_) => MetadataStep(s, shape, x, e);
  }

  /** Order and repetition do not matter: two runs in which the same things were said end with
      the same acceptance and the same delivery time. */
  lemma OrderDoesNotMatter(s: Store, shape: Shape, x: nat, a: seq<Event>, b: seq<Event>, time: int)
    requires x in shape.route && Fresh(s, shape, x) && TimeOk(s, shape, x, time)
    requires AllHonest(shape, x, a) && AllHonest(shape, x, b) && forall e :: e in a <==> e in b
    requires forall e :: e in a ==> !e.Metadata? && Agree(shape, x, e, time)
    ensures var p, q := Run(s, shape.user, shape.device, a), Run(s, shape.user, shape.device, b);
      && IsAccepted(p, shape) == IsAccepted(q, shape)
      && (IsAccepted(p, shape) ==> DeliveredAt(p, shape, x) == DeliveredAt(q, shape, x))
  {
    hide StoreOk, Honest, Run, Saying, Agree, IsAccepted, DeliveredAt;
    DeliveredIffSaid(s, shape, x, a);
    DeliveredIffSaid(s, shape, x, b);
    TimeInRun(s, shape, x, a, time);
    TimeInRun(s, shape, x, b, time);
    assert Said(shape, x, a) <==> Said(shape, x, b);
    assert EverAccepted(shape, a) <==> EverAccepted(shape, b);
  }

  // ---- runs with fetched metadata ----

  /** Nothing stored says that envelope `x` was delivered. */
  ghost predicate Silent(s: Store, shape: Shape, x: nat)
  {
    !Heard(s, shape, x) && (shape.id in s.metadata ==> TimeOf(s.metadata[shape.id].envelopes, x).None?)
  }

  lemma SilentStep(s: Store, shape: Shape, x: nat, e: Event)
    requires x in shape.route && StoreOk(s, shape, x) && Honest(shape, x, e) && Silent(s, shape, x)
    requires !Says(shape, x, e)
    ensures Silent(Step(s, shape.user, shape.device, e), shape, x)
  {
    hide StoreOk, Honest, TimeOf, OnRoute, Step;
    match e
    case Put(_, _, _) => PutStep(s, shape, x, e);
    case Receipt(_) => ReceiptStep(s, shape, x, e);
    case Acceptance(_) => AcceptanceStep(s, shape, x, e);
    case Metadata(_) =>
      MetadataStep(s, shape, x, e);
      AcceptedHasNoReceipt(s, shape, x);
  }

  lemma AcceptedHasNoReceipt(s: Store, shape: Shape, x: nat)
    requires x in shape.route && StoreOk(s, shape, x)
    ensures IsAccepted(s, shape) ==> x !in s.receipts
  {
  }

  /** In every run, with metadata merges of any kind: what nobody said is not stored. */
  lemma {:induction false} NothingUnsaidIsStored(s: Store, shape: Shape, x: nat, events: seq<Event>)
    requires x in shape.route && StoreOk(s, shape, x) && Silent(s, shape, x) && AllHonest(shape, x, events)
    requires !Said(shape, x, events)
    ensures var after := Run(s, shape.user, shape.device, events); StoreOk(after, shape, x) && Silent(after, shape, x)
  {
    hide StoreOk, Honest, Step, Saying, AllHonest, Said, Silent;
    if events != [] {
      var n := |events| - 1;
      SaidLast(shape, x, events);
      NothingUnsaidIsStored(s, shape, x, events[..n]);
      StepStoreOk(Run(s, shape.user, shape.device, events[..n]), shape, x, events[n]);
      SilentStep(Run(s, shape.user, shape.device, events[..n]), shape, x, events[n]);
    }
  }

  /** Every merge of fetched metadata in the run meets the condition. */
  ghost predicate AllCovered(s: Store, shape: Shape, x: nat, events: seq<Event>)
  {
    events != [] ==>
      var n := |events| - 1;
      && AllCovered(s, shape, x, events[..n])
      && (events[n].Metadata? && events[n].message.id == shape.id ==>
           Covers(Run(s, shape.user, shape.device, events[..n]), shape, x, events[n].message))
  }

  lemma StepHears(s: Store, shape: Shape, x: nat, e: Event)
    requires x in shape.route && StoreOk(s, shape, x) && Honest(shape, x, e)
    requires e.Metadata? && e.message.id == shape.id ==> Covers(s, shape, x, e.message)
    ensures var after := Step(s, shape.user, shape.device, e);
      && StoreOk(after, shape, x) && (IsAccepted(s, shape) ==> IsAccepted(after, shape))
      && (Heard(s, shape, x) ==> Heard(after, shape, x))
      && (Says(shape, x, e) && (e.Metadata? ==> IsAccepted(s, shape)) ==> Heard(after, shape, x))
  {
    hide StoreOk, Honest, TimeOf, OnRoute, Step;
    StepStoreOk(s, shape, x, e);
    match e
    case Put(_, _, _) => PutStep(s, shape, x, e);
    case Receipt(_) => ReceiptStep(s, shape, x, e);
    case Acceptance(_) => AcceptanceStep(s, shape, x, e);
    case Metadata(_) => MetadataStep(s, shape, x, e);
  }

  /** With metadata merges that meet the condition, a delivery once heard never reverts. */
  lemma {:induction false} DeliveryNeverReverts(s: Store, shape: Shape, x: nat, events: seq<Event>)
    requires x in shape.route && StoreOk(s, shape, x) && AllHonest(shape, x, events) && AllCovered(s, shape, x, events)
    ensures var after := Run(s, shape.user, shape.device, events);
      && StoreOk(after, shape, x)
      && (IsAccepted(s, shape) ==> IsAccepted(after, shape))
      && (Heard(s, shape, x) ==> Heard(after, shape, x))
      && (IsAccepted(s, shape) && Said(shape, x, events) ==> DeliveredAt(after, shape, x).Some?)
  {
    hide StoreOk, Honest, Step, Saying, Covers, AllHonest, Said, EverAccepted, Run, DeliveredAt;
    if events == [] {
      NothingSaid(shape, x);
      RunNothing(s, shape);
    } else {
      var n := |events| - 1;
      SaidLast(shape, x, events);
      DeliveryNeverReverts(s, shape, x, events[..n]);
      RunLast(s, shape, events);
      StepHears(Run(s, shape.user, shape.device, events[..n]), shape, x, events[n]);
    }
  }

  lemma RunNothing(s: Store, shape: Shape)
    ensures Run(s, shape.user, shape.device, []) == s
  {
  }

  lemma RunLast(s: Store, shape: Shape, events: seq<Event>)
    requires events != []
    ensures var n := |events| - 1;
      Run(s, shape.user, shape.device, events)
      == Step(Run(s, shape.user, shape.device, events[..n]), shape.user, shape.device, events[n])
  {
  }

  /** From an acceptance on, with metadata merges that meet the condition: the envelope ends
      delivered exactly when an event said so, with the one time there is to say. */
  lemma CoveredDeliveredIffSaid(s: Store, shape: Shape, x: nat, events: seq<Event>, time: int)
    requires x in shape.route && StoreOk(s, shape, x) && IsAccepted(s, shape) && Silent(s, shape, x)
    requires AllHonest(shape, x, events) && AllCovered(s, shape, x, events)
    requires forall e :: e in events ==> Agree(shape, x, e, time)
    ensures var after := Run(s, shape.user, shape.device, events);
      IsAccepted(after, shape) && DeliveredAt(after, shape, x) == if Said(shape, x, events) then Some(time) else None
  {
    hide StoreOk, Honest, Run, Saying, Agree, TimeOf, Said;
    DeliveryNeverReverts(s, shape, x, events);
    AcceptedHasNoReceipt(s, shape, x);
    TimeInRun(s, shape, x, events, time);
    if !Said(shape, x, events) { NothingUnsaidIsStored(s, shape, x, events); }
  }

  /** So their order does not matter either. */
  lemma CoveredOrderDoesNotMatter(s: Store, shape: Shape, x: nat, a: seq<Event>, b: seq<Event>, time: int)
    requires x in shape.route && StoreOk(s, shape, x) && IsAccepted(s, shape) && Silent(s, shape, x)
    requires AllHonest(shape, x, a) && AllCovered(s, shape, x, a) && AllCovered(s, shape, x, b)
    requires (forall e :: e in a ==> Agree(shape, x, e, time)) && forall e :: e in a <==> e in b
    ensures var p, q := Run(s, shape.user, shape.device, a), Run(s, shape.user, shape.device, b);
      IsAccepted(p, shape) && IsAccepted(q, shape) && DeliveredAt(p, shape, x) == DeliveredAt(q, shape, x)
  {
    hide StoreOk, Honest, Run, Saying, Agree, IsAccepted, DeliveredAt, Silent, AllCovered;
    CoveredDeliveredIffSaid(s, shape, x, a, time);
    CoveredDeliveredIffSaid(s, shape, x, b, time);
    assert Said(shape, x, a) <==> Said(shape, x, b);
  }

  /** Without the condition a delivery does revert, for every message and envelope: the metadata
      is stored, the acceptance hears of the delivery, and the older copy is fetched again. */
  lemma StaleMetadataReverts(s: Store, shape: Shape, x: nat, before: Sent, later: Sent)
    requires x in shape.route && StoreOk(s, shape, x) && !Heard(s, shape, x) && shape.id !in s.metadata
    requires IsAccepted(s, shape)
    requires CopyOf(shape, before) && TimeOf(before.envelopes, x).None?
    requires CopyOf(shape, later) && TimeOf(later.envelopes, x).Some?
    ensures var heard := Run(s, shape.user, shape.device, [Metadata(before), Acceptance(later)]);
      IsAccepted(heard, shape) && DeliveredAt(heard, shape, x).Some?
    ensures var after := Run(s, shape.user, shape.device, [Metadata(before), Acceptance(later), Metadata(before)]);
      IsAccepted(after, shape) && DeliveredAt(after, shape, x).None?
  {
    var user, device := shape.user, shape.device;
    var e, f := Metadata(before), Acceptance(later);
    RunThree(s, shape, e, f, e);
    AcceptedHasNoReceipt(s, shape, x);
    var s1 := Step(s, user, device, e);
    MetadataStep(s, shape, x, e);
    var s2 := Step(s1, user, device, f);
    hide StoreOk, Run, Step, OnRoute, TimeOf, OutgoingStore.AcceptOutgoing;
    AcceptanceStep(s1, shape, x, f);
    MetadataKeepsIff(s2, shape, x, before);
  }

  lemma RunThree(s: Store, shape: Shape, e: Event, f: Event, g: Event)
    ensures var user, device := shape.user, shape.device;
      && Run(s, user, device, [e, f]) == Step(Step(s, user, device, e), user, device, f)
      && Run(s, user, device, [e, f, g]) == Step(Run(s, user, device, [e, f]), user, device, g)
  {
    hide Step, Run;
    RunNothing(s, shape);
    RunLast(s, shape, [e]);
    RunLast(s, shape, [e, f]);
    RunLast(s, shape, [e, f, g]);
    assert [e, f, g][..2] == [e, f] && [e, f][..1] == [e] && [e][..0] == [];
  }

  /** A concrete instance, from a command that was accepted and not yet heard of. */
  lemma FetchedMetadataCanRevert()
    ensures
      var before := Sent(1, 2, 3, 4, 5, 0, Some(1), [Delivery(6, 1, 7, 8, None, None)]);
      var later := before.(envelopes := [Delivery(6, 1, 7, 8, Some(9), Some(9))]);
      var command := OM.Command(2, 5, OM.BuildOutgoing([72, 105], [OM.DestinationDevice(7, 8, 0)]));
      var s := Store(map[5 := Row(command, Some(0), Some(before))], map[], map[]);
      var shape := Shape(1, 2, 3, 4, 5, map[6 := 7]);
      var heard := Run(s, 3, 4, [Metadata(before), Acceptance(later)]);
      var after := Run(s, 3, 4, [Metadata(before), Acceptance(later), Metadata(before)]);
      && IsAccepted(heard, shape) && DeliveredAt(heard, shape, 6).Some?
      && IsAccepted(after, shape) && DeliveredAt(after, shape, 6).None?
  {
    var before := Sent(1, 2, 3, 4, 5, 0, Some(1), [Delivery(6, 1, 7, 8, None, None)]);
    var later := before.(envelopes := [Delivery(6, 1, 7, 8, Some(9), Some(9))]);
    var command := OM.Command(2, 5, OM.BuildOutgoing([72, 105], [OM.DestinationDevice(7, 8, 0)]));
    var s := Store(map[5 := Row(command, Some(0), Some(before))], map[], map[]);
    var shape := Shape(1, 2, 3, 4, 5, map[6 := 7]);
    assert before.envelopes[0] in before.envelopes && later.envelopes[0] in later.envelopes;
    assert OnRoute(shape, before.envelopes) && OnRoute(shape, later.envelopes);
    hide Run, OM.BuildOutgoing;
    StaleMetadataReverts(s, shape, 6, before, later);
  }
}
