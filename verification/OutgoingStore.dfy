/** The durable side of sending: stored commands, their acceptances with delivery metadata,
    receipts that came before an acceptance, and metadata of messages sent from any own device. */
module OutgoingStore {
  import opened Common
  import OM = OutgoingMachine

  /** What a stored row has instead of a time when it has none: sorts before every time. */
  const NO_TIME: int := -1

  /** One envelope of a sent message as its sender sees it. */
  datatype Delivery = Delivery(id: nat, messageId: nat, device: nat, user: nat,
                               deliveredAt: Option<int>, purgedAt: Option<int>)

  datatype Sent = Sent(id: nat, chat: nat, senderUser: nat, senderDevice: nat, clientId: nat, createdAt: int,
                       chatSeq: Option<nat>, envelopes: seq<Delivery>)

  /** Rows of older versions have no time of their own. */
  datatype Row = Row(command: OM.Command, createdAt: Option<int>, accepted: Option<Sent>)

  datatype Store = Store(outgoing: map<nat, Row>, receipts: map<nat, Delivery>, metadata: map<nat, Sent>)

  datatype StoreError = AlreadyAccepted | OtherChat | Immutable | MissingRow | OtherSender | NotDelivered | MessageBound

  // ---- merging of delivery metadata ----

  function Find(es: seq<Delivery>, id: nat): (found: Option<Delivery>)
    ensures found.Some? ==> found.value in es && found.value.id == id
    ensures found.None? ==> forall e :: e in es ==> e.id != id
  {
    if es == [] then None else if es[0].id == id then Some(es[0]) else Find(es[1..], id)
  }

  function FindIn(sent: Option<Sent>, id: nat): Option<Delivery>
  {
    if sent.Some? then Find(sent.value.envelopes, id) else None
  }

  function MergeDeliveryMetadata(e: Delivery, prior: Option<Delivery>): Delivery
  {
    if prior.None? then e else
    e.(deliveredAt := e.deliveredAt.Or(prior.value.deliveredAt), purgedAt := e.purgedAt.Or(prior.value.purgedAt))
  }

  function MergeReceipt(e: Delivery, receipt: Option<Delivery>): Delivery
  {
    if receipt.None? || receipt.value.messageId != e.messageId || receipt.value.device != e.device then e else
    e.(deliveredAt := e.deliveredAt.Or(receipt.value.deliveredAt), purgedAt := e.purgedAt.Or(receipt.value.purgedAt))
  }

  function Get<T>(m: map<nat, T>, k: nat): Option<T>
  {
    if k in m then Some(m[k]) else None
  }

  function Without<T>(m: map<nat, T>, k: nat): map<nat, T>
  {
    m - {k}
  }

  /** A receipt is applied to every envelope with its identifier. */
  function Receive(es: seq<Delivery>, receipt: Delivery): (r: seq<Delivery>)
    ensures |r| == |es|
    ensures forall i :: 0 <= i < |r| ==>
      r[i] == if es[i].id == receipt.id then MergeReceipt(es[i], Some(receipt)) else es[i]
  {
    seq(|es|, i requires 0 <= i < |es| => if es[i].id == receipt.id then MergeReceipt(es[i], Some(receipt)) else es[i])
  }

  /** The envelopes of an acceptance: their own values first, then those of the previous
      acceptance, then those of an early receipt, which is used up. */
  function AcceptEnvelopes(es: seq<Delivery>, prior: Option<Sent>, receipts: map<nat, Delivery>)
    : (r: (seq<Delivery>, map<nat, Delivery>))
    ensures |r.0| == |es|
  {
    if es == [] then ([], receipts) else
    var before := AcceptEnvelopes(es[..|es| - 1], prior, receipts);
    var e := es[|es| - 1];
    (before.0 + [MergeReceipt(MergeDeliveryMetadata(e, FindIn(prior, e.id)), Get(before.1, e.id))],
     Without(before.1, e.id))
  }

  /** The envelopes of fetched metadata: only one earlier copy is consulted, the metadata if it
      lists the envelope and the acceptance only if it does not. Early receipts stay. */
  function MetadataEnvelopes(es: seq<Delivery>, prior: Option<Sent>, accepted: Option<Sent>,
                             receipts: map<nat, Delivery>)
    : (r: seq<Delivery>)
    ensures |r| == |es|
    ensures forall i :: 0 <= i < |r| ==>
      r[i] == MergeReceipt(MergeDeliveryMetadata(es[i], FindIn(prior, es[i].id).Or(FindIn(accepted, es[i].id))),
                           Get(receipts, es[i].id))
  {
    seq(|es|, i requires 0 <= i < |es| =>
      MergeReceipt(MergeDeliveryMetadata(es[i], FindIn(prior, es[i].id).Or(FindIn(accepted, es[i].id))),
                   Get(receipts, es[i].id)))
  }

  // ---- transactions ----

  predicate Binds(row: Row, messageId: nat)
  {
    row.accepted.Some? && row.accepted.value.id == messageId
  }

  /** The index of rows by accepted message, in which no message occurs twice. */
  function RowOfMessage(outgoing: map<nat, Row>, messageId: nat): (c: Option<nat>)
    ensures c.Some? ==> c.value in outgoing && Binds(outgoing[c.value], messageId)
    ensures c.None? ==> forall k :: k in outgoing ==> !Binds(outgoing[k], messageId)
  {
    var bound := set k | k in outgoing && Binds(outgoing[k], messageId);
    assert forall k :: k in outgoing && Binds(outgoing[k], messageId) ==> k in bound;
    if bound == {} then None else Some(Least(bound))
  }

  predicate BoundElsewhere(outgoing: map<nat, Row>, clientId: nat, messageId: nat)
  {
    exists k :: k in outgoing && k != clientId && Binds(outgoing[k], messageId)
  }

  function PutOutgoing(s: Store, command: OM.Command, replace: bool, now: int): Result<Store, StoreError>
  {
    var c := command.clientId;
    if c in s.outgoing then
      if replace then
        if s.outgoing[c].accepted.Some? then Err(AlreadyAccepted)
        else if s.outgoing[c].command.chat != command.chat then Err(OtherChat)
        else Ok(s.(outgoing := s.outgoing[c := Row(command, s.outgoing[c].createdAt.Or(Some(NO_TIME)), None)]))
      else if s.outgoing[c].command != command then Err(Immutable)
      else Ok(s)
    else Ok(s.(outgoing := s.outgoing[c := Row(command, Some(now), None)]))
  }

  function ReceiveMetadata(metadata: map<nat, Sent>, receipt: Delivery): map<nat, Sent>
  {
    if receipt.messageId !in metadata then metadata else
    var m := metadata[receipt.messageId];
    metadata[receipt.messageId := m.(envelopes := Receive(m.envelopes, receipt))]
  }

  function ApplyReceipt(s: Store, receipt: Delivery): Result<Store, StoreError>
  {
    if receipt.deliveredAt.None? then Err(NotDelivered) else
    var s := s.(metadata := ReceiveMetadata(s.metadata, receipt));
    match RowOfMessage(s.outgoing, receipt.messageId)
    case None => Ok(s.(receipts := s.receipts[receipt.id := receipt]))
    case Some(c) =>
      var row := s.outgoing[c];
      var accepted := row.accepted.value;
      var received := accepted.(envelopes := Receive(accepted.envelopes, receipt));
      Ok(s.(outgoing := s.outgoing[c := row.(accepted := Some(received))]))
  }

  function CreatedBy(accepted: Option<Sent>): Option<int>
  {
    if accepted.Some? then Some(accepted.value.createdAt) else None
  }

  function SeqOf(accepted: Option<Sent>): Option<nat>
  {
    if accepted.Some? then accepted.value.chatSeq else None
  }

  function AcceptOutgoing(s: Store, user: nat, device: nat, m: Sent): Result<Store, StoreError>
  {
    if m.senderDevice != device || m.senderUser != user then Err(OtherSender)
    else if m.clientId !in s.outgoing then Err(MissingRow)
    else if s.outgoing[m.clientId].command.chat != m.chat then Err(OtherChat)
    else if BoundElsewhere(s.outgoing, m.clientId, m.id) then Err(MessageBound)
    else
      var row := s.outgoing[m.clientId];
      var (envelopes, receipts) := AcceptEnvelopes(m.envelopes, row.accepted, s.receipts);
      var accepted := m.(chatSeq := m.chatSeq.Or(SeqOf(row.accepted)), envelopes := envelopes);
      var createdAt := row.createdAt.Or(CreatedBy(row.accepted)).Or(Some(NO_TIME));
      Ok(s.(outgoing := s.outgoing[m.clientId := row.(createdAt := createdAt, accepted := Some(accepted))],
            receipts := receipts))
  }

  function AcceptedAs(outgoing: map<nat, Row>, messageId: nat): Option<Sent>
  {
    match RowOfMessage(outgoing, messageId)
    case None => None
    case Some(c) => outgoing[c].accepted
  }

  function MergeMetadata(s: Store, user: nat, m: Sent): Result<Store, StoreError>
  {
    if m.senderUser != user then Err(OtherSender) else
    var merged := m.(envelopes := MetadataEnvelopes(m.envelopes, Get(s.metadata, m.id), AcceptedAs(s.outgoing, m.id),
                                                    s.receipts));
    var s := s.(metadata := s.metadata[m.id := merged]);
    match RowOfMessage(s.outgoing, m.id)
    case None => Ok(s)
    case Some(c) => Ok(s.(outgoing := s.outgoing[c := s.outgoing[c].(accepted := Some(merged))]))
  }

  class OutgoingInbox {
    const user: nat
    const device: nat
    var outgoing: map<nat, Row>
    var receipts: map<nat, Delivery>
    var metadata: map<nat, Sent>

    ghost function Contents(): Store
      reads this
    {
      Store(outgoing, receipts, metadata)
    }

    constructor (user: nat, device: nat)
      ensures this.user == user && this.device == device && Contents() == Store(map[], map[], map[])
    {
      this.user, this.device := user, device;
      outgoing, receipts, metadata := map[], map[], map[];
    }

    method Put(command: OM.Command, replaceRejected: bool, now: int) returns (r: Result<Row, StoreError>)
      modifies this
      ensures match PutOutgoing(old(Contents()), command, replaceRejected, now)
              case Err(why) => r == Err(why) && Contents() == old(Contents())
              case Ok(s) => Contents() == s && command.clientId in outgoing && r == Ok(outgoing[command.clientId])
    {
      var entry := Row(command, Some(now), None);
      if command.clientId in outgoing {
        var existing := outgoing[command.clientId];
        if replaceRejected {
          if existing.accepted.Some? { return Err(AlreadyAccepted); }
          if existing.command.chat != command.chat { return Err(OtherChat); }
          entry := entry.(createdAt := if existing.createdAt.Some? then existing.createdAt else Some(NO_TIME));
        } else {
          if existing.command != command { return Err(Immutable); }
          return Ok(existing);
        }
      }
      outgoing := outgoing[command.clientId := entry];
      return Ok(entry);
    }

    /** Returns the row if the receipt changed it. */
    method ApplyDeliveryReceipt(receipt: Delivery) returns (r: Result<Option<Row>, StoreError>)
      modifies this
      ensures match ApplyReceipt(old(Contents()), receipt)
              case Err(why) => r == Err(why) && Contents() == old(Contents())
              case Ok(s) => r.Ok? && Contents() == s
      ensures r.Ok? ==> (r.value.None? <==> outgoing == old(outgoing))
      ensures r.Ok? && r.value.Some? ==> r.value.value.command.clientId in outgoing || r.value.value in outgoing.Values
    {
      if receipt.deliveredAt.None? { return Err(NotDelivered); }
      if receipt.messageId in metadata {
        var m := metadata[receipt.messageId];
        var es := Received(m.envelopes, receipt);
        metadata := metadata[receipt.messageId := m.(envelopes := es)];
      }
      var c := RowOfMessage(outgoing, receipt.messageId);
      if c.None? {
        receipts := receipts[receipt.id := receipt];
        return Ok(None);
      }
      var row := outgoing[c.value];
      var accepted := row.accepted.value;
      var es := Received(accepted.envelopes, receipt);
      if es == accepted.envelopes {
        assert outgoing == outgoing[c.value := row];
        return Ok(None);
      }
      var value := row.(accepted := Some(accepted.(envelopes := es)));
      outgoing := outgoing[c.value := value];
      assert outgoing[c.value] != old(outgoing)[c.value];
      assert value in outgoing.Values;
      return Ok(Some(value));
    }

    method Received(es: seq<Delivery>, receipt: Delivery) returns (r: seq<Delivery>)
      ensures r == Receive(es, receipt)
    {
      r := [];
      for i := 0 to |es|
        invariant r == Receive(es, receipt)[..i]
      {
        r := r + [if es[i].id == receipt.id then MergeReceipt(es[i], Some(receipt)) else es[i]];
      }
    }

    method Accept(m: Sent) returns (r: Result<Row, StoreError>)
      modifies this
      ensures match AcceptOutgoing(old(Contents()), user, device, m)
              case Err(why) => r == Err(why) && Contents() == old(Contents())
              case Ok(s) => Contents() == s && m.clientId in outgoing && r == Ok(outgoing[m.clientId])
    {
      if m.senderDevice != device || m.senderUser != user { return Err(OtherSender); }
      if m.clientId !in outgoing { return Err(MissingRow); }
      var existing := outgoing[m.clientId];
      if existing.command.chat != m.chat { return Err(OtherChat); }
      var left, envelopes := receipts, [];
      for i := 0 to |m.envelopes|
        invariant (envelopes, left) == AcceptEnvelopes(m.envelopes[..i], existing.accepted, receipts)
      {
        var e := m.envelopes[i];
        assert m.envelopes[..i + 1][..i] == m.envelopes[..i];
        var prior := MergeDeliveryMetadata(e, FindIn(existing.accepted, e.id));
        envelopes := envelopes + [MergeReceipt(prior, Get(left, e.id))];
        left := left - {e.id};
      }
      assert m.envelopes[..|m.envelopes|] == m.envelopes;
      if BoundElsewhere(outgoing, m.clientId, m.id) { return Err(MessageBound); }
      var accepted := m.(chatSeq := m.chatSeq.Or(SeqOf(existing.accepted)), envelopes := envelopes);
      var createdAt := existing.createdAt.Or(CreatedBy(existing.accepted)).Or(Some(NO_TIME));
      var value := existing.(createdAt := createdAt, accepted := Some(accepted));
      outgoing, receipts := outgoing[m.clientId := value], left;
      return Ok(value);
    }

    method MergeSentMetadata(m: Sent) returns (r: Result<Sent, StoreError>)
      modifies this
      ensures match MergeMetadata(old(Contents()), user, m)
              case Err(why) => r == Err(why) && Contents() == old(Contents())
              case Ok(s) => Contents() == s && m.id in metadata && r == Ok(metadata[m.id])
    {
      if m.senderUser != user { return Err(OtherSender); }
      var prior := Get(metadata, m.id);
      var c := RowOfMessage(outgoing, m.id);
      var accepted := if c.Some? then outgoing[c.value].accepted else None;
      var envelopes := [];
      for i := 0 to |m.envelopes|
        invariant envelopes == MetadataEnvelopes(m.envelopes, prior, accepted, receipts)[..i]
      {
        var e := m.envelopes[i];
        var earlier := FindIn(prior, e.id);
        if earlier.None? { earlier := FindIn(accepted, e.id); }
        envelopes := envelopes + [MergeReceipt(MergeDeliveryMetadata(e, earlier), Get(receipts, e.id))];
      }
      assert envelopes == MetadataEnvelopes(m.envelopes, prior, accepted, receipts);
      assert accepted == AcceptedAs(outgoing, m.id);
      var merged := m.(envelopes := envelopes);
      metadata := metadata[m.id := merged];
      if c.Some? { outgoing := outgoing[c.value := outgoing[c.value].(accepted := Some(merged))]; }
      return Ok(merged);
    }
  }
}
