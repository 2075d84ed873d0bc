/** The message tables as an object that the services change in place. Each method is proved
    to make exactly the change the step machine makes. */
module ServerStore {
  import opened Common
  import opened Base64
  import opened MessageTables
  import opened ServerTransactions

  method CheckEnvelopes(envelopes: seq<ClientEnvelope>) returns (r: Result<map<nat, Bytes>, Refusal>)
    ensures r == ValidateEnvelopes(envelopes)
  {
    var supplied: map<nat, Bytes> := map[];
    for i := 0 to |envelopes|
      invariant ValidateEnvelopes(envelopes[..i]) == Ok(supplied)
    {
      var e := envelopes[i];
      assert envelopes[..i + 1][..i] == envelopes[..i];
      var checked: Result<Bytes, EnvelopeError> := ValidateEnvelope(e);
      if e.device in supplied || checked.Err? {
        RefusalStays(envelopes, i + 1);
        return Err(if e.device in supplied then DuplicateDestination else InvalidEnvelope(checked.error));
      }
      supplied := supplied[e.device := checked.value];
    }
    assert envelopes[..|envelopes|] == envelopes;
    return Ok(supplied);
  }

  lemma {:induction false} RefusalStays(envelopes: seq<ClientEnvelope>, n: nat)
    requires n <= |envelopes| && ValidateEnvelopes(envelopes[..n]).Err?
    ensures ValidateEnvelopes(envelopes) == ValidateEnvelopes(envelopes[..n])
  {
    if n == |envelopes| {
      assert envelopes[..n] == envelopes;
    } else {
      var shorter := envelopes[..|envelopes| - 1];
      assert shorter[..n] == envelopes[..n];
      RefusalStays(shorter, n);
    }
  }

  ghost predicate DistinctTargets(envelopes: seq<ClientEnvelope>)
  {
    forall i, j :: 0 <= i < j < |envelopes| ==> envelopes[i].device != envelopes[j].device
  }

  predicate HasTarget(envelopes: seq<ClientEnvelope>, device: nat)
  {
    exists i :: 0 <= i < |envelopes| && envelopes[i].device == device
  }

  ghost predicate EachValid(envelopes: seq<ClientEnvelope>)
  {
    forall i :: 0 <= i < |envelopes| ==> ValidateEnvelope(envelopes[i]).Ok?
  }

  /** A request is accepted exactly when its envelopes go to different devices and each is valid;
      it then supplies for every device what that device's envelope decodes to, and nothing else. */
  lemma {:induction false} AcceptsExactly(envelopes: seq<ClientEnvelope>)
    ensures ValidateEnvelopes(envelopes).Ok? <==> DistinctTargets(envelopes) && EachValid(envelopes)
    ensures ValidateEnvelopes(envelopes).Ok? ==>
      var supplied := ValidateEnvelopes(envelopes).value;
      && (forall d :: d in supplied ==> HasTarget(envelopes, d))
      && (forall i :: 0 <= i < |envelopes| ==>
           envelopes[i].device in supplied && ValidateEnvelope(envelopes[i]) == Ok(supplied[envelopes[i].device]))
  {
    hide ValidateEnvelope;
    if envelopes != [] {
      var n := |envelopes| - 1;
      var before := envelopes[..n];
      AcceptsExactly(before);
      if ValidateEnvelopes(before).Ok? {
        assert forall i :: 0 <= i < n ==> before[i] == envelopes[i];
        LastTarget(envelopes, ValidateEnvelopes(before).value);
      } else {
        BrokenPrefix(envelopes);
      }
    }
  }

  lemma LastTarget(envelopes: seq<ClientEnvelope>, supplied: map<nat, Bytes>)
    requires envelopes != [] && DistinctTargets(envelopes[..|envelopes| - 1])
    requires forall d :: d in supplied <==> HasTarget(envelopes[..|envelopes| - 1], d)
    ensures DistinctTargets(envelopes) <==> envelopes[|envelopes| - 1].device !in supplied
  {
    var n := |envelopes| - 1;
    if envelopes[n].device in supplied {
      var i :| 0 <= i < n && envelopes[..n][i].device == envelopes[n].device;
      assert envelopes[i].device == envelopes[n].device;
    } else {
      forall i, j | 0 <= i < j < |envelopes| ensures envelopes[i].device != envelopes[j].device {
        assert envelopes[..n][i] == envelopes[i];
        if j < n { assert envelopes[..n][j] == envelopes[j]; }
      }
    }
  }

  lemma BrokenPrefix(envelopes: seq<ClientEnvelope>)
    requires envelopes != []
    ensures DistinctTargets(envelopes) ==> DistinctTargets(envelopes[..|envelopes| - 1])
    ensures EachValid(envelopes) ==> EachValid(envelopes[..|envelopes| - 1])
  {
    hide ValidateEnvelope;
  }

  /** The places at which two tables of the same length differ. */
  ghost function ChangedRows(before: seq<Envelope>, after: seq<Envelope>): set<nat>
    requires |before| == |after|
  {
    set i: nat | i < |before| && after[i] != before[i]
  }

  class MessageStore {
    var users: map<nat, bool>
    var chats: map<nat, Chat>
    var devices: map<nat, Device>
    var mailboxes: map<nat, nat>
    var messages: seq<Message>
    var envelopes: seq<Envelope>
    var positions: map<(nat, nat), nat>
    ghost const migrated: map<nat, nat>

    ghost function Contents(): Tables
      reads this
    {
      Tables(users, chats, devices, mailboxes, messages, envelopes, positions, migrated)
    }

    constructor (db: Tables)
      ensures Contents() == db
    {
      users, chats, devices, mailboxes := db.users, db.chats, db.devices, db.mailboxes;
      messages, envelopes, positions, migrated := db.messages, db.envelopes, db.positions, db.migrated;
    }

    /** Allocates the next number of each locked mailbox, in the order the rows were locked. */
    method CreateEnvelopes(tx: Tx, m: Message, order: seq<nat>, ids: map<nat, nat>) returns (rows: seq<Envelope>)
      requires tx.call.Send?
      requires forall d :: d in order ==> d in tx.boxes && d in tx.supplied && d in ids && d in mailboxes
      requires forall i, j :: 0 <= i < j < |order| ==> order[i] < order[j]
      requires forall d :: d in order ==> tx.boxes[d] == mailboxes[d]
      modifies this`mailboxes
      ensures rows == NewEnvelopes(tx, m, order, ids)
      ensures mailboxes == map d | d in old(mailboxes) :: if d in order then tx.boxes[d] + 1 else old(mailboxes)[d]
    {
      rows := [];
      for i := 0 to |order|
        invariant |rows| == i && rows == NewEnvelopes(tx, m, order, ids)[..i]
        invariant mailboxes.Keys == old(mailboxes).Keys
        invariant forall d :: d in mailboxes ==>
          mailboxes[d] == if d in order[..i] then tx.boxes[d] + 1 else old(mailboxes)[d]
      {
        var d := order[i];
        assert d !in order[..i] && d in order;
        assert order[..i + 1] == order[..i] + [d];
        mailboxes := mailboxes[d := mailboxes[d] + 1];
        rows := rows + [Envelope(ids[d], m, d, OwnerOf(tx, d), mailboxes[d], Some(tx.supplied[d]),
                                 m.createdAt, m.createdAt + PAYLOAD_RETENTION, None, None)];
      }
      assert order[..|order|] == order;
    }

    /** The writes of a send that commits. */
    method StoreMessage(tx: Tx, messageId: nat, ids: map<nat, nat>, now: int) returns (m: Message)
      requires ReadyToSend(tx) && ids.Keys == tx.boxes.Keys
      requires tx.call.request.chat in chats && tx.chats[tx.call.request.chat] == chats[tx.call.request.chat].lastSeq
      requires forall d :: d in tx.boxes ==> d in mailboxes && tx.boxes[d] == mailboxes[d]
      modifies this
      ensures m == NewMessage(tx, messageId, now)
      ensures Contents() == Inserted(old(Contents()), tx, m, NewEnvelopes(tx, m, Ascending(Targets(tx)), ids))
    {
      hide NewEnvelopes, Ascending;
      var r, order := tx.call.request, Ascending(Targets(tx));
      assert forall d :: d in order <==> d in tx.boxes;
      chats := chats[r.chat := chats[r.chat].(lastSeq := chats[r.chat].lastSeq + 1)];
      m := Message(messageId, r.chat, r.user, r.device, r.clientId, chats[r.chat].lastSeq, now);
      messages := messages + [m];
      var rows := CreateEnvelopes(tx, m, order, ids);
      envelopes := envelopes + rows;
    }

    method Acknowledge(device: nat, id: nat, now: int)
      modifies this`envelopes
      ensures envelopes == AcknowledgeRows(old(envelopes), device, id, now)
    {
      var before := envelopes;
      for i := 0 to |before|
        invariant |envelopes| == |before|
        invariant forall k :: 0 <= k < i ==> envelopes[k] == AcknowledgeRows(before, device, id, now)[k]
        invariant forall k :: i <= k < |before| ==> envelopes[k] == before[k]
      {
        var e := envelopes[i];
        if e.id == id && e.device == device {
          envelopes := envelopes[i := e.(payload := None,
            deliveredAt := if e.deliveredAt.Some? then e.deliveredAt else Some(now),
            purgedAt := if e.purgedAt.Some? then e.purgedAt else Some(now))];
        }
      }
    }

    /** The common update of the three purges: they differ only in the rows they select. Returns how
        many rows it erased. */
    method PurgeExpired(selected: set<nat>, now: int) returns (purged: nat)
      modifies this`envelopes
      ensures envelopes == PurgeRows(old(envelopes), selected, now)
      ensures purged == |ChangedRows(old(envelopes), envelopes)|
    {
      var before := envelopes;
      purged := 0;
      assert ChangedRows(before, envelopes) == {};
      for i := 0 to |before|
        invariant |envelopes| == |before|
        invariant forall k :: 0 <= k < i ==> envelopes[k] == PurgeRows(before, selected, now)[k]
        invariant forall k :: i <= k < |before| ==> envelopes[k] == before[k]
        invariant purged == |ChangedRows(before, envelopes)|
      {
        var e := envelopes[i];
        if e.id in selected && e.payload.Some? && e.expiresAt <= now {
          ghost var changed := ChangedRows(before, envelopes);
          envelopes := envelopes[i := e.(payload := None, purgedAt := Some(now))];
          assert ChangedRows(before, envelopes) == changed + {i};
          purged := purged + 1;
        }
      }
    }

    /** A read advance under the chat lock. */
    method AdvanceRead(user: nat, chat: nat, position: int) returns (out: Outcome)
      requires chat in chats
      modifies this`positions
      ensures out == (if position < 0 || position > chats[chat].lastSeq
                         || (position != 0 && !PositionExists(Contents(), chat, position))
                      then Refused(InvalidReadPosition)
                      else Position(Max(position, if (chat, user) in old(positions) then old(positions)[(chat, user)]
                                        else 0)))
      ensures out.Refused? ==> positions == old(positions)
      ensures out.Position? ==>
        positions == (if (chat, user) in old(positions) || position > 0 then old(positions)[(chat, user) := out.last]
                      else old(positions))
    {
      if position < 0 || position > chats[chat].lastSeq {
        return Refused(InvalidReadPosition);
      }
      if position != 0 && !(exists m :: m in messages && m.chat == chat && m.chatSeq == position) {
        return Refused(InvalidReadPosition);
      }
      var stored := if (chat, user) in positions then positions[(chat, user)] else 0;
      if position > stored {
        positions := positions[(chat, user) := position];
        stored := position;
      }
      return Position(stored);
    }
  }
}
