/** The server as a step machine. Every transaction of the message, read and account services
    is a series of steps: it takes its row locks one at a time, reads under them, and commits
    at once or rolls back. Steps of different transactions interleave freely; a step that is
    not possible, such as taking a lock another transaction holds, changes nothing. */
module ServerTransactions {
  import opened Common
  import opened Base64
  import opened MessageTables

  datatype SendRequest = SendRequest(user: nat, device: nat, chat: nat, clientId: nat,
                                     envelopes: seq<ClientEnvelope>)

  datatype Call =
    | Send(request: SendRequest)
    | AdvanceRead(user: nat, chat: nat, position: int)
    | Login(user: nat, device: nat)
    | Revoke(user: nat, device: nat)

  datatype Refusal =
    | ChatNotFound | InvalidEnvelope(why: EnvelopeError) | DuplicateDestination | TargetsChanged
    | InvalidReadPosition | Forbidden | Conflict | NotFound
    | InvariantBroken   // the service's MailboxInvariantError
    | Integrity         // an IntegrityError the service cannot explain
    | Aborted           // connection or database failure

  datatype Outcome = Stored(message: Message) | Position(last: nat) | Done | Refused(why: Refusal)

  datatype Stage = LockChat | Recheck | LockUsers | ReadPeers | ReadOwn | LockBoxes | LockUser | Settle

  /** An open transaction: what it was asked, where it is, the locks it holds (a chat or mailbox
      lock together with the counter read under it), and the device sets it has read. */
  datatype Tx = Tx(call: Call, stage: Stage, other: nat, supplied: map<nat, Bytes>,
                   chats: map<nat, nat>, shared: set<nat>, exclusive: set<nat>, boxes: map<nat, nat>,
                   peers: set<nat>, own: set<nat>)

  /** `calls` and `outcomes` record every call ever made and what it returned; `contents`
      records what was first stored in each envelope. The last two are never read. */
  datatype Server = Server(db: Tables, txs: map<nat, Tx>, calls: map<nat, Call>,
                           outcomes: map<nat, Outcome>, contents: map<nat, Bytes>)

  datatype Lock = ChatLock(chat: nat) | UserLock(user: nat, isExclusive: bool) | BoxLock(device: nat)

  datatype Label =
    | Begin(t: nat, call: Call)
    | TakeLock(t: nat)
    | Read(t: nat)
    | Commit(t: nat, messageId: nat, envelopeIds: map<nat, nat>, now: int)
    | Abort(t: nat)
    | Acknowledge(device: nat, envelope: nat, now: int)
    | Purge(selected: set<nat>, now: int)

  // ---- pieces of a transaction ----

  /** The duplicate check comes before the payload check, envelope by envelope. */
  function ValidateEnvelopes(es: seq<ClientEnvelope>): (r: Result<map<nat, Bytes>, Refusal>)
    ensures r.Err? ==> r.error.DuplicateDestination? || r.error.InvalidEnvelope?
  {
    if es == [] then Ok(map[]) else
    var last := es[|es| - 1];
    match ValidateEnvelopes(es[..|es| - 1])
    case Err(why) => Err(why)
    case Ok(supplied) =>
      if last.device in supplied then Err(DuplicateDestination) else
      match ValidateEnvelope(last)
      case Err(why) => Err(InvalidEnvelope(why))
      case Ok(decoded) => Ok(supplied[last.device := decoded])
  }

  function Targets(tx: Tx): set<nat>
    requires tx.call.Send?
  {
    tx.peers + tx.own - {tx.call.request.device}
  }

  /** The next lock a transaction needs: locks of a class are taken in identifier order. */
  function Wanted(tx: Tx): (lock: Option<Lock>)
  {
    match tx.call
    case Send(r) =>
      if tx.stage == LockChat then Some(ChatLock(r.chat))
      else if tx.stage == LockUsers then
        (var todo := {r.user, tx.other} - tx.shared;
         if todo == {} then None else Some(UserLock(Least(todo), false)))
      else if tx.stage == LockBoxes then
        (var todo := Targets(tx) - tx.boxes.Keys;
         if todo == {} then None else Some(BoxLock(Least(todo))))
      else None
    case AdvanceRead(_, chat, _) => if tx.stage == LockChat then Some(ChatLock(chat)) else None
    case Login(user, _) => if tx.stage == LockUser then Some(UserLock(user, true)) else None
    case Revoke(user, _) => if tx.stage == LockUser then Some(UserLock(user, true)) else None
  }

  predicate Holds(tx: Tx, lock: Lock)
  {
    match lock
    case ChatLock(c) => c in tx.chats
    case UserLock(u, x) => if x then u in tx.exclusive else u in tx.shared
    case BoxLock(d) => d in tx.boxes
  }

  /** Shared user locks go together; every other pair of locks on one row excludes. */
  predicate Conflicts(tx: Tx, lock: Lock)
  {
    match lock
    case ChatLock(c) => c in tx.chats
    case UserLock(u, x) => u in tx.exclusive || (x && u in tx.shared)
    case BoxLock(d) => d in tx.boxes
  }

  predicate Free(s: Server, t: nat, lock: Lock)
  {
    forall o :: o in s.txs && o != t ==> !Conflicts(s.txs[o], lock)
  }

  function Finish(s: Server, t: nat, outcome: Outcome): Server
  {
    s.(txs := s.txs - {t}, outcomes := s.outcomes[t := outcome])
  }

  function Continue(s: Server, t: nat, tx: Tx): Server
  {
    s.(txs := s.txs[t := tx])
  }

  function Opened(call: Call, stage: Stage, other: nat, supplied: map<nat, Bytes>): Tx
  {
    Tx(call, stage, other, supplied, map[], {}, {}, map[], {}, {})
  }

  // ---- steps ----

  function BeginStep(s: Server, t: nat, call: Call): Server
  {
    if t in s.calls then s else
    var s := s.(calls := s.calls[t := call]);
    match call
    case Send(r) =>
      (match FindByClient(s.db.messages, r.device, r.clientId)
       case Some(m) => Finish(s, t, Stored(m))
       case None =>
         if r.chat !in s.db.chats || !s.db.chats[r.chat].HasMember(r.user) then Finish(s, t, Refused(ChatNotFound))
         else
           match ValidateEnvelopes(r.envelopes)
           case Err(why) => Finish(s, t, Refused(why))
           case Ok(supplied) =>
             Continue(s, t, Opened(call, LockChat, s.db.chats[r.chat].Other(r.user), supplied)))
    case AdvanceRead(user, chat, _) =>
      if chat !in s.db.chats || !s.db.chats[chat].HasMember(user) then Finish(s, t, Refused(ChatNotFound))
      else Continue(s, t, Opened(call, LockChat, s.db.chats[chat].Other(user), map[]))
    case Login(user, _) =>
      if user !in s.db.users then Finish(s, t, Refused(Forbidden)) else Continue(s, t, Opened(call, LockUser, 0, map[]))
    case Revoke(user, _) =>
      if user !in s.db.users then Finish(s, t, Refused(NotFound)) else Continue(s, t, Opened(call, LockUser, 0, map[]))
  }

  function LockStep(s: Server, t: nat): Server
  {
    if t !in s.txs then s else
    match Wanted(s.txs[t])
    case None => s
    case Some(lock) => if Free(s, t, lock) then Granted(s, t, lock) else s
  }

  function LockedTx(db: Tables, tx: Tx, lock: Lock): Tx
  {
    match lock
    case ChatLock(c) =>
      if c !in db.chats then tx else
      tx.(chats := map[c := db.chats[c].lastSeq], stage := if tx.call.Send? then Recheck else Settle)
    case UserLock(u, false) =>
      if !tx.call.Send? then tx else
      var shared := tx.shared + {u};
      tx.(shared := shared,
          stage := if {tx.call.request.user, tx.other} <= shared then ReadPeers else LockUsers)
    case UserLock(u, true) => tx.(exclusive := {u}, stage := Settle)
    case BoxLock(d) =>
      if d !in db.mailboxes || !tx.call.Send? then tx else
      var boxes := tx.boxes[d := db.mailboxes[d]];
      tx.(boxes := boxes, stage := if Targets(tx) <= boxes.Keys then Settle else LockBoxes)
  }

  /** A row that should be locked but is missing ends the transaction. */
  function Granted(s: Server, t: nat, lock: Lock): Server
    requires t in s.txs
  {
    if lock.ChatLock? && lock.chat !in s.db.chats then Finish(s, t, Refused(ChatNotFound))
    else if lock.UserLock? && !lock.isExclusive && (lock.user !in s.db.users || !s.txs[t].call.Send?)
    then Finish(s, t, Refused(InvariantBroken))
    else if lock.BoxLock? && (lock.device !in s.db.mailboxes || !s.txs[t].call.Send?)
    then Finish(s, t, Refused(InvariantBroken))
    else Continue(s, t, LockedTx(s.db, s.txs[t], lock))
  }

  /** The reads a send makes under its locks: the second idempotency check, then the devices of
      the peer, then its own devices together with the comparison of target sets. */
  function ReadStep(s: Server, t: nat): Server
  {
    if t !in s.txs || !s.txs[t].call.Send? then s else
    var tx, r := s.txs[t], s.txs[t].call.request;
    match tx.stage
    case Recheck =>
      (match FindByClient(s.db.messages, r.device, r.clientId)
       case Some(m) => Finish(s, t, Stored(m))
       case None => Continue(s, t, tx.(stage := LockUsers)))
    case ReadPeers =>
      var peers := ActiveDevices(s.db, tx.other);
      if peers == {} then Finish(s, t, Refused(TargetsChanged))
      else Continue(s, t, tx.(peers := peers, stage := ReadOwn))
    case ReadOwn =>
      var tx := tx.(own := ActiveDevices(s.db, r.user), stage := LockBoxes);
      if r.device !in tx.own || tx.supplied.Keys != Targets(tx) then Finish(s, t, Refused(TargetsChanged))
      else Continue(s, t, tx)
    case _ => s
  }

  function CommitStep(s: Server, t: nat, messageId: nat, envelopeIds: map<nat, nat>, now: int): Server
  {
    if t !in s.txs || s.txs[t].stage != Settle then s else
    match s.txs[t].call
    case Send(_) => CommitSend(s, t, messageId, envelopeIds, now)
    case AdvanceRead(user, chat, position) => CommitRead(s, t, user, chat, position)
    case Login(user, device) => CommitLogin(s, t, user, device)
    case Revoke(user, device) => CommitRevoke(s, t, user, device)
  }

  // A send that is ready to commit: everything its inserts are made of is at hand.
  predicate ReadyToSend(tx: Tx)
  {
    && tx.call.Send?
    && tx.call.request.chat in tx.chats
    && tx.boxes.Keys == Targets(tx) == tx.supplied.Keys
  }

  function NewMessage(tx: Tx, messageId: nat, now: int): Message
    requires ReadyToSend(tx)
  {
    var r := tx.call.request;
    Message(messageId, r.chat, r.user, r.device, r.clientId, tx.chats[r.chat] + 1, now)
  }

  function NewEnvelope(tx: Tx, m: Message, device: nat, user: nat, id: nat): Envelope
    requires device in tx.boxes && device in tx.supplied
  {
    Envelope(id, m, device, user, tx.boxes[device] + 1, Some(tx.supplied[device]),
             m.createdAt, m.createdAt + PAYLOAD_RETENTION, None, None)
  }

  /** One envelope per target, each with the next number of its mailbox. */
  function NewEnvelopes(tx: Tx, m: Message, order: seq<nat>, ids: map<nat, nat>): (rows: seq<Envelope>)
    requires tx.call.Send? && forall d :: d in order ==> d in tx.boxes && d in tx.supplied && d in ids
    ensures |rows| == |order|
    ensures forall i :: 0 <= i < |order| ==>
      rows[i] == NewEnvelope(tx, m, order[i], OwnerOf(tx, order[i]), ids[order[i]])
  {
    seq(|order|, i requires 0 <= i < |order| =>
      assert order[i] in order;
      NewEnvelope(tx, m, order[i], OwnerOf(tx, order[i]), ids[order[i]]))
  }

  // The service keeps them in device_users: recipients are read per user.
  function OwnerOf(tx: Tx, device: nat): nat
    requires tx.call.Send?
  {
    if device in tx.peers then tx.other else tx.call.request.user
  }

  /** Identifiers drawn for a commit have never been used. */
  predicate FreshIds(s: Server, tx: Tx, messageId: nat, envelopeIds: map<nat, nat>)
  {
    && (forall m :: m in s.db.messages ==> m.id != messageId)
    && envelopeIds.Keys == tx.boxes.Keys
    && (forall d :: d in envelopeIds ==> envelopeIds[d] !in s.contents)
    && (forall d, e :: d in envelopeIds && e in envelopeIds && d != e ==> envelopeIds[d] != envelopeIds[e])
  }

  /** The unique constraints on chat and mailbox numbers. */
  predicate NumberTaken(db: Tables, m: Message, rows: seq<Envelope>)
  {
    || (exists o :: o in db.messages && o.chat == m.chat && o.chatSeq == m.chatSeq)
    || (exists o, e :: o in db.envelopes && e in rows && o.device == e.device && o.mailboxSeq == e.mailboxSeq)
  }

  function Inserted(db: Tables, tx: Tx, m: Message, rows: seq<Envelope>): Tables
    requires ReadyToSend(tx) && m.chat in db.chats
  {
    db.(chats := db.chats[m.chat := db.chats[m.chat].(lastSeq := m.chatSeq)],
        mailboxes := map d | d in db.mailboxes :: if d in tx.boxes then tx.boxes[d] + 1 else db.mailboxes[d],
        messages := db.messages + [m],
        envelopes := db.envelopes + rows)
  }

  function CommitSend(s: Server, t: nat, messageId: nat, envelopeIds: map<nat, nat>, now: int): Server
    requires t in s.txs && s.txs[t].call.Send?
  {
    var tx, r := s.txs[t], s.txs[t].call.request;
    if !ReadyToSend(tx) || r.chat !in s.db.chats || !FreshIds(s, tx, messageId, envelopeIds) then s else
    var m := NewMessage(tx, messageId, now);
    var rows := NewEnvelopes(tx, m, Ascending(Targets(tx)), envelopeIds);
    // The unique constraint on (sender device, client message id) decides a race across chats.
    match FindByClient(s.db.messages, r.device, r.clientId)
    case Some(winning) => Finish(s, t, Stored(winning))
    case None =>
      if NumberTaken(s.db, m, rows) then Finish(s, t, Refused(Integrity))
      else Finish(s.(db := Inserted(s.db, tx, m, rows), contents := Record(s.contents, rows)), t, Stored(m))
  }

  /** Remembers the payload each row is stored with. */
  function Record(contents: map<nat, Bytes>, rows: seq<Envelope>): (r: map<nat, Bytes>)
  {
    if rows == [] then contents else
    var last := rows[|rows| - 1];
    var before := Record(contents, rows[..|rows| - 1]);
    if last.payload.Some? then before[last.id := last.payload.value] else before
  }

  predicate PositionExists(db: Tables, chat: nat, position: int)
  {
    exists m :: m in db.messages && m.chat == chat && m.chatSeq == position
  }

  function CommitRead(s: Server, t: nat, user: nat, chat: nat, position: int): Server
    requires t in s.txs
  {
    var tx := s.txs[t];
    if chat !in tx.chats then s
    else if position < 0 || position > tx.chats[chat] then Finish(s, t, Refused(InvalidReadPosition))
    else if position != 0 && !PositionExists(s.db, chat, position) then Finish(s, t, Refused(InvalidReadPosition))
    else
      var stored := if (chat, user) in s.db.positions then s.db.positions[(chat, user)] else 0;
      if position > stored
      then Finish(s.(db := s.db.(positions := s.db.positions[(chat, user) := position])), t, Position(position))
      else Finish(s, t, Position(stored))
  }

  function CommitLogin(s: Server, t: nat, user: nat, device: nat): Server
    requires t in s.txs
  {
    if user !in s.db.users || !s.db.users[user] then Finish(s, t, Refused(Forbidden))
    else if device !in s.db.devices then
      Finish(s.(db := s.db.(devices := s.db.devices[device := Device(user, false)],
                            mailboxes := s.db.mailboxes[device := 0])), t, Done)
    else if s.db.devices[device].user != user then Finish(s, t, Refused(Conflict))
    else if s.db.devices[device].revoked then Finish(s, t, Refused(Forbidden))
    else Finish(s, t, Done)
  }

  function CommitRevoke(s: Server, t: nat, user: nat, device: nat): Server
    requires t in s.txs
  {
    if device !in s.db.devices || s.db.devices[device].user != user then Finish(s, t, Refused(NotFound))
    else Finish(s.(db := s.db.(devices := s.db.devices[device := Device(user, true)])), t, Done)
  }

  function Apply(s: Server, l: Label): Server
  {
    match l
    case Begin(t, call) => BeginStep(s, t, call)
    case TakeLock(t) => LockStep(s, t)
    case Read(t) => ReadStep(s, t)
    case Commit(t, messageId, envelopeIds, now) => CommitStep(s, t, messageId, envelopeIds, now)
    case Abort(t) => if t in s.txs then Finish(s, t, Refused(Aborted)) else s
    case Acknowledge(device, envelope, now) =>
      s.(db := s.db.(envelopes := AcknowledgeRows(s.db.envelopes, device, envelope, now)))
    case Purge(selected, now) => s.(db := s.db.(envelopes := PurgeRows(s.db.envelopes, selected, now)))
  }

  function Run(s: Server, labels: seq<Label>): Server
  {
    if labels == [] then s else Apply(Run(s, labels[..|labels| - 1]), labels[|labels| - 1])
  }
}
