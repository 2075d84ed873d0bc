/** What holds in every reachable state of the server, and the proof that every step of every
    transaction keeps it. */
module ServerInvariants {
  import opened Common
  import opened Base64
  import opened MessageTables
  import opened ServerTransactions

  // ---- the tables ----

  ghost predicate ChatHas(messages: seq<Message>, chat: nat, k: int)
  {
    exists m :: m in messages && m.chat == chat && m.chatSeq == k
  }

  ghost predicate SamePlace(m: Message, n: Message)
  {
    m.chat == n.chat && m.chatSeq == n.chatSeq
  }

  ghost predicate NumberedRows(rows: seq<Envelope>, last: nat)
  {
    |rows| == last && forall i :: 0 <= i < |rows| ==> rows[i].mailboxSeq == i + 1
  }

  /** The chat_seq values of each chat are exactly 1..last_message_seq, each used once. */
  ghost predicate ChatsGapless(db: Tables)
  {
    && (forall m :: m in db.messages ==> m.chat in db.chats && 1 <= m.chatSeq <= db.chats[m.chat].lastSeq)
    && (forall m, n :: m in db.messages && n in db.messages && SamePlace(m, n) ==> m == n)
    && (forall c, k :: c in db.chats && 1 <= k <= db.chats[c].lastSeq ==> ChatHas(db.messages, c, k))
  }

  /** The mailbox_seq values of each device are exactly 1..last_seq, in commit order. */
  ghost predicate BoxesGapless(db: Tables)
  {
    && (forall e :: e in db.envelopes ==> e.device in db.mailboxes)
    && (forall d :: d in db.mailboxes ==> NumberedRows(Mailbox(db.envelopes, d), db.mailboxes[d]))
  }

  ghost predicate InChatOrder(rows: seq<Envelope>, migrated: map<nat, nat>)
  {
    forall i, j :: 0 <= i < j < |rows| && rows[i].message.chat == rows[j].message.chat
      && !(BeforeNumbers(migrated, rows[i].message) && BeforeNumbers(migrated, rows[j].message))
      ==> rows[i].message.chatSeq < rows[j].message.chatSeq
  }

  /** Every mailbox holds the messages of one chat in the order of that chat; only messages that
      both got their numbers from the migration may stand otherwise. */
  ghost predicate MailboxesInChatOrder(db: Tables)
  {
    forall d :: InChatOrder(Mailbox(db.envelopes, d), db.migrated)
  }

  ghost predicate ClientIdsUnique(messages: seq<Message>)
  {
    forall i, j :: 0 <= i < j < |messages| ==>
      messages[i].id != messages[j].id && !SentBy(messages[i], messages[j].senderDevice, messages[j].clientId)
  }

  ghost predicate EnvelopesKnown(db: Tables)
  {
    && (forall e :: e in db.envelopes ==> e.message in db.messages)
    && (forall i, j :: 0 <= i < j < |db.envelopes| ==> db.envelopes[i].id != db.envelopes[j].id)
  }

  ghost predicate RowContents(contents: map<nat, Bytes>, e: Envelope)
  {
    e.id in contents && (e.payload.Some? ==> e.payload.value == contents[e.id])
  }

  ghost predicate PayloadsKnown(db: Tables, contents: map<nat, Bytes>)
  {
    forall e :: e in db.envelopes ==> PayloadState(e) && RowContents(contents, e)
  }

  ghost predicate AccountsKnown(db: Tables)
  {
    && db.devices.Keys == db.mailboxes.Keys
    && (forall d :: d in db.devices ==> db.devices[d].user in db.users)
    && (forall c :: c in db.chats ==>
         db.chats[c].low < db.chats[c].high && db.chats[c].low in db.users && db.chats[c].high in db.users)
  }

  /** A stored read position never passes the chat's counter. */
  ghost predicate PositionsBounded(db: Tables)
  {
    forall k :: k in db.positions ==> k.0 in db.chats && db.positions[k] <= db.chats[k.0].lastSeq
  }

  ghost predicate TablesInv(db: Tables, contents: map<nat, Bytes>)
  {
    && ChatsGapless(db) && BoxesGapless(db) && MailboxesInChatOrder(db)
    && ClientIdsUnique(db.messages) && EnvelopesKnown(db) && PayloadsKnown(db, contents)
    && AccountsKnown(db) && PositionsBounded(db)
  }

  // ---- the open transactions ----

  ghost predicate NoLocks(tx: Tx)
  {
    tx.chats == map[] && tx.shared == {} && tx.exclusive == {} && tx.boxes == map[]
  }

  ghost predicate Below(held: set<nat>, todo: set<nat>)
  {
    forall a, b :: a in held && b in todo ==> a < b
  }

  /** Where a send is determines the locks it holds. */
  ghost predicate SendShape(tx: Tx)
    requires tx.call.Send?
  {
    var users := {tx.call.request.user, tx.other};
    && tx.exclusive == {}
    && (tx.stage == LockChat ==> NoLocks(tx))
    && (tx.stage != LockChat ==> tx.chats.Keys == {tx.call.request.chat})
    && (tx.stage == Recheck ==> tx.shared == {} && tx.boxes == map[])
    && (tx.stage == LockUsers ==> tx.shared < users && Below(tx.shared, users - tx.shared) && tx.boxes == map[])
    && (tx.stage in {ReadPeers, ReadOwn, LockBoxes, Settle} ==> tx.shared == users)
    && (tx.stage in {ReadPeers, ReadOwn} ==> tx.boxes == map[])
    && (tx.stage in {ReadOwn, LockBoxes, Settle} ==> tx.peers != {})
    && (tx.stage in {LockBoxes, Settle} ==> tx.call.request.device in tx.own && tx.supplied.Keys == Targets(tx))
    && (tx.stage == LockBoxes ==> tx.boxes.Keys < Targets(tx) && Below(tx.boxes.Keys, Targets(tx) - tx.boxes.Keys))
    && (tx.stage == Settle ==> tx.boxes.Keys == Targets(tx))
    && tx.stage != LockUser
    && ValidateEnvelopes(tx.call.request.envelopes) == Ok(tx.supplied)
  }

  ghost predicate Shape(tx: Tx)
  {
    match tx.call
    case Send(_) => SendShape(tx)
    case AdvanceRead(_, chat, _) =>
      && tx.shared == {} && tx.exclusive == {} && tx.boxes == map[]
      && ((tx.stage == LockChat && tx.chats == map[]) || (tx.stage == Settle && tx.chats.Keys == {chat}))
    case Login(user, _) =>
      && tx.shared == {} && tx.chats == map[] && tx.boxes == map[]
      && ((tx.stage == LockUser && tx.exclusive == {}) || (tx.stage == Settle && tx.exclusive == {user}))
    case Revoke(user, _) =>
      && tx.shared == {} && tx.chats == map[] && tx.boxes == map[]
      && ((tx.stage == LockUser && tx.exclusive == {}) || (tx.stage == Settle && tx.exclusive == {user}))
  }

  /** What a transaction has read under its locks is still what the tables say. */
  ghost predicate ReadsCurrent(db: Tables, tx: Tx)
  {
    && (forall c :: c in tx.chats ==> c in db.chats && tx.chats[c] == db.chats[c].lastSeq)
    && (forall d :: d in tx.boxes ==> d in db.mailboxes && tx.boxes[d] == db.mailboxes[d])
    && (tx.call.Send? ==>
         && tx.call.request.chat in db.chats
         && db.chats[tx.call.request.chat].HasMember(tx.call.request.user)
         && tx.other == db.chats[tx.call.request.chat].Other(tx.call.request.user)
         && (tx.stage in {ReadOwn, LockBoxes, Settle} ==> tx.peers == ActiveDevices(db, tx.other))
         && (tx.stage in {LockBoxes, Settle} ==> tx.own == ActiveDevices(db, tx.call.request.user)))
    && (tx.call.AdvanceRead? ==> tx.call.chat in db.chats)
    && (tx.call.Login? || tx.call.Revoke? ==> tx.call.user in db.users)
  }

  ghost predicate Exclusion(a: Tx, b: Tx)
  {
    && a.chats.Keys !! b.chats.Keys
    && a.boxes.Keys !! b.boxes.Keys
    && a.exclusive !! b.exclusive + b.shared
    && b.exclusive !! a.exclusive + a.shared
  }

  ghost predicate TxsInv(s: Server)
  {
    && (forall t :: t in s.txs ==> Shape(s.txs[t]))
    && (forall t :: t in s.txs ==> ReadsCurrent(s.db, s.txs[t]))
    && (forall t, o :: t in s.txs && o in s.txs && t != o ==> Exclusion(s.txs[t], s.txs[o]))
  }

  ghost predicate Inv(s: Server)
  {
    TablesInv(s.db, s.contents) && TxsInv(s)
  }

  // ---- steps that change one transaction only ----

  lemma ContinueKeeps(s: Server, t: nat, tx: Tx)
    requires Inv(s) && Shape(tx) && ReadsCurrent(s.db, tx)
    requires forall o :: o in s.txs && o != t ==> Exclusion(tx, s.txs[o]) && Exclusion(s.txs[o], tx)
    ensures Inv(Continue(s, t, tx))
  {
    hide ChatsGapless, BoxesGapless, MailboxesInChatOrder, ClientIdsUnique, EnvelopesKnown, PayloadsKnown,
         PositionsBounded, ActiveDevices;
  }

  lemma FinishKeeps(s: Server, t: nat, outcome: Outcome)
    requires Inv(s)
    ensures Inv(Finish(s, t, outcome))
  {
    hide ChatsGapless, BoxesGapless, MailboxesInChatOrder, ClientIdsUnique, EnvelopesKnown, PayloadsKnown,
         PositionsBounded, ActiveDevices;
  }

  lemma BeginKeeps(s: Server, t: nat, call: Call)
    requires Inv(s)
    ensures Inv(BeginStep(s, t, call))
  {
    hide Inv;
    if t !in s.calls {
      var s1 := s.(calls := s.calls[t := call]);
      CallsAlone(s, s1.calls);
      match call
      case Send(r) => BeginSendKeeps(s1, s, t, r);
      case AdvanceRead(user, chat, _) =>
        if chat in s.db.chats && s.db.chats[chat].HasMember(user) {
          OpenKeeps(s1, t, Opened(call, LockChat, s.db.chats[chat].Other(user), map[]));
        } else {
          FinishKeeps(s1, t, Refused(ChatNotFound));
        }
      case Login(user, _) =>
        if user in s.db.users { OpenKeeps(s1, t, Opened(call, LockUser, 0, map[])); }
        else { FinishKeeps(s1, t, Refused(Forbidden)); }
      case Revoke(user, _) =>
        if user in s.db.users { OpenKeeps(s1, t, Opened(call, LockUser, 0, map[])); }
        else { FinishKeeps(s1, t, Refused(NotFound)); }
    }
  }

  lemma CallsAlone(s: Server, calls: map<nat, Call>)
    requires Inv(s)
    ensures Inv(s.(calls := calls))
  {
  }

  lemma BeginSendKeeps(s1: Server, s: Server, t: nat, r: SendRequest)
    requires Inv(s1) && t !in s.calls && s1 == s.(calls := s.calls[t := Send(r)])
    ensures Inv(BeginStep(s, t, Send(r)))
  {
    hide Inv;
    if FindByClient(s.db.messages, r.device, r.clientId).Some? {
      FinishKeeps(s1, t, Stored(FindByClient(s.db.messages, r.device, r.clientId).value));
    } else if r.chat in s.db.chats && s.db.chats[r.chat].HasMember(r.user) {
      match ValidateEnvelopes(r.envelopes)
      case Err(why) => FinishKeeps(s1, t, Refused(why));
      case Ok(supplied) => OpenKeeps(s1, t, Opened(Send(r), LockChat, s.db.chats[r.chat].Other(r.user), supplied));
    } else {
      FinishKeeps(s1, t, Refused(ChatNotFound));
    }
  }

  lemma OpenKeeps(s: Server, t: nat, tx: Tx)
    requires Inv(s) && Shape(tx) && ReadsCurrent(s.db, tx) && NoLocks(tx)
    ensures Inv(Continue(s, t, tx))
  {
    hide ChatsGapless, BoxesGapless, MailboxesInChatOrder, ClientIdsUnique, EnvelopesKnown, PayloadsKnown,
         PositionsBounded, ActiveDevices;
    ContinueKeeps(s, t, tx);
  }

  lemma LockKeeps(s: Server, t: nat)
    requires Inv(s)
    ensures Inv(LockStep(s, t))
  {
    if t in s.txs && Wanted(s.txs[t]).Some? && Free(s, t, Wanted(s.txs[t]).value) {
      var tx, lock := s.txs[t], Wanted(s.txs[t]).value;
      assert Shape(tx) && ReadsCurrent(s.db, tx);
      match lock
      case ChatLock(c) => ChatLockKeeps(s, t, c);
      case UserLock(u, x) => if x { ExclusiveLockKeeps(s, t, u); } else { SharedLockKeeps(s, t, u); }
      case BoxLock(d) => BoxLockKeeps(s, t, d);
    }
  }

  /** Taking one free lock excludes no other transaction. */
  lemma LockGranted(s: Server, t: nat, lock: Lock, next: Tx)
    requires TxsInv(s) && t in s.txs && Free(s, t, lock)
    requires var tx := s.txs[t];
      && next.chats.Keys == tx.chats.Keys + (if lock.ChatLock? then {lock.chat} else {})
      && next.boxes.Keys == tx.boxes.Keys + (if lock.BoxLock? then {lock.device} else {})
      && next.shared == tx.shared + (if lock.UserLock? && !lock.isExclusive then {lock.user} else {})
      && next.exclusive == tx.exclusive + (if lock.UserLock? && lock.isExclusive then {lock.user} else {})
    ensures forall o :: o in s.txs && o != t ==> Exclusion(next, s.txs[o]) && Exclusion(s.txs[o], next)
  {
    hide Shape, ReadsCurrent;
    forall o | o in s.txs && o != t ensures Exclusion(next, s.txs[o]) && Exclusion(s.txs[o], next) {
      assert !Conflicts(s.txs[o], lock) && Exclusion(s.txs[t], s.txs[o]);
    }
  }

  lemma TxFacts(s: Server, t: nat)
    requires Inv(s) && t in s.txs
    ensures Shape(s.txs[t]) && ReadsCurrent(s.db, s.txs[t]) && TxsInv(s) && AccountsKnown(s.db)
  {
  }

  lemma ChatLockKeeps(s: Server, t: nat, c: nat)
    requires Inv(s) && t in s.txs && Wanted(s.txs[t]) == Some(ChatLock(c)) && Free(s, t, ChatLock(c))
    ensures Inv(Granted(s, t, ChatLock(c)))
  {
    hide Inv, TxsInv, AccountsKnown, ActiveDevices, Free;
    TxFacts(s, t);
    var tx := s.txs[t];
    var next := tx.(chats := map[c := s.db.chats[c].lastSeq], stage := if tx.call.Send? then Recheck else Settle);
    ChatLockNext(s.db, tx, c, next);
    GrantKeeps(s, t, ChatLock(c), next);
  }

  lemma ChatLockNext(db: Tables, tx: Tx, c: nat, next: Tx)
    requires Shape(tx) && ReadsCurrent(db, tx) && Wanted(tx) == Some(ChatLock(c))
    requires c in db.chats
    requires next == tx.(chats := map[c := db.chats[c].lastSeq], stage := if tx.call.Send? then Recheck else Settle)
    ensures Shape(next) && ReadsCurrent(db, next) && tx.chats == map[]
  {
  }

  lemma GrantKeeps(s: Server, t: nat, lock: Lock, next: Tx)
    requires Inv(s) && t in s.txs && Free(s, t, lock) && Shape(next) && ReadsCurrent(s.db, next)
    requires var tx := s.txs[t];
      && next.chats.Keys == tx.chats.Keys + (if lock.ChatLock? then {lock.chat} else {})
      && next.boxes.Keys == tx.boxes.Keys + (if lock.BoxLock? then {lock.device} else {})
      && next.shared == tx.shared + (if lock.UserLock? && !lock.isExclusive then {lock.user} else {})
      && next.exclusive == tx.exclusive + (if lock.UserLock? && lock.isExclusive then {lock.user} else {})
    ensures Inv(Continue(s, t, next))
  {
    hide Shape, ReadsCurrent, TablesInv, Free, Exclusion, TxsInv;
    LockGranted(s, t, lock, next);
    ContinueKeeps(s, t, next);
  }

  lemma LeastBelow(held: set<nat>, all: set<nat>, next: nat)
    requires held <= all && Below(held, all - held) && IsLeast(next, all - held)
    ensures Below(held + {next}, all - (held + {next})) && held + {next} <= all
  {
    forall a, b | a in held + {next} && b in all - (held + {next}) ensures a < b {
      assert b in all - held;
    }
  }

  lemma SharedLockKeeps(s: Server, t: nat, u: nat)
    requires Inv(s) && t in s.txs && Wanted(s.txs[t]) == Some(UserLock(u, false)) && Free(s, t, UserLock(u, false))
    ensures Inv(Granted(s, t, UserLock(u, false)))
  {
    hide Inv, TxsInv, ActiveDevices, Free;
    TxFacts(s, t);
    var tx := s.txs[t];
    var users := {tx.call.request.user, tx.other};
    var shared := tx.shared + {u};
    var next := tx.(shared := shared, stage := if users <= shared then ReadPeers else LockUsers);
    LeastBelow(tx.shared, users, u);
    assert u in s.db.users;
    GrantKeeps(s, t, UserLock(u, false), next);
  }

  lemma ExclusiveLockKeeps(s: Server, t: nat, u: nat)
    requires Inv(s) && t in s.txs && Wanted(s.txs[t]) == Some(UserLock(u, true)) && Free(s, t, UserLock(u, true))
    ensures Inv(Granted(s, t, UserLock(u, true)))
  {
    hide Inv, TxsInv, AccountsKnown, ActiveDevices, Free;
    TxFacts(s, t);
    var next := s.txs[t].(exclusive := {u}, stage := Settle);
    GrantKeeps(s, t, UserLock(u, true), next);
  }

  lemma TargetsHaveMailboxes(db: Tables, tx: Tx, d: nat)
    requires AccountsKnown(db) && ReadsCurrent(db, tx)
    requires tx.call.Send? && tx.stage == LockBoxes && d in Targets(tx)
    ensures d in db.mailboxes
  {
    assert d in db.devices;
  }

  lemma BoxLockKeeps(s: Server, t: nat, d: nat)
    requires Inv(s) && t in s.txs && Wanted(s.txs[t]) == Some(BoxLock(d)) && Free(s, t, BoxLock(d))
    ensures Inv(Granted(s, t, BoxLock(d)))
  {
    hide Inv, TxsInv, AccountsKnown, ActiveDevices, Free;
    TxFacts(s, t);
    var tx := s.txs[t];
    LeastBelow(tx.boxes.Keys, Targets(tx), d);
    TargetsHaveMailboxes(s.db, tx, d);
    var boxes := tx.boxes[d := s.db.mailboxes[d]];
    var next := tx.(boxes := boxes, stage := if Targets(tx) <= boxes.Keys then Settle else LockBoxes);
    assert Targets(next) == Targets(tx);
    assert boxes.Keys == tx.boxes.Keys + {d};
    GrantKeeps(s, t, BoxLock(d), next);
  }

  lemma ReadKeeps(s: Server, t: nat)
    requires Inv(s)
    ensures Inv(ReadStep(s, t))
  {
    hide Inv, TxsInv, ActiveDevices, AccountsKnown;
    if t in s.txs && s.txs[t].call.Send? {
      TxFacts(s, t);
      var tx, r := s.txs[t], s.txs[t].call.request;
      if tx.stage == Recheck {
        if FindByClient(s.db.messages, r.device, r.clientId).None? {
          SameLocksKeeps(s, t, tx.(stage := LockUsers));
        } else {
          FinishKeeps(s, t, Stored(FindByClient(s.db.messages, r.device, r.clientId).value));
        }
      } else if tx.stage == ReadPeers {
        if ActiveDevices(s.db, tx.other) != {} {
          SameLocksKeeps(s, t, tx.(peers := ActiveDevices(s.db, tx.other), stage := ReadOwn));
        } else {
          FinishKeeps(s, t, Refused(TargetsChanged));
        }
      } else if tx.stage == ReadOwn {
        var next := tx.(own := ActiveDevices(s.db, r.user), stage := LockBoxes);
        if r.device in next.own && next.supplied.Keys == Targets(next) {
          OwnReadKeeps(s, t, next);
        } else {
          FinishKeeps(s, t, Refused(TargetsChanged));
        }
      }
    }
  }

  lemma OwnReadKeeps(s: Server, t: nat, next: Tx)
    requires Inv(s) && t in s.txs && s.txs[t].call.Send? && s.txs[t].stage == ReadOwn
    requires next == s.txs[t].(own := ActiveDevices(s.db, s.txs[t].call.request.user), stage := LockBoxes)
    requires next.call.request.device in next.own && next.supplied.Keys == Targets(next)
    ensures Inv(Continue(s, t, next))
  {
    hide Inv, TxsInv, ActiveDevices;
    TxFacts(s, t);
    TargetsNotEmpty(s.db, next);
    SameLocksKeeps(s, t, next);
  }

  lemma SameLocksKeeps(s: Server, t: nat, next: Tx)
    requires Inv(s) && t in s.txs && Shape(next) && ReadsCurrent(s.db, next)
    requires next.chats == s.txs[t].chats && next.boxes == s.txs[t].boxes
    requires next.shared == s.txs[t].shared && next.exclusive == s.txs[t].exclusive
    ensures Inv(Continue(s, t, next))
  {
    hide Shape, ReadsCurrent, TablesInv;
    forall o | o in s.txs && o != t ensures Exclusion(next, s.txs[o]) && Exclusion(s.txs[o], next) {
      assert Exclusion(s.txs[t], s.txs[o]);
    }
    ContinueKeeps(s, t, next);
  }

  /** A device belongs to one user, so the peer's devices are never the sending device. */
  lemma TargetsNotEmpty(db: Tables, tx: Tx)
    requires tx.call.Send? && tx.peers == ActiveDevices(db, tx.other) != {}
    requires tx.own == ActiveDevices(db, tx.call.request.user) && tx.call.request.device in tx.own
    requires tx.other != tx.call.request.user
    ensures tx.peers <= Targets(tx) && Targets(tx) != {}
  {
    var p :| p in tx.peers;
    assert p in Targets(tx);
  }

  // ---- committing a send ----

  lemma SeqBounded(db: Tables, m: Message)
    requires ChatsGapless(db) && m in db.messages
    ensures m.chat in db.chats && 1 <= m.chatSeq <= db.chats[m.chat].lastSeq
  {
  }

  lemma {:induction false} DistinctMailbox(rows: seq<Envelope>, device: nat)
    requires forall i, j :: 0 <= i < j < |rows| ==> rows[i].device != rows[j].device
    ensures (forall e :: e in rows ==> e.device != device) ==> Mailbox(rows, device) == []
    ensures forall i :: 0 <= i < |rows| && rows[i].device == device ==> Mailbox(rows, device) == [rows[i]]
  {
    if rows != [] {
      var n := |rows| - 1;
      DistinctMailbox(rows[..n], device);
      assert forall e :: e in rows[..n] ==> e in rows;
      if rows[n].device == device {
        assert forall e :: e in rows[..n] ==> e.device != device;
      } else {
        forall i | 0 <= i < |rows| && rows[i].device == device ensures Mailbox(rows, device) == [rows[i]] {
          assert rows[..n][i] == rows[i];
        }
      }
    }
  }

  /** The rows a send inserts, seen per device. */
  ghost predicate SentRows(db: Tables, m: Message, rows: seq<Envelope>)
  {
    && (forall i, j :: 0 <= i < j < |rows| ==> rows[i].device != rows[j].device && rows[i].id != rows[j].id)
    && (forall e :: e in rows ==>
         && e.message == m && e.device in db.mailboxes && e.mailboxSeq == db.mailboxes[e.device] + 1
         && e.payload.Some? && e.deliveredAt.None? && e.purgedAt.None?)
  }

  ghost predicate SentMessage(db: Tables, m: Message)
  {
    m.chat in db.chats && m.chatSeq == db.chats[m.chat].lastSeq + 1
  }

  ghost predicate InsertedBy(db: Tables, m: Message, rows: seq<Envelope>, after: Tables)
  {
    && after.users == db.users && after.devices == db.devices && after.positions == db.positions
    && after.migrated == db.migrated
    && m.chat in db.chats && after.chats == db.chats[m.chat := db.chats[m.chat].(lastSeq := m.chatSeq)]
    && after.messages == db.messages + [m] && after.envelopes == db.envelopes + rows
    && after.mailboxes.Keys == db.mailboxes.Keys
    && (forall e :: e in rows ==> e.device in db.mailboxes && after.mailboxes[e.device] == db.mailboxes[e.device] + 1)
    && (forall d :: d in db.mailboxes && (forall e :: e in rows ==> e.device != d) ==>
        after.mailboxes[d] == db.mailboxes[d])
  }

  lemma InsertKeepsChats(db: Tables, m: Message, rows: seq<Envelope>, after: Tables)
    requires ChatsGapless(db) && SentMessage(db, m) && InsertedBy(db, m, rows, after)
    ensures ChatsGapless(after)
  {
    forall c, k | c in after.chats && 1 <= k <= after.chats[c].lastSeq ensures ChatHas(after.messages, c, k) {
      if c == m.chat && k == m.chatSeq {
        assert m in after.messages;
      } else {
        assert ChatHas(db.messages, c, k);
        var o :| o in db.messages && o.chat == c && o.chatSeq == k;
        assert o in after.messages;
      }
    }
  }

  lemma InsertMailbox(db: Tables, m: Message, rows: seq<Envelope>, after: Tables, d: nat)
    requires SentRows(db, m, rows) && InsertedBy(db, m, rows, after)
    ensures Mailbox(after.envelopes, d) == Mailbox(db.envelopes, d) + Mailbox(rows, d)
    ensures |Mailbox(rows, d)| <= 1
    ensures d in db.mailboxes ==> after.mailboxes[d] == db.mailboxes[d] + |Mailbox(rows, d)|
    ensures forall e :: e in Mailbox(rows, d) ==> e in rows && e.device == d
  {
    MailboxConcat(db.envelopes, rows, d);
    DistinctMailbox(rows, d);
    MailboxMembers(rows, d);
    if e :| e in rows && e.device == d {
      var i :| 0 <= i < |rows| && rows[i] == e;
    }
  }

  lemma InsertKeepsBoxes(db: Tables, m: Message, rows: seq<Envelope>, after: Tables)
    requires BoxesGapless(db) && SentRows(db, m, rows) && InsertedBy(db, m, rows, after)
    ensures BoxesGapless(after)
  {
    forall d | d in after.mailboxes ensures NumberedRows(Mailbox(after.envelopes, d), after.mailboxes[d]) {
      InsertMailbox(db, m, rows, after, d);
      assert NumberedRows(Mailbox(db.envelopes, d), db.mailboxes[d]);
      var added := Mailbox(rows, d);
      if |added| == 1 { assert added[0] in added; }
    }
  }

  lemma InsertKeepsOrder(db: Tables, m: Message, rows: seq<Envelope>, after: Tables)
    requires MailboxesInChatOrder(db) && ChatsGapless(db) && EnvelopesKnown(db)
    requires SentMessage(db, m) && SentRows(db, m, rows) && InsertedBy(db, m, rows, after)
    ensures MailboxesInChatOrder(after)
  {
    forall d ensures InChatOrder(Mailbox(after.envelopes, d), db.migrated) {
      InsertMailbox(db, m, rows, after, d);
      var prior, added := Mailbox(db.envelopes, d), Mailbox(rows, d);
      assert InChatOrder(prior, db.migrated);
      forall i | 0 <= i < |prior| && prior[i].message.chat == m.chat ensures prior[i].message.chatSeq < m.chatSeq {
        MailboxMembers(db.envelopes, d);
        assert prior[i] in prior;
        SeqBounded(db, prior[i].message);
      }
      if |added| == 1 { assert added[0] in added; }
    }
  }

  lemma InsertKeepsClientIds(db: Tables, m: Message)
    requires ClientIdsUnique(db.messages) && FindByClient(db.messages, m.senderDevice, m.clientId).None?
    requires forall o :: o in db.messages ==> o.id != m.id
    ensures ClientIdsUnique(db.messages + [m])
  {
    forall i | 0 <= i < |db.messages|
      ensures db.messages[i].id != m.id && !SentBy(db.messages[i], m.senderDevice, m.clientId)
    {
      assert db.messages[i] in db.messages;
    }
  }

  lemma InsertKeepsEnvelopes(db: Tables, contents: map<nat, Bytes>, m: Message, rows: seq<Envelope>, after: Tables)
    requires EnvelopesKnown(db) && PayloadsKnown(db, contents)
    requires SentRows(db, m, rows) && InsertedBy(db, m, rows, after)
    requires forall e :: e in rows ==> e.id !in contents
    ensures EnvelopesKnown(after)
  {
    var all := after.envelopes;
    forall i, j | 0 <= i < j < |all| ensures all[i].id != all[j].id {
      var n := |db.envelopes|;
      if i < n <= j {
        assert all[i] in db.envelopes && all[j] in rows;
        assert RowContents(contents, all[i]);
      } else if n <= i {
        assert all[i] == rows[i - n] && all[j] == rows[j - n];
      }
    }
  }

  lemma {:induction false} RecordKeeps(contents: map<nat, Bytes>, rows: seq<Envelope>)
    requires forall i, j :: 0 <= i < j < |rows| ==> rows[i].id != rows[j].id
    ensures forall id :: id in contents && (forall e :: e in rows ==> e.id != id)
              ==> id in Record(contents, rows) && Record(contents, rows)[id] == contents[id]
    ensures forall e :: e in rows && e.payload.Some?
              ==> e.id in Record(contents, rows) && Record(contents, rows)[e.id] == e.payload.value
    ensures contents.Keys <= Record(contents, rows).Keys
  {
    if rows != [] {
      var n := |rows| - 1;
      RecordKeeps(contents, rows[..n]);
      assert forall e :: e in rows ==> e in rows[..n] || e == rows[n];
      assert forall e :: e in rows[..n] ==> e in rows && e.id != rows[n].id;
    }
  }

  lemma InsertKeepsPayloads(db: Tables, contents: map<nat, Bytes>, m: Message, rows: seq<Envelope>, after: Tables)
    requires PayloadsKnown(db, contents) && SentRows(db, m, rows) && InsertedBy(db, m, rows, after)
    requires forall e :: e in rows ==> e.id !in contents
    ensures PayloadsKnown(after, Record(contents, rows))
  {
    RecordKeeps(contents, rows);
    forall e | e in after.envelopes ensures PayloadState(e) && RowContents(Record(contents, rows), e) {
      if e in db.envelopes {
        assert PayloadState(e) && RowContents(contents, e);
      } else {
        assert e in rows;
      }
    }
  }

  lemma InsertKeepsTables(db: Tables, contents: map<nat, Bytes>, m: Message, rows: seq<Envelope>, after: Tables)
    requires TablesInv(db, contents) && SentMessage(db, m) && SentRows(db, m, rows) && InsertedBy(db, m, rows, after)
    requires forall e :: e in rows ==> e.id !in contents
    requires FindByClient(db.messages, m.senderDevice, m.clientId).None?
    requires forall o :: o in db.messages ==> o.id != m.id
    ensures TablesInv(after, Record(contents, rows))
  {
    hide ChatsGapless, BoxesGapless, MailboxesInChatOrder, ClientIdsUnique, EnvelopesKnown, PayloadsKnown, SentRows;
    InsertKeepsChats(db, m, rows, after);
    InsertKeepsBoxes(db, m, rows, after);
    InsertKeepsOrder(db, m, rows, after);
    InsertKeepsClientIds(db, m);
    InsertKeepsEnvelopes(db, contents, m, rows, after);
    InsertKeepsPayloads(db, contents, m, rows, after);
  }

  /** A send at its commit: it holds the counters as they still are in the tables. */
  ghost predicate HoldsCounters(db: Tables, tx: Tx)
  {
    && ReadyToSend(tx)
    && tx.call.request.chat in db.chats && tx.chats[tx.call.request.chat] == db.chats[tx.call.request.chat].lastSeq
    && (forall d :: d in tx.boxes ==> d in db.mailboxes && tx.boxes[d] == db.mailboxes[d])
  }

  lemma ReadyHoldsCounters(s: Server, t: nat)
    requires Inv(s) && t in s.txs && s.txs[t].call.Send? && s.txs[t].stage == Settle
    ensures HoldsCounters(s.db, s.txs[t])
  {
    hide Inv, TxsInv, ActiveDevices, AccountsKnown;
    TxFacts(s, t);
  }

  function SendRows(tx: Tx, m: Message, ids: map<nat, nat>): (rows: seq<Envelope>)
    requires ReadyToSend(tx) && ids.Keys == tx.boxes.Keys
  {
    NewEnvelopes(tx, m, Ascending(Targets(tx)), ids)
  }

  lemma SentRowAt(db: Tables, tx: Tx, m: Message, ids: map<nat, nat>, i: nat)
    requires HoldsCounters(db, tx) && ids.Keys == tx.boxes.Keys && i < |SendRows(tx, m, ids)|
    ensures var order, e := Ascending(Targets(tx)), SendRows(tx, m, ids)[i];
      && |SendRows(tx, m, ids)| == |order|
      && e.device == order[i] && e.device in Targets(tx) && e.id == ids[e.device]
      && e.message == m && e.device in db.mailboxes && e.mailboxSeq == db.mailboxes[e.device] + 1
      && e.payload.Some? && e.deliveredAt.None? && e.purgedAt.None?
  {
    assert Ascending(Targets(tx))[i] in Ascending(Targets(tx));
  }

  ghost predicate SentRowFacts(s: Server, targets: set<nat>, m: Message, ids: map<nat, nat>, e: Envelope)
  {
    && e.device in targets && e.device in ids && e.id == ids[e.device] && e.id !in s.contents
    && e.message == m && e.device in s.db.mailboxes && e.mailboxSeq == s.db.mailboxes[e.device] + 1
    && e.payload.Some? && e.deliveredAt.None? && e.purgedAt.None?
  }

  lemma SentRowsAre(s: Server, tx: Tx, m: Message, ids: map<nat, nat>)
    requires HoldsCounters(s.db, tx) && FreshIds(s, tx, m.id, ids)
    ensures SentRows(s.db, m, SendRows(tx, m, ids))
    ensures forall e :: e in SendRows(tx, m, ids) ==> e.id !in s.contents && e.device in Targets(tx)
    ensures forall d :: d in Targets(tx) ==> exists e :: e in SendRows(tx, m, ids) && e.device == d
  {
    var rows, targets := SendRows(tx, m, ids), Targets(tx);
    SentRowsFacts(s, tx, m, ids);
    assert forall d, e :: d in ids && e in ids && d != e ==> ids[d] != ids[e];
    hide SentRows, NewEnvelopes, SendRows, SentRowFacts, FreshIds;
    DistinctRows(s, targets, m, ids, rows);
    forall d | d in targets ensures exists e :: e in rows && e.device == d { SentRowFor(s.db, tx, m, ids, d); }
  }

  lemma SentRowsFacts(s: Server, tx: Tx, m: Message, ids: map<nat, nat>)
    requires HoldsCounters(s.db, tx) && FreshIds(s, tx, m.id, ids)
    ensures |SendRows(tx, m, ids)| == |Ascending(Targets(tx))|
    ensures forall i :: 0 <= i < |SendRows(tx, m, ids)| ==>
      SentRowFacts(s, Targets(tx), m, ids, SendRows(tx, m, ids)[i])
        && SendRows(tx, m, ids)[i].device == Ascending(Targets(tx))[i]
  {
    var rows := SendRows(tx, m, ids);
    hide NewEnvelopes, SendRows;
    assert |rows| == |Ascending(Targets(tx))| by { SentRowCount(s.db, tx, m, ids); }
    forall i | 0 <= i < |rows|
      ensures SentRowFacts(s, Targets(tx), m, ids, rows[i]) && rows[i].device == Ascending(Targets(tx))[i]
    {
      SentRowAt(s.db, tx, m, ids, i);
    }
  }

  lemma SentRowCount(db: Tables, tx: Tx, m: Message, ids: map<nat, nat>)
    requires HoldsCounters(db, tx) && ids.Keys == tx.boxes.Keys
    ensures |SendRows(tx, m, ids)| == |Ascending(Targets(tx))|
  {
    hide NewEnvelopes;
  }

  lemma DistinctRows(s: Server, targets: set<nat>, m: Message, ids: map<nat, nat>, rows: seq<Envelope>)
    requires |rows| == |Ascending(targets)|
    requires forall i :: 0 <= i < |rows| ==>
      SentRowFacts(s, targets, m, ids, rows[i]) && rows[i].device == Ascending(targets)[i]
    requires forall d, e :: d in ids && e in ids && d != e ==> ids[d] != ids[e]
    ensures SentRows(s.db, m, rows)
    ensures forall e :: e in rows ==> e.id !in s.contents && e.device in targets
  {
    forall i, j | 0 <= i < j < |rows| ensures rows[i].device != rows[j].device && rows[i].id != rows[j].id {
      assert SentRowFacts(s, targets, m, ids, rows[i]) && SentRowFacts(s, targets, m, ids, rows[j]);
      assert Ascending(targets)[i] < Ascending(targets)[j];
    }
  }

  lemma SentRowFor(db: Tables, tx: Tx, m: Message, ids: map<nat, nat>, d: nat)
    requires HoldsCounters(db, tx) && ids.Keys == tx.boxes.Keys && d in Targets(tx)
    ensures exists e :: e in SendRows(tx, m, ids) && e.device == d
  {
    var order := Ascending(Targets(tx));
    var i :| 0 <= i < |order| && order[i] == d;
    assert SendRows(tx, m, ids)[i] in SendRows(tx, m, ids);
  }

  lemma SentIsInserted(db: Tables, tx: Tx, m: Message, ids: map<nat, nat>)
    requires HoldsCounters(db, tx) && ids.Keys == tx.boxes.Keys && m.chat in db.chats
    requires forall e :: e in SendRows(tx, m, ids) ==> e.device in Targets(tx)
    requires forall d :: d in Targets(tx) ==> exists e :: e in SendRows(tx, m, ids) && e.device == d
    ensures InsertedBy(db, m, SendRows(tx, m, ids), Inserted(db, tx, m, SendRows(tx, m, ids)))
  {
    hide NewEnvelopes, SendRows, Targets;
  }

  /** The counters another transaction holds are not the ones a send changes. */
  lemma InsertKeepsReads(db: Tables, tx: Tx, m: Message, rows: seq<Envelope>, o: Tx)
    requires ReadsCurrent(db, o) && ReadyToSend(tx) && m.chat == tx.call.request.chat && m.chat in db.chats
    requires Exclusion(tx, o)
    ensures ReadsCurrent(Inserted(db, tx, m, rows), o)
  {
    assert m.chat in tx.chats;
    var after := Inserted(db, tx, m, rows);
    assert forall u :: ActiveDevices(after, u) == ActiveDevices(db, u);
  }

  lemma CommitSendKeeps(s: Server, t: nat, messageId: nat, ids: map<nat, nat>, now: int)
    requires Inv(s) && t in s.txs && s.txs[t].call.Send? && s.txs[t].stage == Settle
    ensures Inv(CommitSend(s, t, messageId, ids, now))
  {
    hide Inv, TxsInv, TablesInv, NumberTaken;
    var tx, r := s.txs[t], s.txs[t].call.request;
    if ReadyToSend(tx) && r.chat in s.db.chats && FreshIds(s, tx, messageId, ids) {
      var m := NewMessage(tx, messageId, now);
      var rows := SendRows(tx, m, ids);
      if FindByClient(s.db.messages, r.device, r.clientId).Some? {
        FinishKeeps(s, t, Stored(FindByClient(s.db.messages, r.device, r.clientId).value));
      } else if NumberTaken(s.db, m, rows) {
        FinishKeeps(s, t, Refused(Integrity));
      } else {
        InsertSendKeeps(s, t, m, ids);
      }
    }
  }

  lemma InsertSendKeeps(s: Server, t: nat, m: Message, ids: map<nat, nat>)
    requires Inv(s) && t in s.txs && s.txs[t].call.Send? && s.txs[t].stage == Settle
    requires ReadyToSend(s.txs[t]) && m.chat in s.db.chats && FreshIds(s, s.txs[t], m.id, ids)
    requires m == NewMessage(s.txs[t], m.id, m.createdAt)
    requires FindByClient(s.db.messages, m.senderDevice, m.clientId).None?
    ensures var tx := s.txs[t]; var rows := SendRows(tx, m, ids);
      Inv(Finish(s.(db := Inserted(s.db, tx, m, rows), contents := Record(s.contents, rows)), t, Stored(m)))
  {
    hide TablesInv, TxsInv;
    var tx, rows := s.txs[t], SendRows(s.txs[t], m, ids);
    var after := Inserted(s.db, tx, m, rows);
    ReadyHoldsCounters(s, t);
    SentRowsAre(s, tx, m, ids);
    SentIsInserted(s.db, tx, m, ids);
    InsertKeepsTables(s.db, s.contents, m, rows, after);
    InsertKeepsTxs(s, t, m, rows);
  }

  lemma InsertKeepsTxs(s: Server, t: nat, m: Message, rows: seq<Envelope>)
    requires TxsInv(s) && t in s.txs && s.txs[t].call.Send?
    requires ReadyToSend(s.txs[t]) && m.chat in s.db.chats && m.chat == s.txs[t].call.request.chat
    ensures TxsInv(Finish(s.(db := Inserted(s.db, s.txs[t], m, rows), contents := Record(s.contents, rows)), t,
                          Stored(m)))
  {
    hide Shape, ReadsCurrent, Exclusion, Inserted, ReadyToSend;
    forall o | o in s.txs && o != t ensures ReadsCurrent(Inserted(s.db, s.txs[t], m, rows), s.txs[o]) {
      InsertKeepsReads(s.db, s.txs[t], m, rows, s.txs[o]);
    }
  }

  // ---- the other commits ----

  lemma CommitReadKeeps(s: Server, t: nat, user: nat, chat: nat, position: int)
    requires Inv(s) && t in s.txs && s.txs[t].stage == Settle && s.txs[t].call == AdvanceRead(user, chat, position)
    ensures Inv(CommitRead(s, t, user, chat, position))
  {
    hide Inv, PositionExists;
    var tx := s.txs[t];
    if chat in tx.chats {
      var stored := if (chat, user) in s.db.positions then s.db.positions[(chat, user)] else 0;
      if 0 <= position <= tx.chats[chat] && (position == 0 || PositionExists(s.db, chat, position)) {
        if position > stored {
          SetPositionKeeps(s, t, chat, user, position);
        } else {
          FinishKeeps(s, t, Position(stored));
        }
      } else {
        FinishKeeps(s, t, Refused(InvalidReadPosition));
      }
    }
  }

  lemma SetPositionKeeps(s: Server, t: nat, chat: nat, user: nat, position: nat)
    requires Inv(s) && t in s.txs && chat in s.txs[t].chats && position <= s.txs[t].chats[chat]
    ensures Inv(Finish(s.(db := s.db.(positions := s.db.positions[(chat, user) := position])), t, Position(position)))
  {
    hide ChatsGapless, BoxesGapless, MailboxesInChatOrder, ClientIdsUnique, EnvelopesKnown, PayloadsKnown, Shape,
         Exclusion, ReadsCurrent;
    var p := s.db.positions[(chat, user) := position];
    forall o | o in s.txs ensures ReadsCurrent(s.db.(positions := p), s.txs[o]) {
      PositionsNotRead(s.db, p, s.txs[o]);
    }
    ChatCounterRead(s.db, s.txs[t], chat);
    PositionsAlone(s.db, s.contents, p);
  }

  lemma ChatCounterRead(db: Tables, tx: Tx, chat: nat)
    requires ReadsCurrent(db, tx) && chat in tx.chats
    ensures chat in db.chats && tx.chats[chat] == db.chats[chat].lastSeq
  {
  }

  lemma PositionsNotRead(db: Tables, p: map<(nat, nat), nat>, o: Tx)
    requires ReadsCurrent(db, o)
    ensures ReadsCurrent(db.(positions := p), o)
  {
    assert forall u :: ActiveDevices(db.(positions := p), u) == ActiveDevices(db, u);
  }

  lemma PositionsAlone(db: Tables, contents: map<nat, Bytes>, p: map<(nat, nat), nat>)
    requires ChatsGapless(db) && BoxesGapless(db) && MailboxesInChatOrder(db) && EnvelopesKnown(db)
    requires PayloadsKnown(db, contents)
    ensures var after := db.(positions := p);
      ChatsGapless(after) && BoxesGapless(after) && MailboxesInChatOrder(after) && EnvelopesKnown(after)
        && PayloadsKnown(after, contents)
  {
  }

  /** Device sets of users other than the one whose row is locked exclusively do not change. */
  lemma DeviceChangeKeepsReads(db: Tables, tx: Tx, user: nat, device: nat, after: Tables, o: Tx)
    requires ReadsCurrent(db, o) && Shape(o) && Exclusion(tx, o) && tx.exclusive == {user}
    requires after.users == db.users && after.chats == db.chats
    requires forall d :: d in db.mailboxes ==> d in after.mailboxes && after.mailboxes[d] == db.mailboxes[d]
    requires exists v :: after.devices == db.devices[device := v] && v.user == user
    requires device in db.devices ==> db.devices[device].user == user
    ensures ReadsCurrent(after, o)
  {
    forall u | u != user ensures ActiveDevices(after, u) == ActiveDevices(db, u) {
    }
    assert user !in o.shared;
  }

  lemma CommitLoginKeeps(s: Server, t: nat, user: nat, device: nat)
    requires Inv(s) && t in s.txs && s.txs[t].stage == Settle && s.txs[t].call == Login(user, device)
    ensures Inv(CommitLogin(s, t, user, device))
  {
    hide TablesInv, TxsInv;
    if user in s.db.users && s.db.users[user] && device !in s.db.devices {
      var after := s.db.(devices := s.db.devices[device := Device(user, false)],
                         mailboxes := s.db.mailboxes[device := 0]);
      NewDeviceKeepsTables(s.db, s.contents, user, device, after);
      NewDeviceHasMailbox(s.db, s.contents, device);
      DeviceChangeKeepsTxs(s, t, user, device, Device(user, false), after);
    } else {
      FinishKeeps(s, t, CommitLogin(s, t, user, device).outcomes[t]);
    }
  }

  lemma NewDeviceHasMailbox(db: Tables, contents: map<nat, Bytes>, device: nat)
    requires TablesInv(db, contents) && device !in db.devices
    ensures device !in db.mailboxes
  {
  }

  /** Devices and mailboxes do not matter to the message tables. */
  lemma DevicesAlone(db: Tables, contents: map<nat, Bytes>, after: Tables)
    requires ChatsGapless(db) && MailboxesInChatOrder(db) && EnvelopesKnown(db) && PayloadsKnown(db, contents)
    requires PositionsBounded(db)
    requires after == db.(devices := after.devices, mailboxes := after.mailboxes)
    ensures ChatsGapless(after) && MailboxesInChatOrder(after) && EnvelopesKnown(after)
    ensures PayloadsKnown(after, contents) && PositionsBounded(after)
  {
  }

  lemma NewMailboxKeepsBoxes(db: Tables, device: nat, after: Tables)
    requires BoxesGapless(db) && device !in db.mailboxes
    requires after.envelopes == db.envelopes && after.mailboxes == db.mailboxes[device := 0]
    ensures BoxesGapless(after)
  {
    NoMailbox(db.envelopes, device);
  }

  lemma NewDeviceKeepsTables(db: Tables, contents: map<nat, Bytes>, user: nat, device: nat, after: Tables)
    requires TablesInv(db, contents) && user in db.users && device !in db.devices
    requires after == db.(devices := db.devices[device := Device(user, false)], mailboxes := db.mailboxes[device := 0])
    ensures TablesInv(after, contents)
  {
    hide ChatsGapless, BoxesGapless, MailboxesInChatOrder, ClientIdsUnique, EnvelopesKnown, PayloadsKnown,
         PositionsBounded;
    DevicesAlone(db, contents, after);
    NewMailboxKeepsBoxes(db, device, after);
  }

  lemma RevokedKeepsTables(db: Tables, contents: map<nat, Bytes>, user: nat, device: nat, after: Tables)
    requires TablesInv(db, contents) && device in db.devices && db.devices[device].user == user
    requires after == db.(devices := db.devices[device := Device(user, true)])
    ensures TablesInv(after, contents)
  {
    hide ChatsGapless, MailboxesInChatOrder, ClientIdsUnique, EnvelopesKnown, PayloadsKnown, PositionsBounded;
    DevicesAlone(db, contents, after);
  }

  lemma DeviceChangeKeepsTxs(s: Server, t: nat, user: nat, device: nat, v: Device, after: Tables)
    requires TxsInv(s) && t in s.txs && s.txs[t].stage == Settle
    requires s.txs[t].call == Login(user, device) || s.txs[t].call == Revoke(user, device)
    requires after.users == s.db.users && after.chats == s.db.chats
    requires forall d :: d in s.db.mailboxes ==> d in after.mailboxes && after.mailboxes[d] == s.db.mailboxes[d]
    requires after.devices == s.db.devices[device := v] && v.user == user
    requires device in s.db.devices ==> s.db.devices[device].user == user
    ensures TxsInv(Finish(s.(db := after), t, Done))
  {
    hide ReadsCurrent, Exclusion;
    assert Shape(s.txs[t]);
    forall o | o in s.txs && o != t ensures ReadsCurrent(after, s.txs[o]) {
      DeviceChangeKeepsReads(s.db, s.txs[t], user, device, after, s.txs[o]);
    }
  }

  lemma CommitRevokeKeeps(s: Server, t: nat, user: nat, device: nat)
    requires Inv(s) && t in s.txs && s.txs[t].stage == Settle && s.txs[t].call == Revoke(user, device)
    ensures Inv(CommitRevoke(s, t, user, device))
  {
    hide TablesInv, TxsInv;
    if device in s.db.devices && s.db.devices[device].user == user {
      var after := s.db.(devices := s.db.devices[device := Device(user, true)]);
      RevokedKeepsTables(s.db, s.contents, user, device, after);
      DeviceChangeKeepsTxs(s, t, user, device, Device(user, true), after);
    } else {
      FinishKeeps(s, t, Refused(NotFound));
    }
  }

  lemma CommitKeeps(s: Server, t: nat, messageId: nat, ids: map<nat, nat>, now: int)
    requires Inv(s)
    ensures Inv(CommitStep(s, t, messageId, ids, now))
  {
    hide Inv, CommitSend, CommitRead, CommitLogin, CommitRevoke;
    if t in s.txs && s.txs[t].stage == Settle {
      match s.txs[t].call
      case Send(_) => CommitSendKeeps(s, t, messageId, ids, now);
      case AdvanceRead(user, chat, position) => CommitReadKeeps(s, t, user, chat, position);
      case Login(user, device) => CommitLoginKeeps(s, t, user, device);
      case Revoke(user, device) => CommitRevokeKeeps(s, t, user, device);
    }
  }

  // ---- row updates outside transactions ----

  lemma RowUpdateKeeps(s: Server, rows: seq<Envelope>)
    requires Inv(s) && RowsEvolve(s.db.envelopes, rows) && |rows| == |s.db.envelopes|
    requires forall e :: e in rows ==> PayloadState(e)
    ensures Inv(s.(db := s.db.(envelopes := rows)))
  {
    hide ChatsGapless, Shape, Exclusion, ReadsCurrent;
    var after := s.db.(envelopes := rows);
    RowUpdateKeepsTables(s.db, s.contents, rows);
    forall o | o in s.txs ensures ReadsCurrent(after, s.txs[o]) {
      RowUpdateKeepsReads(s.db, rows, s.txs[o]);
    }
  }

  lemma RowUpdateKeepsReads(db: Tables, rows: seq<Envelope>, o: Tx)
    requires ReadsCurrent(db, o)
    ensures ReadsCurrent(db.(envelopes := rows), o)
  {
    assert forall u :: ActiveDevices(db.(envelopes := rows), u) == ActiveDevices(db, u);
  }

  lemma RowUpdateKeepsTables(db: Tables, contents: map<nat, Bytes>, rows: seq<Envelope>)
    requires TablesInv(db, contents) && RowsEvolve(db.envelopes, rows) && |rows| == |db.envelopes|
    requires forall e :: e in rows ==> PayloadState(e)
    ensures TablesInv(db.(envelopes := rows), contents)
  {
    var after := db.(envelopes := rows);
    forall e | e in rows ensures e.device in db.mailboxes && e.message in db.messages && RowContents(contents, e) {
      var i :| 0 <= i < |rows| && rows[i] == e;
      assert RowEvolves(db.envelopes[i], e) && db.envelopes[i] in db.envelopes;
      assert RowContents(contents, db.envelopes[i]);
    }
    forall d ensures d in db.mailboxes ==> NumberedRows(Mailbox(rows, d), db.mailboxes[d])
             ensures InChatOrder(Mailbox(rows, d), db.migrated)
    {
      MailboxEvolves(db.envelopes, rows, d);
      SameLengthMailbox(db.envelopes, rows, d);
      var a, b := Mailbox(db.envelopes, d), Mailbox(rows, d);
      assert InChatOrder(a, db.migrated);
      assert forall i :: 0 <= i < |b| ==> RowEvolves(a[i], b[i]);
    }
    forall i, j | 0 <= i < j < |rows| ensures rows[i].id != rows[j].id {
      assert RowEvolves(db.envelopes[i], rows[i]) && RowEvolves(db.envelopes[j], rows[j]);
    }
  }

  lemma AcknowledgeKeeps(s: Server, device: nat, envelope: nat, now: int)
    requires Inv(s)
    ensures Inv(Apply(s, Acknowledge(device, envelope, now)))
  {
    hide TxsInv, ChatsGapless, BoxesGapless, MailboxesInChatOrder, AccountsKnown, PositionsBounded, EnvelopesKnown,
         ClientIdsUnique;
    var rows := AcknowledgeRows(s.db.envelopes, device, envelope, now);
    AcknowledgeEvolves(s.db.envelopes, device, envelope, now);
    forall e | e in rows ensures PayloadState(e) {
      var i :| 0 <= i < |rows| && rows[i] == e;
      assert PayloadState(s.db.envelopes[i]);
    }
    RowUpdateKeeps(s, rows);
  }

  lemma PurgeKeeps(s: Server, selected: set<nat>, now: int)
    requires Inv(s)
    ensures Inv(Apply(s, Purge(selected, now)))
  {
    hide TxsInv, ChatsGapless, BoxesGapless, MailboxesInChatOrder, AccountsKnown, PositionsBounded, EnvelopesKnown,
         ClientIdsUnique;
    var rows := PurgeRows(s.db.envelopes, selected, now);
    PurgeEvolves(s.db.envelopes, selected, now);
    forall e | e in rows ensures PayloadState(e) {
      var i :| 0 <= i < |rows| && rows[i] == e;
      assert PayloadState(s.db.envelopes[i]);
    }
    RowUpdateKeeps(s, rows);
  }

  // ---- every step, every run ----

  lemma ApplyKeeps(s: Server, l: Label)
    requires Inv(s)
    ensures Inv(Apply(s, l))
  {
    hide Inv, BeginStep, LockStep, ReadStep, CommitStep;
    match l
    case Begin(t, call) => BeginKeeps(s, t, call);
    case TakeLock(t) => LockKeeps(s, t);
    case Read(t) => ReadKeeps(s, t);
    case Commit(t, messageId, ids, now) => CommitKeeps(s, t, messageId, ids, now);
    case Abort(t) => if t in s.txs { FinishKeeps(s, t, Refused(Aborted)); }
    case Acknowledge(device, envelope, now) => AcknowledgeKeeps(s, device, envelope, now);
    case Purge(selected, now) => PurgeKeeps(s, selected, now);
  }

  /** In every run, over every interleaving of concurrent, retried and rolled-back calls:
      the numbers of each chat are exactly 1..last_message_seq, those of each mailbox exactly
      1..last_seq, and each mailbox is in the order of every chat in it. */
  lemma {:induction false} RunKeeps(s: Server, labels: seq<Label>)
    requires Inv(s)
    ensures Inv(Run(s, labels))
  {
    if labels != [] {
      RunKeeps(s, labels[..|labels| - 1]);
      ApplyKeeps(Run(s, labels[..|labels| - 1]), labels[|labels| - 1]);
    }
  }
}
