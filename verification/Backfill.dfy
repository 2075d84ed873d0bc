/** The migration that introduces chat numbers: existing messages are numbered per chat by time
    and identifier, every chat takes over its highest number, and every envelope its recipient. */
module Backfill {
  import opened Common
  import opened Base64
  import opened MessageTables
  import opened ServerInvariants

  predicate Older(a: Message, b: Message)
  {
    a.createdAt < b.createdAt || (a.createdAt == b.createdAt && a.id < b.id)
  }

  /** The rows of the same chat that come before `m`. */
  function Earlier(rows: seq<Message>, m: Message): set<Message>
  {
    set x | x in rows && x.chat == m.chat && Older(x, m)
  }

  /** row_number() over the chat's messages in order of time and identifier. */
  function RowNumber(rows: seq<Message>, m: Message): nat
  {
    1 + |Earlier(rows, m)|
  }

  function Renumbered(rows: seq<Message>, m: Message): Message
  {
    m.(chatSeq := RowNumber(rows, m))
  }

  function Numbered(rows: seq<Message>): (r: seq<Message>)
    ensures |r| == |rows| && forall i :: 0 <= i < |r| ==> r[i] == Renumbered(rows, rows[i])
  {
    seq(|rows|, i requires 0 <= i < |rows| => Renumbered(rows, rows[i]))
  }

  function Highest(rows: seq<Message>, chat: nat): nat
  {
    if rows == [] then 0 else
    var last := rows[|rows| - 1];
    var before := Highest(rows[..|rows| - 1], chat);
    if last.chat == chat && last.chatSeq > before then last.chatSeq else before
  }

  function WithCounters(chats: map<nat, Chat>, rows: seq<Message>): map<nat, Chat>
  {
    map c | c in chats :: chats[c].(lastSeq := Highest(rows, c))
  }

  /** An envelope afterwards: its message has a number, and it names the user of its device. */
  function Addressed(e: Envelope, rows: seq<Message>, devices: map<nat, Device>): Envelope
  {
    e.(message := Renumbered(rows, e.message), user := if e.device in devices then devices[e.device].user else e.user)
  }

  function AllAddressed(es: seq<Envelope>, rows: seq<Message>, devices: map<nat, Device>): (r: seq<Envelope>)
    ensures |r| == |es| && forall i :: 0 <= i < |r| ==> r[i] == Addressed(es[i], rows, devices)
  {
    seq(|es|, i requires 0 <= i < |es| => Addressed(es[i], rows, devices))
  }

  /** The tables the migration leaves. */
  function Upgraded(db: Tables): Tables
  {
    var rows := Numbered(db.messages);
    var chats := WithCounters(db.chats, rows);
    db.(chats := chats, messages := rows, envelopes := AllAddressed(db.envelopes, db.messages, db.devices),
        positions := map[], migrated := map c | c in chats :: chats[c].lastSeq)
  }

  class Database {
    var chats: map<nat, Chat>
    var devices: map<nat, Device>
    var messages: seq<Message>
    var envelopes: seq<Envelope>

    constructor (db: Tables)
      ensures Holds(db)
    {
      chats, devices, messages, envelopes := db.chats, db.devices, db.messages, db.envelopes;
    }

    /** The rows are those of the tables `db`. */
    ghost predicate Holds(db: Tables)
      reads this
    {
      chats == db.chats && devices == db.devices && messages == db.messages && envelopes == db.envelopes
    }

    /** The statements of the upgrade that change rows. New columns start at zero or empty. */
    method Upgrade(ghost db: Tables)
      requires Holds(db)
      modifies this`chats, this`messages, this`envelopes
      ensures Holds(Upgraded(db))
    {
      hide RowNumber, Highest, Addressed;
      var rows: seq<Message> := [];
      for i := 0 to |messages|
        invariant rows == Numbered(messages)[..i]
      {
        rows := rows + [messages[i].(chatSeq := RowNumber(messages, messages[i]))];
      }
      var counted, left := chats, chats.Keys;
      while left != {}
        invariant left <= chats.Keys == counted.Keys
        invariant forall c :: c in chats ==>
          counted[c] == if c in left then chats[c] else chats[c].(lastSeq := Highest(rows, c))
        decreases |left|
      {
        var c :| c in left;
        counted := counted[c := counted[c].(lastSeq := Highest(rows, c))];
        left := left - {c};
      }
      var addressed: seq<Envelope> := [];
      for i := 0 to |envelopes|
        invariant addressed == AllAddressed(envelopes, messages, devices)[..i]
      {
        addressed := addressed + [Addressed(envelopes[i], messages, devices)];
      }
      assert rows == Numbered(messages) && addressed == AllAddressed(envelopes, messages, devices);
      assert counted == WithCounters(chats, rows);
      messages, chats, envelopes := rows, counted, addressed;
    }
  }

  // ---- what the numbering means ----

  ghost predicate Distinct(rows: seq<Message>)
  {
    forall m, n :: m in rows && n in rows && m.id == n.id ==> m == n
  }

  lemma FewerElements<T>(a: set<T>, b: set<T>, x: T)
    requires a <= b && x in b && x !in a
    ensures |a| < |b|
  {
    assert b == a + (b - a) && x in b - a;
  }

  /** Numbers follow time and identifier, in whatever order the rows are listed. */
  lemma NumbersFollowTime(rows: seq<Message>, m: Message, n: Message)
    requires Distinct(rows) && m in rows && n in rows && m.chat == n.chat
    ensures Older(m, n) <==> RowNumber(rows, m) < RowNumber(rows, n)
    ensures m == n <==> RowNumber(rows, m) == RowNumber(rows, n)
  {
    if Older(m, n) { FewerElements(Earlier(rows, m), Earlier(rows, n), m); }
    if Older(n, m) { FewerElements(Earlier(rows, n), Earlier(rows, m), n); }
  }

  ghost predicate IsLatest(s: set<Message>, p: Message)
  {
    p in s && forall x :: x in s ==> x == p || Older(x, p)
  }

  lemma {:induction false} LatestExists(s: set<Message>)
    requires s != {} && forall m, n :: m in s && n in s && m.id == n.id ==> m == n
    ensures exists p :: IsLatest(s, p)
    decreases |s|
  {
    var a :| a in s;
    if s == {a} {
      assert IsLatest(s, a);
    } else {
      LatestExists(s - {a});
      var p :| IsLatest(s - {a}, p);
      assert p in s && p.id != a.id;
      assert forall x :: x in s ==> x == a || x in s - {a};
      if Older(p, a) {
        assert IsLatest(s, a);
      } else {
        assert IsLatest(s, p);
      }
    }
  }

  /** Below any number that is taken every number is taken: the latest of the earlier rows has
      the number before. */
  lemma {:induction false} NoNumberSkipped(rows: seq<Message>, m: Message, k: nat)
    requires Distinct(rows) && m in rows && 1 <= k <= RowNumber(rows, m)
    ensures exists x :: x in rows && x.chat == m.chat && RowNumber(rows, x) == k
    decreases RowNumber(rows, m)
  {
    if k < RowNumber(rows, m) {
      LatestExists(Earlier(rows, m));
      var p :| IsLatest(Earlier(rows, m), p);
      assert Earlier(rows, m) == Earlier(rows, p) + {p};
      NoNumberSkipped(rows, p, k);
    }
  }

  lemma {:induction false} HighestIsMaximum(rows: seq<Message>, chat: nat)
    ensures forall m :: m in rows && m.chat == chat ==> m.chatSeq <= Highest(rows, chat)
    ensures Highest(rows, chat) == 0 || ChatHas(rows, chat, Highest(rows, chat))
  {
    if rows != [] {
      var n := |rows| - 1;
      HighestIsMaximum(rows[..n], chat);
      assert forall m :: m in rows ==> m in rows[..n] || m == rows[n];
      if Highest(rows, chat) > 0 {
        if Highest(rows, chat) == Highest(rows[..n], chat) {
          var m :| m in rows[..n] && m.chat == chat && m.chatSeq == Highest(rows[..n], chat);
          assert m in rows;
        } else {
          assert rows[n] in rows;
        }
      }
    }
  }

  lemma WasNumbered(rows: seq<Message>, m: Message) returns (o: Message)
    requires m in Numbered(rows)
    ensures o in rows && m == Renumbered(rows, o)
  {
    hide Renumbered;
    var i :| 0 <= i < |rows| && Numbered(rows)[i] == m;
    o := rows[i];
  }

  lemma IsNumbered(rows: seq<Message>, o: Message)
    requires o in rows
    ensures Renumbered(rows, o) in Numbered(rows)
  {
    hide Renumbered;
    var i :| 0 <= i < |rows| && rows[i] == o;
    assert Numbered(rows)[i] == Renumbered(rows, o);
  }

  /** However the rows are listed: afterwards the numbers of each chat are exactly 1, 2, ... up to
      its counter, each used once, the invariant every later commit keeps. */
  lemma BackfillEstablishesNumbering(db: Tables)
    requires Distinct(db.messages) && forall m :: m in db.messages ==> m.chat in db.chats
    ensures ChatsGapless(Upgraded(db))
  {
    hide Older, RowNumber, Highest, Distinct, Numbered, AllAddressed;
    var rows := Numbered(db.messages);
    forall m | m in rows ensures m.chat in db.chats && 1 <= m.chatSeq <= Highest(rows, m.chat) {
      var o := WasNumbered(db.messages, m);
      PositiveNumber(db.messages, o);
      HighestIsMaximum(rows, m.chat);
    }
    forall m, n | m in rows && n in rows && SamePlace(m, n) ensures m == n {
      var o := WasNumbered(db.messages, m);
      var p := WasNumbered(db.messages, n);
      NumbersFollowTime(db.messages, o, p);
    }
    forall c, k | c in db.chats && 1 <= k <= Highest(rows, c) ensures ChatHas(rows, c, k) {
      NumberTakenBelow(db.messages, c, k);
    }
  }

  lemma PositiveNumber(rows: seq<Message>, m: Message)
    ensures RowNumber(rows, m) >= 1
  {
  }

  lemma NumberTakenBelow(rows: seq<Message>, chat: nat, k: nat)
    requires Distinct(rows) && 1 <= k <= Highest(Numbered(rows), chat)
    ensures ChatHas(Numbered(rows), chat, k)
  {
    hide RowNumber, Highest, Distinct, Numbered;
    HighestIsMaximum(Numbered(rows), chat);
    var top :| top in Numbered(rows) && top.chat == chat && top.chatSeq == Highest(Numbered(rows), chat);
    var o := WasNumbered(rows, top);
    NoNumberSkipped(rows, o, k);
    var x :| x in rows && x.chat == o.chat && RowNumber(rows, x) == k;
    IsNumbered(rows, x);
  }

  /** So a number belongs to a message of the chat exactly when it lies between 1 and the counter,
      and to one message only, also in chats with one message or none. */
  lemma BackfillNumbersExactly(db: Tables, chat: nat, k: int)
    requires Distinct(db.messages) && (forall m :: m in db.messages ==> m.chat in db.chats) && chat in db.chats
    ensures ChatHas(Upgraded(db).messages, chat, k) <==> 1 <= k <= Upgraded(db).chats[chat].lastSeq
    ensures forall m, n :: m in Upgraded(db).messages && n in Upgraded(db).messages && SamePlace(m, n) ==> m == n
  {
    BackfillEstablishesNumbering(db);
    hide Older, RowNumber, Highest, Distinct, Numbered, AllAddressed;
  }

  /** In the upgraded table the numbers of a chat stand in the order of time and identifier. */
  lemma BackfillFollowsTime(db: Tables, m: Message, n: Message)
    requires Distinct(db.messages) && m in Upgraded(db).messages && n in Upgraded(db).messages && m.chat == n.chat
    ensures Older(m, n) <==> m.chatSeq < n.chatSeq
  {
    hide RowNumber, Highest, Distinct, Numbered, AllAddressed;
    var o := WasNumbered(db.messages, m);
    var p := WasNumbered(db.messages, n);
    NumbersFollowTime(db.messages, o, p);
  }

  // ---- the rest of the tables ----

  /** What the tables before the migration hold: unique identifiers and client ids, messages of
      members of their chat, gapless mailboxes, payloads as their check constraint has them. */
  ghost predicate OldTables(db: Tables, contents: map<nat, Bytes>)
  {
    && ClientIdsUnique(db.messages) && BoxesGapless(db) && EnvelopesKnown(db) && PayloadsKnown(db, contents)
    && AccountsKnown(db)
    && (forall m :: m in db.messages ==> m.chat in db.chats && db.chats[m.chat].HasMember(m.senderUser))
  }

  lemma UniqueIsDistinct(rows: seq<Message>)
    requires ClientIdsUnique(rows)
    ensures Distinct(rows)
  {
    forall m, n | m in rows && n in rows && m.id == n.id ensures m == n {
      var i :| 0 <= i < |rows| && rows[i] == m;
      var j :| 0 <= j < |rows| && rows[j] == n;
    }
  }

  lemma {:induction false} AddressedMailbox(a: seq<Envelope>, b: seq<Envelope>, device: nat)
    requires |a| == |b|
    requires forall i :: 0 <= i < |a| ==> b[i].device == a[i].device && b[i].mailboxSeq == a[i].mailboxSeq
    ensures |Mailbox(a, device)| == |Mailbox(b, device)|
    ensures forall i :: 0 <= i < |Mailbox(a, device)| ==>
      Mailbox(b, device)[i].mailboxSeq == Mailbox(a, device)[i].mailboxSeq
  {
    if a != [] {
      var n := |a| - 1;
      AddressedMailbox(a[..n], b[..n], device);
    }
  }

  lemma AddressedBoxes(db: Tables)
    requires BoxesGapless(db)
    ensures BoxesGapless(Upgraded(db))
  {
    hide Renumbered, WithCounters, Numbered;
    var rows := AllAddressed(db.envelopes, db.messages, db.devices);
    forall e | e in rows ensures e.device in db.mailboxes {
      var i :| 0 <= i < |rows| && rows[i] == e;
      assert db.envelopes[i] in db.envelopes;
    }
    forall d | d in db.mailboxes ensures NumberedRows(Mailbox(rows, d), db.mailboxes[d]) {
      AddressedMailbox(db.envelopes, rows, d);
      assert NumberedRows(Mailbox(db.envelopes, d), db.mailboxes[d]);
    }
  }

  lemma AddressedEnvelopes(db: Tables, contents: map<nat, Bytes>)
    requires EnvelopesKnown(db) && PayloadsKnown(db, contents)
    ensures EnvelopesKnown(Upgraded(db)) && PayloadsKnown(Upgraded(db), contents)
  {
    hide Renumbered, WithCounters;
    var rows := AllAddressed(db.envelopes, db.messages, db.devices);
    forall e | e in rows
      ensures e.message in Numbered(db.messages) && PayloadState(e) && RowContents(contents, e)
    {
      var i :| 0 <= i < |rows| && rows[i] == e;
      var before := db.envelopes[i];
      assert before in db.envelopes && PayloadState(before) && RowContents(contents, before);
      IsNumbered(db.messages, before.message);
    }
  }

  /** Every envelope's message got its number from the migration. */
  lemma AllBeforeNumbers(db: Tables)
    requires ChatsGapless(Upgraded(db)) && EnvelopesKnown(Upgraded(db))
    ensures MailboxesInChatOrder(Upgraded(db))
  {
    hide Numbered, WithCounters, AllAddressed;
    var after := Upgraded(db);
    forall d ensures InChatOrder(Mailbox(after.envelopes, d), after.migrated) {
      MailboxMembers(after.envelopes, d);
      var rows := Mailbox(after.envelopes, d);
      forall i | 0 <= i < |rows| ensures BeforeNumbers(after.migrated, rows[i].message) {
        assert rows[i] in rows;
        SeqBounded(after, rows[i].message);
      }
    }
  }

  lemma UpgradedRest(db: Tables, contents: map<nat, Bytes>)
    requires OldTables(db, contents)
    ensures ClientIdsUnique(Upgraded(db).messages) && AccountsKnown(Upgraded(db)) && PositionsBounded(Upgraded(db))
    ensures forall m :: m in Upgraded(db).messages ==>
      m.chat in Upgraded(db).chats && Upgraded(db).chats[m.chat].HasMember(m.senderUser)
  {
    hide RowNumber, Highest, EnvelopesKnown, PayloadsKnown, BoxesGapless, AllAddressed;
    forall m | m in Upgraded(db).messages ensures m.chat in db.chats && db.chats[m.chat].HasMember(m.senderUser) {
      var o := WasNumbered(db.messages, m);
    }
  }

  /** The migration leaves tables on which every later transaction may rely. */
  lemma UpgradeEstablishesTables(db: Tables, contents: map<nat, Bytes>)
    requires OldTables(db, contents)
    ensures TablesInv(Upgraded(db), contents)
  {
    hide ChatsGapless, BoxesGapless, MailboxesInChatOrder, EnvelopesKnown, PayloadsKnown, AccountsKnown,
         PositionsBounded, Upgraded;
    UniqueIsDistinct(db.messages);
    BackfillEstablishesNumbering(db);
    AddressedBoxes(db);
    AddressedEnvelopes(db, contents);
    AllBeforeNumbers(db);
    UpgradedRest(db, contents);
  }

  /** Messages sent before the migration may stand in a mailbox against the order of their chat: a
      row's time is when its transaction began, its place in a mailbox when it took the lock. */
  ghost predicate AgainstOrder(db: Tables, e: Envelope, f: Envelope)
  {
    && e in db.envelopes && f in db.envelopes && e.device == f.device && e.message.chat == f.message.chat
    && e.mailboxSeq < f.mailboxSeq && f.message.chatSeq < e.message.chatSeq
  }

  lemma OldOrderMayDiffer()
    ensures exists db, contents, e, f :: OldTables(db, contents) && AgainstOrder(Upgraded(db), e, f)
  {
    hide OldTables, Upgraded, AgainstOrder, EarlyTables;
    var m, n := Message(1, 1, 1, 10, 1, 0, 7), Message(2, 1, 1, 10, 2, 0, 5);
    EarlyTablesAreOld(m, n);
    EarlyNumbers(m, n);
    EarlyOrder(m, n, EarlyTables(m, n));
  }

  function EarlyEnvelope(k: nat, m: Message): Envelope
  {
    Envelope(k, m, 20, 2, k, Some([]), 7, 9, None, None)
  }

  function EarlyTables(m: Message, n: Message): Tables
  {
    Tables(map[1 := true, 2 := true], map[1 := Chat(1, 2, 0)],
           map[10 := Device(1, false), 20 := Device(2, false)], map[10 := 0, 20 := 2],
           [m, n], [EarlyEnvelope(1, m), EarlyEnvelope(2, n)], map[], map[])
  }

  lemma EarlyTablesAreOld(m: Message, n: Message)
    requires m.chat == n.chat == 1 && m.senderUser == n.senderUser == 1 && m.id != n.id && m.clientId != n.clientId
    ensures OldTables(EarlyTables(m, n), map[1 := [], 2 := []])
  {
    hide BoxesGapless, EnvelopesKnown, PayloadsKnown, AccountsKnown;
    EarlyBoxes(m, n);
    EarlyRows(m, n);
    EarlyAccounts(m, n);
  }

  lemma EarlyAccounts(m: Message, n: Message)
    ensures AccountsKnown(EarlyTables(m, n))
  {
  }

  lemma EarlyRows(m: Message, n: Message)
    ensures EnvelopesKnown(EarlyTables(m, n)) && PayloadsKnown(EarlyTables(m, n), map[1 := [], 2 := []])
  {
  }

  lemma EarlyBoxes(m: Message, n: Message)
    ensures BoxesGapless(EarlyTables(m, n))
  {
    var e, f := EarlyEnvelope(1, m), EarlyEnvelope(2, n);
    MailboxConcat([e], [f], 20);
    NoMailbox([e, f], 10);
    assert [e] + [f] == [e, f] && [e][..0] == [] && [f][..0] == [];
    EarlyTwo(EarlyTables(m, n), e, f);
  }

  lemma EarlyTwo(db: Tables, e: Envelope, f: Envelope)
    requires db.mailboxes == map[10 := 0, 20 := 2] && db.envelopes == [e, f] && e.device == f.device == 20
    requires e.mailboxSeq == 1 && f.mailboxSeq == 2
    requires Mailbox([e, f], 20) == [e, f] && Mailbox([e, f], 10) == []
    ensures BoxesGapless(db)
  {
    hide Mailbox;
  }

  lemma EarlyNumbers(m: Message, n: Message)
    requires m.chat == n.chat && Older(n, m)
    ensures RowNumber([m, n], n) == 1 && RowNumber([m, n], m) == 2
  {
    assert Earlier([m, n], n) == {} && Earlier([m, n], m) == {n};
  }

  lemma EarlyOrder(m: Message, n: Message, db: Tables)
    requires db == EarlyTables(m, n) && m.chat == n.chat && RowNumber([m, n], n) == 1 && RowNumber([m, n], m) == 2
    ensures exists e, f :: AgainstOrder(Upgraded(db), e, f)
  {
    hide RowNumber, WithCounters;
    var rows := Upgraded(db).envelopes;
    assert rows[0] == Addressed(EarlyEnvelope(1, m), [m, n], db.devices);
    assert rows[1] == Addressed(EarlyEnvelope(2, n), [m, n], db.devices);
    assert AgainstOrder(Upgraded(db), rows[0], rows[1]);
  }
}
