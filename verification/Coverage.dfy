/** Loading sent metadata first and read positions second: although every page is answered from a
    later state of the server and the peer goes on reading, no own message is missed. */
module Coverage {
  import opened Common
  import opened MessageTables
  import opened ServerTransactions
  import opened ServerInvariants
  import opened ServerTheorems
  import opened Backfill
  import opened ReadStates

  // ---- the two page queries ----

  /** Another member has read the message. */
  predicate PeerHasRead(db: Tables, user: nat, m: Message)
  {
    exists k :: k in db.positions && k.0 == m.chat && k.1 != user && db.positions[k] >= m.chatSeq
  }

  predicate IsMember(db: Tables, chat: nat, user: nat)
  {
    chat in db.chats && db.chats[chat].HasMember(user)
  }

  predicate SentUnread(db: Tables, user: nat, after: Option<nat>, m: Message)
  {
    && m.senderUser == user && IsMember(db, m.chat, user) && !PeerHasRead(db, user, m)
    && (after.Some? ==> m.id > after.value)
  }

  function SentIds(db: Tables, user: nat, after: Option<nat>): set<nat>
  {
    set m | m in db.messages && SentUnread(db, user, after, m) :: m.id
  }

  function ChatIds(db: Tables, user: nat, after: Option<nat>): set<nat>
  {
    set c | c in db.chats && IsMember(db, c, user) && (after.Some? ==> c > after.value)
  }

  datatype Page = Page(ids: seq<nat>, next: Option<nat>, hasMore: bool)

  /** The first `limit` identifiers in order; one more is read to learn whether there is more. */
  function PageOf(ids: set<nat>, after: Option<nat>, limit: nat): (page: Page)
    requires limit >= 1 && forall x :: x in ids ==> after.Some? ==> x > after.value
    ensures forall x :: x in page.ids ==> x in ids
    ensures page.hasMore ==> page.next.Some? && page.next != after
    ensures forall x :: x in ids && (page.hasMore ==> x <= page.next.value) ==> x in page.ids
    ensures page.hasMore ==> forall x :: x in page.ids ==> x <= page.next.value
  {
    var rows := Ascending(ids);
    var selected := if |rows| > limit then rows[..limit] else rows;
    if |rows| > limit then PrefixFacts(rows, limit); Page(selected, Some(selected[limit - 1]), true)
    else Page(selected, if selected == [] then after else Some(selected[|selected| - 1]), false)
  }

  lemma PrefixFacts(rows: seq<nat>, n: nat)
    requires 1 <= n <= |rows| && forall i, j :: 0 <= i < j < |rows| ==> rows[i] < rows[j]
    ensures forall x :: x in rows[..n] ==> x in rows && x <= rows[n - 1]
    ensures forall x :: x in rows && x <= rows[n - 1] ==> x in rows[..n]
    ensures rows[..n][n - 1] == rows[n - 1] && rows[n - 1] in rows
  {
    forall x | x in rows && x <= rows[n - 1] ensures x in rows[..n] {
      var i :| 0 <= i < |rows| && rows[i] == x;
      assert i < n && rows[..n][i] == x;
    }
  }

  // ---- how the server moves on between pages ----

  /** Messages, chats and members stay, and stored positions never go back. */
  ghost predicate Later(a: Tables, b: Tables)
  {
    && a.messages <= b.messages
    && (forall c :: c in a.chats ==> c in b.chats && SameMembers(a.chats[c], b.chats[c]))
    && (forall k :: k in a.positions ==> k in b.positions && a.positions[k] <= b.positions[k])
  }

  predicate SameMembers(a: Chat, b: Chat)
  {
    a.low == b.low && a.high == b.high
  }

  ghost predicate AllLater(states: seq<Tables>)
  {
    forall i, j :: 0 <= i <= j < |states| ==> Later(states[i], states[j])
  }

  lemma StepIsLater(s: Server, l: Label)
    requires Inv(s)
    ensures Later(s.db, Apply(s, l).db)
  {
    hide Inv, Apply;
    StepGrows(s, l);
    StepKeepsChats(s, l);
    forall k | k in s.db.positions
      ensures k in Apply(s, l).db.positions && s.db.positions[k] <= Apply(s, l).db.positions[k]
    {
      PositionsStep(s, l, k);
    }
  }

  lemma StepKeepsChats(s: Server, l: Label)
    ensures forall c :: c in s.db.chats ==>
      c in Apply(s, l).db.chats && SameMembers(s.db.chats[c], Apply(s, l).db.chats[c])
  {
    hide BeginStep, LockStep, ReadStep, CommitSend;
    if Sends(s, l) {
      CommitKeepsChats(s, l.t, l.messageId, l.envelopeIds, l.now);
    } else if !l.Acknowledge? && !l.Purge? {
      OtherStepsKeepRows(s, l);
    }
  }

  /** A send's commit leaves the tables alone or inserts one message with its rows. */
  lemma SendTables(s: Server, t: nat, messageId: nat, ids: map<nat, nat>, now: int)
    requires t in s.txs && s.txs[t].call.Send?
    ensures var after := CommitSend(s, t, messageId, ids, now);
      && (after.txs == s.txs || after.txs == s.txs - {t})
      && (after.db == s.db ||
           (ReadyToSend(s.txs[t]) && s.txs[t].call.request.chat in s.db.chats
            && exists rows :: after.db == Inserted(s.db, s.txs[t], NewMessage(s.txs[t], messageId, now), rows)))
  {
    hide FindByClient, NumberTaken, NewEnvelopes, FreshIds, ReadyToSend, Record, Inserted;
  }

  lemma InsertedKeeps(db: Tables, tx: Tx, m: Message, rows: seq<Envelope>)
    requires ReadyToSend(tx) && m.chat in db.chats
    ensures var after := Inserted(db, tx, m, rows);
      && after.positions == db.positions
      && forall c :: c in db.chats ==> c in after.chats && SameMembers(db.chats[c], after.chats[c])
  {
  }

  lemma CommitKeepsChats(s: Server, t: nat, messageId: nat, ids: map<nat, nat>, now: int)
    requires t in s.txs && s.txs[t].call.Send?
    ensures var after := CommitSend(s, t, messageId, ids, now);
      && after.db.positions == s.db.positions
      && forall c :: c in s.db.chats ==> c in after.db.chats && SameMembers(s.db.chats[c], after.db.chats[c])
  {
    hide CommitSend, Inserted, ReadyToSend;
    SendTables(s, t, messageId, ids, now);
    var after := CommitSend(s, t, messageId, ids, now);
    if after.db != s.db {
      var tx, m := s.txs[t], NewMessage(s.txs[t], messageId, now);
      var rows :| after.db == Inserted(s.db, tx, m, rows);
      InsertedKeeps(s.db, tx, m, rows);
    }
  }

  lemma LaterThen(a: Tables, b: Tables, c: Tables)
    requires Later(a, b) && Later(b, c)
    ensures Later(a, c)
  {
  }

  /** Any later state of a run is later in this sense. */
  lemma {:induction false} RunIsLater(s: Server, labels: seq<Label>)
    requires Inv(s)
    ensures Later(s.db, Run(s, labels).db)
  {
    hide Inv, Apply;
    if labels != [] {
      var n := |labels| - 1;
      RunIsLater(s, labels[..n]);
      RunKeeps(s, labels[..n]);
      StepIsLater(Run(s, labels[..n]), labels[n]);
      LaterThen(s.db, Run(s, labels[..n]).db, Run(s, labels).db);
    }
  }

  lemma MemberStays(a: Tables, b: Tables, chat: nat, user: nat)
    requires Later(a, b) && IsMember(a, chat, user)
    ensures IsMember(b, chat, user)
  {
  }

  /** A message is only ever sent by a member of its chat. */
  ghost predicate SendersBelong(db: Tables)
  {
    forall m :: m in db.messages ==> IsMember(db, m.chat, m.senderUser)
  }

  /** Only members have stored read positions. */
  ghost predicate ReadersBelong(db: Tables)
  {
    forall k :: k in db.positions ==> IsMember(db, k.0, k.1)
  }

  /** A read advance is only open for a member. */
  ghost predicate AdvancesBelong(s: Server)
  {
    forall t :: t in s.txs && s.txs[t].call.AdvanceRead? ==> IsMember(s.db, s.txs[t].call.chat, s.txs[t].call.user)
  }

  lemma NewSenderBelongs(s: Server, l: Label, m: Message)
    requires Inv(s) && m in Apply(s, l).db.messages && m !in s.db.messages
    ensures IsMember(s.db, m.chat, m.senderUser)
  {
    hide BeginStep, LockStep, ReadStep, CommitSend, NewEnvelopes, SendRows, TablesInv, Exclusion, Shape;
    if Sends(s, l) {
      assert ReadsCurrent(s.db, s.txs[l.t]);
      hide ReadsCurrent, Inv;
      CommitSendGrows(s, l.t, l.messageId, l.envelopeIds, l.now);
    } else if !l.Acknowledge? && !l.Purge? {
      OtherStepsKeepRows(s, l);
    }
  }

  lemma NewReaderBelongs(s: Server, l: Label, k: (nat, nat))
    requires AdvancesBelong(s) && k in Apply(s, l).db.positions && k !in s.db.positions
    ensures IsMember(s.db, k.0, k.1)
  {
    hide BeginStep, LockStep, ReadStep, CommitSend, CommitRead, CommitLogin, CommitRevoke, IsMember;
    match l
    case Begin(t, call) => BeginKeepsTables(s, t, call);
    case TakeLock(t) => LockKeepsTables(s, t);
    case Read(t) => ReadKeepsTables(s, t);
    case Commit(t, messageId, ids, now) =>
      if t in s.txs {
        match s.txs[t].call
        case Send(_) => CommitKeepsChats(s, t, messageId, ids, now);
        case AdvanceRead(user, chat, position) => ReadPositions(s, t, user, chat, position);
        case Login(user, device) => LoginPositions(s, t, user, device);
        case Revoke(user, device) => RevokePositions(s, t, user, device);
      }
    case _ =>
  }

  lemma ReadPositions(s: Server, t: nat, user: nat, chat: nat, position: int)
    requires t in s.txs
    ensures forall k :: k in CommitRead(s, t, user, chat, position).db.positions ==>
      k in s.db.positions || k == (chat, user)
    ensures CommitRead(s, t, user, chat, position).txs == s.txs
      || CommitRead(s, t, user, chat, position).txs == s.txs - {t}
  {
    hide PositionExists;
  }

  lemma LoginPositions(s: Server, t: nat, user: nat, device: nat)
    requires t in s.txs
    ensures CommitLogin(s, t, user, device).db.positions == s.db.positions
    ensures CommitLogin(s, t, user, device).txs == s.txs - {t}
  {
  }

  lemma RevokePositions(s: Server, t: nat, user: nat, device: nat)
    requires t in s.txs
    ensures CommitRevoke(s, t, user, device).db.positions == s.db.positions
    ensures CommitRevoke(s, t, user, device).txs == s.txs - {t}
  {
  }

  predicate SameCall(s: Server, after: Server, t: nat)
    requires t in after.txs
  {
    t in s.txs && s.txs[t].call == after.txs[t].call
  }

  /** Open transactions keep their call; a new read advance has been checked. */
  lemma OpenCalls(s: Server, l: Label, t: nat)
    requires t in Apply(s, l).txs && Apply(s, l).txs[t].call.AdvanceRead?
    ensures SameCall(s, Apply(s, l), t) || IsMember(s.db, Apply(s, l).txs[t].call.chat, Apply(s, l).txs[t].call.user)
  {
    hide BeginStep, LockStep, ReadStep, CommitSend, CommitRead, CommitLogin, CommitRevoke, IsMember;
    match l
    case Begin(o, call) => BeginCall(s, o, call, t);
    case TakeLock(o) => LockCall(s, o, t);
    case Read(o) => ReadCall(s, o, t);
    case Commit(o, messageId, ids, now) =>
      if o in s.txs {
        match s.txs[o].call
        case Send(_) => SendTables(s, o, messageId, ids, now);
        case AdvanceRead(user, chat, position) => ReadPositions(s, o, user, chat, position);
        case Login(user, device) => LoginPositions(s, o, user, device);
        case Revoke(user, device) => RevokePositions(s, o, user, device);
      }
    case _ =>
  }

  lemma BeginCall(s: Server, o: nat, call: Call, t: nat)
    requires t in BeginStep(s, o, call).txs && BeginStep(s, o, call).txs[t].call.AdvanceRead?
    ensures var after := BeginStep(s, o, call);
      SameCall(s, after, t) || IsMember(s.db, after.txs[t].call.chat, after.txs[t].call.user)
  {
    hide FindByClient, ValidateEnvelopes;
  }

  lemma LockCall(s: Server, o: nat, t: nat)
    requires t in LockStep(s, o).txs
    ensures SameCall(s, LockStep(s, o), t)
  {
    hide Wanted, Free;
  }

  lemma ReadCall(s: Server, o: nat, t: nat)
    requires t in ReadStep(s, o).txs
    ensures SameCall(s, ReadStep(s, o), t)
  {
    hide FindByClient, ActiveDevices;
  }

  lemma StepKeepsMembers(s: Server, l: Label)
    requires Inv(s) && SendersBelong(s.db) && ReadersBelong(s.db) && AdvancesBelong(s)
    ensures SendersBelong(Apply(s, l).db) && ReadersBelong(Apply(s, l).db) && AdvancesBelong(Apply(s, l))
  {
    StepIsLater(s, l);
    hide Inv, Apply, IsMember, Later;
    var after := Apply(s, l);
    forall m | m in after.db.messages ensures IsMember(after.db, m.chat, m.senderUser) {
      if m !in s.db.messages { NewSenderBelongs(s, l, m); }
      MemberStays(s.db, after.db, m.chat, m.senderUser);
    }
    forall k | k in after.db.positions ensures IsMember(after.db, k.0, k.1) {
      if k !in s.db.positions { NewReaderBelongs(s, l, k); }
      MemberStays(s.db, after.db, k.0, k.1);
    }
    forall t | t in after.txs && after.txs[t].call.AdvanceRead?
      ensures IsMember(after.db, after.txs[t].call.chat, after.txs[t].call.user)
    {
      OpenCalls(s, l, t);
      MemberStays(s.db, after.db, after.txs[t].call.chat, after.txs[t].call.user);
    }
  }

  lemma StartMembers(s: Server)
    requires Start(s)
    ensures SendersBelong(s.db) && ReadersBelong(s.db) && AdvancesBelong(s)
  {
    hide OldTables, Numbered, AllAddressed, WithCounters;
    var earlier :| OldTables(earlier, s.contents) && s.db == Upgraded(earlier);
    UpgradedRest(earlier, s.contents);
  }

  lemma {:induction false} RunKeepsMembers(s0: Server, labels: seq<Label>)
    requires Start(s0)
    ensures var s := Run(s0, labels); Inv(s) && SendersBelong(s.db) && ReadersBelong(s.db) && AdvancesBelong(s)
  {
    StartInv(s0);
    StartMembers(s0);
    RunKeeps(s0, labels);
    hide Inv, Apply, Start;
    if labels != [] {
      hide SendersBelong, ReadersBelong, AdvancesBelong;
      RunKeepsMembers(s0, labels[..|labels| - 1]);
      StepKeepsMembers(Run(s0, labels[..|labels| - 1]), labels[|labels| - 1]);
    }
  }

  lemma {:induction false} RunConcat(s: Server, a: seq<Label>, b: seq<Label>)
    ensures Run(s, a + b) == Run(Run(s, a), b)
  {
    hide Apply;
    if b == [] {
      assert a + b == a;
    } else {
      RunConcat(s, a, b[..|b| - 1]);
      assert (a + b)[..|a + b| - 1] == a + b[..|b| - 1];
    }
  }

  /** The states a client meets at successive times of one run are what the loading below asks for. */
  lemma StatesOfARun(s0: Server, labels: seq<Label>, times: seq<nat>, states: seq<Tables>)
    requires Start(s0) && |states| == |times|
    requires forall i :: 0 <= i < |times| ==> times[i] <= |labels| && states[i] == Run(s0, labels[..times[i]]).db
    requires forall i, j :: 0 <= i <= j < |times| ==> times[i] <= times[j]
    ensures AllLater(states) && forall i :: 0 <= i < |states| ==> SendersBelong(states[i]) && ReadersBelong(states[i])
  {
    hide Inv, Run, Later, SendersBelong, ReadersBelong, AdvancesBelong;
    forall i, j | 0 <= i <= j < |states| ensures Later(states[i], states[j]) {
      var a, b := labels[..times[i]], labels[times[i]..times[j]];
      assert labels[..times[j]] == a + b;
      RunConcat(s0, a, b);
      RunKeepsMembers(s0, a);
      RunIsLater(Run(s0, a), b);
    }
    forall i | 0 <= i < |states| ensures SendersBelong(states[i]) && ReadersBelong(states[i]) {
      RunKeepsMembers(s0, labels[..times[i]]);
    }
  }

  // ---- the two loops ----

  /** Every own message of `start` with an identifier up to `after` is merged, or another member
      had read it by the state `db`. */
  ghost predicate MetadataUpTo(start: Tables, db: Tables, user: nat, merged: set<nat>, after: Option<nat>,
                               complete: bool)
  {
    forall m :: m in start.messages && m.senderUser == user && (complete || (after.Some? && m.id <= after.value)) ==>
      m.id in merged || PeerHasRead(db, user, m)
  }

  lemma ReadStays(a: Tables, b: Tables, user: nat, m: Message)
    requires Later(a, b) && PeerHasRead(a, user, m)
    ensures PeerHasRead(b, user, m)
  {
  }

  lemma MetadataPage(start: Tables, before: Tables, db: Tables, user: nat, merged: set<nat>, after: Option<nat>,
                     limit: nat)
    requires limit >= 1 && Later(start, db) && Later(before, db) && SendersBelong(start)
    requires MetadataUpTo(start, before, user, merged, after, false)
    ensures var page := PageOf(SentIds(db, user, after), after, limit);
      MetadataUpTo(start, db, user, merged + (set x | x in page.ids), page.next, !page.hasMore)
  {
    hide PageOf, PeerHasRead;
    var page := PageOf(SentIds(db, user, after), after, limit);
    forall m | m in start.messages && m.senderUser == user
      && (!page.hasMore || (page.next.Some? && m.id <= page.next.value))
      ensures m.id in merged + (set x | x in page.ids) || PeerHasRead(db, user, m)
    {
      MemberStays(start, db, m.chat, user);
      if after.Some? && m.id <= after.value {
        if m.id !in merged { ReadStays(before, db, user, m); }
      } else if !PeerHasRead(db, user, m) {
        assert SentUnread(db, user, after, m) && m.id in SentIds(db, user, after);
      }
    }
  }

  /** recoverSentMetadata: page `i` is answered from `states[i]`. None when the pages run out. */
  method RecoverSentMetadata(start: Tables, states: seq<Tables>, user: nat, limit: nat)
    returns (r: Option<set<nat>>, used: nat)
    requires limit >= 1 && AllLater([start] + states) && SendersBelong(start)
    ensures used <= |states|
    ensures r.Some? ==> 1 <= used && MetadataUpTo(start, states[used - 1], user, r.value, None, true)
  {
    hide Later, MetadataUpTo, PageOf, SentIds, SendersBelong;
    var merged: set<nat>, after: Option<nat> := {}, None;
    used := 0;
    NothingUpTo(start, user);
    ghost var before := start;
    while used < |states|
      invariant used <= |states| && before == ([start] + states)[used]
      invariant MetadataUpTo(start, before, user, merged, after, false)
    {
      assert Later(([start] + states)[0], ([start] + states)[used + 1]);
      assert Later(([start] + states)[used], ([start] + states)[used + 1]);
      PageAfter(states[used], user, after);
      MetadataPage(start, before, states[used], user, merged, after, limit);
      var page := PageOf(SentIds(states[used], user, after), after, limit);
      merged := merged + (set x | x in page.ids);
      before := states[used];
      used := used + 1;
      if !page.hasMore {
        CompleteUpTo(start, before, user, merged, page.next);
        return Some(merged), used;
      }
      after := page.next;
    }
    return None, used;
  }

  lemma PageAfter(db: Tables, user: nat, after: Option<nat>)
    ensures forall x :: x in SentIds(db, user, after) ==> after.Some? ==> x > after.value
    ensures forall x :: x in ChatIds(db, user, after) ==> after.Some? ==> x > after.value
  {
  }

  lemma NothingUpTo(start: Tables, user: nat)
    ensures MetadataUpTo(start, start, user, {}, None, false)
  {
  }

  lemma CompleteUpTo(start: Tables, db: Tables, user: nat, merged: set<nat>, after: Option<nat>)
    requires MetadataUpTo(start, db, user, merged, after, true)
    ensures MetadataUpTo(start, db, user, merged, None, true)
  {
  }

  // ---- read positions ----

  function HeldPeer(held: map<nat, ReadState>, chat: nat): nat
  {
    if chat in held then held[chat].peer else 0
  }

  /** The cursors a page lists for a chat: each member's stored position, or zero. */
  function CursorsOf(db: Tables, chat: nat): seq<ReadCursor>
    requires chat in db.chats
  {
    var c := db.chats[chat];
    [ReadCursor(chat, c.low, if (chat, c.low) in db.positions then db.positions[(chat, c.low)] else 0),
     ReadCursor(chat, c.high, if (chat, c.high) in db.positions then db.positions[(chat, c.high)] else 0)]
  }

  function MergeCursor(held: map<nat, ReadState>, user: nat, c: ReadCursor): map<nat, ReadState>
  {
    held[c.chat := Join(if c.chat in held then held[c.chat] else NOTHING_READ, FromCursor(user, c))]
  }

  /** For every chat up to `after` the held peer position has reached what `db` had stored. */
  ghost predicate ReadsUpTo(db: Tables, user: nat, held: map<nat, ReadState>, after: Option<nat>, complete: bool)
  {
    forall k :: k in db.positions && k.1 != user && IsMember(db, k.0, user) && IsMember(db, k.0, k.1)
                && (complete || (after.Some? && k.0 <= after.value)) ==>
      HeldPeer(held, k.0) >= db.positions[k]
  }

  lemma MergeRaises(held: map<nat, ReadState>, user: nat, c: ReadCursor)
    ensures forall chat :: HeldPeer(MergeCursor(held, user, c), chat) >= HeldPeer(held, chat)
    ensures c.user != user ==> HeldPeer(MergeCursor(held, user, c), c.chat) >= c.position
  {
  }

  /** Merging one chat of a page. */
  method MergeChat(db: Tables, user: nat, chat: nat, held: map<nat, ReadState>) returns (after: map<nat, ReadState>)
    requires chat in db.chats
    ensures forall c :: HeldPeer(after, c) >= HeldPeer(held, c)
    ensures forall k :: k in db.positions && k.0 == chat && k.1 != user && IsMember(db, chat, k.1) ==>
      HeldPeer(after, chat) >= db.positions[k]
  {
    hide MergeCursor, HeldPeer;
    after := held;
    var cursors := CursorsOf(db, chat);
    for i := 0 to |cursors|
      invariant forall c :: HeldPeer(after, c) >= HeldPeer(held, c)
      invariant forall j :: 0 <= j < i && cursors[j].user != user ==> HeldPeer(after, chat) >= cursors[j].position
    {
      MergeRaises(after, user, cursors[i]);
      after := MergeCursor(after, user, cursors[i]);
    }
    assert cursors[0].user == db.chats[chat].low && cursors[1].user == db.chats[chat].high;
  }

  /** Synchronizing read positions: page `i` is answered from `states[i]`; `start` is an earlier state. */
  method SynchronizeReads(start: Tables, states: seq<Tables>, user: nat, limit: nat, held: map<nat, ReadState>)
    returns (r: Option<map<nat, ReadState>>)
    requires limit >= 1 && AllLater([start] + states)
    ensures r.Some? ==> ReadsUpTo(start, user, r.value, None, true)
  {
    hide Later, PageOf, ChatIds, ReadsUpTo;
    var now, after: Option<nat> := held, None;
    var used := 0;
    NoReadsUpTo(start, user, held);
    while used < |states|
      invariant used <= |states| && ReadsUpTo(start, user, now, after, false)
    {
      assert Later(([start] + states)[0], ([start] + states)[used + 1]);
      PageAfter(states[used], user, after);
      var page := PageOf(ChatIds(states[used], user, after), after, limit);
      ChatsExist(states[used], user, after, page);
      var earlier := now;
      for i := 0 to |page.ids|
        invariant forall c :: HeldPeer(now, c) >= HeldPeer(earlier, c)
        invariant forall j :: 0 <= j < i ==> PeerHeld(states[used], user, now, page.ids[j])
      {
        var merged := MergeChat(states[used], user, page.ids[i], now);
        forall j | 0 <= j < i ensures PeerHeld(states[used], user, merged, page.ids[j]) {
          HeldStays(states[used], user, now, merged, page.ids[j]);
        }
        assert PeerHeld(states[used], user, merged, page.ids[i]);
        now := merged;
      }
      ReadsPage(start, states[used], user, earlier, now, after, limit);
      used := used + 1;
      if !page.hasMore {
        ReadsComplete(start, user, now, page.next);
        return Some(now);
      }
      after := page.next;
    }
    return None;
  }

  lemma NoReadsUpTo(db: Tables, user: nat, held: map<nat, ReadState>)
    ensures ReadsUpTo(db, user, held, None, false)
  {
  }

  lemma ReadsComplete(db: Tables, user: nat, held: map<nat, ReadState>, after: Option<nat>)
    requires ReadsUpTo(db, user, held, after, true)
    ensures ReadsUpTo(db, user, held, None, true)
  {
  }

  lemma ChatsExist(db: Tables, user: nat, after: Option<nat>, page: Page)
    requires forall x :: x in page.ids ==> x in ChatIds(db, user, after)
    ensures forall i :: 0 <= i < |page.ids| ==> page.ids[i] in db.chats
  {
    forall i | 0 <= i < |page.ids| ensures page.ids[i] in db.chats { assert page.ids[i] in page.ids; }
  }

  ghost predicate PeerHeld(db: Tables, user: nat, held: map<nat, ReadState>, chat: nat)
  {
    forall k :: k in db.positions && k.0 == chat && k.1 != user && IsMember(db, chat, k.1) ==>
      HeldPeer(held, chat) >= db.positions[k]
  }

  lemma HeldStays(db: Tables, user: nat, held: map<nat, ReadState>, after: map<nat, ReadState>, chat: nat)
    requires PeerHeld(db, user, held, chat) && forall c :: HeldPeer(after, c) >= HeldPeer(held, c)
    ensures PeerHeld(db, user, after, chat)
  {
  }

  lemma ReadsPage(start: Tables, db: Tables, user: nat, held: map<nat, ReadState>, now: map<nat, ReadState>,
                  after: Option<nat>, limit: nat)
    requires limit >= 1 && Later(start, db) && ReadsUpTo(start, user, held, after, false)
    requires forall c :: HeldPeer(now, c) >= HeldPeer(held, c)
    requires var page := PageOf(ChatIds(db, user, after), after, limit);
      forall i :: 0 <= i < |page.ids| ==> PeerHeld(db, user, now, page.ids[i])
    ensures var page := PageOf(ChatIds(db, user, after), after, limit);
      ReadsUpTo(start, user, now, page.next, !page.hasMore)
  {
    hide PageOf, HeldPeer;
    var page := PageOf(ChatIds(db, user, after), after, limit);
    forall k | k in start.positions && k.1 != user && IsMember(start, k.0, user) && IsMember(start, k.0, k.1)
               && (!page.hasMore || (page.next.Some? && k.0 <= page.next.value))
      ensures HeldPeer(now, k.0) >= start.positions[k]
    {
      MemberStays(start, db, k.0, user);
      MemberStays(start, db, k.0, k.1);
      if !(after.Some? && k.0 <= after.value) {
        assert k.0 in ChatIds(db, user, after) && k.0 in page.ids;
        assert PeerHeld(db, user, now, k.0);
      }
    }
  }

  /** After a successful load every own message that existed when it began was merged as sent
      metadata, or its chat number is at most the peer position now held for its chat. */
  method LoadMailbox(start: Tables, metadataStates: seq<Tables>, readStates: seq<Tables>, user: nat, limit: nat,
                     held: map<nat, ReadState>)
    returns (r: Option<(set<nat>, map<nat, ReadState>)>)
    requires limit >= 1 && AllLater([start] + metadataStates + readStates) && SendersBelong(start)
    requires forall i :: 0 <= i < |metadataStates| ==> ReadersBelong(metadataStates[i])
    ensures r.Some? ==>
      forall m :: m in start.messages && m.senderUser == user ==>
        m.id in r.value.0 || m.chatSeq <= HeldPeer(r.value.1, m.chat)
  {
    var all := [start] + metadataStates + readStates;
    assert AllLater([start] + metadataStates) by { LaterPart(all, 0, 1 + |metadataStates|, [start] + metadataStates); }
    var merged, used := RecoverSentMetadata(start, metadataStates, user, limit);
    if merged.None? { return None; }
    var mid := metadataStates[used - 1];
    assert AllLater([mid] + readStates) by { LaterTail(all, used, 1 + |metadataStates|, [mid] + readStates); }
    var states := SynchronizeReads(mid, readStates, user, limit, held);
    if states.None? { return None; }
    assert Later(start, mid) by { assert all[0] == start && all[used] == mid; }
    Covered(start, mid, user, merged.value, states.value);
    return Some((merged.value, states.value));
  }

  lemma LaterPart(all: seq<Tables>, a: nat, b: nat, part: seq<Tables>)
    requires AllLater(all) && a <= b <= |all| && part == all[a..b]
    ensures AllLater(part)
  {
    hide Later;
  }

  lemma LaterTail(all: seq<Tables>, i: nat, j: nat, part: seq<Tables>)
    requires AllLater(all) && i < j <= |all| && part == [all[i]] + all[j..]
    ensures AllLater(part)
  {
    hide Later;
    LaterSelf(all[i]);
  }

  lemma LaterSelf(db: Tables)
    ensures Later(db, db)
  {
  }

  lemma Covered(start: Tables, mid: Tables, user: nat, merged: set<nat>, held: map<nat, ReadState>)
    requires MetadataUpTo(start, mid, user, merged, None, true) && ReadsUpTo(mid, user, held, None, true)
    requires Later(start, mid) && SendersBelong(start) && ReadersBelong(mid)
    ensures forall m :: m in start.messages && m.senderUser == user ==>
      m.id in merged || m.chatSeq <= HeldPeer(held, m.chat)
  {
    forall m | m in start.messages && m.senderUser == user && m.id !in merged
      ensures m.chatSeq <= HeldPeer(held, m.chat)
    {
      MemberStays(start, mid, m.chat, user);
      var k :| k in mid.positions && k.0 == m.chat && k.1 != user && mid.positions[k] >= m.chatSeq;
      assert HeldPeer(held, k.0) >= mid.positions[k];
    }
  }
}
