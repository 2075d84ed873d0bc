/** What every run of the server promises: exact numbering, one order for a chat in every
    mailbox, idempotent sends, complete routing, and payloads that only a receipt or expiry erases. */
module ServerTheorems {
  import opened Common
  import opened Base64
  import opened MessageTables
  import opened ServerTransactions
  import opened ServerInvariants
  import opened Backfill

  /** A server as the migration leaves it, over any users, chats, devices and earlier messages. */
  ghost predicate Start(s: Server)
  {
    && s.txs == map[] && s.calls == map[] && s.outcomes == map[]
    && exists earlier :: OldTables(earlier, s.contents) && s.db == Upgraded(earlier)
  }

  lemma StartInv(s: Server)
    requires Start(s)
    ensures Inv(s)
  {
    hide OldTables, Upgraded, TablesInv;
    var earlier :| OldTables(earlier, s.contents) && s.db == Upgraded(earlier);
    UpgradeEstablishesTables(earlier, s.contents);
  }

  /** A new installation, which has no messages to number, is such a server. */
  lemma NewInstallationStarts(s: Server)
    requires s.txs == map[] && s.calls == map[] && s.outcomes == map[] && s.contents == map[]
    requires s.db.messages == [] && s.db.envelopes == [] && s.db.positions == map[] && AccountsKnown(s.db)
    requires forall d :: d in s.db.mailboxes ==> s.db.mailboxes[d] == 0
    requires forall c :: c in s.db.chats ==> s.db.chats[c].lastSeq == 0
    requires s.db.migrated == map c | c in s.db.chats :: 0
    ensures Start(s)
  {
    forall d ensures Mailbox(s.db.envelopes, d) == [] {}
    assert OldTables(s.db, s.contents);
    assert WithCounters(s.db.chats, []) == s.db.chats;
    assert Upgraded(s.db) == s.db;
  }

  ghost predicate Reachable(s: Server)
  {
    exists s0, labels :: Start(s0) && s == Run(s0, labels)
  }

  lemma ReachableInv(s: Server)
    requires Reachable(s)
    ensures Inv(s)
  {
    var s0, labels :| Start(s0) && s == Run(s0, labels);
    StartInv(s0);
    RunKeeps(s0, labels);
  }

  // ---- exact numbering ----

  ghost predicate BoxHas(db: Tables, device: nat, k: int)
  {
    exists e :: e in db.envelopes && e.device == device && e.mailboxSeq == k
  }

  ghost predicate SameSlot(e: Envelope, f: Envelope)
  {
    e.device == f.device && e.mailboxSeq == f.mailboxSeq
  }

  /** In every reachable state the numbers of a chat are exactly 1..last_message_seq, each used once. */
  lemma ChatNumbersExact(s: Server, chat: nat, k: int)
    requires Reachable(s) && chat in s.db.chats
    ensures ChatHas(s.db.messages, chat, k) <==> 1 <= k <= s.db.chats[chat].lastSeq
    ensures forall m, n :: m in s.db.messages && n in s.db.messages && SamePlace(m, n) && m.chat == chat ==> m == n
  {
    ReachableInv(s);
    assert ChatsGapless(s.db);
    hide Inv, TablesInv;
  }

  /** In every reachable state the numbers of a mailbox are exactly 1..last_seq, each used once. */
  lemma MailboxNumbersExact(s: Server, device: nat, k: int)
    requires Reachable(s) && device in s.db.mailboxes
    ensures BoxHas(s.db, device, k) <==> 1 <= k <= s.db.mailboxes[device]
    ensures forall e, f :: e in s.db.envelopes && f in s.db.envelopes && SameSlot(e, f) && e.device == device ==> e == f
  {
    ReachableInv(s);
    BoxNumbers(s.db, device, k);
  }

  lemma BoxNumbers(db: Tables, device: nat, k: int)
    requires BoxesGapless(db) && device in db.mailboxes
    ensures BoxHas(db, device, k) <==> 1 <= k <= db.mailboxes[device]
    ensures forall e, f :: e in db.envelopes && f in db.envelopes && SameSlot(e, f) && e.device == device ==> e == f
  {
    var rows := Mailbox(db.envelopes, device);
    MailboxMembers(db.envelopes, device);
    assert NumberedRows(rows, db.mailboxes[device]);
    if 1 <= k <= db.mailboxes[device] {
      assert rows[k - 1] in rows && rows[k - 1].mailboxSeq == k;
    }
    forall e | e in db.envelopes && e.device == device
      ensures 1 <= e.mailboxSeq <= |rows| && rows[e.mailboxSeq - 1] == e
    {
      assert e in rows;
      var i :| 0 <= i < |rows| && rows[i] == e;
    }
  }

  lemma MailboxOrder(db: Tables, e: Envelope, f: Envelope)
    requires BoxesGapless(db) && MailboxesInChatOrder(db) && e in db.envelopes && f in db.envelopes
    requires e.device == f.device && e.message.chat == f.message.chat
    requires !(BeforeNumbers(db.migrated, e.message) && BeforeNumbers(db.migrated, f.message))
    ensures e.mailboxSeq < f.mailboxSeq <==> e.message.chatSeq < f.message.chatSeq
  {
    var rows := Mailbox(db.envelopes, e.device);
    MailboxMembers(db.envelopes, e.device);
    var i :| 0 <= i < |rows| && rows[i] == e;
    var j :| 0 <= j < |rows| && rows[j] == f;
    assert NumberedRows(rows, db.mailboxes[e.device]) && InChatOrder(rows, db.migrated);
  }

  // ---- tables only grow ----

  /** One step appends messages and envelopes and lets stored rows evolve; numbers never shrink. */
  lemma StepGrows(s: Server, l: Label)
    requires Inv(s)
    ensures s.db.messages <= Apply(s, l).db.messages
    ensures RowsEvolve(s.db.envelopes, Apply(s, l).db.envelopes)
    ensures s.contents.Keys <= Apply(s, l).contents.Keys
    ensures forall id :: id in s.contents ==> Apply(s, l).contents[id] == s.contents[id]
  {
    hide Inv, RowsEvolve, CommitSend, PayloadState, RowContents;
    RowsStay(s.db.envelopes);
    if l.Acknowledge? {
      InvPayloads(s);
      AcknowledgeEvolves(s.db.envelopes, l.device, l.envelope, l.now);
    } else if l.Purge? {
      InvPayloads(s);
      PurgeEvolves(s.db.envelopes, l.selected, l.now);
    } else if Sends(s, l) {
      CommitSendGrows(s, l.t, l.messageId, l.envelopeIds, l.now);
    } else {
      OtherStepsKeepRows(s, l);
    }
  }

  lemma RowsStay(rows: seq<Envelope>)
    ensures RowsEvolve(rows, rows)
    ensures forall more :: RowsEvolve(rows, rows + more)
  {
  }

  ghost predicate Sends(s: Server, l: Label)
  {
    l.Commit? && l.t in s.txs && s.txs[l.t].call.Send? && s.txs[l.t].stage == Settle
  }

  /** Beginning, locking and reading change no table. */
  lemma BeginKeepsTables(s: Server, t: nat, call: Call)
    ensures BeginStep(s, t, call).db == s.db && BeginStep(s, t, call).contents == s.contents
    ensures forall o :: o in s.calls ==>
      o in BeginStep(s, t, call).calls && BeginStep(s, t, call).calls[o] == s.calls[o]
  {
    hide ValidateEnvelopes, FindByClient;
  }

  lemma LockKeepsTables(s: Server, t: nat)
    ensures LockStep(s, t).db == s.db && LockStep(s, t).contents == s.contents && LockStep(s, t).calls == s.calls
  {
    hide Wanted, Free;
  }

  lemma ReadKeepsTables(s: Server, t: nat)
    ensures ReadStep(s, t).db == s.db && ReadStep(s, t).contents == s.contents && ReadStep(s, t).calls == s.calls
  {
    hide ActiveDevices, FindByClient;
  }

  /** Only the commit of a send and the row updates touch messages and envelopes. */
  lemma OtherStepsKeepRows(s: Server, l: Label)
    requires !l.Acknowledge? && !l.Purge? && !Sends(s, l)
    ensures Apply(s, l).db.messages == s.db.messages && Apply(s, l).db.envelopes == s.db.envelopes
    ensures Apply(s, l).contents == s.contents && Apply(s, l).db.chats == s.db.chats
    ensures !l.Commit? ==> Apply(s, l).db == s.db
  {
    hide BeginStep, LockStep, ReadStep, CommitStep;
    match l
    case Begin(t, call) => BeginKeepsTables(s, t, call);
    case TakeLock(t) => LockKeepsTables(s, t);
    case Read(t) => ReadKeepsTables(s, t);
    case Commit(t, messageId, ids, now) => OtherCommitsKeepRows(s, t, messageId, ids, now);
    case _ =>
  }

  lemma OtherCommitsKeepRows(s: Server, t: nat, messageId: nat, ids: map<nat, nat>, now: int)
    requires t in s.txs && s.txs[t].stage == Settle ==> !s.txs[t].call.Send?
    ensures SameRows(s, CommitStep(s, t, messageId, ids, now))
  {
    hide CommitSend, CommitRead, CommitLogin, CommitRevoke;
    if t in s.txs && s.txs[t].stage == Settle {
      match s.txs[t].call
      case AdvanceRead(user, chat, position) => ReadKeepsRows(s, t, user, chat, position);
      case Login(user, device) => DevicesKeepRows(s, t, user, device);
      case Revoke(user, device) => DevicesKeepRows(s, t, user, device);
    }
  }

  ghost predicate SameRows(s: Server, after: Server)
  {
    && after.db.messages == s.db.messages && after.db.envelopes == s.db.envelopes
    && after.contents == s.contents && after.db.chats == s.db.chats && after.db.migrated == s.db.migrated
  }

  lemma ReadKeepsRows(s: Server, t: nat, user: nat, chat: nat, position: int)
    requires t in s.txs
    ensures SameRows(s, CommitRead(s, t, user, chat, position))
  {
    hide PositionExists;
  }

  lemma DevicesKeepRows(s: Server, t: nat, user: nat, device: nat)
    requires t in s.txs
    ensures SameRows(s, CommitLogin(s, t, user, device)) && SameRows(s, CommitRevoke(s, t, user, device))
    ensures CommitLogin(s, t, user, device).db.positions == s.db.positions
    ensures CommitRevoke(s, t, user, device).db.positions == s.db.positions
  {
  }

  lemma InvPayloads(s: Server)
    requires Inv(s)
    ensures forall e :: e in s.db.envelopes ==> PayloadState(e) && RowContents(s.contents, e)
  {
  }

  /** A commit of a send either inserts one message with its rows, or leaves the tables alone. */
  lemma CommitSendGrows(s: Server, t: nat, messageId: nat, ids: map<nat, nat>, now: int)
    requires Inv(s) && t in s.txs && s.txs[t].call.Send? && s.txs[t].stage == Settle
    ensures var after := CommitSend(s, t, messageId, ids, now);
      || (after.db == s.db && after.contents == s.contents)
      || (ReadyToSend(s.txs[t]) && ids.Keys == s.txs[t].boxes.Keys
          && after.db.messages == s.db.messages + [NewMessage(s.txs[t], messageId, now)]
          && after.db.envelopes == s.db.envelopes + SendRows(s.txs[t], NewMessage(s.txs[t], messageId, now), ids)
          && s.contents.Keys <= after.contents.Keys
          && forall id :: id in s.contents ==> after.contents[id] == s.contents[id])
  {
    hide Inv, NumberTaken, HoldsCounters, SentRows, Record, NewEnvelopes, FindByClient, ReadyToSend;
    var tx, r := s.txs[t], s.txs[t].call.request;
    if ReadyToSend(tx) && r.chat in s.db.chats && FreshIds(s, tx, messageId, ids) {
      SendRecordKeeps(s, t, NewMessage(tx, messageId, now), ids);
    }
  }

  lemma SendRecordKeeps(s: Server, t: nat, m: Message, ids: map<nat, nat>)
    requires Inv(s) && t in s.txs && s.txs[t].call.Send? && s.txs[t].stage == Settle
    requires FreshIds(s, s.txs[t], m.id, ids) && ReadyToSend(s.txs[t])
    ensures var after := Record(s.contents, SendRows(s.txs[t], m, ids));
      s.contents.Keys <= after.Keys && forall id :: id in s.contents ==> after[id] == s.contents[id]
  {
    hide Inv, HoldsCounters, NewEnvelopes, SendRows, Record;
    ReadyHoldsCounters(s, t);
    SentRowsAre(s, s.txs[t], m, ids);
    RecordKeeps(s.contents, SendRows(s.txs[t], m, ids));
  }

  lemma {:induction false} RunGrows(s: Server, labels: seq<Label>)
    requires Inv(s)
    ensures s.db.messages <= Run(s, labels).db.messages
    ensures RowsEvolve(s.db.envelopes, Run(s, labels).db.envelopes)
  {
    if labels != [] {
      var before := labels[..|labels| - 1];
      RunGrows(s, before);
      RunKeeps(s, before);
      StepGrows(Run(s, before), labels[|labels| - 1]);
      RowsEvolveTransitive(s.db.envelopes, Run(s, before).db.envelopes, Run(s, labels).db.envelopes);
    }
  }

  /** The mailbox of one device, as its client will see it, only grows and evolves. */
  lemma StepMailboxEvolves(s: Server, l: Label, device: nat)
    requires Inv(s)
    ensures RowsEvolve(Mailbox(s.db.envelopes, device), Mailbox(Apply(s, l).db.envelopes, device))
  {
    StepGrows(s, l);
    MailboxEvolves(s.db.envelopes, Apply(s, l).db.envelopes, device);
  }

  // ---- messages older than their numbers ----

  /** No step changes which messages the migration has numbered. */
  lemma MigratedStays(s: Server, l: Label)
    ensures Apply(s, l).db.migrated == s.db.migrated
  {
    hide BeginStep, LockStep, ReadStep, CommitStep;
    match l
    case Begin(t, call) => BeginKeepsTables(s, t, call);
    case TakeLock(t) => LockKeepsTables(s, t);
    case Read(t) => ReadKeepsTables(s, t);
    case Commit(t, messageId, ids, now) => CommitKeepsMigrated(s, t, messageId, ids, now);
    case _ =>
  }

  lemma CommitKeepsMigrated(s: Server, t: nat, messageId: nat, ids: map<nat, nat>, now: int)
    ensures CommitStep(s, t, messageId, ids, now).db.migrated == s.db.migrated
  {
    hide CommitSend, CommitRead, CommitLogin, CommitRevoke;
    if t in s.txs && s.txs[t].stage == Settle {
      match s.txs[t].call
      case Send(_) => SendKeepsPositions(s, t, messageId, ids, now);
      case AdvanceRead(user, chat, position) => ReadKeepsRows(s, t, user, chat, position);
      case Login(user, device) => DevicesKeepRows(s, t, user, device);
      case Revoke(user, device) => DevicesKeepRows(s, t, user, device);
    }
  }

  lemma {:induction false} MigratedStaysInRun(s: Server, labels: seq<Label>)
    ensures Run(s, labels).db.migrated == s.db.migrated
  {
    hide Apply;
    if labels != [] {
      MigratedStaysInRun(s, labels[..|labels| - 1]);
      MigratedStays(Run(s, labels[..|labels| - 1]), labels[|labels| - 1]);
    }
  }

  /** A message that counts as numbered by the migration was there when it ran. */
  lemma NumberedByMigration(earlier: Tables, s: Server, m: Message)
    requires ChatsGapless(Upgraded(earlier)) && ChatsGapless(s.db) && s.db.migrated == Upgraded(earlier).migrated
    requires Upgraded(earlier).messages <= s.db.messages && m in s.db.messages && BeforeNumbers(s.db.migrated, m)
    ensures m in Upgraded(earlier).messages
  {
    hide Numbered, WithCounters, AllAddressed;
    var db := Upgraded(earlier);
    assert m.chat in db.chats && 1 <= m.chatSeq <= db.chats[m.chat].lastSeq;
    assert ChatHas(db.messages, m.chat, m.chatSeq);
    var o :| o in db.messages && o.chat == m.chat && o.chatSeq == m.chatSeq;
    assert o in s.db.messages && SamePlace(o, m);
  }

  /** Messages of one chat that the migration has numbered have numbers in the order of time and
      identifier, in every later state. */
  lemma MigratedFollowTime(s0: Server, labels: seq<Label>, m: Message, n: Message)
    requires Start(s0) && m in Run(s0, labels).db.messages && n in Run(s0, labels).db.messages && m.chat == n.chat
    requires BeforeNumbers(Run(s0, labels).db.migrated, m) && BeforeNumbers(Run(s0, labels).db.migrated, n)
    ensures Older(m, n) <==> m.chatSeq < n.chatSeq
  {
    hide Older, OldTables, Upgraded, TxsInv, Run, ChatsGapless, RowsEvolve;
    var earlier :| OldTables(earlier, s0.contents) && s0.db == Upgraded(earlier);
    StartInv(s0);
    RunKeeps(s0, labels);
    RunGrows(s0, labels);
    MigratedStaysInRun(s0, labels);
    NumberedByMigration(earlier, Run(s0, labels), m);
    NumberedByMigration(earlier, Run(s0, labels), n);
    OldIsDistinct(earlier, s0.contents);
    BackfillFollowsTime(earlier, m, n);
  }

  lemma OldIsDistinct(earlier: Tables, contents: map<nat, Bytes>)
    requires OldTables(earlier, contents)
    ensures Distinct(earlier.messages)
  {
    UniqueIsDistinct(earlier.messages);
  }

  /** Two rows of a mailbox stand in it in the order of time and identifier of their messages. */
  ghost predicate InOrderOfTime(e: Envelope, f: Envelope)
  {
    e.mailboxSeq < f.mailboxSeq <==> Older(e.message, f.message)
  }

  ghost predicate InOrderOfChat(e: Envelope, f: Envelope)
  {
    e.mailboxSeq < f.mailboxSeq <==> e.message.chatSeq < f.message.chatSeq
  }

  /** Exactly when two messages of one chat stand in a mailbox in the order they have in the chat:
      always, except that two messages both older than the numbers must stand in the order of time. */
  lemma MailboxOrderIsChatOrder(s: Server, e: Envelope, f: Envelope)
    requires Reachable(s) && e in s.db.envelopes && f in s.db.envelopes
    requires e.device == f.device && e.message.chat == f.message.chat
    ensures InOrderOfChat(e, f) <==>
      (BeforeNumbers(s.db.migrated, e.message) && BeforeNumbers(s.db.migrated, f.message) ==> InOrderOfTime(e, f))
  {
    hide TxsInv, BoxesGapless, MailboxesInChatOrder, Older, Run, Start;
    var s0, labels :| Start(s0) && s == Run(s0, labels);
    ReachableInv(s);
    assert e.message in s.db.messages && f.message in s.db.messages;
    if BeforeNumbers(s.db.migrated, e.message) && BeforeNumbers(s.db.migrated, f.message) {
      MigratedFollowTime(s0, labels, e.message, f.message);
    } else {
      MailboxOrder(s.db, e, f);
    }
  }

  // ---- idempotent sends ----

  ghost predicate OutcomeHonest(s: Server, t: nat)
    requires t in s.outcomes
  {
    && t in s.calls
    && s.outcomes[t] != Refused(Integrity) && s.outcomes[t] != Refused(InvariantBroken)
    && (s.outcomes[t].Stored? ==>
         && s.calls[t].Send? && s.outcomes[t].message in s.db.messages
         && SentBy(s.outcomes[t].message, s.calls[t].request.device, s.calls[t].request.clientId))
  }

  ghost predicate OutcomesHonest(s: Server)
  {
    && (forall t :: t in s.txs ==> t in s.calls && s.calls[t] == s.txs[t].call)
    && (forall t :: t in s.outcomes ==> OutcomeHonest(s, t))
  }

  /** The constraint on numbers cannot fail under the locks a send holds. */
  lemma NumbersFree(db: Tables, m: Message, rows: seq<Envelope>)
    requires ChatsGapless(db) && BoxesGapless(db) && SentMessage(db, m) && SentRows(db, m, rows)
    ensures !NumberTaken(db, m, rows)
  {
    forall o | o in db.messages && o.chat == m.chat ensures o.chatSeq != m.chatSeq {
      SeqBounded(db, o);
    }
    forall o, e | o in db.envelopes && e in rows && o.device == e.device ensures o.mailboxSeq != e.mailboxSeq {
      BoxNumbers(db, o.device, o.mailboxSeq);
    }
  }

  lemma NumbersFreeAtCommit(s: Server, t: nat, m: Message, ids: map<nat, nat>)
    requires Inv(s) && t in s.txs && s.txs[t].call.Send? && s.txs[t].stage == Settle
    requires FreshIds(s, s.txs[t], m.id, ids) && ReadyToSend(s.txs[t]) && m == NewMessage(s.txs[t], m.id, m.createdAt)
    ensures !NumberTaken(s.db, m, SendRows(s.txs[t], m, ids))
  {
    hide NewEnvelopes, SendRows, NumberTaken, ChatsGapless, BoxesGapless, TxsInv, SentRows;
    ReadyHoldsCounters(s, t);
    SentRowsAre(s, s.txs[t], m, ids);
    NumbersFree(s.db, m, SendRows(s.txs[t], m, ids));
  }

  lemma CommitOutcomes(s: Server, t: nat, messageId: nat, ids: map<nat, nat>, now: int)
    requires Inv(s) && OutcomesHonest(s) && t in s.txs && s.txs[t].call.Send? && s.txs[t].stage == Settle
    ensures OutcomesHonest(CommitSend(s, t, messageId, ids, now))
  {
    hide Inv, NumberTaken, NewEnvelopes;
    var tx, r := s.txs[t], s.txs[t].call.request;
    var after := CommitSend(s, t, messageId, ids, now);
    if ReadyToSend(tx) && r.chat in s.db.chats && FreshIds(s, tx, messageId, ids) {
      var m := NewMessage(tx, messageId, now);
      NumbersFreeAtCommit(s, t, m, ids);
      CommitSendGrows(s, t, messageId, ids, now);
      assert SendRows(tx, m, ids) == NewEnvelopes(tx, m, Ascending(Targets(tx)), ids);
      assert FindByClient(s.db.messages, r.device, r.clientId).None? ==>
        m in Inserted(s.db, tx, m, SendRows(tx, m, ids)).messages;
      forall o | o in after.outcomes ensures OutcomeHonest(after, o) {
        if o != t { assert OutcomeHonest(s, o); }
      }
    }
  }

  lemma OutcomesAfter(s: Server, after: Server)
    requires OutcomesHonest(s)
    requires s.db.messages <= after.db.messages
    requires forall t :: t in s.calls ==> t in after.calls && after.calls[t] == s.calls[t]
    requires forall t :: t in after.txs ==> t in after.calls && after.calls[t] == after.txs[t].call
    requires forall t :: t in after.outcomes ==>
      (t in s.outcomes && after.outcomes[t] == s.outcomes[t]) || OutcomeHonest(after, t)
    ensures OutcomesHonest(after)
  {
    forall t | t in after.outcomes ensures OutcomeHonest(after, t) {
      if t in s.outcomes && after.outcomes[t] == s.outcomes[t] { assert OutcomeHonest(s, t); }
    }
  }

  lemma BeginOutcomes(s: Server, t: nat, call: Call)
    requires OutcomesHonest(s)
    ensures OutcomesHonest(BeginStep(s, t, call))
  {
    if t !in s.calls {
      hide ValidateEnvelopes;
      var after := BeginStep(s, t, call);
      BeginKeepsTables(s, t, call);
      BeginOutcome(s, t, call);
      OutcomesAfter(s, after);
    }
  }

  /** What the beginning of a call leaves of others, and how it may already end the call. */
  ghost predicate Begun(s: Server, after: Server, t: nat, call: Call)
  {
    && after.calls == s.calls[t := call]
    && (forall o :: o in after.txs ==>
        (o in s.txs && o != t && after.txs[o] == s.txs[o]) || (o == t && after.txs[o].call == call))
    && (forall o :: o in after.outcomes ==>
        (o in s.outcomes && o != t && after.outcomes[o] == s.outcomes[o]) || o == t)
    && (t in after.outcomes && t !in s.outcomes ==> OutcomeHonest(after, t))
  }

  lemma BegunOpen(s: Server, t: nat, call: Call, tx: Tx)
    requires t !in s.calls && tx.call == call
    ensures Begun(s, Continue(s.(calls := s.calls[t := call]), t, tx), t, call)
  {
    hide OutcomeHonest;
  }

  lemma BegunEnded(s: Server, t: nat, call: Call, outcome: Outcome)
    requires t !in s.calls && outcome != Refused(Integrity) && outcome != Refused(InvariantBroken)
    requires outcome.Stored? ==>
      call.Send? && outcome.message in s.db.messages
      && SentBy(outcome.message, call.request.device, call.request.clientId)
    ensures Begun(s, Finish(s.(calls := s.calls[t := call]), t, outcome), t, call)
  {
  }

  lemma BeginOutcome(s: Server, t: nat, call: Call)
    requires t !in s.calls
    ensures Begun(s, BeginStep(s, t, call), t, call)
  {
    hide Begun, Finish, Continue, ValidateEnvelopes, FindByClient;
    forall tx: Tx | tx.call == call ensures Begun(s, Continue(s.(calls := s.calls[t := call]), t, tx), t, call) {
      BegunOpen(s, t, call, tx);
    }
    forall why | why != Integrity && why != InvariantBroken
      ensures Begun(s, Finish(s.(calls := s.calls[t := call]), t, Refused(why)), t, call)
    {
      BegunEnded(s, t, call, Refused(why));
    }
    if call.Send? {
      var found := FindByClient(s.db.messages, call.request.device, call.request.clientId);
      if found.Some? { BegunEnded(s, t, call, Stored(found.value)); }
    }
  }

  ghost predicate Explains(s: Server, t: nat, outcome: Outcome)
  {
    && outcome != Refused(Integrity) && outcome != Refused(InvariantBroken)
    && (outcome.Stored? ==>
         && t in s.txs && s.txs[t].call.Send? && outcome.message in s.db.messages
         && SentBy(outcome.message, s.txs[t].call.request.device, s.txs[t].call.request.clientId))
  }

  lemma FinishHonest(s: Server, t: nat, outcome: Outcome)
    requires OutcomesHonest(s) && t in s.txs && Explains(s, t, outcome)
    ensures OutcomesHonest(Finish(s, t, outcome))
  {
    OutcomesAfter(s, Finish(s, t, outcome));
  }

  lemma ContinueHonest(s: Server, t: nat, tx: Tx)
    requires OutcomesHonest(s) && t in s.txs && tx.call == s.txs[t].call
    ensures OutcomesHonest(Continue(s, t, tx))
  {
    OutcomesAfter(s, Continue(s, t, tx));
  }

  /** Under the invariant a lock request never finds its row missing. */
  lemma LockOutcomes(s: Server, t: nat)
    requires Inv(s) && OutcomesHonest(s)
    ensures OutcomesHonest(LockStep(s, t))
  {
    hide Inv, TxsInv, Free, ActiveDevices, OutcomesHonest, AccountsKnown, Shape, ReadsCurrent, Wanted;
    if t in s.txs && Wanted(s.txs[t]).Some? && Free(s, t, Wanted(s.txs[t]).value) {
      TxFacts(s, t);
      var lock := Wanted(s.txs[t]).value;
      LockFindsRow(s.db, s.txs[t], lock);
      ContinueHonest(s, t, LockedTx(s.db, s.txs[t], lock));
    }
  }

  lemma LockFindsRow(db: Tables, tx: Tx, lock: Lock)
    requires Shape(tx) && ReadsCurrent(db, tx) && AccountsKnown(db) && Wanted(tx) == Some(lock)
    ensures lock.ChatLock? ==> lock.chat in db.chats
    ensures lock.UserLock? && !lock.isExclusive ==> tx.call.Send? && lock.user in db.users
    ensures lock.BoxLock? ==> tx.call.Send? && lock.device in db.mailboxes
  {
    hide ActiveDevices;
    if lock.BoxLock? { TargetsHaveMailboxes(db, tx, lock.device); }
    if lock.UserLock? && !lock.isExclusive { assert lock.user in {tx.call.request.user, tx.other}; }
  }

  lemma ReadOutcomes(s: Server, t: nat)
    requires OutcomesHonest(s)
    ensures OutcomesHonest(ReadStep(s, t))
  {
    hide ActiveDevices, OutcomesHonest;
    if t in s.txs && s.txs[t].call.Send? {
      var tx, r := s.txs[t], s.txs[t].call.request;
      if tx.stage == Recheck {
        match FindByClient(s.db.messages, r.device, r.clientId)
        case Some(m) => FinishHonest(s, t, Stored(m));
        case None => ContinueHonest(s, t, tx.(stage := LockUsers));
      } else if tx.stage == ReadPeers {
        FinishHonest(s, t, Refused(TargetsChanged));
        ContinueHonest(s, t, tx.(peers := ActiveDevices(s.db, tx.other), stage := ReadOwn));
      } else if tx.stage == ReadOwn {
        FinishHonest(s, t, Refused(TargetsChanged));
        ContinueHonest(s, t, tx.(own := ActiveDevices(s.db, r.user), stage := LockBoxes));
      }
    }
  }

  lemma SettleHonest(s: Server, t: nat, db: Tables, outcome: Outcome)
    requires OutcomesHonest(s) && t in s.txs && db.messages == s.db.messages
    requires !outcome.Stored? && outcome != Refused(Integrity) && outcome != Refused(InvariantBroken)
    ensures OutcomesHonest(Finish(s.(db := db), t, outcome))
  {
    OutcomesAfter(s, Finish(s.(db := db), t, outcome));
  }

  lemma OtherCommitOutcomes(s: Server, t: nat, messageId: nat, ids: map<nat, nat>, now: int)
    requires OutcomesHonest(s) && t in s.txs && !s.txs[t].call.Send?
    ensures OutcomesHonest(CommitStep(s, t, messageId, ids, now))
  {
    hide OutcomesHonest, CommitRead, CommitLogin, CommitRevoke;
    if s.txs[t].stage == Settle {
      match s.txs[t].call
      case AdvanceRead(user, chat, position) => ReadCommitOutcomes(s, t, user, chat, position);
      case Login(user, device) => DeviceCommitOutcomes(s, t, user, device);
      case Revoke(user, device) => DeviceCommitOutcomes(s, t, user, device);
    }
  }

  lemma ReadCommitOutcomes(s: Server, t: nat, user: nat, chat: nat, position: int)
    requires OutcomesHonest(s) && t in s.txs
    ensures OutcomesHonest(CommitRead(s, t, user, chat, position))
  {
    hide PositionExists, OutcomesHonest;
    if chat in s.txs[t].chats {
      var after := CommitRead(s, t, user, chat, position);
      SettleHonest(s, t, after.db, after.outcomes[t]);
    }
  }

  lemma DeviceCommitOutcomes(s: Server, t: nat, user: nat, device: nat)
    requires OutcomesHonest(s) && t in s.txs
    ensures OutcomesHonest(CommitLogin(s, t, user, device)) && OutcomesHonest(CommitRevoke(s, t, user, device))
  {
    hide OutcomesHonest;
    var a, b := CommitLogin(s, t, user, device), CommitRevoke(s, t, user, device);
    SettleHonest(s, t, a.db, a.outcomes[t]);
    SettleHonest(s, t, b.db, b.outcomes[t]);
  }

  lemma StepKeepsHonest(s: Server, l: Label)
    requires Inv(s) && OutcomesHonest(s)
    ensures OutcomesHonest(Apply(s, l))
  {
    hide Inv, BeginStep, LockStep, ReadStep;
    match l
    case Begin(t, call) => BeginOutcomes(s, t, call);
    case TakeLock(t) => LockOutcomes(s, t);
    case Read(t) => ReadOutcomes(s, t);
    case Commit(t, messageId, ids, now) =>
      if t in s.txs && s.txs[t].stage == Settle {
        if s.txs[t].call.Send? { CommitOutcomes(s, t, messageId, ids, now); }
        else { OtherCommitOutcomes(s, t, messageId, ids, now); }
      }
    case Abort(t) => if t in s.txs { FinishHonest(s, t, Refused(Aborted)); }
    case Acknowledge(_, _, _) => OutcomesAfter(s, Apply(s, l));
    case Purge(_, _) => OutcomesAfter(s, Apply(s, l));
  }

  lemma {:induction false} RunKeepsHonest(s0: Server, labels: seq<Label>)
    requires Start(s0)
    ensures Inv(Run(s0, labels)) && OutcomesHonest(Run(s0, labels))
  {
    hide Inv;
    StartInv(s0);
    RunKeeps(s0, labels);
    if labels != [] {
      var before := labels[..|labels| - 1];
      RunKeepsHonest(s0, before);
      StepKeepsHonest(Run(s0, before), labels[|labels| - 1]);
    }
  }

  /** For each sender device and client message id at most one message ever commits, and every
      call that succeeds returns that message, whatever else the retry contains. */
  lemma SendsAreIdempotent(s: Server, t: nat, o: nat)
    requires Reachable(s)
    requires t in s.outcomes && s.outcomes[t].Stored? && o in s.outcomes && s.outcomes[o].Stored?
    ensures t in s.calls && s.calls[t].Send? && o in s.calls && s.calls[o].Send?
    ensures s.calls[t].request.device == s.calls[o].request.device
            && s.calls[t].request.clientId == s.calls[o].request.clientId
            ==> s.outcomes[t].message == s.outcomes[o].message
    ensures forall m, n :: m in s.db.messages && n in s.db.messages && SentBy(m, n.senderDevice, n.clientId) ==> m == n
  {
    var s0, labels :| Start(s0) && s == Run(s0, labels);
    RunKeepsHonest(s0, labels);
    assert OutcomeHonest(s, t) && OutcomeHonest(s, o);
    ClientIdsOnce(s.db.messages);
  }

  lemma ClientIdsOnce(messages: seq<Message>)
    requires ClientIdsUnique(messages)
    ensures forall m, n :: m in messages && n in messages && SentBy(m, n.senderDevice, n.clientId) ==> m == n
  {
    forall m, n | m in messages && n in messages && SentBy(m, n.senderDevice, n.clientId) ensures m == n {
      var i :| 0 <= i < |messages| && messages[i] == m;
      var j :| 0 <= j < |messages| && messages[j] == n;
    }
  }

  /** The service's own invariant errors and unexplained constraint failures never happen. */
  lemma NoInvariantErrors(s: Server, t: nat)
    requires Reachable(s) && t in s.outcomes
    ensures s.outcomes[t] != Refused(InvariantBroken) && s.outcomes[t] != Refused(Integrity)
  {
    var s0, labels :| Start(s0) && s == Run(s0, labels);
    RunKeepsHonest(s0, labels);
    assert OutcomeHonest(s, t);
  }

  /** A send that is refused, rolled back, or loses a race leaves every table as it was: the
      only step of a send that changes one inserts the very message it returns. */
  lemma LosersChangeNothing(s: Server, l: Label, t: nat)
    requires Inv(s) && t in s.txs && s.txs[t].call.Send?
    requires l in {TakeLock(t), Read(t), Abort(t)} || (l.Commit? && l.t == t)
    ensures Apply(s, l).db != s.db ==>
      && l.Commit? && t in Apply(s, l).outcomes
      && Apply(s, l).outcomes[t] == Stored(NewMessage(s.txs[t], l.messageId, l.now))
      && Apply(s, l).db.messages == s.db.messages + [NewMessage(s.txs[t], l.messageId, l.now)]
  {
    hide Inv, NumberTaken, NewEnvelopes, LockStep, ReadStep;
    LockKeepsTables(s, t);
    ReadKeepsTables(s, t);
  }

  // ---- complete routing ----

  /** The devices a message has envelopes for. */
  ghost function RoutedTo(rows: seq<Envelope>, m: Message): set<nat>
  {
    set e | e in rows && e.message == m :: e.device
  }

  ghost predicate OneEach(rows: seq<Envelope>, m: Message)
  {
    forall i, j :: 0 <= i < j < |rows| && rows[i].message == m && rows[j].message == m ==>
      rows[i].device != rows[j].device
  }

  /** A commit that stores a message gives exactly one envelope to every device of both members
      that is active at that moment, except the sending device, and to at least one of the peer;
      each envelope holds what the request supplied for that device. */
  lemma CommitRoutes(s: Server, l: Label)
    requires Inv(s) && Sends(s, l) && Apply(s, l).db != s.db
    ensures var tx, r := s.txs[l.t], s.txs[l.t].call.request;
      && r.chat in s.db.chats && ReadyToSend(tx)
      && var m := NewMessage(tx, l.messageId, l.now);
      && var peers := ActiveDevices(s.db, s.db.chats[r.chat].Other(r.user));
      && var rows := Apply(s, l).db.envelopes;
      && r.device in ActiveDevices(s.db, r.user) && peers != {}
      && RoutedTo(rows, m) == peers + ActiveDevices(s.db, r.user) - {r.device}
      && peers <= RoutedTo(rows, m) && OneEach(rows, m)
      && ValidateEnvelopes(r.envelopes).Ok?
      && forall e :: e in rows && e.message == m ==>
           e.device in ValidateEnvelopes(r.envelopes).value
             && e.payload == Some(ValidateEnvelopes(r.envelopes).value[e.device])
  {
    hide Inv, NumberTaken, SendRows, NewEnvelopes, SentRows;
    var tx, r := s.txs[l.t], s.txs[l.t].call.request;
    CommitIsFresh(s, l);
    CommitSendGrows(s, l.t, l.messageId, l.envelopeIds, l.now);
    var m := NewMessage(tx, l.messageId, l.now);
    SendingTargets(s, l.t);
    NewRows(s, tx, m, l.envelopeIds, Apply(s, l).db.envelopes);
  }

  lemma SendingTargets(s: Server, t: nat)
    requires Inv(s) && t in s.txs && s.txs[t].call.Send? && s.txs[t].stage == Settle
    ensures var tx, r := s.txs[t], s.txs[t].call.request;
      && r.chat in s.db.chats && tx.peers == ActiveDevices(s.db, s.db.chats[r.chat].Other(r.user)) != {}
      && r.device in ActiveDevices(s.db, r.user) && tx.own == ActiveDevices(s.db, r.user)
      && tx.peers <= Targets(tx) && ValidateEnvelopes(r.envelopes) == Ok(tx.supplied) && HoldsCounters(s.db, tx)
      && forall e :: e in s.db.envelopes ==> e.message in s.db.messages
  {
    hide ActiveDevices;
    TxFacts(s, t);
    TargetsNotEmpty(s.db, s.txs[t]);
    ReadyHoldsCounters(s, t);
  }

  lemma CommitIsFresh(s: Server, l: Label)
    requires Sends(s, l) && Apply(s, l).db != s.db
    ensures ReadyToSend(s.txs[l.t]) && FreshIds(s, s.txs[l.t], l.messageId, l.envelopeIds)
  {
  }

  lemma NewRows(s: Server, tx: Tx, m: Message, ids: map<nat, nat>, rows: seq<Envelope>)
    requires HoldsCounters(s.db, tx) && FreshIds(s, tx, m.id, ids)
    requires rows == s.db.envelopes + SendRows(tx, m, ids)
    requires forall e :: e in s.db.envelopes ==> e.message in s.db.messages
    ensures RoutedTo(rows, m) == Targets(tx) && OneEach(rows, m)
    ensures forall e :: e in rows && e.message == m ==>
      e.device in tx.supplied && e.payload == Some(tx.supplied[e.device])
  {
    hide SendRows, RoutedTo, OneEach;
    var added := SendRows(tx, m, ids);
    SentRowsAre(s, tx, m, ids);
    MessageIsNew(s, tx, m, ids);
    AddedRoute(s.db, m, added, Targets(tx));
    forall e | e in rows && e.message == m
      ensures e.device in tx.supplied && e.payload == Some(tx.supplied[e.device])
    {
      assert e in added;
      SentPayload(s.db, tx, m, ids, e);
    }
  }

  lemma AddedRoute(db: Tables, m: Message, added: seq<Envelope>, targets: set<nat>)
    requires SentRows(db, m, added) && m !in db.messages
    requires forall e :: e in db.envelopes ==> e.message in db.messages
    requires forall e :: e in added ==> e.device in targets
    requires forall d :: d in targets ==> exists e :: e in added && e.device == d
    ensures RoutedTo(db.envelopes + added, m) == targets && OneEach(db.envelopes + added, m)
  {
    var rows, n := db.envelopes + added, |db.envelopes|;
    forall i | 0 <= i < n ensures rows[i].message != m {
      assert rows[i] in db.envelopes;
    }
    forall i, j | 0 <= i < j < |rows| && rows[i].message == m && rows[j].message == m
      ensures rows[i].device != rows[j].device
    {
      assert i >= n && rows[i] == added[i - n] && rows[j] == added[j - n];
    }
    forall e | e in rows && e.message == m ensures e in added {
      assert e !in db.envelopes;
    }
    forall d | d in targets ensures d in RoutedTo(rows, m) {
      var e :| e in added && e.device == d;
      assert e in rows;
    }
  }

  lemma MessageIsNew(s: Server, tx: Tx, m: Message, ids: map<nat, nat>)
    requires FreshIds(s, tx, m.id, ids)
    ensures m !in s.db.messages
  {
  }

  lemma SentPayload(db: Tables, tx: Tx, m: Message, ids: map<nat, nat>, e: Envelope)
    requires HoldsCounters(db, tx) && ids.Keys == tx.boxes.Keys && e in SendRows(tx, m, ids)
    ensures e.device in tx.supplied && e.payload == Some(tx.supplied[e.device])
  {
    var rows := SendRows(tx, m, ids);
    var i :| 0 <= i < |rows| && rows[i] == e;
    SentRowAt(db, tx, m, ids, i);
  }

  lemma RouteStays(s: Server, l: Label, m: Message)
    requires Inv(s) && m in s.db.messages
    ensures RoutedTo(Apply(s, l).db.envelopes, m) == RoutedTo(s.db.envelopes, m)
    ensures OneEach(s.db.envelopes, m) ==> OneEach(Apply(s, l).db.envelopes, m)
  {
    hide Inv, SendRows, NewEnvelopes, NumberTaken, CommitSend, RoutedTo, OneEach, SentRows, HoldsCounters;
    var rows := Apply(s, l).db.envelopes;
    StepGrows(s, l);
    if Sends(s, l) && rows != s.db.envelopes {
      CommitSendGrows(s, l.t, l.messageId, l.envelopeIds, l.now);
      CommitIsFresh(s, l);
      ReadyHoldsCounters(s, l.t);
      var m' := NewMessage(s.txs[l.t], l.messageId, l.now);
      SentRowsAre(s, s.txs[l.t], m', l.envelopeIds);
      assert m' != m by { MessageIsNew(s, s.txs[l.t], m', l.envelopeIds); }
      OthersRows(s.db, m, m', SendRows(s.txs[l.t], m', l.envelopeIds));
    } else if l.Acknowledge? || l.Purge? {
      EvolvedRoute(s.db.envelopes, rows, m);
    } else if !Sends(s, l) {
      OtherStepsKeepRows(s, l);
    }
  }

  lemma OthersRows(db: Tables, m: Message, m': Message, added: seq<Envelope>)
    requires SentRows(db, m', added) && m' != m
    ensures RoutedTo(db.envelopes + added, m) == RoutedTo(db.envelopes, m)
    ensures OneEach(db.envelopes, m) ==> OneEach(db.envelopes + added, m)
  {
    var rows, n := db.envelopes + added, |db.envelopes|;
    forall i | n <= i < |rows| ensures rows[i].message != m { assert rows[i] == added[i - n]; }
    forall e | e in rows && e.message == m ensures e in db.envelopes { assert e !in added; }
  }

  lemma EvolvedRoute(a: seq<Envelope>, b: seq<Envelope>, m: Message)
    requires RowsEvolve(a, b) && |a| == |b|
    ensures RoutedTo(b, m) == RoutedTo(a, m)
    ensures OneEach(a, m) ==> OneEach(b, m)
  {
    assert forall i :: 0 <= i < |a| ==> RowEvolves(a[i], b[i]);
    forall d | d in RoutedTo(a, m) ensures d in RoutedTo(b, m) {
      var e :| e in a && e.message == m && e.device == d;
      var i :| 0 <= i < |a| && a[i] == e;
      assert b[i] in b;
    }
    forall d | d in RoutedTo(b, m) ensures d in RoutedTo(a, m) {
      var e :| e in b && e.message == m && e.device == d;
      var i :| 0 <= i < |b| && b[i] == e;
      assert a[i] in a;
    }
  }

  lemma {:induction false} RouteStaysInRun(s: Server, labels: seq<Label>, m: Message)
    requires Inv(s) && m in s.db.messages
    ensures RoutedTo(Run(s, labels).db.envelopes, m) == RoutedTo(s.db.envelopes, m)
    ensures OneEach(s.db.envelopes, m) ==> OneEach(Run(s, labels).db.envelopes, m)
  {
    hide Inv, RoutedTo, OneEach;
    if labels != [] {
      var before := labels[..|labels| - 1];
      RouteStaysInRun(s, before, m);
      RunKeeps(s, before);
      RunGrows(s, before);
      RouteStays(Run(s, before), labels[|labels| - 1], m);
    }
  }

  /** In every run, however devices come and go: a message committed at some step has, in
      every later state, one envelope for each device of either member that was active at that
      step, the sending device excepted, and for no other. */
  lemma RoutingIsComplete(s: Server, l: Label, later: seq<Label>)
    requires Reachable(s) && Sends(s, l) && Apply(s, l).db != s.db
    ensures var tx, r := s.txs[l.t], s.txs[l.t].call.request;
      && r.chat in s.db.chats && ReadyToSend(tx)
      && var m := NewMessage(tx, l.messageId, l.now);
      && var peers := ActiveDevices(s.db, s.db.chats[r.chat].Other(r.user));
      && var rows := Run(Apply(s, l), later).db.envelopes;
      && RoutedTo(rows, m) == peers + ActiveDevices(s.db, r.user) - {r.device}
      && RoutedTo(rows, m) * peers != {} && OneEach(rows, m)
  {
    hide Inv, RoutedTo, OneEach, ActiveDevices;
    ReachableInv(s);
    CommitRoutes(s, l);
    ApplyKeeps(s, l);
    LosersChangeNothing(s, l, l.t);
    var m := NewMessage(s.txs[l.t], l.messageId, l.now);
    assert m in Apply(s, l).db.messages;
    RouteStaysInRun(Apply(s, l), later, m);
  }

  // ---- read positions ----

  /** Under the chat lock every position up to the counter exists, so the second check of a
      read advance never refuses what the range check admits. */
  lemma PositionCheckImplied(s: Server, chat: nat, position: int)
    requires Reachable(s) && chat in s.db.chats && 1 <= position <= s.db.chats[chat].lastSeq
    ensures PositionExists(s.db, chat, position)
  {
    hide Inv;
    ChatNumbersExact(s, chat, position);
    assert ChatHas(s.db.messages, chat, position);
    var m :| m in s.db.messages && m.chat == chat && m.chatSeq == position;
    assert m in s.db.messages && m.chat == chat && m.chatSeq == position;
  }

  /** Stored read positions never go back and never pass the chat. */
  lemma PositionsAdvance(s: Server, l: Label, chat: nat, user: nat)
    requires Inv(s) && (chat, user) in s.db.positions
    ensures (chat, user) in Apply(s, l).db.positions
    ensures s.db.positions[(chat, user)] <= Apply(s, l).db.positions[(chat, user)]
    ensures chat in Apply(s, l).db.chats && Apply(s, l).db.positions[(chat, user)] <= Apply(s, l).db.chats[chat].lastSeq
  {
    ApplyKeeps(s, l);
    assert PositionsBounded(Apply(s, l).db);
    hide Inv;
    PositionsStep(s, l, (chat, user));
  }

  lemma PositionsStep(s: Server, l: Label, k: (nat, nat))
    requires k in s.db.positions
    ensures k in Apply(s, l).db.positions && s.db.positions[k] <= Apply(s, l).db.positions[k]
  {
    hide BeginStep, LockStep, ReadStep, CommitStep;
    match l
    case Begin(t, call) => BeginKeepsTables(s, t, call);
    case TakeLock(t) => LockKeepsTables(s, t);
    case Read(t) => ReadKeepsTables(s, t);
    case Commit(t, messageId, ids, now) => PositionsCommit(s, t, messageId, ids, now, k);
    case _ =>
  }

  lemma PositionsCommit(s: Server, t: nat, messageId: nat, ids: map<nat, nat>, now: int, k: (nat, nat))
    requires k in s.db.positions
    ensures var after := CommitStep(s, t, messageId, ids, now);
      k in after.db.positions && s.db.positions[k] <= after.db.positions[k]
  {
    hide CommitSend, CommitRead, CommitLogin, CommitRevoke;
    if t in s.txs && s.txs[t].stage == Settle {
      match s.txs[t].call
      case Send(_) => SendKeepsPositions(s, t, messageId, ids, now);
      case AdvanceRead(user, chat, position) => ReadRaisesPositions(s, t, user, chat, position, k);
      case Login(user, device) => DevicesKeepRows(s, t, user, device);
      case Revoke(user, device) => DevicesKeepRows(s, t, user, device);
    }
  }

  lemma ReadRaisesPositions(s: Server, t: nat, user: nat, chat: nat, position: int, k: (nat, nat))
    requires k in s.db.positions && t in s.txs
    ensures var after := CommitRead(s, t, user, chat, position);
      k in after.db.positions && s.db.positions[k] <= after.db.positions[k]
  {
    hide PositionExists;
  }

  lemma SendKeepsPositions(s: Server, t: nat, messageId: nat, ids: map<nat, nat>, now: int)
    requires t in s.txs && s.txs[t].call.Send?
    ensures CommitSend(s, t, messageId, ids, now).db.positions == s.db.positions
    ensures CommitSend(s, t, messageId, ids, now).db.migrated == s.db.migrated
  {
    hide NumberTaken, FreshIds, NewEnvelopes, ReadyToSend, FindByClient, Record;
  }

  /** The answer to a read advance is what is stored when it commits: the larger of the position
      asked for and the one stored before. A refusal stores nothing. */
  lemma CommitAnswers(s: Server, t: nat, user: nat, chat: nat, position: int)
    requires t in s.txs && chat in s.txs[t].chats
    ensures var after := CommitRead(s, t, user, chat, position);
      && t in after.outcomes && (after.outcomes[t].Position? || after.outcomes[t] == Refused(InvalidReadPosition))
      && (after.outcomes[t].Refused? ==> after.db == s.db)
      && (after.outcomes[t].Position? ==>
           && 0 <= position <= s.txs[t].chats[chat]
           && after.outcomes[t].last == Max(position, StoredPosition(s.db, chat, user))
           && after.outcomes[t].last == StoredPosition(after.db, chat, user))
  {
    hide PositionExists;
  }

  function StoredPosition(db: Tables, chat: nat, user: nat): nat
  {
    if (chat, user) in db.positions then db.positions[(chat, user)] else 0
  }

  /** What a call was told of its user's position: at least what it asked for, at most what is stored. */
  ghost predicate AnswerStored(db: Tables, call: Call, last: nat)
  {
    call.AdvanceRead? && call.position <= last <= StoredPosition(db, call.chat, call.user)
  }

  ghost predicate AllAnswersStored(s: Server)
  {
    forall t :: t in s.outcomes && s.outcomes[t].Position? ==>
      t in s.calls && AnswerStored(s.db, s.calls[t], s.outcomes[t].last)
  }

  /** No call but `t` is answered by the step, and if that answer is a position it is stored. */
  ghost predicate OneAnswer(s: Server, after: Server, t: nat)
  {
    && (forall o :: o in s.calls ==> o in after.calls && after.calls[o] == s.calls[o])
    && (forall o :: o in after.outcomes && o != t ==> o in s.outcomes && after.outcomes[o] == s.outcomes[o])
    && (t in after.outcomes && after.outcomes[t].Position? ==>
         || (t in s.outcomes && after.outcomes[t] == s.outcomes[t])
         || (t in after.calls && AnswerStored(after.db, after.calls[t], after.outcomes[t].last)))
  }

  lemma AnswersAfter(s: Server, l: Label, t: nat)
    requires AllAnswersStored(s) && OneAnswer(s, Apply(s, l), t)
    ensures AllAnswersStored(Apply(s, l))
  {
    hide Apply;
    var after := Apply(s, l);
    forall chat: nat, user: nat ensures StoredPosition(s.db, chat, user) <= StoredPosition(after.db, chat, user) {
      if (chat, user) in s.db.positions { PositionsStep(s, l, (chat, user)); }
    }
  }

  /** A call goes on, or ends with an answer that is no position. */
  lemma NoAnswer(s: Server, t: nat)
    ensures forall tx :: OneAnswer(s, Continue(s, t, tx), t)
    ensures forall outcome: Outcome :: !outcome.Position? ==> OneAnswer(s, Finish(s, t, outcome), t)
    ensures OneAnswer(s, s, t)
  {
    hide AnswerStored;
  }

  lemma BeginAnswers(s: Server, t: nat, call: Call)
    ensures OneAnswer(s, BeginStep(s, t, call), t)
  {
    hide ValidateEnvelopes, FindByClient, OneAnswer, Finish, Continue;
    NoAnswer(s, t);
    if t !in s.calls {
      var begun := s.(calls := s.calls[t := call]);
      forall tx ensures OneAnswer(s, Continue(begun, t, tx), t) { BegunNoAnswer(s, t, call, tx, Done); }
      forall outcome: Outcome | !outcome.Position? ensures OneAnswer(s, Finish(begun, t, outcome), t) {
        BegunNoAnswer(s, t, call, Opened(call, LockChat, 0, map[]), outcome);
      }
    }
  }

  lemma BegunNoAnswer(s: Server, t: nat, call: Call, tx: Tx, outcome: Outcome)
    requires t !in s.calls && !outcome.Position?
    ensures OneAnswer(s, Continue(s.(calls := s.calls[t := call]), t, tx), t)
    ensures OneAnswer(s, Finish(s.(calls := s.calls[t := call]), t, outcome), t)
  {
    hide AnswerStored;
  }

  lemma LockAnswers(s: Server, t: nat)
    ensures OneAnswer(s, LockStep(s, t), t)
  {
    hide Wanted, Free, LockedTx, OneAnswer, Finish, Continue;
    NoAnswer(s, t);
  }

  lemma ReadAnswers(s: Server, t: nat)
    ensures OneAnswer(s, ReadStep(s, t), t)
  {
    hide ActiveDevices, FindByClient, OneAnswer, Finish, Continue;
    NoAnswer(s, t);
  }

  lemma SendAnswers(s: Server, t: nat, messageId: nat, ids: map<nat, nat>, now: int)
    requires t in s.txs && s.txs[t].call.Send?
    ensures OneAnswer(s, CommitSend(s, t, messageId, ids, now), t)
  {
    hide NumberTaken, FreshIds, NewEnvelopes, ReadyToSend, FindByClient, Record, Inserted, OneAnswer, Finish;
    NoAnswer(s, t);
    forall db, contents, m ensures OneAnswer(s, Finish(s.(db := db, contents := contents), t, Stored(m)), t) {
      TablesNoAnswer(s, db, contents, t, Stored(m));
    }
  }

  lemma TablesNoAnswer(s: Server, db: Tables, contents: map<nat, Bytes>, t: nat, outcome: Outcome)
    requires !outcome.Position?
    ensures OneAnswer(s, Finish(s.(db := db, contents := contents), t, outcome), t)
  {
    hide AnswerStored;
  }

  lemma DeviceAnswers(s: Server, t: nat, user: nat, device: nat)
    requires t in s.txs
    ensures OneAnswer(s, CommitLogin(s, t, user, device), t) && OneAnswer(s, CommitRevoke(s, t, user, device), t)
  {
    hide AnswerStored;
  }

  lemma ReadCommitAnswers(s: Server, t: nat, user: nat, chat: nat, position: int)
    requires t in s.txs && t in s.calls && s.calls[t] == AdvanceRead(user, chat, position)
    ensures OneAnswer(s, CommitRead(s, t, user, chat, position), t)
  {
    hide PositionExists;
    if chat in s.txs[t].chats { CommitAnswers(s, t, user, chat, position); }
  }

  lemma CommitStepAnswers(s: Server, t: nat, messageId: nat, ids: map<nat, nat>, now: int)
    requires OutcomesHonest(s)
    ensures OneAnswer(s, CommitStep(s, t, messageId, ids, now), t)
  {
    hide CommitSend, CommitRead, CommitLogin, CommitRevoke, OutcomeHonest;
    if t in s.txs && s.txs[t].stage == Settle {
      match s.txs[t].call
      case Send(_) => SendAnswers(s, t, messageId, ids, now);
      case AdvanceRead(user, chat, position) => ReadCommitAnswers(s, t, user, chat, position);
      case Login(user, device) => DeviceAnswers(s, t, user, device);
      case Revoke(user, device) => DeviceAnswers(s, t, user, device);
    }
  }

  lemma StepKeepsAnswers(s: Server, l: Label)
    requires OutcomesHonest(s) && AllAnswersStored(s)
    ensures AllAnswersStored(Apply(s, l))
  {
    hide OutcomesHonest, AllAnswersStored, BeginStep, LockStep, ReadStep, CommitStep, AnswerStored;
    match l
    case Begin(t, call) => BeginAnswers(s, t, call); AnswersAfter(s, l, t);
    case TakeLock(t) => LockAnswers(s, t); AnswersAfter(s, l, t);
    case Read(t) => ReadAnswers(s, t); AnswersAfter(s, l, t);
    case Commit(t, messageId, ids, now) => CommitStepAnswers(s, t, messageId, ids, now); AnswersAfter(s, l, t);
    case Abort(t) => AnswersAfter(s, l, t);
    case Acknowledge(_, _, _) => AnswersAfter(s, l, 0);
    case Purge(_, _) => AnswersAfter(s, l, 0);
  }

  lemma {:induction false} RunKeepsAnswers(s0: Server, labels: seq<Label>)
    requires Start(s0)
    ensures AllAnswersStored(Run(s0, labels))
  {
    hide Apply, OutcomesHonest, AllAnswersStored, Inv;
    if labels == [] {
      NothingAnswered(s0);
    } else {
      var before := labels[..|labels| - 1];
      RunKeepsAnswers(s0, before);
      RunKeepsHonest(s0, before);
      StepKeepsAnswers(Run(s0, before), labels[|labels| - 1]);
    }
  }

  lemma NothingAnswered(s: Server)
    requires Start(s)
    ensures AllAnswersStored(s)
  {
    hide OldTables, Upgraded;
  }

  /** In every reachable state, so from its answer on for ever: the position a read advance was told
      is at least what it asked for, at most what is stored for its user, and that at most the chat's
      counter. */
  lemma AnswersAreStored(s: Server, t: nat)
    requires Reachable(s) && t in s.outcomes && s.outcomes[t].Position?
    ensures t in s.calls && s.calls[t].AdvanceRead?
    ensures var AdvanceRead(user, chat, position) := s.calls[t];
      && position <= s.outcomes[t].last <= StoredPosition(s.db, chat, user)
      && (chat in s.db.chats ==> StoredPosition(s.db, chat, user) <= s.db.chats[chat].lastSeq)
  {
    var s0, labels :| Start(s0) && s == Run(s0, labels);
    RunKeepsAnswers(s0, labels);
    RunKeepsHonest(s0, labels);
    assert PositionsBounded(s.db);
  }

  // ---- payloads ----

  /** The server erases a payload only on a receipt or after expiry; until then it holds what
      the send supplied. */
  lemma ErasureHasAReason(s: Server, e: Envelope)
    requires Reachable(s) && e in s.db.envelopes
    ensures e.payload.None? ==> e.deliveredAt.Some? || (e.purgedAt.Some? && e.expiresAt <= e.purgedAt.value)
    ensures e.payload.Some? ==> e.id in s.contents && e.payload.value == s.contents[e.id]
    ensures e.deliveredAt.Some? ==> e.payload.None?
  {
    hide Inv;
    ReachableInv(s);
    InvPayloads(s);
  }
}
