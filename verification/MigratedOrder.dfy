/** The order of mailboxes over a migrated database: what the database must have been like before
    the migration for every mailbox to follow its chats ever after. */
module MigratedOrder {
  import opened MessageTables
  import opened ServerTransactions
  import opened ServerInvariants
  import opened Backfill
  import opened ServerTheorems
  import opened ServerAnswers

  ghost predicate SameBox(e: Envelope, f: Envelope)
  {
    e.device == f.device && e.message.chat == f.message.chat
  }

  /** Every mailbox holds the messages of one chat in the order of their numbers. */
  ghost predicate FollowsChats(rows: seq<Envelope>)
  {
    forall e, f :: e in rows && f in rows && SameBox(e, f) ==> InOrderOfChat(e, f)
  }

  /** Every mailbox holds the messages of one chat in the order of time and identifier. */
  ghost predicate FollowsTime(rows: seq<Envelope>)
  {
    forall e, f :: e in rows && f in rows && SameBox(e, f) ==> InOrderOfTime(e, f)
  }

  /** A server on the tables that the migration has made of `earlier`. */
  ghost predicate StartsFrom(s: Server, earlier: Tables)
  {
    && s.txs == map[] && s.calls == map[] && s.outcomes == map[]
    && OldTables(earlier, s.contents) && s.db == Upgraded(earlier)
  }

  lemma {:induction false} RunAddsNoRows(s: Server, labels: seq<Label>)
    requires Inv(s)
    ensures RowsOfOldMessages(s, Run(s, labels)) && s.db.messages <= Run(s, labels).db.messages
  {
    hide Inv, Apply;
    if labels != [] {
      var before := Run(s, labels[..|labels| - 1]);
      RunAddsNoRows(s, labels[..|labels| - 1]);
      RunKeeps(s, labels[..|labels| - 1]);
      StepGrows(before, labels[|labels| - 1]);
      StepAddsNoRows(before, labels[|labels| - 1]);
    }
  }

  /** Two rows that agree with two others in what their order depends on. */
  ghost predicate Alike(e: Envelope, o: Envelope)
  {
    && o.device == e.device && o.mailboxSeq == e.mailboxSeq && o.message.chat == e.message.chat
    && o.message.createdAt == e.message.createdAt && o.message.id == e.message.id
  }

  lemma AlikeOrder(e: Envelope, f: Envelope, o: Envelope, p: Envelope)
    requires Alike(e, o) && Alike(f, p)
    ensures InOrderOfTime(e, f) <==> InOrderOfTime(o, p)
    ensures SameBox(e, f) <==> SameBox(o, p)
  {
  }

  /** What becomes of a row of the earlier database. */
  lemma LaterRow(s0: Server, earlier: Tables, labels: seq<Label>, o: Envelope) returns (e: Envelope)
    requires StartsFrom(s0, earlier) && o in earlier.envelopes
    ensures var s := Run(s0, labels);
      && e in s.db.envelopes && Alike(e, o) && e.message in s.db.messages && BeforeNumbers(s.db.migrated, e.message)
  {
    hide OldTables, Upgraded, TxsInv, Run, RowsEvolve;
    assert Start(s0);
    StartInv(s0);
    RunKeeps(s0, labels);
    RunGrows(s0, labels);
    MigratedStaysInRun(s0, labels);
    var begun := UpgradedRow(earlier, o);
    SeqBounded(s0.db, begun.message);
    MigratedCounters(earlier);
    e := EvolvedRow(s0, Run(s0, labels), begun);
  }

  lemma MigratedCounters(earlier: Tables)
    ensures forall c :: c in Upgraded(earlier).chats ==>
      c in Upgraded(earlier).migrated && Upgraded(earlier).migrated[c] == Upgraded(earlier).chats[c].lastSeq
  {
  }

  lemma UpgradedRow(earlier: Tables, o: Envelope) returns (e: Envelope)
    requires o in earlier.envelopes
    ensures e in Upgraded(earlier).envelopes && Alike(e, o)
  {
    hide Numbered, WithCounters, RowNumber;
    var i :| 0 <= i < |earlier.envelopes| && earlier.envelopes[i] == o;
    e := Upgraded(earlier).envelopes[i];
  }

  lemma EarlierRow(earlier: Tables, e: Envelope) returns (o: Envelope)
    requires e in Upgraded(earlier).envelopes
    ensures o in earlier.envelopes && Alike(e, o)
  {
    hide Numbered, WithCounters, RowNumber;
    var rows := Upgraded(earlier).envelopes;
    var i :| 0 <= i < |rows| && rows[i] == e;
    o := earlier.envelopes[i];
  }

  /** Where a row comes from whose message the migration has numbered. */
  lemma FirstRow(s0: Server, earlier: Tables, labels: seq<Label>, e: Envelope) returns (o: Envelope)
    requires StartsFrom(s0, earlier) && e in Run(s0, labels).db.envelopes
    requires BeforeNumbers(Run(s0, labels).db.migrated, e.message)
    ensures o in earlier.envelopes && Alike(e, o)
  {
    hide OldTables, Upgraded, TxsInv, Run, RowsEvolve, ChatsGapless;
    assert Start(s0);
    StartInv(s0);
    RunKeeps(s0, labels);
    RunGrows(s0, labels);
    RunAddsNoRows(s0, labels);
    MigratedStaysInRun(s0, labels);
    NumberedByMigration(earlier, Run(s0, labels), e.message);
    var prior :| prior in s0.db.envelopes && prior.message == e.message && prior.id == e.id;
    var later := EvolvedRow(s0, Run(s0, labels), prior);
    SameEnvelopeRow(Run(s0, labels), later, e);
    o := EarlierRow(earlier, prior);
  }

  /** In every run over a migrated database: every mailbox follows the numbers of its chats, exactly
      when before the migration every mailbox followed the time and identifier of its messages. */
  lemma MailboxesFollowChats(s0: Server, earlier: Tables, labels: seq<Label>)
    requires StartsFrom(s0, earlier)
    ensures FollowsChats(Run(s0, labels).db.envelopes) <==> FollowsTime(earlier.envelopes)
  {
    hide StartsFrom, Run, InOrderOfChat, InOrderOfTime, SameBox, Alike;
    var s := Run(s0, labels);
    IsReachable(s0, earlier, labels);
    if FollowsChats(s.db.envelopes) {
      forall o, p | o in earlier.envelopes && p in earlier.envelopes && SameBox(o, p) ensures InOrderOfTime(o, p) {
        var e := LaterRow(s0, earlier, labels, o);
        var f := LaterRow(s0, earlier, labels, p);
        AlikeOrder(e, f, o, p);
        BoxOrder(s, e, f);
      }
    }
    if FollowsTime(earlier.envelopes) {
      forall e, f | e in s.db.envelopes && f in s.db.envelopes && SameBox(e, f) ensures InOrderOfChat(e, f) {
        BoxOrder(s, e, f);
        if BeforeNumbers(s.db.migrated, e.message) && BeforeNumbers(s.db.migrated, f.message) {
          var o := FirstRow(s0, earlier, labels, e);
          var p := FirstRow(s0, earlier, labels, f);
          AlikeOrder(e, f, o, p);
        }
      }
    }
  }

  lemma IsReachable(s0: Server, earlier: Tables, labels: seq<Label>)
    requires StartsFrom(s0, earlier)
    ensures Reachable(Run(s0, labels))
  {
    hide OldTables, Upgraded, Run;
    assert Start(s0);
  }

  lemma BoxOrder(s: Server, e: Envelope, f: Envelope)
    requires Reachable(s) && e in s.db.envelopes && f in s.db.envelopes && SameBox(e, f)
    ensures InOrderOfChat(e, f) <==>
      (BeforeNumbers(s.db.migrated, e.message) && BeforeNumbers(s.db.migrated, f.message) ==> InOrderOfTime(e, f))
  {
    hide Reachable;
    MailboxOrderIsChatOrder(s, e, f);
  }
}
