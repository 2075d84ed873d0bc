/** When a local store agrees with the server: it holds exactly the envelopes 1..cursor of its
    device, with the server's immutable fields, and no payload that differs from what was sent. */
module InboxAgreement {
  import opened Common
  import opened Base64
  import opened MessageTables
  import opened ServerTransactions
  import opened ServerInvariants
  import opened InboxStore

  /** A copy of a stored row taken at some time: what is set in it is what the row holds. */
  ghost predicate CopyOf(contents: map<nat, Bytes>, v: MailboxEnvelope, row: Envelope)
  {
    && v.id == row.id && v.routing == Render(row).routing
    && (v.chatSeq.Some? ==> v.chatSeq.value == row.message.chatSeq)
    && (if v.payload.Some? then row.id in contents && v.payload.value == contents[row.id] else row.payload.None?)
    && (v.deliveredAt.Some? ==> row.deliveredAt == v.deliveredAt)
    && (v.purgedAt.Some? ==> row.purgedAt == v.purgedAt)
  }

  ghost function Log(s: Server, device: nat): seq<Envelope>
  {
    Mailbox(s.db.envelopes, device)
  }

  /** `v` is a copy of the row at its own place in its device's mailbox. */
  ghost predicate Known(s: Server, v: MailboxEnvelope)
  {
    && 1 <= v.routing.mailboxSeq <= |Log(s, v.routing.device)|
    && CopyOf(s.contents, v, Log(s, v.routing.device)[v.routing.mailboxSeq - 1])
  }

  /** A copy made by this version, which always carries the chat number. */
  ghost predicate Fresh(s: Server, v: MailboxEnvelope)
  {
    Known(s, v) && v.chatSeq.Some?
  }

  ghost predicate Agrees(s: Server, store: Store)
  {
    var log := Log(s, store.device);
    && store.cursor <= |log|
    && (forall i :: 0 <= i < store.cursor ==>
        log[i].id in store.rows && CopyOf(s.contents, store.rows[log[i].id], log[i]))
    && (forall id :: id in store.rows ==> exists i :: 0 <= i < store.cursor && log[i].id == id)
  }

  /** Facts about a mailbox log that follow from the server's invariant. */
  ghost predicate LogOk(s: Server, device: nat)
  {
    var log := Log(s, device);
    && (forall i :: 0 <= i < |log| ==> log[i].device == device && log[i].mailboxSeq == i + 1)
    && IdsDiffer(log)
    && (forall i :: 0 <= i < |log| ==> PayloadState(log[i]) && RowContents(s.contents, log[i]))
  }

  lemma LogIsOk(s: Server, device: nat)
    requires TablesInv(s.db, s.contents)
    ensures LogOk(s, device)
  {
    hide ChatsGapless, MailboxesInChatOrder, ClientIdsUnique, AccountsKnown, PositionsBounded, RowContents,
         PayloadState;
    var log := Log(s, device);
    MailboxMembers(s.db.envelopes, device);
    LogNumbers(s, device);
    DistinctIds(s.db.envelopes, device);
    forall i | 0 <= i < |log|
      ensures log[i].device == device && PayloadState(log[i]) && RowContents(s.contents, log[i])
    {
      assert log[i] in log;
    }
  }

  lemma LogNumbers(s: Server, device: nat)
    requires BoxesGapless(s.db)
    ensures forall i :: 0 <= i < |Log(s, device)| ==> Log(s, device)[i].mailboxSeq == i + 1
  {
    if device in s.db.mailboxes {
      assert NumberedRows(Log(s, device), s.db.mailboxes[device]);
    } else {
      NoMailbox(s.db.envelopes, device);
    }
  }

  ghost predicate IdsDiffer(rows: seq<Envelope>)
  {
    forall i, j :: 0 <= i < j < |rows| ==> rows[i].id != rows[j].id
  }

  lemma {:induction false} DistinctIds(rows: seq<Envelope>, device: nat)
    requires IdsDiffer(rows)
    ensures IdsDiffer(Mailbox(rows, device))
  {
    if rows != [] {
      var n := |rows| - 1;
      DistinctIds(rows[..n], device);
      MailboxMembers(rows[..n], device);
      var log := Mailbox(rows[..n], device);
      forall i | 0 <= i < |log| ensures log[i].id != rows[n].id {
        assert log[i] in log && log[i] in rows[..n];
        var k :| 0 <= k < n && rows[..n][k] == log[i];
        assert rows[k] == log[i];
      }
    }
  }

  // ---- what server steps and store commits preserve ----

  /** The server as a client sees it only grows. */
  ghost predicate ServerGrows(s: Server, after: Server)
  {
    && (forall d :: RowsEvolve(Log(s, d), Log(after, d)))
    && (forall id :: id in s.contents ==> id in after.contents && after.contents[id] == s.contents[id])
  }

  lemma CopyStays(s: Server, after: Server, v: MailboxEnvelope, row: Envelope, row': Envelope)
    requires CopyOf(s.contents, v, row) && RowEvolves(row, row')
    requires forall id :: id in s.contents ==> id in after.contents && after.contents[id] == s.contents[id]
    ensures CopyOf(after.contents, v, row')
  {
  }

  lemma KnownStays(s: Server, after: Server, v: MailboxEnvelope)
    requires Known(s, v) && ServerGrows(s, after)
    ensures Known(after, v)
  {
    hide CopyOf, RowEvolves;
    var d, i := v.routing.device, v.routing.mailboxSeq - 1;
    assert RowsEvolve(Log(s, d), Log(after, d));
    assert RowEvolves(Log(s, d)[i], Log(after, d)[i]);
    CopyStays(s, after, v, Log(s, d)[i], Log(after, d)[i]);
  }

  lemma AgreesStays(s: Server, after: Server, store: Store)
    requires Agrees(s, store) && ServerGrows(s, after)
    ensures Agrees(after, store)
  {
    hide CopyOf;
    var d := store.device;
    var log, log' := Log(s, d), Log(after, d);
    assert RowsEvolve(log, log');
    forall i | 0 <= i < store.cursor
      ensures log'[i].id == log[i].id && CopyOf(after.contents, store.rows[log[i].id], log'[i])
    {
      assert RowEvolves(log[i], log'[i]);
      CopyStays(s, after, store.rows[log[i].id], log[i], log'[i]);
    }
  }

  /** Merging a newer or older copy over a copy gives a copy: nothing received is lost. */
  lemma MergeIsCopy(contents: map<nat, Bytes>, e: MailboxEnvelope, existing: Option<MailboxEnvelope>, row: Envelope)
    requires CopyOf(contents, e, row) && (existing.Some? ==> CopyOf(contents, existing.value, row))
    ensures CopyOf(contents, MergeRow(e, existing), row)
    ensures existing.Some? && existing.value.payload.Some? ==> MergeRow(e, existing).payload == existing.value.payload
    ensures existing.Some? && existing.value.chatSeq.Some? ==> MergeRow(e, existing).chatSeq == existing.value.chatSeq
    ensures e.chatSeq.Some? ==> MergeRow(e, existing).chatSeq == e.chatSeq
  {
  }

  /** Copies of the rows a+1..b of a mailbox, in order. */
  ghost predicate Range(s: Server, device: nat, a: nat, es: seq<MailboxEnvelope>)
  {
    forall i :: 0 <= i < |es| ==>
      Fresh(s, es[i]) && es[i].routing.device == device && es[i].routing.mailboxSeq == a + i + 1
  }

  /** The rows of the mailbox up to `n`, and no others, are stored. */
  ghost predicate HoldsUpTo(s: Server, device: nat, rows: map<nat, MailboxEnvelope>, n: nat)
  {
    var log := Log(s, device);
    && n <= |log|
    && (forall i :: 0 <= i < n ==> log[i].id in rows && CopyOf(s.contents, rows[log[i].id], log[i]))
    && (forall id :: id in rows ==> exists i :: 0 <= i < n && log[i].id == id)
  }

  /** Nothing stored is lost: payloads and chat numbers stay, rows are never removed. */
  ghost predicate RowsKept(rows: map<nat, MailboxEnvelope>, after: map<nat, MailboxEnvelope>)
  {
    forall id :: id in rows ==> id in after && RowKept(rows[id], after[id])
  }

  ghost predicate RowKept(a: MailboxEnvelope, b: MailboxEnvelope)
  {
    && (a.payload.Some? ==> b.payload == a.payload)
    && (a.chatSeq.Some? ==> b.chatSeq == a.chatSeq)
    && a.routing == b.routing
  }

  lemma MergeOneKeeps(s: Server, device: nat, rows: map<nat, MailboxEnvelope>, n: nat, e: MailboxEnvelope)
    requires LogOk(s, device) && HoldsUpTo(s, device, rows, n)
    requires Fresh(s, e) && e.routing.device == device && e.routing.mailboxSeq <= n + 1
    ensures var after := rows[e.id := MergeRow(e, Lookup(rows, e.id))];
      && HoldsUpTo(s, device, after, if e.routing.mailboxSeq == n + 1 then n + 1 else n)
      && RowsKept(rows, after) && after[e.id].chatSeq.Some?
  {
    hide CopyOf, MergeRow;
    var log, k, merged := Log(s, device), e.routing.mailboxSeq - 1, MergeRow(e, Lookup(rows, e.id));
    CopyId(s.contents, e, log[k]);
    MergedCopy(s, device, rows, n, e);
    var after := rows[e.id := merged];
    var n' := if e.routing.mailboxSeq == n + 1 then n + 1 else n;
    forall i | 0 <= i < n' ensures log[i].id in after && CopyOf(s.contents, after[log[i].id], log[i]) {
      if i != k { assert log[i].id != log[k].id; }
    }
    forall id | id in after ensures exists i :: 0 <= i < n' && log[i].id == id {
      if id != e.id {
        var i :| 0 <= i < n && log[i].id == id;
      } else {
        assert log[k].id == e.id;
      }
    }
  }

  /** The stored row an envelope is merged into is its own. */
  lemma MergedCopy(s: Server, device: nat, rows: map<nat, MailboxEnvelope>, n: nat, e: MailboxEnvelope)
    requires LogOk(s, device) && HoldsUpTo(s, device, rows, n)
    requires Fresh(s, e) && e.routing.device == device && e.routing.mailboxSeq <= n + 1
    ensures var merged := MergeRow(e, Lookup(rows, e.id));
      && CopyOf(s.contents, merged, Log(s, device)[e.routing.mailboxSeq - 1]) && merged.chatSeq.Some?
      && (e.id in rows ==> e.routing.mailboxSeq <= n && RowKept(rows[e.id], merged))
  {
    hide CopyOf, MergeRow, PayloadState, RowContents;
    var log, k := Log(s, device), e.routing.mailboxSeq - 1;
    CopyId(s.contents, e, log[k]);
    if e.id in rows {
      var i :| 0 <= i < n && log[i].id == e.id;
      assert i == k;
      CopyId(s.contents, rows[e.id], log[k]);
    }
    MergeIsCopy(s.contents, e, Lookup(rows, e.id), log[k]);
    CopyId(s.contents, MergeRow(e, Lookup(rows, e.id)), log[k]);
  }

  lemma CopyId(contents: map<nat, Bytes>, v: MailboxEnvelope, row: Envelope)
    requires CopyOf(contents, v, row)
    ensures v.id == row.id && v.routing == Render(row).routing
  {
  }

  lemma {:induction false} MergeRangeKeeps(s: Server, device: nat, rows: map<nat, MailboxEnvelope>, n: nat, a: nat,
                                           es: seq<MailboxEnvelope>)
    requires LogOk(s, device) && HoldsUpTo(s, device, rows, n) && Range(s, device, a, es) && a <= n
    ensures HoldsUpTo(s, device, MergeRows(rows, es).0, Max(n, a + |es|))
    ensures RowsKept(rows, MergeRows(rows, es).0)
    ensures forall i :: 0 <= i < |es| ==>
      es[i].id in MergeRows(rows, es).0 && MergeRows(rows, es).0[es[i].id].chatSeq.Some?
  {
    hide HoldsUpTo, LogOk, Fresh;
    if es != [] {
      var m := |es| - 1;
      var before := MergeRows(rows, es[..m]).0;
      MergeRangeKeeps(s, device, rows, n, a, es[..m]);
      MergeOneKeeps(s, device, before, Max(n, a + m), es[m]);
      assert forall i :: 0 <= i < m ==> es[..m][i] == es[i];
    }
  }

  /** Every commit the client makes writes copies of consecutive rows that start at or below
      its cursor; then the store still holds exactly the rows up to its new cursor. */
  lemma CommitKeepsAgreement(s: Server, store: Store, scope: Scope, expected: nat, a: nat, es: seq<MailboxEnvelope>)
    requires LogOk(s, store.device) && Agrees(s, store) && Range(s, scope.device, a, es) && a <= expected
    ensures var next := Max(expected, a + |es|);
      match CommitPage(store, scope, expected, es, next)
      case Err(_) => true
      case Ok(result) =>
        && Agrees(s, result.0) && RowsKept(store.rows, result.0.rows)
        && result.0 == store.(cursor := next, rows := result.0.rows)
        && expected == store.cursor && ValidScope(store, scope)
        && forall i :: 0 <= i < |es| ==> es[i].id in result.0.rows && result.0.rows[es[i].id].chatSeq.Some?
  {
    hide LogOk, Range, CopyOf, RowsKept;
    if CommitPage(store, scope, expected, es, Max(expected, a + |es|)).Ok? {
      assert HoldsUpTo(s, store.device, store.rows, store.cursor);
      MergeRangeKeeps(s, store.device, store.rows, store.cursor, a, es);
    }
  }

  // ---- pages ----

  /** The rows of the mailbox query: those numbered above `after`, in order. */
  function Above(rows: seq<Envelope>, after: int): (r: seq<Envelope>)
  {
    if rows == [] then [] else
    var last := rows[|rows| - 1];
    Above(rows[..|rows| - 1], after) + (if last.mailboxSeq > after then [last] else [])
  }

  function Rendered(rows: seq<Envelope>): (r: seq<MailboxEnvelope>)
    ensures |r| == |rows| && forall i :: 0 <= i < |rows| ==> r[i] == Render(rows[i])
  {
    seq(|rows|, i requires 0 <= i < |rows| => Render(rows[i]))
  }

  /** The answer to a mailbox request: one row more than the limit is read to learn whether there is more. */
  function MailboxPage(s: Server, device: nat, after: nat, limit: nat): Page
    requires limit >= 1
  {
    var found := Above(Mailbox(s.db.envelopes, device), after);
    var selected := if |found| > limit then found[..limit] else found;
    Page(Rendered(selected), if selected == [] then after else selected[|selected| - 1].mailboxSeq, |found| > limit)
  }

  lemma {:induction false} AboveIsTail(rows: seq<Envelope>, after: nat)
    requires forall i :: 0 <= i < |rows| ==> rows[i].mailboxSeq == i + 1
    ensures Above(rows, after) == if after >= |rows| then [] else rows[after..]
  {
    if rows != [] {
      var n := |rows| - 1;
      AboveIsTail(rows[..n], after);
      if after < n {
        assert rows[after..] == rows[..n][after..] + [rows[n]];
      } else if after == n {
        assert rows[n..] == [rows[n]];
      }
    }
  }

  lemma RenderIsFresh(s: Server, device: nat, i: nat)
    requires LogOk(s, device) && i < |Log(s, device)|
    ensures Fresh(s, Render(Log(s, device)[i]))
  {
    assert PayloadState(Log(s, device)[i]) && RowContents(s.contents, Log(s, device)[i]);
  }

  /** Every page the server can serve passes the client's check, and what it leaves out lies beyond it. */
  lemma ServedPageIsValid(s: Server, device: nat, after: nat, limit: nat)
    requires TablesInv(s.db, s.contents) && limit >= 1
    ensures var page := MailboxPage(s, device, after, limit);
      && ValidPage(device, after, page) && Range(s, device, after, page.envelopes)
      && (page.hasMore ==> |page.envelopes| == limit)
      && (!page.hasMore ==> page.nextSeq >= |Log(s, device)|)
  {
    hide TablesInv, Fresh, LogOk;
    LogIsOk(s, device);
    var log, page := Log(s, device), MailboxPage(s, device, after, limit);
    PageIsSlice(s, device, after, limit);
    forall i | 0 <= i < |page.envelopes|
      ensures Fresh(s, page.envelopes[i]) && page.envelopes[i].routing.device == device
      ensures page.envelopes[i].routing.mailboxSeq == after + i + 1
    {
      hide MailboxPage;
      RenderIsFresh(s, device, after + i);
      PlaceInLog(s, device, after + i);
    }
  }

  lemma PlaceInLog(s: Server, device: nat, i: nat)
    requires LogOk(s, device) && i < |Log(s, device)|
    ensures Log(s, device)[i].device == device && Log(s, device)[i].mailboxSeq == i + 1
  {
  }

  lemma PageIsSlice(s: Server, device: nat, after: nat, limit: nat)
    requires LogOk(s, device) && limit >= 1
    ensures var log, page := Log(s, device), MailboxPage(s, device, after, limit);
      && (forall i :: 0 <= i < |page.envelopes| ==> after + i < |log| && page.envelopes[i] == Render(log[after + i]))
      && page.nextSeq == after + |page.envelopes|
      && (page.hasMore ==> |page.envelopes| == limit)
      && (!page.hasMore ==> page.nextSeq >= |log|)
  {
    hide PayloadState, RowContents;
    AboveIsTail(Log(s, device), after);
  }
}
