/** The paging loop of the sync manager against a mailbox that stands still: how many pages it
    takes and what the store holds when it stops. */
module InboxPaging {
  import opened Common
  import opened MessageTables
  import opened ServerTransactions
  import opened ServerInvariants
  import opened InboxStore
  import opened InboxAgreement

  /** The number of requests for `n` unseen envelopes. */
  function Pages(n: nat, limit: nat): (pages: nat)
    requires limit >= 1
  {
    if n <= limit then 1 else 1 + Pages(n - limit, limit)
  }

  /** It is max(1, ceil(n / limit)). */
  lemma {:induction false} PagesIsCeiling(n: nat, limit: nat)
    requires limit >= 1
    ensures Pages(n, limit) >= 1 && n <= Pages(n, limit) * limit
    ensures n == 0 ==> Pages(n, limit) == 1
    ensures n > 0 ==> (Pages(n, limit) - 1) * limit < n
  {
    if n > limit {
      PagesIsCeiling(n - limit, limit);
      var rest := Pages(n - limit, limit);
      assert rest * limit == (rest - 1) * limit + limit;
      assert (1 + rest) * limit == rest * limit + limit;
    }
  }

  /** One page of a still mailbox: at most `limit` rows, and more only if rows are left over. */
  lemma StillPage(s: Server, device: nat, after: nat, limit: nat)
    requires TablesInv(s.db, s.contents) && limit >= 1 && after <= |Log(s, device)|
    ensures var page, left := MailboxPage(s, device, after, limit), |Log(s, device)| - after;
      && ValidPage(device, after, page) && Range(s, device, after, page.envelopes)
      && page.nextSeq == after + (if left > limit then limit else left) && (page.hasMore <==> left > limit)
  {
    hide TablesInv, PayloadState, RowContents, Range;
    ServedPageIsValid(s, device, after, limit);
    LogIsOk(s, device);
    AboveIsTail(Log(s, device), after);
  }

  lemma CommitStillPage(s: Server, store: Store, scope: Scope, page: Page)
    requires TablesInv(s.db, s.contents) && Agrees(s, store) && ValidScope(store, scope)
    requires Range(s, scope.device, store.cursor, page.envelopes) && page.nextSeq == store.cursor + |page.envelopes|
    ensures var r := CommitPage(store, scope, store.cursor, page.envelopes, page.nextSeq);
      r.Ok? && Agrees(s, r.value.0) && ValidScope(r.value.0, scope) && r.value.0.cursor == page.nextSeq
  {
    hide TablesInv, Agrees, RowsKept, Fresh;
    LogIsOk(s, store.device);
    CommitKeepsAgreement(s, store, scope, store.cursor, store.cursor, page.envelopes);
  }

  method PageMailbox(inbox: DurableInbox, scope: Scope, s: Server, limit: nat) returns (r: Result<nat, StoreError>)
    requires TablesInv(s.db, s.contents) && limit >= 1 && Agrees(s, inbox.Contents())
    modifies inbox
    ensures r.Ok? <==> ValidScope(old(inbox.Contents()), scope)
    ensures r.Err? ==> inbox.Contents() == old(inbox.Contents())
    ensures r.Ok? ==> Agrees(s, inbox.Contents()) && inbox.cursor == |Log(s, scope.device)|
    ensures r.Ok? ==> r.value == Pages(|Log(s, scope.device)| - old(inbox.cursor), limit)
  {
    hide TablesInv, Agrees, Range, MailboxPage, CommitPage;
    if inbox.device != scope.device || inbox.generation != scope.generation { return Err(GenerationChanged); }
    var pages := 0;
    ghost var total: nat := |Log(s, scope.device)|;
    CursorBounded(s, inbox.Contents());
    ghost var first: nat := total - inbox.cursor;
    while true
      invariant Agrees(s, inbox.Contents()) && ValidScope(inbox.Contents(), scope) && inbox.cursor <= total
      invariant pages + Pages(total - inbox.cursor, limit) == Pages(first, limit)
      decreases total - inbox.cursor
    {
      var cursor := inbox.cursor;
      var page := MailboxPage(s, scope.device, cursor, limit);
      StillPage(s, scope.device, cursor, limit);
      var ok := CheckPage(scope.device, cursor, page);
      CommitStillPage(s, inbox.Contents(), scope, page);
      var committed := inbox.Commit(scope, cursor, page.envelopes, page.nextSeq);
      pages := pages + 1;
      if !page.hasMore { return Ok(pages); }
    }
  }

  lemma CursorBounded(s: Server, store: Store)
    requires Agrees(s, store)
    ensures store.cursor <= |Log(s, store.device)|
  {
  }
}
