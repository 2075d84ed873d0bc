/** The chat store: which chats keep their messages in memory, and why a completion that belongs
    to an earlier lifecycle, selection or request changes nothing. */
module ChatRetention {
  import opened Common
  import opened MessageState

  const MAX_CACHED_CHATS: nat := 3

  datatype HistoryState = HistoryState(loading: bool, failed: bool, loaded: bool, cursor: Option<nat>)

  const EMPTY_HISTORY: HistoryState := HistoryState(false, false, false, None)

  /** What belongs to one lifecycle: `requests` are the history loads that may still be applied. */
  datatype Lifecycle = Lifecycle(token: nat, selection: nat, recent: seq<nat>, requests: map<nat, nat>,
                                 loadingMailbox: bool, reloadRequested: bool)

  /** `loads` counts the mailbox loads in flight for the current lifecycle, and `tokens` what has been
      used as a lifecycle or request token; neither is ever read. */
  datatype Store = Store(run: Option<Lifecycle>, selected: Option<nat>, messages: map<nat, seq<Row>>,
                         history: map<nat, HistoryState>, mailboxFailed: bool, loads: nat, tokens: set<nat>)

  datatype Input =
    | Start(token: nat)
    | Dispose
    | Receive(token: nat, messages: seq<Incoming>)
    | Select(chat: nat, request: nat)
    | Restore(token: nat, selected: Option<nat>, request: nat)
    | OpenDirect                    // a new selection begins, its chat is not known yet
    | Opened(token: nat, selection: nat, chat: nat, request: nat)
    | Checked(token: nat, selection: nat, chat: nat, ok: bool)       // the selected chat was fetched again
    | ChatsLoaded(token: nat, selection: nat, last: Option<nat>, request: nat)   // with the chat to select again
    | LoadPrevious(request: nat)
    | Page(token: nat, chat: nat, request: nat, messages: seq<Incoming>, next: Option<nat>)
    | PageFailed(token: nat, chat: nat, request: nat)
    | LoadMailbox(token: nat)
    | MailboxLoaded(token: nat, ok: bool, messages: seq<Incoming>)

  // ---- pieces ----

  function ChatsOf(incoming: seq<Incoming>): (r: set<nat>)
    ensures forall c :: c in r <==> exists m :: m in incoming && m.row.chat == c
  {
    set m | m in incoming :: m.row.chat
  }

  function MergeByChat(current: map<nat, seq<Row>>, incoming: seq<Incoming>): (r: map<nat, seq<Row>>)
    ensures r.Keys == current.Keys + ChatsOf(incoming)
  {
    map c | c in current.Keys + ChatsOf(incoming) :: Merge(ListOf(current, c), OfChat(incoming, c)).0
  }

  function Kept(incoming: seq<Incoming>, chats: set<nat>): (r: seq<Incoming>)
    ensures forall m :: m in r <==> m in incoming && m.row.chat in chats
  {
    if incoming == [] then [] else
    var last := incoming[|incoming| - 1];
    Kept(incoming[..|incoming| - 1], chats) + (if last.row.chat in chats then [last] else [])
  }

  function Without(recent: seq<nat>, chat: nat): (r: seq<nat>)
    ensures |r| <= |recent| && forall c :: c in r <==> c in recent && c != chat
  {
    if recent == [] then [] else (if recent[0] == chat then [] else [recent[0]]) + Without(recent[1..], chat)
  }

  /** The most recently used chats, newest first. */
  function Recent(recent: seq<nat>, chat: nat): seq<nat>
  {
    var all := [chat] + Without(recent, chat);
    if |all| > MAX_CACHED_CHATS then all[..MAX_CACHED_CHATS] else all
  }

  function Only<T>(m: map<nat, T>, keys: seq<nat>): (r: map<nat, T>)
    ensures forall k :: k in r <==> k in m && k in keys
    ensures forall k :: k in r ==> r[k] == m[k]
  {
    map k | k in m && k in keys :: m[k]
  }

  predicate IsRun(s: Store, token: nat)
  {
    s.run.Some? && s.run.value.token == token
  }

  function RetainHistory(s: Store, chat: nat): Store
    requires s.run.Some?
  {
    var recent := Recent(s.run.value.recent, chat);
    s.(run := Some(s.run.value.(recent := recent, requests := Only(s.run.value.requests, recent))),
       messages := Only(s.messages, recent), history := Only(s.history, recent))
  }

  function HistoryOf(s: Store, chat: nat): HistoryState
  {
    if chat in s.history then s.history[chat] else EMPTY_HISTORY
  }

  /** Begins to load a page, the first one or a previous one. */
  function LoadHistory(s: Store, chat: nat, previous: bool, request: nat): Store
    requires s.run.Some?
  {
    var history := HistoryOf(s, chat);
    if history.loading || (if previous then history.cursor.None? else history.loaded) then s else
    s.(run := Some(s.run.value.(requests := s.run.value.requests[chat := request])),
       history := s.history[chat := history.(loading := true, failed := false)], tokens := s.tokens + {request})
  }

  predicate IsRequest(s: Store, token: nat, chat: nat, request: nat)
  {
    IsRun(s, token) && chat in s.run.value.requests && s.run.value.requests[chat] == request
  }

  function SelectAndLoad(s: Store, chat: nat, request: nat): Store
    requires s.run.Some?
  {
    LoadHistory(RetainHistory(s.(selected := Some(chat)), chat), chat, false, request)
  }

  function Cleared(s: Store): Store
  {
    Store(None, None, map[], map[], false, 0, s.tokens)
  }

  function BeginMailbox(s: Store): Store
    requires s.run.Some?
  {
    if s.run.value.loadingMailbox then s.(run := Some(s.run.value.(reloadRequested := true)))
    else s.(run := Some(s.run.value.(loadingMailbox := true)), loads := s.loads + 1)
  }

  function ReceiveStep(s: Store, messages: seq<Incoming>): Store
  {
    s.(messages := MergeByChat(s.messages, Kept(messages, s.history.Keys)))
  }

  function MailboxStep(s: Store, ok: bool, messages: seq<Incoming>): Store
    requires s.run.Some?
  {
    if !s.run.value.loadingMailbox || s.loads == 0 then s else
    var received := if ok then ReceiveStep(s, messages).(mailboxFailed := false) else s.(mailboxFailed := true);
    var done := received.(run := Some(s.run.value.(loadingMailbox := false, reloadRequested := false)),
                          loads := s.loads - 1);
    if s.run.value.reloadRequested then BeginMailbox(done) else done
  }

  /** Fresh tokens are drawn for lifecycles and requests, and the page of a chat holds rows of that
      chat only; an input that says otherwise cannot happen and changes nothing. */
  function Next(s: Store, input: Input): Store
  {
    match input
    case Start(token) =>
      if token in s.tokens then s
      else Cleared(s).(run := Some(Lifecycle(token, 0, [], map[], false, false)), tokens := s.tokens + {token})
    case Dispose => Cleared(s)
    case Receive(token, messages) => if IsRun(s, token) then ReceiveStep(s, messages) else s
    case Select(chat, request) =>
      if s.run.None? || request in s.tokens then s
      else SelectAndLoad(s.(run := Some(s.run.value.(selection := s.run.value.selection + 1))), chat, request)
    case Restore(token, selected, request) =>
      if !IsRun(s, token) || s.run.value.selection != 0 || request in s.tokens then s
      else if selected.None? then s.(selected := None)
      else SelectAndLoad(s, selected.value, request)
    case OpenDirect => if s.run.None? then s else s.(run := Some(s.run.value.(selection := s.run.value.selection + 1)))
    case Opened(token, selection, chat, request) =>
      if !IsRun(s, token) || s.run.value.selection != selection || request in s.tokens then s
        else SelectAndLoad(s, chat, request)
    case Checked(token, selection, chat, ok) =>
      if !IsRun(s, token) || s.run.value.selection != selection || s.selected != Some(chat) then s
      else if ok then s else s.(selected := None)
    case ChatsLoaded(token, selection, last, request) =>
      if !IsRun(s, token) || s.run.value.selection != selection || last.None? || request in s.tokens then s
      else SelectAndLoad(s.(run := Some(s.run.value.(selection := s.run.value.selection + 1))), last.value, request)
    case LoadPrevious(request) =>
      if s.run.None? || s.selected.None? || request in s.tokens then s
      else LoadHistory(s, s.selected.value, HistoryOf(s, s.selected.value).loaded, request)
    case Page(token, chat, request, messages, next) =>
      if !IsRequest(s, token, chat, request) || !(ChatsOf(messages) <= {chat}) then s
      else s.(messages := MergeByChat(s.messages, messages),
              history := s.history[chat := HistoryState(false, false, true, next)],
              run := Some(s.run.value.(requests := s.run.value.requests - {chat})))
    case PageFailed(token, chat, request) =>
      if !IsRequest(s, token, chat, request) then s
      else s.(history := s.history[chat := HistoryOf(s, chat).(loading := false, failed := true)],
              run := Some(s.run.value.(requests := s.run.value.requests - {chat})))
    case LoadMailbox(token) => if IsRun(s, token) then BeginMailbox(s) else s
    case MailboxLoaded(token, ok, messages) => if IsRun(s, token) then MailboxStep(s, ok, messages) else s
  }

  function Run(s: Store, inputs: seq<Input>): Store
  {
    if inputs == [] then s else Next(Run(s, inputs[..|inputs| - 1]), inputs[|inputs| - 1])
  }

  const INITIAL: Store := Store(None, None, map[], map[], false, 0, {})

  // ---- invariant ----

  ghost predicate Distinct(s: seq<nat>)
  {
    forall i, j :: 0 <= i < j < |s| ==> s[i] != s[j]
  }

  /** Everything kept in memory belongs to one of at most three chats, the selected one among them. */
  ghost predicate Retained(s: Store)
  {
    match s.run
    case None => s.messages == map[] && s.history == map[] && s.selected.None? && s.loads == 0
    case Some(run) =>
      && |run.recent| <= MAX_CACHED_CHATS && Distinct(run.recent)
      && (forall c :: c in s.messages || c in s.history || c in run.requests ==> c in run.recent)
      && (s.selected.Some? ==> s.selected.value in run.recent)
      && (forall c :: c in run.requests ==> c in s.history && s.history[c].loading && run.requests[c] in s.tokens)
      && (forall c :: c in s.messages ==> c in s.history)
      && s.loads == (if run.loadingMailbox then 1 else 0) && (run.reloadRequested ==> run.loadingMailbox)
      && run.token in s.tokens
  }

  lemma {:induction false} WithoutDistinct(recent: seq<nat>, chat: nat)
    requires Distinct(recent)
    ensures Distinct(Without(recent, chat))
  {
    if recent != [] {
      WithoutDistinct(recent[1..], chat);
      var rest := Without(recent[1..], chat);
      forall i | 0 <= i < |rest| ensures rest[i] != recent[0] {
        assert rest[i] in rest;
        var j :| 0 <= j < |recent| - 1 && recent[1..][j] == rest[i];
        assert recent[j + 1] == rest[i];
      }
    }
  }

  lemma RecentIsShort(recent: seq<nat>, chat: nat)
    requires Distinct(recent)
    ensures |Recent(recent, chat)| <= MAX_CACHED_CHATS && Distinct(Recent(recent, chat)) && chat in Recent(recent, chat)
  {
    WithoutDistinct(recent, chat);
    var all := [chat] + Without(recent, chat);
    assert all[0] == chat;
    assert |all| > MAX_CACHED_CHATS ==> all[..MAX_CACHED_CHATS][0] == chat;
    forall i, j | 0 <= i < j < |all| ensures all[i] != all[j] { assert j > 0 && all[j] in Without(recent, chat); }
  }

  lemma RetainKeeps(s: Store, chat: nat)
    requires Retained(s) && s.run.Some?
    ensures var after := RetainHistory(s.(selected := Some(chat)), chat);
      Retained(after) && after.run.Some? && after.selected == Some(chat)
  {
    hide Recent, Distinct;
    RecentIsShort(s.run.value.recent, chat);
  }

  lemma SelectKeeps(s: Store, chat: nat, request: nat)
    requires Retained(s) && s.run.Some?
    ensures Retained(SelectAndLoad(s, chat, request))
  {
    hide RetainHistory, LoadHistory, Retained;
    RetainKeeps(s, chat);
    LoadKeeps(RetainHistory(s.(selected := Some(chat)), chat), false, request);
  }

  lemma LoadKeeps(s: Store, previous: bool, request: nat)
    requires Retained(s) && s.run.Some? && s.selected.Some?
    ensures Retained(LoadHistory(s, s.selected.value, previous, request))
  {
    hide Distinct;
  }

  lemma ReceiveKeeps(s: Store, messages: seq<Incoming>)
    requires Retained(s) && s.run.Some?
    ensures Retained(ReceiveStep(s, messages))
  {
    hide Distinct, MergeByChat, Kept;
  }

  lemma MailboxKeeps(s: Store, ok: bool, messages: seq<Incoming>)
    requires Retained(s) && s.run.Some?
    ensures Retained(MailboxStep(s, ok, messages))
  {
    ReceiveKeeps(s, messages);
    hide Distinct, ReceiveStep;
    ReceiveTouches(s, messages);
  }

  lemma ReceiveTouches(s: Store, messages: seq<Incoming>)
    ensures var after := ReceiveStep(s, messages); after == s.(messages := after.messages)
  {
  }

  lemma PageKeeps(s: Store, input: Input)
    requires Retained(s) && (input.Page? || input.PageFailed?)
    ensures Retained(Next(s, input))
  {
    hide Distinct, MergeByChat, Kept;
  }

  lemma NextKeeps(s: Store, input: Input)
    requires Retained(s)
    ensures Retained(Next(s, input))
  {
    hide SelectAndLoad, LoadHistory, ReceiveStep, MailboxStep, MergeByChat;
    match input
    case Select(chat, request) =>
      if s.run.Some? {
        SelectKeeps(s.(run := Some(s.run.value.(selection := s.run.value.selection + 1))), chat, request);
      }
    case ChatsLoaded(_, _, last, request) =>
      if s.run.Some? && last.Some? {
        SelectKeeps(s.(run := Some(s.run.value.(selection := s.run.value.selection + 1))), last.value, request);
      }
    case Restore(_, selected, request) => if s.run.Some? && selected.Some? { SelectKeeps(s, selected.value, request); }
    case Opened(_, _, chat, request) => if s.run.Some? { SelectKeeps(s, chat, request); }
    case LoadPrevious(request) =>
      if s.run.Some? && s.selected.Some? { LoadKeeps(s, HistoryOf(s, s.selected.value).loaded, request); }
    case Receive(_, messages) => if s.run.Some? { ReceiveKeeps(s, messages); }
    case Page(_, _, _, _, _) => PageKeeps(s, input);
    case PageFailed(_, _, _) => PageKeeps(s, input);
    case MailboxLoaded(_, ok, messages) => if s.run.Some? { MailboxKeeps(s, ok, messages); }
    case _ =>
  }

  lemma {:induction false} RunKeeps(inputs: seq<Input>)
    ensures Retained(Run(INITIAL, inputs))
  {
    if inputs == [] {
    } else {
      hide Retained, Next;
      RunKeeps(inputs[..|inputs| - 1]);
      NextKeeps(Run(INITIAL, inputs[..|inputs| - 1]), inputs[|inputs| - 1]);
    }
  }

  /** In every run at most three chats are retained, messages and history are kept for no other, and
      at most one mailbox load is in flight. */
  lemma AtMostThreeChats(inputs: seq<Input>, chat: nat)
    ensures var s := Run(INITIAL, inputs);
      && (s.run.None? ==> s.messages == map[] && s.history == map[])
      && (s.run.Some? ==>
           && |s.run.value.recent| <= 3
           && (chat in s.messages || chat in s.history || s.selected == Some(chat) ==> chat in s.run.value.recent))
      && s.loads <= 1
  {
    hide Run;
    RunKeeps(inputs);
  }

  // ---- stale completions ----

  /** Tokens a lifecycle or request has used; a lifecycle that ended never comes back, and neither
      does a request that was answered, replaced, or evicted with its chat. */
  ghost predicate Gone(s: Store, token: nat, chat: nat, request: nat)
  {
    token in s.tokens && request in s.tokens && !IsRequest(s, token, chat, request)
  }

  lemma GoneStays(s: Store, input: Input, token: nat, chat: nat, request: nat)
    requires Gone(s, token, chat, request)
    ensures Gone(Next(s, input), token, chat, request)
  {
    hide MergeByChat, Kept, SelectAndLoad;
    forall begun: Store, other, pending |
      begun.run.Some? && s.run.Some? && begun == s.(run := begun.run) && pending !in s.tokens
      && begun.run.value == s.run.value.(selection := begun.run.value.selection)
      ensures Gone(SelectAndLoad(begun, other, pending), token, chat, request)
    {
      GoneSelects(s, begun, other, pending, token, chat, request);
    }
  }

  lemma GoneSelects(s: Store, begun: Store, other: nat, pending: nat, token: nat, chat: nat, request: nat)
    requires Gone(s, token, chat, request) && s.run.Some? && begun.run.Some? && begun == s.(run := begun.run)
    requires begun.run.value == s.run.value.(selection := begun.run.value.selection) && pending !in s.tokens
    ensures Gone(SelectAndLoad(begun, other, pending), token, chat, request)
  {
    hide Recent;
  }

  /** A page for an evicted chat, a replaced request or an earlier lifecycle leaves the store as it
      is, however much later it arrives. */
  lemma {:induction false} LatePagesAreInert(s: Store, inputs: seq<Input>, token: nat, chat: nat, request: nat,
                                             messages: seq<Incoming>, next: Option<nat>)
    requires Gone(s, token, chat, request)
    ensures var after := Run(s, inputs);
      && Gone(after, token, chat, request)
      && Next(after, Page(token, chat, request, messages, next)) == after
      && Next(after, PageFailed(token, chat, request)) == after
  {
    hide MergeByChat, Kept, Recent;
    if inputs != [] {
      var before := inputs[..|inputs| - 1];
      LatePagesAreInert(s, before, token, chat, request, messages, next);
      GoneStays(Run(s, before), inputs[|inputs| - 1], token, chat, request);
    }
  }

  /** An input that selects a chat: by the user, for a direct chat just opened, or restored from
      local state or with the loaded list of chats. */
  predicate Selects(s: Store, input: Input, chat: nat)
    requires s.run.Some?
  {
    match input
    case Select(c, request) => c == chat && request !in s.tokens
    case Opened(token, selection, c, request) =>
      c == chat && request !in s.tokens && IsRun(s, token) && selection == s.run.value.selection
    case Restore(token, selected, request) =>
      selected == Some(chat) && request !in s.tokens && IsRun(s, token) && s.run.value.selection == 0
    case ChatsLoaded(token, selection, last, request) =>
      last == Some(chat) && request !in s.tokens && IsRun(s, token) && selection == s.run.value.selection
    case _ => false
  }

  /** Evicting a chat, however another comes to be selected, makes every page still under way for it stale. */
  lemma EvictionCancels(s: Store, input: Input, chat: nat, other: nat, pending: nat)
    requires Retained(s) && s.run.Some? && other in s.run.value.requests && s.run.value.requests[other] == pending
    requires Selects(s, input, chat) && other !in Recent(s.run.value.recent, chat)
    ensures Gone(Next(s, input), s.run.value.token, other, pending)
    ensures other !in Next(s, input).messages && other !in Next(s, input).history
  {
    hide Recent, Distinct, SelectAndLoad;
    match input
    case Select(_, request) =>
      Evicted(s, s.(run := Some(s.run.value.(selection := s.run.value.selection + 1))), chat, request, other, pending);
    case Opened(_, _, _, request) => Evicted(s, s, chat, request, other, pending);
    case Restore(_, _, request) => Evicted(s, s, chat, request, other, pending);
    case ChatsLoaded(_, _, _, request) =>
      Evicted(s, s.(run := Some(s.run.value.(selection := s.run.value.selection + 1))), chat, request, other, pending);
  }

  lemma Evicted(s: Store, begun: Store, chat: nat, request: nat, other: nat, pending: nat)
    requires Retained(s) && s.run.Some? && other in s.run.value.requests && s.run.value.requests[other] == pending
    requires begun == s.(run := begun.run) && begun.run.Some?
    requires begun.run.value == s.run.value.(selection := begun.run.value.selection)
    requires other !in Recent(s.run.value.recent, chat)
    ensures var after := SelectAndLoad(begun, chat, request);
      Gone(after, s.run.value.token, other, pending) && other !in after.messages && other !in after.history
  {
    hide Recent, Distinct;
    RecentIsShort(s.run.value.recent, chat);
  }

  /** The lifecycle has ended, or a later selection has begun in it. */
  ghost predicate Overtaken(s: Store, token: nat, selection: nat)
  {
    token in s.tokens && (IsRun(s, token) ==> selection < s.run.value.selection)
  }

  lemma OvertakenStays(s: Store, input: Input, token: nat, selection: nat)
    requires Overtaken(s, token, selection)
    ensures Overtaken(Next(s, input), token, selection)
  {
    hide MergeByChat, Kept, Recent;
  }

  /** A completion that counts only under the selection it was begun with; a restoration belongs to
      the first, before any. Pages of the history are not of this kind: their request decides. */
  predicate OfSelection(late: Input, token: nat, selection: nat)
  {
    match late
    case Opened(t, n, _, _) => t == token && n == selection
    case Checked(t, n, _, _) => t == token && n == selection
    case ChatsLoaded(t, n, _, _) => t == token && n == selection
    case Restore(t, _, _) => t == token && selection == 0
    case _ => false
  }

  /** Once a later selection has begun, no completion guarded by an earlier one changes the store any
      more. */
  lemma {:induction false} OlderSelectionsAreInert(s: Store, inputs: seq<Input>, token: nat, selection: nat,
                                                   late: Input)
    requires Overtaken(s, token, selection) && OfSelection(late, token, selection)
    ensures var after := Run(s, inputs); Overtaken(after, token, selection) && Next(after, late) == after
  {
    hide MergeByChat, Kept, Recent;
    if inputs != [] {
      var before := inputs[..|inputs| - 1];
      OlderSelectionsAreInert(s, before, token, selection, late);
      OvertakenStays(Run(s, before), inputs[|inputs| - 1], token, selection);
    }
  }

  ghost predicate Ended(s: Store, token: nat)
  {
    token in s.tokens && !IsRun(s, token)
  }

  /** Once a lifecycle has ended, nothing that was begun in it changes the store any more. */
  lemma {:induction false} EndedLifecyclesAreInert(s: Store, inputs: seq<Input>, token: nat, late: Input)
    requires Ended(s, token)
    requires late.Receive? || late.Restore? || late.Opened? || late.Checked? || late.ChatsLoaded? || late.Page?
      || late.PageFailed? || late.MailboxLoaded? || late.LoadMailbox?
    requires late.token == token
    ensures var after := Run(s, inputs); Ended(after, token) && Next(after, late) == after
  {
    hide MergeByChat, Kept, Recent;
    if inputs != [] {
      var before := inputs[..|inputs| - 1];
      EndedLifecyclesAreInert(s, before, token, late);
      EndedStays(Run(s, before), inputs[|inputs| - 1], token);
    }
  }

  lemma EndedStays(s: Store, input: Input, token: nat)
    requires Ended(s, token)
    ensures Ended(Next(s, input), token)
  {
    hide MergeByChat, Kept, Recent;
  }
}
