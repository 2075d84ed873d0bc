/** Read positions end to end: any number of tabs over one durable store, the server's stored
    positions, and a network that may delay, repeat and reorder every cursor. */
module ReadCursors {
  import opened MessageTables
  import opened ServerTransactions
  import opened ServerInvariants
  import opened ServerTheorems
  import opened ReadStates

  datatype Tab = Tab(memory: map<nat, ReadState>, arrived: seq<(nat, ReadState)>)

  /** `sent` are cursors the server has put on the network. `merged` and `published` record what
      each store and each tab has merged per chat; they are never read. */
  datatype World = World(server: Server, user: nat, store: map<nat, ReadState>, tabs: map<nat, Tab>,
                         sent: set<ReadCursor>, merged: map<nat, seq<ReadState>>,
                         published: map<nat, map<nat, seq<ReadState>>>)

  datatype Event =
    | ServerStep(step: Label)
    | Report(chat: nat, user: nat)                        // in a page, a live event or an answer
    | OpenTab(tab: nat)                                   // also: the scope changed and the memory is cleared
    | MergeCursor(tab: nat, cursor: ReadCursor)
    | Confirm(tab: nat, wanted: nat, cursor: ReadCursor)  // the answer to an advance that asked for `wanted`
    | Read(tab: nat, chat: nat, position: int)
    | Restore(tab: nat, chat: nat)
    | Publish(tab: nat, i: nat)

  function CounterOf(db: Tables, chat: nat): nat
  {
    if chat in db.chats then db.chats[chat].lastSeq else 0
  }

  function PositionOf(db: Tables, chat: nat, user: nat): nat
  {
    if (chat, user) in db.positions then db.positions[(chat, user)] else 0
  }

  function StateOf(states: map<nat, ReadState>, chat: nat): ReadState
  {
    if chat in states then states[chat] else NOTHING_READ
  }

  function Log(logs: map<nat, seq<ReadState>>, chat: nat): seq<ReadState>
  {
    if chat in logs then logs[chat] else []
  }

  /** A durable update; the new state is on its way to the tab that made it. */
  function Update(w: World, t: nat, chat: nat, change: ReadState): World
    requires t in w.tabs
  {
    var state := Join(StateOf(w.store, chat), change);
    w.(store := w.store[chat := state], merged := w.merged[chat := Log(w.merged, chat) + [change]],
       tabs := w.tabs[t := w.tabs[t].(arrived := w.tabs[t].arrived + [(chat, state)])])
  }

  function PublishStep(w: World, t: nat, i: nat): World
    requires t in w.tabs && t in w.published
  {
    var tab := w.tabs[t];
    if i >= |tab.arrived| then w else
    var (chat, state) := tab.arrived[i];
    var logs := w.published[t];
    w.(tabs := w.tabs[t := tab.(memory := tab.memory[chat := Join(StateOf(tab.memory, chat), state)])],
       published := w.published[t := logs[chat := Log(logs, chat) + [state]]])
  }

  function Next(w: World, event: Event): World
  {
    match event
    case ServerStep(l) => w.(server := Apply(w.server, l))
    case Report(chat, user) => w.(sent := w.sent + {ReadCursor(chat, user, PositionOf(w.server.db, chat, user))})
    case OpenTab(t) => w.(tabs := w.tabs[t := Tab(map[], [])], published := w.published[t := map[]])
    case MergeCursor(t, c) => if t !in w.tabs || c !in w.sent then w else Update(w, t, c.chat, FromCursor(w.user, c))
    case Confirm(t, wanted, c) =>
      if t !in w.tabs || c !in w.sent || c.user != w.user || c.position < wanted then w
      else Update(w, t, c.chat, FromCursor(w.user, c))
    case Read(t, chat, position) =>
      if t !in w.tabs || position < 1 || position <= StateOf(w.tabs[t].memory, chat).local then w
        else Update(w, t, chat, FromReading(position))
    case Restore(t, chat) =>
      if t !in w.tabs || chat !in w.store then w
      else w.(tabs := w.tabs[t := w.tabs[t].(arrived := w.tabs[t].arrived + [(chat, w.store[chat])])])
    case Publish(t, i) => if t !in w.tabs || t !in w.published then w else PublishStep(w, t, i)
  }

  function History(w: World, events: seq<Event>): World
  {
    if events == [] then w else Next(History(w, events[..|events| - 1]), events[|events| - 1])
  }

  // ---- invariants ----

  /** What the client holds of a chat never exceeds what the server has stored. */
  ghost predicate Bounded(db: Tables, user: nat, chat: nat, s: ReadState)
  {
    && s.confirmed <= s.local && s.confirmed <= PositionOf(db, chat, user)
    && (s.peer == 0 || exists peer :: peer != user && s.peer <= PositionOf(db, chat, peer))
  }

  ghost predicate CursorOk(db: Tables, c: ReadCursor)
  {
    c.position <= PositionOf(db, c.chat, c.user)
  }

  ghost predicate StoreOk(w: World)
  {
    && (forall chat :: StateOf(w.store, chat) == JoinAll(Log(w.merged, chat)))
    && (forall chat :: Bounded(w.server.db, w.user, chat, StateOf(w.store, chat)))
  }

  ghost predicate TabOk(w: World, tab: Tab, logs: map<nat, seq<ReadState>>)
  {
    && (forall a :: a in tab.arrived ==> Within(a.1, StateOf(w.store, a.0)) && a.1.confirmed <= a.1.local)
    && (forall chat :: StateOf(tab.memory, chat) == JoinAll(Log(logs, chat)))
    && (forall chat :: Within(StateOf(tab.memory, chat), StateOf(w.store, chat)))
    && (forall chat :: StateOf(tab.memory, chat).confirmed <= StateOf(tab.memory, chat).local)
  }

  ghost predicate TabsOk(w: World)
  {
    w.tabs.Keys == w.published.Keys && forall t :: t in w.tabs ==> TabOk(w, w.tabs[t], w.published[t])
  }

  ghost predicate WorldOk(w: World)
  {
    Inv(w.server) && StoreOk(w) && TabsOk(w) && forall c :: c in w.sent ==> CursorOk(w.server.db, c)
  }

  ghost predicate PositionsGrow(db: Tables, after: Tables)
  {
    forall chat, user :: PositionOf(db, chat, user) <= PositionOf(after, chat, user)
  }

  lemma StepPositions(s: Server, l: Label)
    requires Inv(s)
    ensures PositionsGrow(s.db, Apply(s, l).db)
  {
    hide Inv, Apply;
    forall chat: nat, user: nat ensures PositionOf(s.db, chat, user) <= PositionOf(Apply(s, l).db, chat, user) {
      if (chat, user) in s.db.positions { PositionsAdvance(s, l, chat, user); }
    }
  }

  lemma BoundedStays(db: Tables, after: Tables, user: nat, chat: nat, s: ReadState)
    requires Bounded(db, user, chat, s) && PositionsGrow(db, after)
    ensures Bounded(after, user, chat, s)
  {
    hide PositionOf;
    if s.peer != 0 {
      var peer :| peer != user && s.peer <= PositionOf(db, chat, peer);
      assert s.peer <= PositionOf(after, chat, peer);
    }
  }

  lemma JoinBounded(db: Tables, user: nat, chat: nat, a: ReadState, b: ReadState)
    requires Bounded(db, user, chat, a) && Bounded(db, user, chat, b)
    ensures Bounded(db, user, chat, Join(a, b))
  {
    hide PositionOf;
  }

  lemma CursorBounded(db: Tables, user: nat, c: ReadCursor)
    requires CursorOk(db, c)
    ensures Bounded(db, user, c.chat, FromCursor(user, c))
  {
    hide PositionOf;
  }

  lemma JoinAllLast(merged: seq<ReadState>, s: ReadState)
    ensures JoinAll(merged + [s]) == Join(JoinAll(merged), s)
  {
    assert (merged + [s])[..|merged|] == merged;
  }

  lemma ServerKeeps(w: World, l: Label)
    requires WorldOk(w)
    ensures WorldOk(w.(server := Apply(w.server, l)))
  {
    hide Inv, Apply, Bounded, JoinAll, PositionOf, TabOk;
    var after := w.(server := Apply(w.server, l));
    ApplyKeeps(w.server, l);
    StepPositions(w.server, l);
    forall chat ensures Bounded(after.server.db, w.user, chat, StateOf(after.store, chat)) {
      BoundedStays(w.server.db, after.server.db, w.user, chat, StateOf(w.store, chat));
    }
    forall t | t in after.tabs ensures TabOk(after, after.tabs[t], after.published[t]) {
      assert TabOk(w, w.tabs[t], w.published[t]);
      TabStays(w, after, w.tabs[t], w.published[t]);
    }
  }

  lemma TabStays(w: World, after: World, tab: Tab, logs: map<nat, seq<ReadState>>)
    requires TabOk(w, tab, logs) && forall chat :: Within(StateOf(w.store, chat), StateOf(after.store, chat))
    ensures TabOk(after, tab, logs)
  {
    hide JoinAll, StateOf;
  }

  lemma UpdateKeeps(w: World, t: nat, chat: nat, change: ReadState)
    requires WorldOk(w) && t in w.tabs && Bounded(w.server.db, w.user, chat, change)
    ensures WorldOk(Update(w, t, chat, change))
  {
    hide Inv, Bounded, JoinAll, CursorOk, TabOk;
    var after := Update(w, t, chat, change);
    StoreUpdated(w, t, chat, change);
    var state := StateOf(after.store, chat);
    forall c ensures Within(StateOf(w.store, c), StateOf(after.store, c)) {}
    BoundedConfirms(w.server.db, w.user, chat, state);
    hide StateOf, StoreOk;
    forall o | o in after.tabs ensures TabOk(after, after.tabs[o], after.published[o]) {
      assert TabOk(w, w.tabs[o], w.published[o]);
      TabStays(w, after, w.tabs[o], w.published[o]);
      if o == t { ArrivedOk(after, w.tabs[t], w.published[t], chat); }
    }
  }

  lemma StoreUpdated(w: World, t: nat, chat: nat, change: ReadState)
    requires StoreOk(w) && t in w.tabs && Bounded(w.server.db, w.user, chat, change)
    ensures StoreOk(Update(w, t, chat, change))
    ensures Bounded(w.server.db, w.user, chat, StateOf(Update(w, t, chat, change).store, chat))
  {
    hide Bounded, JoinAll;
    var after := Update(w, t, chat, change);
    JoinBounded(w.server.db, w.user, chat, StateOf(w.store, chat), change);
    JoinAllLast(Log(w.merged, chat), change);
    forall c: nat ensures StateOf(after.store, c) == JoinAll(Log(after.merged, c)) {
      assert StateOf(w.store, c) == JoinAll(Log(w.merged, c));
    }
    forall c: nat ensures Bounded(after.server.db, after.user, c, StateOf(after.store, c)) {
      assert Bounded(w.server.db, w.user, c, StateOf(w.store, c));
    }
  }

  lemma BoundedConfirms(db: Tables, user: nat, chat: nat, s: ReadState)
    requires Bounded(db, user, chat, s)
    ensures s.confirmed <= s.local
  {
  }

  lemma ArrivedOk(w: World, tab: Tab, logs: map<nat, seq<ReadState>>, chat: nat)
    requires TabOk(w, tab, logs) && StateOf(w.store, chat).confirmed <= StateOf(w.store, chat).local
    ensures TabOk(w, tab.(arrived := tab.arrived + [(chat, StateOf(w.store, chat))]), logs)
  {
    hide JoinAll, StateOf;
  }

  lemma PublishKeeps(w: World, t: nat, i: nat)
    requires WorldOk(w) && t in w.tabs && t in w.published
    ensures WorldOk(PublishStep(w, t, i))
  {
    hide Inv, Bounded, JoinAll, CursorOk, StoreOk, TabOk;
    var tab := w.tabs[t];
    var after := PublishStep(w, t, i);
    assert TabOk(w, tab, w.published[t]);
    if i < |tab.arrived| {
      PublishedTab(w, tab, w.published[t], i);
      forall o | o in after.tabs ensures TabOk(after, after.tabs[o], after.published[o]) {
        if o != t { assert TabOk(w, w.tabs[o], w.published[o]); }
        SameStoreTab(w, after, after.tabs[o], after.published[o]);
      }
      assert StoreOk(after) by { SameStoreOk(w, after); }
    }
  }

  lemma SameStoreOk(w: World, after: World)
    requires StoreOk(w) && after == w.(tabs := after.tabs, published := after.published, sent := after.sent)
    ensures StoreOk(after)
  {
    hide Bounded, JoinAll;
  }

  lemma SameStoreTab(w: World, after: World, tab: Tab, logs: map<nat, seq<ReadState>>)
    requires after.store == w.store
    ensures TabOk(w, tab, logs) ==> TabOk(after, tab, logs)
  {
    hide JoinAll;
  }

  lemma PublishedTab(w: World, tab: Tab, logs: map<nat, seq<ReadState>>, i: nat)
    requires TabOk(w, tab, logs) && i < |tab.arrived|
    ensures var (chat, state) := tab.arrived[i];
      TabOk(w, tab.(memory := tab.memory[chat := Join(StateOf(tab.memory, chat), state)]),
            logs[chat := Log(logs, chat) + [state]])
  {
    hide JoinAll;
    var (chat, state) := tab.arrived[i];
    assert tab.arrived[i] in tab.arrived;
    JoinAllLast(Log(logs, chat), state);
    var memory, logs' := tab.memory[chat := Join(StateOf(tab.memory, chat), state)],
      logs[chat := Log(logs, chat) + [state]];
    forall c: nat
      ensures StateOf(memory, c) == JoinAll(Log(logs', c)) && Within(StateOf(memory, c), StateOf(w.store, c))
      ensures StateOf(memory, c).confirmed <= StateOf(memory, c).local
    {
      assert StateOf(tab.memory, c) == JoinAll(Log(logs, c)) && Within(StateOf(tab.memory, c), StateOf(w.store, c));
      assert Within(StateOf(tab.memory, chat), StateOf(w.store, chat)) && Within(state, StateOf(w.store, chat));
    }
  }

  lemma OtherEventKeeps(w: World, event: Event)
    requires WorldOk(w) && (event.Report? || event.OpenTab? || event.Restore?)
    ensures WorldOk(Next(w, event))
  {
    hide Inv, Bounded, JoinAll, TabOk, StoreOk;
    var after := Next(w, event);
    SameStoreOk(w, after);
    StoreConfirms(w);
    forall t | t in after.tabs ensures TabOk(after, after.tabs[t], after.published[t]) {
      if event == OpenTab(t) {
        FreshTabOk(after);
      } else {
        assert TabOk(w, w.tabs[t], w.published[t]);
        SameStoreTab(w, after, w.tabs[t], w.published[t]);
        if event.Restore? && event.tab == t { ArrivedOk(after, w.tabs[t], w.published[t], event.chat); }
      }
    }
  }

  lemma StoreConfirms(w: World)
    requires StoreOk(w)
    ensures forall chat :: StateOf(w.store, chat).confirmed <= StateOf(w.store, chat).local
  {
    hide JoinAll, StateOf;
  }

  lemma FreshTabOk(w: World)
    ensures TabOk(w, Tab(map[], []), map[])
  {
  }

  lemma NextKeeps(w: World, event: Event)
    requires WorldOk(w)
    ensures WorldOk(Next(w, event))
  {
    hide WorldOk, Update, PublishStep, Bounded, CursorOk, Apply;
    match event
    case ServerStep(l) => ServerKeeps(w, l);
    case MergeCursor(t, c) =>
      if t in w.tabs && c in w.sent { SentBounded(w, c); UpdateKeeps(w, t, c.chat, FromCursor(w.user, c)); }
    case Confirm(t, wanted, c) =>
      if t in w.tabs && c in w.sent && c.user == w.user && c.position >= wanted {
        SentBounded(w, c);
        UpdateKeeps(w, t, c.chat, FromCursor(w.user, c));
      }
    case Read(t, chat, position) =>
      if t in w.tabs && position >= 1 {
        ReadBounded(w, chat, position);
        UpdateKeeps(w, t, chat, FromReading(position));
      }
    case Publish(t, i) => if t in w.tabs && t in w.published { PublishKeeps(w, t, i); }
    case _ => OtherEventKeeps(w, event);
  }

  lemma SentBounded(w: World, c: ReadCursor)
    requires WorldOk(w) && c in w.sent
    ensures Bounded(w.server.db, w.user, c.chat, FromCursor(w.user, c))
  {
    hide Inv, StoreOk, TabsOk, Bounded;
    CursorBounded(w.server.db, w.user, c);
  }

  lemma ReadBounded(w: World, chat: nat, position: nat)
    ensures Bounded(w.server.db, w.user, chat, FromReading(position))
  {
  }

  lemma {:induction false} HistoryKeeps(w: World, events: seq<Event>)
    requires WorldOk(w)
    ensures WorldOk(History(w, events))
  {
    hide WorldOk, Next;
    if events != [] {
      HistoryKeeps(w, events[..|events| - 1]);
      NextKeeps(History(w, events[..|events| - 1]), events[|events| - 1]);
    }
  }

  // ---- what a reader may rely on ----

  ghost predicate Start(w: World)
  {
    Inv(w.server) && w.store == map[] && w.tabs == map[] && w.sent == {} && w.merged == map[] && w.published == map[]
  }

  lemma StartOk(w: World)
    requires Start(w)
    ensures WorldOk(w)
  {
    hide Inv;
  }

  /** In every run the durable state of a chat is the componentwise maximum of everything merged
      into it, and a tab's state that of everything published to it and never ahead of the store. */
  lemma StatesAreMaxima(w0: World, events: seq<Event>, t: nat, chat: nat)
    requires Start(w0) && t in History(w0, events).tabs
    ensures var w := History(w0, events);
      && IsMaximum(StateOf(w.store, chat), Log(w.merged, chat))
      && t in w.published && IsMaximum(StateOf(w.tabs[t].memory, chat), Log(w.published[t], chat))
      && Within(StateOf(w.tabs[t].memory, chat), StateOf(w.store, chat))
  {
    hide Inv, History, IsMaximum, JoinAll, Bounded, CursorOk;
    var w := History(w0, events);
    StartOk(w0);
    HistoryKeeps(w0, events);
    JoinAllIsMaximum(Log(w.merged, chat));
    assert TabOk(w, w.tabs[t], w.published[t]);
    JoinAllIsMaximum(Log(w.published[t], chat));
  }

  /** In every reachable state: confirmed is at most local, confirmed is at most what the server
      has stored for this user, a peer position at most what it has stored for another, and no
      stored position passes the last message of its chat. */
  lemma ConfirmedIsStored(w0: World, events: seq<Event>, chat: nat)
    requires Start(w0)
    ensures var w := History(w0, events);
      && var s := StateOf(w.store, chat);
      && s.confirmed <= s.local && s.confirmed <= PositionOf(w.server.db, chat, w.user)
      && (s.peer == 0 || exists peer :: peer != w.user && s.peer <= PositionOf(w.server.db, chat, peer))
      && (forall user :: PositionOf(w.server.db, chat, user) <= CounterOf(w.server.db, chat))
  {
    hide History, JoinAll, TabsOk, TxsInv, StateOf;
    var w := History(w0, events);
    StartOk(w0);
    HistoryKeeps(w0, events);
    assert Bounded(w.server.db, w.user, chat, StateOf(w.store, chat));
    hide Bounded;
    forall user: nat ensures PositionOf(w.server.db, chat, user) <= CounterOf(w.server.db, chat) {
      if (chat, user) in w.server.db.positions { PositionBounded(w.server.db, w.server.contents, (chat, user)); }
    }
  }

  lemma PositionBounded(db: Tables, contents: map<nat, seq<int>>, k: (nat, nat))
    requires PositionsBounded(db) && k in db.positions
    ensures k.0 in db.chats && db.positions[k] <= db.chats[k.0].lastSeq
  {
  }
}
