/** The display rows of a chat and how a batch of decoded rows is merged into them. */
module MessageState {
  import opened Common

  datatype Status = Pending | Accepted | Delivered | Seen

  datatype Key = Key(chat: nat, device: nat, clientId: nat)

  /** A display row. `props` are its other properties; one that is undefined is absent. */
  datatype Row = Row(messageId: nat, chat: nat, createdAt: int, status: Option<Status>, clientId: Option<nat>,
                     device: Option<nat>, historyId: Option<nat>, props: map<nat, nat>)

  /** An incoming row may also carry properties that are explicitly undefined. */
  datatype Incoming = Incoming(row: Row, unset: set<nat>)

  function Rank(s: Status): nat
  {
    match s
    case Pending => 0
    case Accepted => 1
    case Delivered => 2
    case Seen => 3
  }

  function CommandKey(r: Row): Option<Key>
  {
    if r.clientId.Some? && r.device.Some? then Some(Key(r.chat, r.device.value, r.clientId.value)) else None
  }

  function SelectStatus(previous: Option<Status>, incoming: Option<Status>): Option<Status>
  {
    if incoming.None? then previous
    else if previous.Some? && Rank(previous.value) > Rank(incoming.value) then previous
    else incoming
  }

  // ---- the display order ----

  /** What rows of one time are ordered by; identifiers are numbered in the order of their text. A
      command key begins with a bracket, which comes before the words history identifiers begin with. */
  function Tie(r: Row): (nat, nat, nat, nat)
  {
    if r.historyId.Some? then (1, r.historyId.value, 0, 0)
    else
      match CommandKey(r)
      case Some(k) => (0, k.chat, k.device, k.clientId)
      case None => (2, r.messageId, 0, 0)
  }

  predicate Below(a: (nat, nat, nat, nat), b: (nat, nat, nat, nat))
  {
    || a.0 < b.0
    || (a.0 == b.0 && a.1 < b.1)
    || (a.0 == b.0 && a.1 == b.1 && a.2 < b.2)
    || (a.0 == b.0 && a.1 == b.1 && a.2 == b.2 && a.3 < b.3)
  }

  predicate Before(a: Row, b: Row)
  {
    a.createdAt < b.createdAt || (a.createdAt == b.createdAt && Below(Tie(a), Tie(b)))
  }

  /** Inserts behind every row that does not come after. */
  function Insert(sorted: seq<Row>, r: Row): (s: seq<Row>)
    ensures |s| == |sorted| + 1
  {
    if sorted == [] then [r]
    else
      var last := sorted[|sorted| - 1];
      if Before(r, last) then Insert(sorted[..|sorted| - 1], r) + [last] else sorted + [r]
  }

  /** A stable sort. */
  function Sort(rows: seq<Row>): seq<Row>
  {
    if rows == [] then [] else Insert(Sort(rows[..|rows| - 1]), rows[|rows| - 1])
  }

  // ---- merging ----

  /** The two maps of a merge: rows by identifier, in insertion order, and rows by command. */
  datatype Board = Board(rows: seq<Row>, commands: map<Key, Row>)

  function Lookup(rows: seq<Row>, id: nat): (r: Option<Row>)
    ensures r.Some? ==> r.value in rows && r.value.messageId == id
    ensures r.None? ==> forall x :: x in rows ==> x.messageId != id
  {
    if rows == [] then None else if rows[0].messageId == id then Some(rows[0]) else Lookup(rows[1..], id)
  }

  function Drop(rows: seq<Row>, id: nat): (r: seq<Row>)
    ensures forall x :: x in r <==> x in rows && x.messageId != id
  {
    if rows == [] then [] else
    var last := rows[|rows| - 1];
    Drop(rows[..|rows| - 1], id) + (if last.messageId == id then [] else [last])
  }

  function Replace(rows: seq<Row>, row: Row): (r: seq<Row>)
  {
    if rows == [] then []
    else [if rows[0].messageId == row.messageId then row else rows[0]] + Replace(rows[1..], row)
  }

  /** Setting a map entry: in place if the identifier is there, otherwise at the end. */
  function Put(rows: seq<Row>, row: Row): seq<Row>
  {
    if Lookup(rows, row.messageId).Some? then Replace(rows, row) else rows + [row]
  }

  function WithCommand(commands: map<Key, Row>, row: Row): map<Key, Row>
  {
    match CommandKey(row)
    case Some(k) => commands[k := row]
    case None => commands
  }

  function Load(current: seq<Row>): Board
  {
    if current == [] then Board([], map[]) else
    var before, last := Load(current[..|current| - 1]), current[|current| - 1];
    Board(Put(before.rows, last), WithCommand(before.commands, last))
  }

  /** The row an incoming row continues: the one with its identifier, or the command's row when
      either of the two is still pending. */
  function Prior(b: Board, m: Row): Option<Row>
  {
    var byId := Lookup(b.rows, m.messageId);
    if byId.Some? then byId else
    match CommandKey(m)
    case None => None
    case Some(k) =>
      if k in b.commands && (b.commands[k].status == Some(Pending) || m.status == Some(Pending))
      then Some(b.commands[k]) else None
  }

  predicate Outdated(prior: Option<Row>, m: Row)
  {
    prior.Some? && prior.value.status.Some? && prior.value.status != Some(Pending) && m.status == Some(Pending)
  }

  function Joined(prior: Option<Row>, m: Incoming): Row
  {
    match prior
    case None => m.row
    case Some(p) =>
      m.row.(createdAt := p.createdAt, status := SelectStatus(p.status, m.row.status),
             clientId := m.row.clientId.Or(p.clientId), device := m.row.device.Or(p.device),
             historyId := m.row.historyId.Or(p.historyId), props := (p.props - m.unset) + m.row.props)
  }

  /** Forgets a row that is about to be replaced. */
  function Forget(b: Board, prior: Option<Row>): Board
  {
    match prior
    case None => b
    case Some(p) =>
      var key := CommandKey(p);
      Board(Drop(b.rows, p.messageId),
            if key.Some? && key.value in b.commands && b.commands[key.value] == p then b.commands - {key.value}
              else b.commands)
  }

  /** One incoming row; whether it changed anything. */
  function Step(b: Board, m: Incoming): (Board, bool)
  {
    var prior := Prior(b, m.row);
    var next := Joined(prior, m);
    if Outdated(prior, m.row) || prior == Some(next) then (b, false) else
    var left := Forget(b, prior);
    (Board(left.rows + [next],
           (match CommandKey(m.row) case Some(k) => left.commands[k := next] case None => left.commands)), true)
  }

  function Steps(b: Board, incoming: seq<Incoming>): (Board, bool)
  {
    if incoming == [] then (b, false) else
    var (before, changed) := Steps(b, incoming[..|incoming| - 1]);
    var (after, more) := Step(before, incoming[|incoming| - 1]);
    (after, changed || more)
  }

  function Merge(current: seq<Row>, incoming: seq<Incoming>): (seq<Row>, bool)
  {
    if incoming == [] then (current, false) else
    var (b, changed) := Steps(Load(current), incoming);
    if changed then (Sort(b.rows), true) else (current, false)
  }

  /** Merges a batch. `changed` is false when the very same list is returned. */
  method MergeMessages(current: seq<Row>, incoming: seq<Incoming>) returns (r: seq<Row>, changed: bool)
    ensures (r, changed) == Merge(current, incoming)
  {
    hide Put, WithCommand, CommandKey, Lookup, Outdated, Joined, Drop, Insert;
    if incoming == [] { return current, false; }
    var messages: seq<Row>, commands: map<Key, Row> := [], map[];
    for i := 0 to |current|
      invariant Board(messages, commands) == Load(current[..i])
    {
      assert current[..i + 1][..i] == current[..i];
      messages, commands := Put(messages, current[i]), WithCommand(commands, current[i]);
    }
    assert current[..|current|] == current;
    changed := false;
    for i := 0 to |incoming|
      invariant (Board(messages, commands), changed) == Steps(Load(current), incoming[..i])
    {
      assert incoming[..i + 1][..i] == incoming[..i];
      var m := incoming[i];
      var key := CommandKey(m.row);
      var prior := Lookup(messages, m.row.messageId);
      if prior.None? && key.Some? && key.value in commands
         && (commands[key.value].status == Some(Pending) || m.row.status == Some(Pending)) {
        prior := Some(commands[key.value]);
      }
      if !Outdated(prior, m.row) {
        var next := Joined(prior, m);
        if prior != Some(next) {
          if prior.Some? {
            messages := Drop(messages, prior.value.messageId);
            var priorKey := CommandKey(prior.value);
            if priorKey.Some? && priorKey.value in commands && commands[priorKey.value] == prior.value {
              commands := commands - {priorKey.value};
            }
          }
          messages := messages + [next];
          if key.Some? { commands := commands[key.value := next]; }
          changed := true;
        }
      }
    }
    assert incoming[..|incoming|] == incoming;
    if !changed { return current, false; }
    r := [];
    for i := 0 to |messages|
      invariant r == Sort(messages[..i])
    {
      assert messages[..i + 1][..i] == messages[..i];
      r := Insert(r, messages[i]);
    }
    assert messages[..|messages|] == messages;
  }

  // ---- merging by chat ----

  function OfChat(incoming: seq<Incoming>, chat: nat): (r: seq<Incoming>)
  {
    if incoming == [] then [] else
    var last := incoming[|incoming| - 1];
    OfChat(incoming[..|incoming| - 1], chat) + (if last.row.chat == chat then [last] else [])
  }

  function ListOf(board: map<nat, seq<Row>>, chat: nat): seq<Row>
  {
    if chat in board then board[chat] else []
  }

  method GroupByChat(incoming: seq<Incoming>) returns (grouped: map<nat, seq<Incoming>>)
    ensures forall chat :: chat in grouped <==> OfChat(incoming, chat) != []
    ensures forall chat :: chat in grouped ==> grouped[chat] == OfChat(incoming, chat)
  {
    grouped := map[];
    for i := 0 to |incoming|
      invariant forall chat :: chat in grouped <==> OfChat(incoming[..i], chat) != []
      invariant forall chat :: chat in grouped ==> grouped[chat] == OfChat(incoming[..i], chat)
    {
      assert incoming[..i + 1][..i] == incoming[..i];
      var m := incoming[i];
      grouped := grouped[m.row.chat := (if m.row.chat in grouped then grouped[m.row.chat] else []) + [m]];
    }
    assert incoming[..|incoming|] == incoming;
  }

  /** The chats a batch touches are merged each on its own; every other chat stays the same list. */
  method MergeMessagesByChat(current: map<nat, seq<Row>>, incoming: seq<Incoming>) returns (next: map<nat, seq<Row>>)
    ensures forall chat :: ListOf(next, chat) == Merge(ListOf(current, chat), OfChat(incoming, chat)).0
    ensures forall chat :: chat in next <==> chat in current || OfChat(incoming, chat) != []
  {
    hide Merge, OfChat, ListOf, MergedSoFar;
    var grouped := GroupByChat(incoming);
    next := current;
    var left := grouped.Keys;
    NothingMerged(current, grouped);
    while left != {}
      invariant left <= grouped.Keys
      invariant MergedSoFar(current, grouped, left, next)
      decreases |left|
    {
      var chat :| chat in left;
      var previous := ListOf(current, chat);
      var merged, changed := MergeMessages(previous, grouped[chat]);
      OneMerged(current, grouped, left, next, chat, merged, changed);
      if changed { next := next[chat := merged]; }
      left := left - {chat};
    }
    AllMerged(current, incoming, grouped, next);
  }

  /** The chats of the batch that are not `left` have been merged. */
  ghost predicate MergedSoFar(current: map<nat, seq<Row>>, grouped: map<nat, seq<Incoming>>, left: set<nat>,
                              next: map<nat, seq<Row>>)
  {
    && (forall chat :: chat in next <==> chat in current || (chat in grouped && chat !in left))
    && (forall chat :: chat in next ==>
         next[chat] == if chat in grouped && chat !in left then Merge(ListOf(current, chat), grouped[chat]).0
           else ListOf(current, chat))
  }

  lemma NothingMerged(current: map<nat, seq<Row>>, grouped: map<nat, seq<Incoming>>)
    ensures MergedSoFar(current, grouped, grouped.Keys, current)
  {
    hide Merge;
  }

  lemma OneMerged(current: map<nat, seq<Row>>, grouped: map<nat, seq<Incoming>>, left: set<nat>,
                  next: map<nat, seq<Row>>,
                  chat: nat, merged: seq<Row>, changed: bool)
    requires MergedSoFar(current, grouped, left, next) && chat in left && chat in grouped && grouped[chat] != []
    requires (merged, changed) == Merge(ListOf(current, chat), grouped[chat])
    ensures MergedSoFar(current, grouped, left - {chat}, if changed then next[chat := merged] else next)
  {
    hide Merge;
    if chat !in current { FirstChanges(grouped[chat]); }
    Unchanged(ListOf(current, chat), grouped[chat]);
  }

  lemma AllMerged(current: map<nat, seq<Row>>, incoming: seq<Incoming>, grouped: map<nat, seq<Incoming>>,
                  next: map<nat, seq<Row>>)
    requires MergedSoFar(current, grouped, {}, next)
    requires forall chat :: chat in grouped <==> OfChat(incoming, chat) != []
    requires forall chat :: chat in grouped ==> grouped[chat] == OfChat(incoming, chat)
    ensures forall chat :: ListOf(next, chat) == Merge(ListOf(current, chat), OfChat(incoming, chat)).0
    ensures forall chat :: chat in next <==> chat in current || OfChat(incoming, chat) != []
  {
    hide Merge;
    forall chat ensures ListOf(next, chat) == Merge(ListOf(current, chat), OfChat(incoming, chat)).0 {
      if chat !in grouped { Unchanged(ListOf(current, chat), []); }
    }
  }

  lemma Unchanged(current: seq<Row>, incoming: seq<Incoming>)
    ensures !Merge(current, incoming).1 ==> Merge(current, incoming).0 == current
    ensures incoming == [] ==> !Merge(current, incoming).1
  {
  }

  /** A batch for a chat without rows always changes it. */
  lemma FirstChanges(incoming: seq<Incoming>)
    requires incoming != []
    ensures Merge([], incoming).1
  {
    FirstChangesSteps(incoming);
  }

  lemma FirstChangesSteps(incoming: seq<Incoming>)
    requires incoming != []
    ensures Steps(Board([], map[]), incoming).1
  {
    if |incoming| > 1 {
      FirstChangesSteps(incoming[..|incoming| - 1]);
    } else {
      assert incoming[..0] == [];
    }
  }
}
