/** Why batching does not matter for the display: on rows as the decoders build them a merge is,
    command by command, a fold over the batch, and the list is the one sorted list of its rows. */
module MessageMerge {
  import opened Common
  import opened MessageState
  import Orders

  /** How identifiers belong together: each command has one server message, one pending
      identifier and one place in the local history; `own` are those of this user. */
  datatype Names = Names(server: map<Key, nat>, pending: map<Key, nat>, history: map<Key, nat>, own: set<Key>)

  ghost predicate NamesOk(names: Names)
  {
    && names.server.Keys == names.pending.Keys == names.history.Keys
    && (forall a, b :: a in names.server && b in names.server && a != b ==>
         names.server[a] != names.server[b] && names.pending[a] != names.pending[b]
           && names.history[a] != names.history[b])
    && (forall a, b :: a in names.server && b in names.pending ==> names.server[a] != names.pending[b])
  }

  predicate KeyIs(r: Row, key: Key)
  {
    CommandKey(r) == Some(key)
  }

  /** A row as the decoders build it, or as the chat store builds it for a text just sent, without a
      place in the history: own rows always have a status, other users' rows never, and the
      identifier is the pending one exactly while the status is pending. */
  predicate Decoded(names: Names, r: Row)
  {
    && CommandKey(r).Some? && CommandKey(r).value in names.server && CommandKey(r).value in names.pending
    && CommandKey(r).value in names.history
    && var key := CommandKey(r).value;
    && (r.historyId.None? || r.historyId == Some(names.history[key]))
    && (r.status.Some? <==> key in names.own)
    && r.messageId == if r.status == Some(Pending) then names.pending[key] else names.server[key]
  }

  ghost predicate AllDecoded(names: Names, rows: seq<Row>)
  {
    forall r :: r in rows ==> Decoded(names, r)
  }

  ghost predicate BatchDecoded(names: Names, incoming: seq<Incoming>)
  {
    forall m :: m in incoming ==> Decoded(names, m.row)
  }

  ghost predicate OneEach(rows: seq<Row>)
  {
    forall i, j :: 0 <= i < j < |rows| ==> CommandKey(rows[i]) != CommandKey(rows[j])
  }

  ghost predicate Ascends(rows: seq<Row>)
  {
    forall i, j :: 0 <= i < j < |rows| ==> Before(rows[i], rows[j])
  }

  /** A list as the client keeps it: decoded rows, one per command, in display order. */
  ghost predicate Canonical(names: Names, rows: seq<Row>)
  {
    AllDecoded(names, rows) && OneEach(rows) && Ascends(rows)
  }

  // ---- the table of a list ----

  function TableOf(rows: seq<Row>): (t: map<Key, Row>)
  {
    if rows == [] then map[] else WithCommand(TableOf(rows[..|rows| - 1]), rows[|rows| - 1])
  }

  ghost predicate Tabulates(t: map<Key, Row>, rows: seq<Row>)
  {
    && (forall r :: r in rows && CommandKey(r).Some? ==> CommandKey(r).value in t && t[CommandKey(r).value] == r)
    && (forall k :: k in t ==> t[k] in rows && KeyIs(t[k], k))
  }

  lemma {:induction false} TableTabulates(rows: seq<Row>)
    requires OneEach(rows)
    ensures Tabulates(TableOf(rows), rows)
  {
    hide CommandKey, Tabulates;
    if rows == [] {
      NothingTabulated();
    } else {
      var n := |rows| - 1;
      TableTabulates(rows[..n]);
      forall r | r in rows[..n] ensures CommandKey(r) != CommandKey(rows[n]) {
        var i :| 0 <= i < n && rows[..n][i] == r;
        assert rows[i] == r;
      }
      assert rows == rows[..n] + [rows[n]];
      TabulatesLast(TableOf(rows[..n]), rows[..n], rows[n]);
    }
  }

  lemma NothingTabulated()
    ensures Tabulates(map[], [])
  {
  }

  lemma TabulatesLast(t: map<Key, Row>, rows: seq<Row>, last: Row)
    requires Tabulates(t, rows) && forall r :: r in rows ==> CommandKey(r) != CommandKey(last)
    ensures Tabulates(WithCommand(t, last), rows + [last])
  {
    hide CommandKey;
    if CommandKey(last).Some? { TabulatesNext(t, rows, rows, last, CommandKey(last).value); }
  }

  lemma TabulatesNext(t: map<Key, Row>, rows: seq<Row>, left: seq<Row>, next: Row, k: Key)
    requires Tabulates(t, rows) && KeyIs(next, k)
    requires forall r :: r in left <==> r in rows && CommandKey(r) != Some(k)
    ensures Tabulates(t[k := next], left + [next])
  {
    hide CommandKey;
  }

  lemma TableUnique(a: map<Key, Row>, b: map<Key, Row>, rows: seq<Row>, others: seq<Row>)
    requires Tabulates(a, rows) && Tabulates(b, others) && forall r :: r in rows <==> r in others
    ensures a == b
  {
    forall k | k in a ensures k in b && b[k] == a[k] { assert a[k] in others; }
    forall k | k in b ensures k in a { assert b[k] in rows; }
  }

  /** A display list is determined by its table. */
  lemma ListIsUnique(names: Names, a: seq<Row>, b: seq<Row>)
    requires Canonical(names, a) && Canonical(names, b) && TableOf(a) == TableOf(b)
    ensures a == b
  {
    TableTabulates(a);
    TableTabulates(b);
    forall r | r in a ensures r in b {
      assert Decoded(names, r);
      assert TableOf(b)[CommandKey(r).value] == r;
    }
    forall r | r in b ensures r in a {
      assert Decoded(names, r);
      assert TableOf(a)[CommandKey(r).value] == r;
    }
    SortedUnique(a, b);
  }

  lemma SortedUnique(a: seq<Row>, b: seq<Row>)
    requires Ascends(a) && Ascends(b) && forall r :: r in a <==> r in b
    ensures a == b
  {
    forall x, y | Before(x, y) ensures !Before(y, x) { BeforeIsStrict(x, y); }
    Orders.SortedUnique(a, b, Before);
  }

  lemma BeforeIsStrict(a: Row, b: Row)
    requires Before(a, b)
    ensures !Before(b, a) && a != b
  {
  }

  // ---- sorting ----

  /** Rows of different commands are never tied. */
  lemma NoTies(names: Names, a: Row, b: Row)
    requires NamesOk(names) && Decoded(names, a) && Decoded(names, b) && CommandKey(a) != CommandKey(b)
    ensures Before(a, b) || Before(b, a)
  {
  }

  lemma BeforeChains(a: Row, b: Row, c: Row)
    requires Before(a, b) && Before(b, c)
    ensures Before(a, c)
  {
  }

  lemma {:induction false} InsertSorts(sorted: seq<Row>, r: Row)
    requires Ascends(sorted) && forall x :: x in sorted ==> Before(x, r) || Before(r, x)
    ensures Ascends(Insert(sorted, r)) && forall x :: x in Insert(sorted, r) <==> x in sorted || x == r
  {
    hide Before;
    if sorted != [] {
      var n := |sorted| - 1;
      var last := sorted[n];
      assert sorted == sorted[..n] + [last];
      if Before(r, last) {
        InsertSorts(sorted[..n], r);
        var s := Insert(sorted[..n], r);
        forall i | 0 <= i < |s| ensures Before(s[i], last) { assert s[i] in s; InOrder(sorted, s[i], n); }
      } else {
        assert last in sorted;
        forall i | 0 <= i < |sorted| ensures Before(sorted[i], r) {
          if i < n { BeforeChains(sorted[i], last, r); }
        }
      }
    }
  }

  lemma InOrder(sorted: seq<Row>, x: Row, n: nat)
    requires Ascends(sorted) && n < |sorted|
    ensures x in sorted[..n] ==> Before(x, sorted[n])
  {
    hide Before;
  }

  lemma {:induction false} SortIsCanonical(names: Names, rows: seq<Row>)
    requires NamesOk(names) && AllDecoded(names, rows) && OneEach(rows)
    ensures Ascends(Sort(rows)) && forall r :: r in Sort(rows) <==> r in rows
  {
    hide Before, Decoded, NamesOk, CommandKey;
    if rows != [] {
      var n := |rows| - 1;
      SortIsCanonical(names, rows[..n]);
      assert rows == rows[..n] + [rows[n]];
      assert rows[n] in rows;
      forall x | x in Sort(rows[..n]) ensures Before(x, rows[n]) || Before(rows[n], x) {
        var i :| 0 <= i < n && rows[..n][i] == x;
        assert rows[i] == x;
        NoTies(names, x, rows[n]);
      }
      InsertSorts(Sort(rows[..n]), rows[n]);
    }
  }

  /** Rows in display order with one row per command in the same set list each command once. */
  lemma SortedOneEach(rows: seq<Row>, sorted: seq<Row>)
    requires OneEach(rows) && Ascends(sorted) && forall r :: r in sorted <==> r in rows
    ensures OneEach(sorted)
  {
    hide Before, CommandKey;
    forall i, j | 0 <= i < j < |sorted| ensures CommandKey(sorted[i]) != CommandKey(sorted[j]) {
      BeforeIsStrict(sorted[i], sorted[j]);
      assert sorted[i] in rows && sorted[j] in rows;
      var p :| 0 <= p < |rows| && rows[p] == sorted[i];
      var q :| 0 <= q < |rows| && rows[q] == sorted[j];
    }
  }

  lemma SortedTable(names: Names, rows: seq<Row>)
    requires NamesOk(names) && AllDecoded(names, rows) && OneEach(rows)
    ensures Canonical(names, Sort(rows)) && TableOf(Sort(rows)) == TableOf(rows)
  {
    hide NamesOk, Decoded, Before, TableOf, Tabulates, Sort;
    SortIsCanonical(names, rows);
    SortedOneEach(rows, Sort(rows));
    TableTabulates(rows);
    TableTabulates(Sort(rows));
    TableUnique(TableOf(Sort(rows)), TableOf(rows), Sort(rows), rows);
  }

  // ---- one command ----

  /** What one incoming row does to its command's row. */
  function Patch(prior: Option<Row>, m: Incoming): Row
  {
    if prior.Some? && Outdated(prior, m.row) then prior.value else Joined(prior, m)
  }

  function Apply(t: map<Key, Row>, m: Incoming): map<Key, Row>
  {
    match CommandKey(m.row)
    case None => t
    case Some(k) => t[k := Patch(if k in t then Some(t[k]) else None, m)]
  }

  function Fold(t: map<Key, Row>, incoming: seq<Incoming>): map<Key, Row>
  {
    if incoming == [] then t else Apply(Fold(t, incoming[..|incoming| - 1]), incoming[|incoming| - 1])
  }

  ghost predicate RowFor(names: Names, r: Row, k: Key)
  {
    Decoded(names, r) && KeyIs(r, k)
  }

  ghost predicate TableOk(names: Names, t: map<Key, Row>)
  {
    forall k :: k in t ==> RowFor(names, t[k], k)
  }

  lemma PatchKeeps(names: Names, prior: Option<Row>, m: Incoming)
    requires NamesOk(names) && Decoded(names, m.row)
    requires prior.Some? ==> RowFor(names, prior.value, CommandKey(m.row).value)
    ensures RowFor(names, Patch(prior, m), CommandKey(m.row).value)
    ensures !Outdated(prior, m.row) ==> Patch(prior, m).messageId == m.row.messageId
  {
  }

  lemma {:induction false} FoldKeeps(names: Names, t: map<Key, Row>, incoming: seq<Incoming>)
    requires NamesOk(names) && TableOk(names, t) && BatchDecoded(names, incoming)
    ensures TableOk(names, Fold(t, incoming))
  {
    hide NamesOk, Decoded, Patch, RowFor;
    if incoming != [] {
      var n := |incoming| - 1;
      FoldKeeps(names, t, incoming[..n]);
      var before, m := Fold(t, incoming[..n]), incoming[n];
      assert m in incoming;
      DecodedKey(names, m.row);
      var k := CommandKey(m.row).value;
      PatchKeeps(names, if k in before then Some(before[k]) else None, m);
    }
  }

  lemma DecodedKey(names: Names, r: Row)
    requires Decoded(names, r)
    ensures CommandKey(r).Some?
  {
  }

  // ---- the two maps of a merge ----

  ghost predicate BoardOk(names: Names, b: Board)
  {
    AllDecoded(names, b.rows) && OneEach(b.rows) && Tabulates(b.commands, b.rows)
  }

  lemma SameIdSameKey(names: Names, a: Row, b: Row)
    requires NamesOk(names) && Decoded(names, a) && Decoded(names, b) && a.messageId == b.messageId
    ensures CommandKey(a) == CommandKey(b)
  {
  }

  lemma {:induction false} LoadIsTable(names: Names, rows: seq<Row>)
    requires NamesOk(names) && AllDecoded(names, rows) && OneEach(rows)
    ensures Load(rows) == Board(rows, TableOf(rows))
  {
    hide NamesOk, Decoded, CommandKey, WithCommand, TableOf, Lookup;
    if rows == [] {
      TableOfNothing();
    } else {
      var n := |rows| - 1;
      assert rows == rows[..n] + [rows[n]];
      LoadIsTable(names, rows[..n]);
      LastIdIsNew(names, rows);
      TableOfLast(rows);
    }
  }

  lemma LastIdIsNew(names: Names, rows: seq<Row>)
    requires NamesOk(names) && AllDecoded(names, rows) && OneEach(rows) && rows != []
    ensures Lookup(rows[..|rows| - 1], rows[|rows| - 1].messageId).None?
  {
    hide NamesOk, Decoded, CommandKey;
    var n := |rows| - 1;
    forall x | x in rows[..n] ensures x.messageId != rows[n].messageId {
      var i :| 0 <= i < n && rows[..n][i] == x;
      assert rows[i] == x && x in rows && rows[n] in rows;
      if x.messageId == rows[n].messageId { SameIdSameKey(names, x, rows[n]); }
    }
  }

  lemma TableOfNothing()
    ensures TableOf([]) == map[]
  {
  }

  lemma TableOfLast(rows: seq<Row>)
    requires rows != []
    ensures TableOf(rows) == WithCommand(TableOf(rows[..|rows| - 1]), rows[|rows| - 1])
  {
  }

  /** The row an incoming row continues is its command's row, whatever identifier either has. */
  lemma PriorIsCommand(names: Names, b: Board, m: Row)
    requires NamesOk(names) && BoardOk(names, b) && Decoded(names, m)
    ensures var k := CommandKey(m).value;
      Prior(b, m) == if k in b.commands then Some(b.commands[k]) else None
  {
    hide NamesOk, Tabulates;
    var k := CommandKey(m).value;
    var byId := Lookup(b.rows, m.messageId);
    if byId.Some? {
      SameIdSameKey(names, byId.value, m);
      TabulatesRow(b.commands, b.rows, byId.value);
    } else if k in b.commands {
      TabulatesKey(b.commands, b.rows, k);
      assert Decoded(names, b.commands[k]);
    }
  }

  lemma TabulatesRow(t: map<Key, Row>, rows: seq<Row>, r: Row)
    requires Tabulates(t, rows) && r in rows && CommandKey(r).Some?
    ensures CommandKey(r).value in t && t[CommandKey(r).value] == r
  {
  }

  lemma TabulatesKey(t: map<Key, Row>, rows: seq<Row>, k: Key)
    requires Tabulates(t, rows) && k in t
    ensures t[k] in rows && KeyIs(t[k], k)
  {
  }

  /** One step of the merge is one step of the fold. */
  lemma StepIsApply(names: Names, b: Board, m: Incoming)
    requires NamesOk(names) && BoardOk(names, b) && Decoded(names, m.row)
    ensures BoardOk(names, Step(b, m).0) && Step(b, m).0.commands == Apply(b.commands, m)
    ensures !Step(b, m).1 ==> Step(b, m).0 == b
  {
    hide NamesOk, Tabulates, Prior, Joined, OneEach, Decoded, CommandKey;
    var k := CommandKey(m.row);
    DecodedKey(names, m.row);
    PriorIsCommand(names, b, m.row);
    var prior := Prior(b, m.row);
    if prior.Some? {
      TabulatesKey(b.commands, b.rows, k.value);
      assert Decoded(names, prior.value);
    }
    PatchKeeps(names, prior, m);
    if Step(b, m).1 {
      ChangedBoard(names, b, k.value, prior, Joined(prior, m));
    } else {
      assert b.commands == b.commands[k.value := prior.value];
    }
  }

  lemma ChangedBoard(names: Names, b: Board, k: Key, prior: Option<Row>, next: Row)
    requires NamesOk(names) && BoardOk(names, b) && RowFor(names, next, k)
    requires prior == if k in b.commands then Some(b.commands[k]) else None
    ensures var left := Forget(b, prior);
      && BoardOk(names, Board(left.rows + [next], left.commands[k := next]))
      && left.commands[k := next] == b.commands[k := next]
  {
    hide NamesOk, Decoded, CommandKey, Tabulates, OneEach;
    var left := Forget(b, prior);
    if prior.Some? {
      TabulatesKey(b.commands, b.rows, k);
      DropOneEach(b.rows, prior.value.messageId);
    }
    forall r | r in left.rows ensures CommandKey(r) != Some(k) {
      if CommandKey(r) == Some(k) { TabulatesRow(b.commands, b.rows, r); }
    }
    Appended(names, left.rows, next, k);
    forall r | r in b.rows && CommandKey(r) != Some(k) ensures r in left.rows {
      if prior.Some? && r.messageId == prior.value.messageId { SameIdSameKey(names, r, prior.value); }
    }
    TabulatesNext(b.commands, b.rows, left.rows, next, k);
    assert left.commands[k := next] == b.commands[k := next];
  }

  lemma Appended(names: Names, rows: seq<Row>, next: Row, k: Key)
    requires AllDecoded(names, rows) && OneEach(rows) && RowFor(names, next, k)
    requires forall r :: r in rows ==> CommandKey(r) != Some(k)
    ensures AllDecoded(names, rows + [next]) && OneEach(rows + [next])
  {
    hide Decoded, CommandKey;
  }

  lemma {:induction false} DropOneEach(rows: seq<Row>, id: nat)
    requires OneEach(rows)
    ensures OneEach(Drop(rows, id))
  {
    hide CommandKey;
    if rows != [] {
      var n := |rows| - 1;
      DropOneEach(rows[..n], id);
      forall r | r in rows[..n] ensures CommandKey(r) != CommandKey(rows[n]) {
        var i :| 0 <= i < n && rows[..n][i] == r;
        assert rows[i] == r;
      }
    }
  }

  lemma {:induction false} StepsAreFold(names: Names, b: Board, incoming: seq<Incoming>)
    requires NamesOk(names) && BoardOk(names, b) && BatchDecoded(names, incoming)
    ensures BoardOk(names, Steps(b, incoming).0) && Steps(b, incoming).0.commands == Fold(b.commands, incoming)
    ensures !Steps(b, incoming).1 ==> Steps(b, incoming).0 == b
  {
    hide NamesOk, BoardOk, Decoded, Step, Apply;
    if incoming != [] {
      var n := |incoming| - 1;
      StepsAreFold(names, b, incoming[..n]);
      assert incoming[n] in incoming;
      StepIsApply(names, Steps(b, incoming[..n]).0, incoming[n]);
    }
  }

  /** A merge keeps the list in order and folds the batch into its table. */
  lemma MergeIsFold(names: Names, current: seq<Row>, incoming: seq<Incoming>)
    requires NamesOk(names) && Canonical(names, current) && BatchDecoded(names, incoming)
    ensures Canonical(names, Merge(current, incoming).0)
    ensures TableOf(Merge(current, incoming).0) == Fold(TableOf(current), incoming)
  {
    hide NamesOk, Decoded, Before, TableOf, Steps, Load, Sort, BatchDecoded;
    LoadIsTable(names, current);
    TableTabulates(current);
    StepsAreFold(names, Load(current), incoming);
    var rows := Steps(Load(current), incoming).0.rows;
    SortedTable(names, rows);
    TableTabulates(rows);
    TableUnique(TableOf(rows), Steps(Load(current), incoming).0.commands, rows, rows);
  }

  // ---- batching ----

  lemma {:induction false} FoldConcat(t: map<Key, Row>, a: seq<Incoming>, b: seq<Incoming>)
    ensures Fold(t, a + b) == Fold(Fold(t, a), b)
  {
    hide Apply;
    if b == [] {
      assert a + b == a;
    } else {
      var n := |b| - 1;
      FoldConcat(t, a, b[..n]);
      assert (a + b)[..|a| + n] == a + b[..n];
    }
  }

  /** Batching does not matter: two batches one after the other give the list that both give at once. */
  lemma BatchingDoesNotMatter(names: Names, current: seq<Row>, a: seq<Incoming>, b: seq<Incoming>)
    requires NamesOk(names) && Canonical(names, current) && BatchDecoded(names, a) && BatchDecoded(names, b)
    ensures Merge(Merge(current, a).0, b).0 == Merge(current, a + b).0
  {
    hide NamesOk, Canonical, Decoded, Merge, TableOf, Fold;
    MergeIsFold(names, current, a);
    MergeIsFold(names, Merge(current, a).0, b);
    MergeIsFold(names, current, a + b);
    FoldConcat(TableOf(current), a, b);
    ListIsUnique(names, Merge(Merge(current, a).0, b).0, Merge(current, a + b).0);
  }

  // ---- what never goes back ----

  function Level(status: Option<Status>): int
  {
    if status.None? then -1 else Rank(status.value)
  }

  /** A later row of the same command: its first time, a status at least as high, and its place in
      the history once that is known. */
  ghost predicate Advances(a: Row, b: Row)
  {
    a.createdAt == b.createdAt && Level(a.status) <= Level(b.status) && (a.historyId.Some? ==> b.historyId.Some?)
  }

  lemma PatchAdvances(prior: Option<Row>, m: Incoming)
    ensures prior.Some? ==> Advances(prior.value, Patch(prior, m))
    ensures Level(m.row.status) <= Level(Patch(prior, m).status)
  {
  }

  /** No command is lost, and its row only advances; no incoming status is ever ahead of it. */
  lemma {:induction false} FoldAdvances(t: map<Key, Row>, incoming: seq<Incoming>, k: Key)
    ensures k in t ==> k in Fold(t, incoming) && Advances(t[k], Fold(t, incoming)[k])
    ensures forall m :: m in incoming && KeyIs(m.row, k) ==>
      k in Fold(t, incoming) && Level(m.row.status) <= Level(Fold(t, incoming)[k].status)
  {
    hide Patch, Level;
    if incoming != [] {
      var n := |incoming| - 1;
      FoldAdvances(t, incoming[..n], k);
      assert incoming == incoming[..n] + [incoming[n]];
      var before := Fold(t, incoming[..n]);
      if KeyIs(incoming[n].row, k) {
        PatchAdvances(if k in before then Some(before[k]) else None, incoming[n]);
      }
    }
  }

  /** Merging never loses a command's row, its time stays and its status never goes back; the
      merged list is in order, without a second row for a command or for an identifier. */
  lemma MergeNeverGoesBack(names: Names, current: seq<Row>, incoming: seq<Incoming>, k: Key)
    requires NamesOk(names) && Canonical(names, current) && BatchDecoded(names, incoming)
    ensures var before, after := TableOf(current), TableOf(Merge(current, incoming).0);
      && (k in before ==> k in after && Advances(before[k], after[k]))
      && forall m :: m in incoming && KeyIs(m.row, k) ==> k in after && Level(m.row.status) <= Level(after[k].status)
    ensures var rows := Merge(current, incoming).0;
      && Canonical(names, rows)
      && forall i, j :: 0 <= i < j < |rows| ==> rows[i].messageId != rows[j].messageId
  {
    hide NamesOk, Decoded, Merge, TableOf, Fold, Before, CommandKey, Level;
    MergeIsFold(names, current, incoming);
    FoldAdvances(TableOf(current), incoming, k);
    var rows := Merge(current, incoming).0;
    forall i, j | 0 <= i < j < |rows| ensures rows[i].messageId != rows[j].messageId {
      if rows[i].messageId == rows[j].messageId { SameIdSameKey(names, rows[i], rows[j]); }
    }
  }

  // ---- re-applying a batch ----

  function At(props: map<nat, nat>, p: nat): Option<nat>
  {
    if p in props then Some(props[p]) else None
  }

  predicate IsPending(status: Option<Status>)
  {
    status == Some(Pending)
  }

  /** Some row of the batch for command `k` that is not skipped sets or unsets property `p`. */
  predicate Touched(incoming: seq<Incoming>, k: Key, p: nat, settled: bool)
  {
    incoming != [] &&
    var m := incoming[|incoming| - 1];
    || Touched(incoming[..|incoming| - 1], k, p, settled)
    || (KeyIs(m.row, k) && !(settled && IsPending(m.row.status)) && (p in m.unset || p in m.row.props))
  }

  /** The second pass over a prefix of the batch, against the first: a property the second pass
      has touched is as after the first pass over that prefix, any other as at the end. */
  ghost predicate Replayed(first: map<Key, Row>, end: Row, second: map<Key, Row>, prefix: seq<Incoming>, k: Key, p: nat)
  {
    var settled := !IsPending(end.status);
    && k in second && second[k].createdAt == end.createdAt && second[k].status == end.status
    && second[k].historyId == end.historyId
    && (Touched(prefix, k, p, settled) ==>
         && k in first && At(second[k].props, p) == At(first[k].props, p)
         && (settled ==> !IsPending(first[k].status)))
    && (!Touched(prefix, k, p, settled) ==> At(second[k].props, p) == At(end.props, p))
  }

  lemma ReplayStep(names: Names, first: map<Key, Row>, end: Row, second: map<Key, Row>, prefix: seq<Incoming>,
                   m: Incoming, k: Key, p: nat)
    requires Replayed(first, end, second, prefix, k, p) && KeyIs(m.row, k) && Level(m.row.status) <= Level(end.status)
    requires k in first ==> Level(first[k].status) <= Level(end.status)
    requires Apply(first, m)[k].historyId.Some? ==> end.historyId.Some?
    requires Decoded(names, m.row) && Decoded(names, end) && KeyIs(end, k)
    requires (k in first ==> RowFor(names, first[k], k))
    ensures Replayed(Apply(first, m), end, Apply(second, m), prefix + [m], k, p)
  {
    assert (prefix + [m])[..|prefix|] == prefix;
  }

  lemma ReplayOther(first: map<Key, Row>, end: Row, second: map<Key, Row>, prefix: seq<Incoming>, m: Incoming, k: Key,
                    p: nat)
    requires Replayed(first, end, second, prefix, k, p) && CommandKey(m.row).Some? && !KeyIs(m.row, k)
    ensures Replayed(Apply(first, m), end, Apply(second, m), prefix + [m], k, p)
  {
    hide Patch;
    assert (prefix + [m])[..|prefix|] == prefix;
  }

  lemma {:induction false} Replay(names: Names, t: map<Key, Row>, a: seq<Incoming>, n: nat, k: Key, p: nat)
    requires NamesOk(names) && TableOk(names, t) && BatchDecoded(names, a) && n <= |a| && k in Fold(t, a)
    ensures Replayed(Fold(t, a[..n]), Fold(t, a)[k], Fold(Fold(t, a), a[..n]), a[..n], k, p)
  {
    hide NamesOk, Decoded, Patch, Apply, Level;
    if n > 0 {
      Replay(names, t, a, n - 1, k, p);
      var prefix, m := a[..n - 1], a[n - 1];
      assert a[..n] == prefix + [m] && a[..n][..n - 1] == prefix && m in a;
      var first, end, second := Fold(t, prefix), Fold(t, a)[k], Fold(Fold(t, a), prefix);
      DecodedKey(names, m.row);
      FoldKeeps(names, t, prefix);
      FoldKeeps(names, t, a);
      if KeyIs(m.row, k) {
        FoldAdvances(t, a, k);
        assert a == prefix + a[n - 1..];
        FoldConcat(t, prefix, a[n - 1..]);
        FoldAdvances(first, a[n - 1..], k);
        ReplayLevel(first, end, k, a[n - 1..]);
        assert a == a[..n] + a[n..] && Fold(t, a[..n]) == Apply(first, m);
        FoldConcat(t, a[..n], a[n..]);
        FoldAdvances(Apply(first, m), a[n..], k);
        AppliedKey(first, m, k);
        ReplayPlace(Apply(first, m), end, k, a[n..]);
        ReplayStep(names, first, end, second, prefix, m, k, p);
      } else {
        ReplayOther(first, end, second, prefix, m, k, p);
      }
    } else {
      assert a[..0] == [];
      ReplayNothing(map[], t, Fold(t, a), k, p);
    }
  }

  lemma ReplayLevel(first: map<Key, Row>, end: Row, k: Key, rest: seq<Incoming>)
    requires k in first ==> k in Fold(first, rest) && Advances(first[k], Fold(first, rest)[k])
    requires k in Fold(first, rest) && end == Fold(first, rest)[k]
    ensures k in first ==> Level(first[k].status) <= Level(end.status)
  {
  }

  lemma AppliedKey(first: map<Key, Row>, m: Incoming, k: Key)
    requires KeyIs(m.row, k)
    ensures k in Apply(first, m)
  {
  }

  lemma ReplayPlace(first: map<Key, Row>, end: Row, k: Key, rest: seq<Incoming>)
    requires k in first && k in Fold(first, rest) && Advances(first[k], Fold(first, rest)[k])
    requires end == Fold(first, rest)[k]
    ensures first[k].historyId.Some? ==> end.historyId.Some?
  {
  }

  lemma ReplayNothing(none: map<Key, Row>, t: map<Key, Row>, done: map<Key, Row>, k: Key, p: nat)
    requires k in done
    ensures Replayed(Fold(t, []), done[k], Fold(done, []), [], k, p)
  {
  }

  lemma SameDecoded(names: Names, a: Row, b: Row, k: Key)
    requires RowFor(names, a, k) && RowFor(names, b, k) && a.status == b.status && a.createdAt == b.createdAt
    requires a.historyId == b.historyId
    requires forall p :: At(a.props, p) == At(b.props, p)
    ensures a == b
  {
    forall p ensures (p in a.props) == (p in b.props) && (p in a.props ==> a.props[p] == b.props[p]) {
      assert At(a.props, p) == At(b.props, p);
    }
    assert a.props == b.props;
  }

  lemma FoldAgain(names: Names, t: map<Key, Row>, a: seq<Incoming>)
    requires NamesOk(names) && TableOk(names, t) && BatchDecoded(names, a)
    ensures Fold(Fold(t, a), a) == Fold(t, a)
  {
    hide NamesOk, Decoded, Fold, BatchDecoded, At;
    var done := Fold(t, a);
    var again := Fold(done, a);
    assert a[..|a|] == a;
    FoldKeeps(names, t, a);
    FoldKeeps(names, done, a);
    forall m | m in a && CommandKey(m.row).Some? ensures CommandKey(m.row).value in done {
      FoldAdvances(t, a, CommandKey(m.row).value);
    }
    FoldKeys(done, a, done);
    forall k | k in done ensures k in again && again[k] == done[k] {
      forall p ensures k in again && At(again[k].props, p) == At(done[k].props, p) {
        Replay(names, t, a, |a|, k, p);
      }
      Replay(names, t, a, |a|, k, 0);
      SameDecoded(names, again[k], done[k], k);
    }
    assert again == done;
  }

  /** Folding a batch adds exactly the commands of the batch. */
  lemma {:induction false} FoldKeys(t: map<Key, Row>, a: seq<Incoming>, upper: map<Key, Row>)
    requires t.Keys <= upper.Keys && forall m :: m in a && CommandKey(m.row).Some? ==> CommandKey(m.row).value in upper
    ensures Fold(t, a).Keys <= upper.Keys
  {
    hide Patch, CommandKey;
    if a != [] {
      FoldKeys(t, a[..|a| - 1], upper);
      assert a[|a| - 1] in a;
    }
  }

  /** Re-applying a batch leaves the same list. */
  lemma ReapplyingChangesNothing(names: Names, current: seq<Row>, a: seq<Incoming>)
    requires NamesOk(names) && Canonical(names, current) && BatchDecoded(names, a)
    ensures Merge(Merge(current, a).0, a).0 == Merge(current, a).0
  {
    hide NamesOk, Decoded, Merge, TableOf, Fold, Before;
    MergeIsFold(names, current, a);
    MergeIsFold(names, Merge(current, a).0, a);
    TableIsOk(names, current);
    FoldAgain(names, TableOf(current), a);
    ListIsUnique(names, Merge(Merge(current, a).0, a).0, Merge(current, a).0);
  }

  lemma TableIsOk(names: Names, rows: seq<Row>)
    requires Canonical(names, rows)
    ensures TableOk(names, TableOf(rows))
  {
    hide Decoded, Before, TableOf, CommandKey;
    TableTabulates(rows);
  }
}
