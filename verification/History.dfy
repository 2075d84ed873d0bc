/** The local history of a chat: one page is read from two indexes, and pages are followed
    backwards while both stores go on changing. */
module History {
  import opened Common
  import Orders
  import opened InboxStore
  import OS = OutgoingStore

  /** The place of a row in its chat's history. Times come first, then the tie breaker: the
      texts of envelope rows sort before those of outgoing rows. */
  datatype Place = Place(time: int, kind: nat, id: nat)

  const ENVELOPE: nat := 0
  const OUTGOING: nat := 1

  predicate Newer(a: Place, b: Place)
  {
    a.time > b.time || (a.time == b.time && (a.kind > b.kind || (a.kind == b.kind && a.id > b.id)))
  }

  // ---- index entries ----

  function EnvelopePlace(e: MailboxEnvelope): Place
  {
    Place(e.routing.messageCreatedAt, ENVELOPE, e.id)
  }

  function OutgoingPlace(r: OS.Row): Place
  {
    Place(r.createdAt.Or(OS.CreatedBy(r.accepted)).Or(Some(OS.NO_TIME)).value, OUTGOING, r.command.clientId)
  }

  /** A stored record with the values it is indexed under; rows of older versions have none. */
  datatype Stored<V> = Stored(value: V, pending: bool, message: Option<nat>, chat: Option<nat>, place: Option<Place>)

  function EnvelopeRecord(e: MailboxEnvelope): Stored<MailboxEnvelope>
  {
    Stored(e, e.payload.Some? && e.deliveredAt.None?, None, Some(e.routing.chat), Some(EnvelopePlace(e)))
  }

  function OutgoingRecord(r: OS.Row): Stored<OS.Row>
  {
    Stored(r,
           r.accepted.None? || r.accepted.value.envelopes == []
             || (exists d :: d in r.accepted.value.envelopes && d.deliveredAt.None?),
           (match r.accepted case None => None case Some(m) => Some(m.id)),
           Some(r.command.chat), Some(OutgoingPlace(r)))
  }

  datatype Db = Db(envelopes: map<nat, Stored<MailboxEnvelope>>, outgoing: map<nat, Stored<OS.Row>>)

  /** Every stored record is indexed as it would be indexed now. */
  ghost predicate IndexesCurrent(db: Db)
  {
    && (forall id :: id in db.envelopes ==> db.envelopes[id] == EnvelopeRecord(db.envelopes[id].value))
    && (forall c :: c in db.outgoing ==> db.outgoing[c] == OutgoingRecord(db.outgoing[c].value))
  }

  method IndexEnvelopes(records: map<nat, Stored<MailboxEnvelope>>) returns (after: map<nat, Stored<MailboxEnvelope>>)
    ensures after == map id | id in records :: EnvelopeRecord(records[id].value)
  {
    hide EnvelopeRecord;
    after := records;
    var left := records.Keys;
    while left != {}
      invariant left <= records.Keys == after.Keys
      invariant forall id :: id in records ==>
        after[id] == if id in left then records[id] else EnvelopeRecord(records[id].value)
      decreases |left|
    {
      var id :| id in left;
      after := after[id := EnvelopeRecord(after[id].value)];
      left := left - {id};
    }
  }

  method IndexOutgoing(records: map<nat, Stored<OS.Row>>) returns (after: map<nat, Stored<OS.Row>>)
    ensures after == map c | c in records :: OutgoingRecord(records[c].value)
  {
    hide OutgoingRecord;
    after := records;
    var left := records.Keys;
    while left != {}
      invariant left <= records.Keys == after.Keys
      invariant forall c :: c in records ==>
        after[c] == if c in left then records[c] else OutgoingRecord(records[c].value)
      decreases |left|
    {
      var c :| c in left;
      after := after[c := OutgoingRecord(after[c].value)];
      left := left - {c};
    }
  }

  /** Opening an older database indexes every record again and keeps its value. */
  method MigrateSchema(db: Db) returns (after: Db)
    ensures IndexesCurrent(after)
    ensures after.envelopes.Keys == db.envelopes.Keys && after.outgoing.Keys == db.outgoing.Keys
    ensures forall id :: id in db.envelopes ==> after.envelopes[id].value == db.envelopes[id].value
    ensures forall c :: c in db.outgoing ==> after.outgoing[c].value == db.outgoing[c].value
  {
    var envelopes := IndexEnvelopes(db.envelopes);
    var outgoing := IndexOutgoing(db.outgoing);
    after := Db(envelopes, outgoing);
  }

  // ---- the history of one chat ----

  /** The places the history indexes list for a chat. */
  function EnvelopePlaces(db: Db, chat: nat): set<Place>
  {
    set id | id in db.envelopes && db.envelopes[id].chat == Some(chat)
      && db.envelopes[id].place.Some? :: db.envelopes[id].place.value
  }

  function OutgoingPlaces(db: Db, chat: nat): set<Place>
  {
    set c | c in db.outgoing && db.outgoing[c].chat == Some(chat)
      && db.outgoing[c].place.Some? :: db.outgoing[c].place.value
  }

  function PlacesOf(db: Db, chat: nat): set<Place>
  {
    EnvelopePlaces(db, chat) + OutgoingPlaces(db, chat)
  }

  function Before(places: set<Place>, before: Option<Place>): (r: set<Place>)
    ensures r <= places
  {
    set p | p in places && (before.Some? ==> Newer(before.value, p))
  }

  predicate Newest(p: Place, places: set<Place>)
  {
    p in places && forall q :: q in places ==> q == p || Newer(p, q)
  }

  lemma {:induction false} NewestExists(places: set<Place>)
    requires places != {}
    ensures exists p :: Newest(p, places)
    decreases |places|
  {
    var a :| a in places;
    if places == {a} {
      assert Newest(a, places);
    } else {
      NewestExists(places - {a});
      var m :| Newest(m, places - {a});
      assert forall x :: x in places ==> x == a || x in places - {a};
      assert Newest(if Newer(a, m) then a else m, places);
    }
  }

  function NewestOf(places: set<Place>): (p: Place)
    requires places != {}
    ensures Newest(p, places)
  {
    NewestExists(places);
    var p :| Newest(p, places);
    p
  }

  /** A set of places, newest first. */
  function Listing(places: set<Place>): (r: seq<Place>)
    ensures forall p :: p in r <==> p in places
    ensures Orders.Sorted(r, Newer)
    decreases |places|
  {
    if places == {} then [] else
    var first := NewestOf(places);
    [first] + Listing(places - {first})
  }

  function Take<T>(s: seq<T>, n: nat): (r: seq<T>)
    ensures forall x :: x in r ==> x in s
  {
    if |s| <= n then s else s[..n]
  }

  function Elements(s: seq<Place>): set<Place>
  {
    set p | p in s
  }

  datatype HistoryPage = HistoryPage(places: seq<Place>, nextBefore: Option<Place>)

  /** What a page should be: the first `limit` rows of both stores together below the cursor. */
  function FirstOf(places: set<Place>, limit: nat): HistoryPage
    requires limit >= 1
  {
    var all := Listing(places);
    HistoryPage(Take(all, limit), if |all| > limit then Some(all[limit - 1]) else None)
  }

  // ---- reading a page ----

  /** Walks an index from its newest entry until `count` entries are collected. */
  method ReadHistoryEntries(range: seq<Place>, count: nat) returns (entries: seq<Place>)
    ensures entries == Take(range, count)
  {
    entries := [];
    var cursor := 0;
    while cursor < |range| && |entries| != count
      invariant cursor <= |range| && cursor <= count && entries == range[..cursor]
    {
      entries := entries + [range[cursor]];
      cursor := cursor + 1;
    }
  }

  /** Every record lies under the identifier of its value. */
  ghost predicate Keyed(db: Db)
  {
    && (forall id :: id in db.envelopes ==> db.envelopes[id].value.id == id)
    && (forall c :: c in db.outgoing ==> db.outgoing[c].value.command.clientId == c)
  }

  ghost predicate HoldsEnvelope(db: Db, chat: nat, e: MailboxEnvelope)
  {
    e.id in db.envelopes && db.envelopes[e.id].value == e && e.routing.chat == chat
  }

  ghost predicate HoldsRow(db: Db, chat: nat, r: OS.Row)
  {
    r.command.clientId in db.outgoing && db.outgoing[r.command.clientId].value == r && r.command.chat == chat
  }

  datatype ChatHistoryPage = ChatHistoryPage(envelopes: seq<MailboxEnvelope>, outgoing: seq<OS.Row>,
                                             nextBefore: Option<Place>)

  /** The page holds exactly the stored rows of the chat that stand at the given places, newest first. */
  ghost predicate RowsAt(db: Db, chat: nat, places: seq<Place>, envelopes: seq<MailboxEnvelope>, outgoing: seq<OS.Row>)
  {
    && (forall e :: e in envelopes <==> HoldsEnvelope(db, chat, e) && EnvelopePlace(e) in places)
    && (forall r :: r in outgoing <==> HoldsRow(db, chat, r) && OutgoingPlace(r) in places)
    && (forall i, j :: 0 <= i < j < |envelopes| ==> Newer(EnvelopePlace(envelopes[i]), EnvelopePlace(envelopes[j])))
    && (forall i, j :: 0 <= i < j < |outgoing| ==> Newer(OutgoingPlace(outgoing[i]), OutgoingPlace(outgoing[j])))
  }

  /** An index entry leads to the record it was made for. */
  lemma PlaceHasRow(db: Db, chat: nat, p: Place)
    requires IndexesCurrent(db) && Keyed(db) && p in PlacesOf(db, chat)
    ensures p.kind == ENVELOPE ==>
      p.id in db.envelopes && HoldsEnvelope(db, chat, db.envelopes[p.id].value)
        && EnvelopePlace(db.envelopes[p.id].value) == p
    ensures p.kind != ENVELOPE ==>
      p.id in db.outgoing && HoldsRow(db, chat, db.outgoing[p.id].value) && OutgoingPlace(db.outgoing[p.id].value) == p
  {
  }

  lemma NextRow(db: Db, chat: nat, places: seq<Place>, n: nat, envelopes: seq<MailboxEnvelope>, outgoing: seq<OS.Row>)
    requires IndexesCurrent(db) && Keyed(db) && Orders.Sorted(places, Newer) && n < |places|
    requires places[n] in PlacesOf(db, chat)
    requires RowsAt(db, chat, places[..n], envelopes, outgoing)
    ensures places[n].kind == ENVELOPE ==>
      places[n].id in db.envelopes
      && RowsAt(db, chat, places[..n + 1], envelopes + [db.envelopes[places[n].id].value], outgoing)
    ensures places[n].kind != ENVELOPE ==>
      places[n].id in db.outgoing
      && RowsAt(db, chat, places[..n + 1], envelopes, outgoing + [db.outgoing[places[n].id].value])
  {
    hide Newer, PlacesOf, IndexesCurrent, Keyed;
    var p := places[n];
    PlaceHasRow(db, chat, p);
    assert forall q :: q in places[..n + 1] <==> q in places[..n] || q == p;
    forall q | q in places[..n] ensures Newer(q, p) {
      var i :| 0 <= i < n && places[..n][i] == q;
      assert places[i] == q;
    }
    if p.kind == ENVELOPE {
      assert forall i :: 0 <= i < |envelopes| ==> envelopes[i] in envelopes;
    } else {
      assert forall i :: 0 <= i < |outgoing| ==> outgoing[i] in outgoing;
    }
  }

  /** A page of the history: one row more than the limit is read from each index. */
  method ReadChatHistory(db: Db, chat: nat, limit: int, before: Option<Place>) returns (r: Option<ChatHistoryPage>)
    requires IndexesCurrent(db) && Keyed(db)
    ensures r.None? <==> limit < 1
    ensures r.Some? ==>
      var page := FirstOf(Before(PlacesOf(db, chat), before), limit);
      RowsAt(db, chat, page.places, r.value.envelopes, r.value.outgoing) && r.value.nextBefore == page.nextBefore
  {
    hide EnvelopePlaces, OutgoingPlaces, Listing, Before, Newer, IndexesCurrent, Keyed, RowsAt;
    if limit < 1 { return None; }
    var newestEnvelopes := ReadHistoryEntries(Listing(Before(EnvelopePlaces(db, chat), before)), limit + 1);
    var newestOutgoing := ReadHistoryEntries(Listing(Before(OutgoingPlaces(db, chat), before)), limit + 1);
    var entries := Listing(Elements(newestEnvelopes) + Elements(newestOutgoing));
    PageOfBoth(Before(EnvelopePlaces(db, chat), before), Before(OutgoingPlaces(db, chat), before), limit);
    BeforeBoth(EnvelopePlaces(db, chat), OutgoingPlaces(db, chat), before);
    var page := if |entries| > limit then entries[..limit] else entries;
    ghost var wanted := FirstOf(Before(PlacesOf(db, chat), before), limit);
    assert page == wanted.places;
    WantedPlaces(PlacesOf(db, chat), before, limit);
    hide FirstOf, PlacesOf;
    var envelopes, outgoing := [], [];
    NoRows(db, chat, page[..0]);
    for i := 0 to |page|
      invariant RowsAt(db, chat, page[..i], envelopes, outgoing)
    {
      NextRow(db, chat, page, i, envelopes, outgoing);
      if page[i].kind == ENVELOPE {
        envelopes := envelopes + [db.envelopes[page[i].id].value];
      } else {
        outgoing := outgoing + [db.outgoing[page[i].id].value];
      }
    }
    assert page[..|page|] == page;
    return Some(ChatHistoryPage(envelopes, outgoing, if |entries| > limit then Some(page[limit - 1]) else None));
  }

  lemma NoRows(db: Db, chat: nat, none: seq<Place>)
    requires none == []
    ensures RowsAt(db, chat, none, [], [])
  {
  }

  lemma WantedPlaces(places: set<Place>, before: Option<Place>, limit: nat)
    requires limit >= 1
    ensures var page := FirstOf(Before(places, before), limit).places;
      Orders.Sorted(page, Newer) && forall p :: p in page ==> p in places
  {
    hide Listing, Newer;
  }

  lemma BeforeBoth(a: set<Place>, b: set<Place>, before: Option<Place>)
    ensures Before(a + b, before) == Before(a, before) + Before(b, before)
  {
  }

  lemma NewerIsStrict()
    ensures Orders.Asymmetric(Newer)
  {
  }

  lemma ListingUnique(r: seq<Place>, places: set<Place>)
    requires Orders.Sorted(r, Newer) && forall p :: p in r <==> p in places
    ensures r == Listing(places)
  {
    hide Listing;
    NewerIsStrict();
    Orders.SortedUnique(r, Listing(places), Newer);
  }

  lemma PrefixHas(s: seq<Place>, n: nat)
    requires n <= |s|
    ensures forall i :: 0 <= i < n ==> s[i] in s[..n]
  {
    assert forall i :: 0 <= i < n ==> s[..n][i] == s[i];
  }

  lemma SortedBackwards(s: seq<Place>)
    requires Orders.Sorted(s, Newer)
    ensures forall i, j :: 0 <= i <= j < |s| ==> !Newer(s[j], s[i])
  {
    hide Newer;
    NewerIsStrict();
    Orders.Backwards(s, Newer);
  }

  lemma NotInPrefix(s: seq<Place>, n: nat, k: nat)
    requires Orders.Sorted(s, Newer) && n <= k < |s|
    ensures s[k] !in s[..n]
  {
    hide Newer;
    NewerIsStrict();
    forall j | 0 <= j < n ensures s[..n][j] != s[k] { assert Newer(s[j], s[k]); }
  }

  /** Removing a place with at least `n` newer ones changes nothing in the first `n`. */
  lemma RemoveOld(places: set<Place>, x: Place, n: nat)
    requires x in places && |Listing(places)| > n && x !in Listing(places)[..n]
    ensures |Listing(places - {x})| >= n && Listing(places - {x})[..n] == Listing(places)[..n]
  {
    hide Listing, Newer;
    NewerIsStrict();
    var all := Listing(places);
    var i :| 0 <= i < |all| && all[i] == x;
    PrefixHas(all, n);
    var rest := all[..i] + all[i + 1..];
    forall p | p in places - {x} ensures p in rest {
      var j :| 0 <= j < |all| && all[j] == p;
      assert if j < i then rest[j] == p else rest[j - 1] == p;
    }
    forall p | p in rest ensures p in places - {x} {
      var j :| 0 <= j < |rest| && rest[j] == p;
      var k := if j < i then j else j + 1;
      assert all[k] == p && k != i;
      assert Newer(all[if k < i then k else i], all[if k < i then i else k]);
    }
    ListingUnique(rest, places - {x});
  }

  /** Places that all have `n` newer ones can all be removed. */
  lemma {:induction false} RemoveAllOld(places: set<Place>, olds: set<Place>, n: nat)
    requires olds <= places && |Listing(places)| > n && forall x :: x in olds ==> x !in Listing(places)[..n]
    ensures |Listing(places - olds)| >= n && Listing(places - olds)[..n] == Listing(places)[..n]
    decreases |olds|
  {
    hide Listing, Newer;
    if olds == {} {
      assert places - olds == places;
    } else {
      var x :| x in olds;
      RemoveOld(places, x, n);
      var left := places - {x};
      if |Listing(left)| > n {
        RemoveAllOld(left, olds - {x}, n);
      } else {
        // the first n are all that is left, so nothing else is old
        assert Listing(left)[..n] == Listing(left);
        assert olds == {x};
      }
      assert left - (olds - {x}) == places - olds;
    }
  }

  lemma PageOfBoth(a: set<Place>, b: set<Place>, limit: nat)
    requires limit >= 1
    ensures var entries := Listing(Elements(Take(Listing(a), limit + 1)) + Elements(Take(Listing(b), limit + 1)));
      var all := Listing(a + b);
      && (|entries| > limit <==> |all| > limit)
      && Take(entries, limit) == Take(all, limit)
  {
    hide Listing, Newer, Take, Elements;
    var n := limit + 1;
    var top := Elements(Take(Listing(a), n)) + Elements(Take(Listing(b), n));
    var all := Listing(a + b);
    var olds := a + b - top;
    TopIsPart(a, n);
    TopIsPart(b, n);
    assert a + b - olds == top && b + a == a + b;
    forall x | x in olds ensures |all| > n && x !in all[..n] {
      if x in a { OldIsLow(a, b, n, x); } else { OldIsLow(b, a, n, x); }
    }
    if olds == {} {
      assert top == a + b;
    } else {
      var x :| x in olds;
      RemoveAllOld(a + b, olds, n);
      SameTake(Listing(top), all, limit);
    }
  }

  lemma TopIsPart(a: set<Place>, n: nat)
    ensures Elements(Take(Listing(a), n)) <= a
    ensures forall x :: x in a && x !in Elements(Take(Listing(a), n)) ==> x !in Take(Listing(a), n)
  {
    hide Listing;
  }

  lemma SameTake(a: seq<Place>, b: seq<Place>, n: nat)
    requires |a| > n && |b| > n && a[..n + 1] == b[..n + 1]
    ensures Take(a, n) == Take(b, n)
  {
    assert a[..n + 1][..n] == a[..n] && b[..n + 1][..n] == b[..n];
  }

  /** What one index leaves out has enough newer rows in that index alone. */
  lemma OldIsLow(a: set<Place>, b: set<Place>, n: nat, x: Place)
    requires x in a && x !in Take(Listing(a), n)
    ensures |Listing(a + b)| > n && x !in Listing(a + b)[..n]
  {
    hide Listing, Newer;
    NewerIsStrict();
    var own, all := Listing(a), Listing(a + b);
    assert x in own;
    var i :| 0 <= i < |own| && own[i] == x;
    if n <= |own| { PrefixHas(own, n); }
    assert x in all;
    var k :| 0 <= k < |all| && all[k] == x;
    CountNewer(own, all, i, k);
    NotInPrefix(all, n, k);
  }

  /** A place cannot come earlier in a longer listing. */
  lemma {:induction false} CountNewer(own: seq<Place>, all: seq<Place>, i: nat, k: nat)
    requires Orders.Sorted(own, Newer) && Orders.Sorted(all, Newer) && (forall p :: p in own ==> p in all)
    requires i < |own| && k < |all| && own[i] == all[k]
    ensures i <= k
    decreases i
  {
    hide Newer;
    NewerIsStrict();
    if i > 0 {
      assert own[i - 1] in own && own[i - 1] in all;
      var j :| 0 <= j < |all| && all[j] == own[i - 1];
      assert Newer(own[i - 1], own[i]);
      SortedBackwards(all);
      CountNewer(own, all, i - 1, j);
    }
  }

  // ---- following the pages ----

  /** `states[i]` are the places of the chat when the page of round `i` is read; places are never
      taken away, as rows are kept and keep their place. */
  ghost predicate Growing(states: seq<set<Place>>)
  {
    forall i, j :: 0 <= i <= j < |states| ==> states[i] <= states[j]
  }

  /** The pages read so far put together, and the cursor for the next. */
  function Walk(states: seq<set<Place>>, limit: nat): (r: (seq<Place>, Option<Place>))
    requires limit >= 1
  {
    if states == [] then ([], None) else
    var n := |states| - 1;
    var (read, before) := Walk(states[..n], limit);
    if n > 0 && before.None? then (read, None) else
    var page := FirstOf(Before(states[n], before), limit);
    (read + page.places, page.nextBefore)
  }

  /** What a walk has read: newest first, and everything present at its start down to its cursor. */
  ghost predicate WalkedTo(start: set<Place>, walk: (seq<Place>, Option<Place>))
  {
    && Orders.Sorted(walk.0, Newer)
    && (walk.1.Some? ==> walk.0 != [] && walk.0[|walk.0| - 1] == walk.1.value)
    && (forall p :: p in start && (walk.1.Some? ==> p == walk.1.value || Newer(p, walk.1.value)) ==> p in walk.0)
  }

  lemma NewerTotal(a: Place, b: Place)
    ensures a == b || Newer(a, b) || Newer(b, a)
  {
  }

  lemma NewerChains(a: Place, b: Place, c: Place)
    requires Newer(a, b) && Newer(b, c)
    ensures Newer(a, c)
  {
  }

  lemma PageFollows(start: set<Place>, walk: (seq<Place>, Option<Place>), places: set<Place>, limit: nat)
    requires limit >= 1 && start <= places
    requires (walk.0 == [] && walk.1.None?) || (walk.1.Some? && WalkedTo(start, walk))
    ensures var page := FirstOf(Before(places, walk.1), limit);
      WalkedTo(start, (walk.0 + page.places, page.nextBefore))
  {
    hide Listing, Newer;
    var below := Before(places, walk.1);
    var page, all := FirstOf(below, limit), Listing(below);
    var read := walk.0 + page.places;
    forall i, j | 0 <= i < j < |read| ensures Newer(read[i], read[j]) {
      if j >= |walk.0| {
        var p := page.places[j - |walk.0|];
        if i < |walk.0| {
          assert p in page.places && p in all && Newer(walk.1.value, p);
          if i < |walk.0| - 1 { NewerChains(walk.0[i], walk.1.value, p); }
        } else {
          assert Newer(all[i - |walk.0|], all[j - |walk.0|]);
        }
      }
    }
    forall p | p in start && (page.nextBefore.Some? ==> p == page.nextBefore.value || Newer(p, page.nextBefore.value))
      ensures p in read
    {
      StartIsRead(start, walk, places, limit, p);
    }
  }

  lemma StartIsRead(start: set<Place>, walk: (seq<Place>, Option<Place>), places: set<Place>, limit: nat, p: Place)
    requires limit >= 1 && start <= places && p in start
    requires (walk.0 == [] && walk.1.None?) || (walk.1.Some? && WalkedTo(start, walk))
    requires var next := FirstOf(Before(places, walk.1), limit).nextBefore;
      next.Some? ==> p == next.value || Newer(p, next.value)
    ensures p in walk.0 + FirstOf(Before(places, walk.1), limit).places
  {
    hide Listing, Newer;
    NewerIsStrict();
    if walk.1.Some? { NewerTotal(p, walk.1.value); }
    if walk.1.None? || Newer(walk.1.value, p) {
      var all := Listing(Before(places, walk.1));
      assert p in all;
      var i :| 0 <= i < |all| && all[i] == p;
      if |all| > limit {
        SortedBackwards(all);
        assert i != limit - 1 ==> !Newer(all[i], all[limit - 1]) || i < limit - 1;
        PrefixHas(all, limit);
      }
    }
  }

  lemma {:induction false} WalkIsOrdered(states: seq<set<Place>>, limit: nat)
    requires limit >= 1 && Growing(states) && states != []
    ensures WalkedTo(states[0], Walk(states, limit))
  {
    hide FirstOf, WalkedTo;
    var n := |states| - 1;
    if n == 0 {
      assert states[..0] == [];
      WalkNothing(limit);
      PageFollows(states[0], ([], None), states[0], limit);
    } else {
      WalkIsOrdered(states[..n], limit);
      if Walk(states[..n], limit).1.Some? {
        PageFollows(states[0], Walk(states[..n], limit), states[n], limit);
      }
    }
  }

  lemma WalkNothing(limit: nat)
    requires limit >= 1
    ensures Walk([], limit) == ([], None)
  {
  }

  /** Following nextBefore until there is none returns every row that was there at the start
      exactly once, newest first, whatever is stored or rewritten between the pages. */
  lemma WalkReturnsAll(states: seq<set<Place>>, limit: nat, p: Place)
    requires limit >= 1 && Growing(states) && states != [] && Walk(states, limit).1.None?
    ensures var read := Walk(states, limit).0;
      && Orders.Sorted(read, Newer)
      && (forall i, j :: 0 <= i < j < |read| ==> read[i] != read[j])
      && (p in states[0] ==> p in read)
  {
    hide Walk, Newer;
    WalkIsOrdered(states, limit);
    NewerIsStrict();
    var read := Walk(states, limit).0;
    forall i, j | 0 <= i < j < |read| ensures read[i] != read[j] { assert Newer(read[i], read[j]); }
  }

  /** While nothing new is stored, every page but the last is full and leaves something below it. */
  lemma {:induction false} StillWalk(places: set<Place>, limit: nat, n: nat)
    requires limit >= 1 && n >= 1
    ensures var walk := Walk(seq(n, i => places), limit);
      walk.1.None? || (|walk.0| == n * limit && (forall p :: p in walk.0 ==> p in places)
                       && exists p :: p in places && Newer(walk.1.value, p))
  {
    hide Listing, Newer, Walk, FirstOf, Before;
    var states := seq(n, i => places);
    WalkLast(states, limit);
    if n > 1 {
      StillWalk(places, limit, n - 1);
      assert states[..n - 1] == seq(n - 1, i => places);
      var walk := Walk(states[..n - 1], limit);
      if walk.1.Some? {
        FullPage(places, walk.1, limit);
        assert n * limit == (n - 1) * limit + limit;
      }
    } else {
      assert states[..0] == [];
      WalkNothing(limit);
      FullPage(places, None, limit);
    }
  }

  lemma WalkLast(states: seq<set<Place>>, limit: nat)
    requires limit >= 1 && states != []
    ensures var n := |states| - 1;
      var walk := Walk(states[..n], limit);
      var page := FirstOf(Before(states[n], walk.1), limit);
      Walk(states, limit) == if n > 0 && walk.1.None? then (walk.0, None) else (walk.0 + page.places, page.nextBefore)
  {
    hide FirstOf, Before;
  }

  lemma FullPage(places: set<Place>, before: Option<Place>, limit: nat)
    requires limit >= 1
    ensures var page := FirstOf(Before(places, before), limit);
      && (forall p :: p in page.places ==> p in places)
      && (page.nextBefore.Some? ==>
          |page.places| == limit && exists p :: p in places && Newer(page.nextBefore.value, p))
  {
    hide Listing, Newer;
    var all := Listing(Before(places, before));
    assert forall p :: p in all ==> p in places;
    if |all| > limit { assert Newer(all[limit - 1], all[limit]) && all[limit] in all; }
  }

  /** A walk over a history that stands still ends as soon as its pages could hold all rows. */
  lemma StillWalkEnds(places: set<Place>, limit: nat, n: nat)
    requires limit >= 1 && n >= 1 && n * limit >= |places|
    ensures Walk(seq(n, i => places), limit).1.None?
  {
    hide Walk, Newer, Elements;
    var states := seq(n, i => places);
    var walk := Walk(states, limit);
    StillWalk(places, limit, n);
    WalkIsOrdered(states, limit);
    if walk.1.Some? {
      var p :| p in places && Newer(walk.1.value, p);
      SortedBackwards(walk.0);
      CountDistinct(walk.0);
      ElementsOf(walk.0);
      SubsetCount(Elements(walk.0), places, p);
    }
  }

  lemma ElementsOf(s: seq<Place>)
    ensures forall p :: p in Elements(s) <==> p in s
  {
  }

  lemma SubsetCount(a: set<Place>, b: set<Place>, p: Place)
    requires a <= b && p in b && p !in a
    ensures |a| < |b|
  {
    assert a + (b - a) == b && p in b - a;
    assert |a| + |b - a| == |b|;
  }

  lemma {:induction false} CountDistinct(s: seq<Place>)
    requires Orders.Sorted(s, Newer)
    ensures |Elements(s)| == |s|
  {
    hide Newer;
    NewerIsStrict();
    if s != [] {
      var n := |s| - 1;
      CountDistinct(s[..n]);
      NotInPrefix(s, n, n);
      assert Elements(s) == Elements(s[..n]) + {s[n]};
    }
  }
}
