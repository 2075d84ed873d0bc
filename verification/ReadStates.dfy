/** Read positions on the client: every update is a join, so durable and in-memory states are
    the maximum of whatever was merged, in any order. */
module ReadStates {
  import opened Common

  datatype ReadState = ReadState(local: nat, confirmed: nat, peer: nat)

  /** A position as the server reports it, for one member of a chat. */
  datatype ReadCursor = ReadCursor(chat: nat, user: nat, position: nat)

  const NOTHING_READ: ReadState := ReadState(0, 0, 0)

  function Larger(a: nat, b: nat): (r: nat) { if a >= b then a else b }

  function Join(a: ReadState, b: ReadState): ReadState
  {
    ReadState(Larger(a.local, b.local), Larger(a.confirmed, b.confirmed), Larger(a.peer, b.peer))
  }

  predicate Within(a: ReadState, b: ReadState)
  {
    a.local <= b.local && a.confirmed <= b.confirmed && a.peer <= b.peer
  }

  /** What merging a cursor contributes: an own position confirms, any other is the peer's. */
  function FromCursor(user: nat, c: ReadCursor): ReadState
  {
    if c.user == user then ReadState(c.position, c.position, 0) else ReadState(0, 0, c.position)
  }

  function FromReading(position: nat): ReadState
  {
    ReadState(position, 0, 0)
  }

  function JoinAll(merged: seq<ReadState>): ReadState
  {
    if merged == [] then NOTHING_READ else Join(JoinAll(merged[..|merged| - 1]), merged[|merged| - 1])
  }

  /** `s` is the componentwise maximum of what was merged, zero where there is nothing. */
  ghost predicate IsMaximum(s: ReadState, merged: seq<ReadState>)
  {
    && (forall m :: m in merged ==> Within(m, s))
    && (s.local == 0 || exists m :: m in merged && m.local == s.local)
    && (s.confirmed == 0 || exists m :: m in merged && m.confirmed == s.confirmed)
    && (s.peer == 0 || exists m :: m in merged && m.peer == s.peer)
  }

  lemma {:induction false} JoinAllIsMaximum(merged: seq<ReadState>)
    ensures IsMaximum(JoinAll(merged), merged)
  {
    if merged != [] {
      var n := |merged| - 1;
      JoinAllIsMaximum(merged[..n]);
      assert merged == merged[..n] + [merged[n]];
      assert merged[n] in merged && forall m :: m in merged[..n] ==> m in merged;
    }
  }

  /** Order and repetition do not matter. */
  lemma JoinAllIsOrderless(a: seq<ReadState>, b: seq<ReadState>)
    requires forall m :: m in a <==> m in b
    ensures JoinAll(a) == JoinAll(b)
  {
    JoinAllIsMaximum(a);
    JoinAllIsMaximum(b);
    MaximumWithin(JoinAll(a), JoinAll(b), a);
    MaximumWithin(JoinAll(b), JoinAll(a), b);
  }

  lemma MaximumWithin(x: ReadState, y: ReadState, merged: seq<ReadState>)
    requires IsMaximum(x, merged) && forall m :: m in merged ==> Within(m, y)
    ensures Within(x, y)
  {
  }

  /** The durable states of one scope and one transaction each. */
  class ReadStateStore {
    const user: nat
    var states: map<nat, ReadState>

    constructor (user: nat)
      ensures this.user == user && states == map[]
    {
      this.user := user;
      states := map[];
    }

    function Get(chat: nat): ReadState
      reads this
    {
      if chat in states then states[chat] else NOTHING_READ
    }

    method MergeChatReadCursor(c: ReadCursor) returns (state: ReadState)
      modifies this
      ensures state == Join(old(Get(c.chat)), FromCursor(user, c))
      ensures states == old(states)[c.chat := state]
    {
      state := Get(c.chat);
      if c.user == user {
        state := state.(local := Larger(state.local, c.position), confirmed := Larger(state.confirmed, c.position));
      } else {
        state := state.(peer := Larger(state.peer, c.position));
      }
      states := states[c.chat := state];
    }

    method AdvanceLocalReadCursor(chat: nat, position: int) returns (r: Option<ReadState>)
      modifies this
      ensures r.None? <==> position < 1
      ensures r.None? ==> states == old(states)
      ensures r.Some? ==>
        r.value == Join(old(Get(chat)), FromReading(position)) && states == old(states)[chat := r.value]
    {
      if position < 1 { return None; }
      var state := Get(chat);
      state := state.(local := Larger(state.local, position));
      states := states[chat := state];
      return Some(state);
    }
  }

  /** The in-memory copy of one tab. */
  class ReadMemory {
    var states: map<nat, ReadState>

    constructor ()
      ensures states == map[]
    {
      states := map[];
    }

    function Get(chat: nat): ReadState
      reads this
    {
      if chat in states then states[chat] else NOTHING_READ
    }

    /** Publishing never shows a position going back, whatever order the states arrive in. */
    method Publish(chat: nat, incoming: ReadState) returns (state: ReadState)
      modifies this
      ensures state == Join(old(Get(chat)), incoming) && states == old(states)[chat := state]
      ensures Within(old(Get(chat)), state)
    {
      var prior := Get(chat);
      state := ReadState(Larger(prior.local, incoming.local), Larger(prior.confirmed, incoming.confirmed),
                         Larger(prior.peer, incoming.peer));
      states := states[chat := state];
    }
  }
}
