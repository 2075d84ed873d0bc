/** Sign-in sessions and their refresh tokens: concurrent logins, refreshes, logouts and device
    revocations as transactions that lock rows step by step. Tokens are opaque and drawn fresh,
    so a token stands for its hash. */
module RefreshTokens {
  import opened Common

  datatype Session = Session(device: nat, current: nat, revoked: bool, expires: int)

  datatype Device = Device(user: nat, revoked: bool)

  datatype Call =
    | Refresh(token: nat)
    | Logout(token: nat)
    | Login(user: nat, device: nat)
    | Revoke(user: nat, device: nat)

  datatype Stage =
    | SeekCurrent | LockCurrent(session: nat)
    | SeekConsumed | LockConsumed(session: nat)
    | Matched(session: nat, active: bool)          // the presented token is the session's current one
    | Condemned(session: nat)                      // the session is to be revoked
    | LockUser | Admitted                          // the user row is locked
    | LockSessions(todo: set<nat>)                 // sessions of a device that is being revoked

  datatype Tx = Tx(call: Call, stage: Stage, sessions: set<nat>, users: set<nat>)

  datatype Outcome = Issued(token: nat) | Reused | Done | Refused

  /** One successful refresh: `token` of `session` was replaced by `next`. */
  datatype Rotation = Rotation(token: nat, session: nat, next: nat)

  /** `issued`, `rotations`, `calls` and `outcomes` record what happened; they are never read. */
  datatype World = World(users: map<nat, bool>, devices: map<nat, Device>, sessions: map<nat, Session>,
                         history: map<nat, nat>, txs: map<nat, Tx>, issued: map<nat, nat>, rotations: seq<Rotation>,
                         calls: map<nat, Call>, outcomes: map<nat, Outcome>)

  datatype Event =
    | Begin(t: nat, call: Call)
    | Advance(t: nat, now: int)
    | Commit(t: nat, token: nat, session: nat, expires: int)   // with a fresh token and session identifier
    | Abort(t: nat)

  // ---- queries ----

  function WithCurrent(sessions: map<nat, Session>, token: nat): set<nat>
  {
    set s | s in sessions && sessions[s].current == token
  }

  function Unrevoked(sessions: map<nat, Session>, device: nat): set<nat>
  {
    set s | s in sessions && sessions[s].device == device && !sessions[s].revoked
  }

  predicate IsActive(w: World, session: nat, now: int)
  {
    && session in w.sessions && !w.sessions[session].revoked && w.sessions[session].expires > now
    && w.sessions[session].device in w.devices && !w.devices[w.sessions[session].device].revoked
    && w.devices[w.sessions[session].device].user in w.users && w.users[w.devices[w.sessions[session].device].user]
  }

  predicate SessionFree(w: World, t: nat, session: nat)
  {
    forall o :: o in w.txs && o != t ==> session !in w.txs[o].sessions
  }

  predicate UserFree(w: World, t: nat, user: nat)
  {
    forall o :: o in w.txs && o != t ==> user !in w.txs[o].users
  }

  // ---- steps ----

  function Goto(w: World, t: nat, tx: Tx): World
  {
    w.(txs := w.txs[t := tx])
  }

  function Finish(w: World, t: nat, outcome: Outcome): World
  {
    w.(txs := w.txs - {t}, outcomes := w.outcomes[t := outcome])
  }

  function TokenStep(w: World, t: nat, token: nat, now: int): World
    requires t in w.txs
  {
    var tx := w.txs[t];
    match tx.stage
    case SeekCurrent =>
      var found := WithCurrent(w.sessions, token);
      Goto(w, t, tx.(stage := if found == {} then SeekConsumed else LockCurrent(Least(found))))
    case LockCurrent(s) =>
      if !SessionFree(w, t, s) then w else
      // the row is read again after the wait: another rotation may have been faster
      var locked := tx.(sessions := tx.sessions + {s});
      if s !in w.sessions || w.sessions[s].current != token then Goto(w, t, locked.(stage := SeekConsumed))
      else if tx.call.Refresh? then Goto(w, t, locked.(stage := Matched(s, IsActive(w, s, now))))
      else Goto(w, t, locked.(stage := Condemned(s)))
    case SeekConsumed =>
      if token in w.history then Goto(w, t, tx.(stage := LockConsumed(w.history[token])))
      else Finish(w, t, if tx.call.Refresh? then Refused else Done)
    case LockConsumed(s) =>
      if !SessionFree(w, t, s) then w else Goto(w, t, tx.(sessions := tx.sessions + {s}, stage := Condemned(s)))
    case Matched(_, active) => if active then w else Finish(w, t, Refused)
    case _ => w
  }

  function AccountStep(w: World, t: nat, user: nat): World
    requires t in w.txs
  {
    var tx := w.txs[t];
    match tx.stage
    case LockUser =>
      if !UserFree(w, t, user) then w
      else if user !in w.users then Finish(w, t, Refused)
      else Goto(w, t, tx.(users := {user}, stage := Admitted))
    case Admitted =>
      if !tx.call.Revoke? then w
      else if tx.call.device !in w.devices || w.devices[tx.call.device].user != user then Finish(w, t, Refused)
      else if w.devices[tx.call.device].revoked then Finish(w, t, Done)
      else Goto(w, t, tx.(stage := LockSessions(Unrevoked(w.sessions, tx.call.device))))
    case LockSessions(todo) =>
      if todo == {} then w else
      var s := Least(todo);
      if !SessionFree(w, t, s) then w
      else Goto(w, t, tx.(sessions := tx.sessions + {s}, stage := LockSessions(todo - {s})))
    case _ => w
  }

  function AdvanceStep(w: World, t: nat, now: int): World
  {
    if t !in w.txs then w else
    match w.txs[t].call
    case Refresh(token) => TokenStep(w, t, token, now)
    case Logout(token) => TokenStep(w, t, token, now)
    case Login(user, _) => AccountStep(w, t, user)
    case Revoke(user, _) => AccountStep(w, t, user)
  }

  /** A rotation: the old token joins the history, the new one becomes current. */
  function Rotate(w: World, t: nat, token: nat, s: nat, next: nat): World
    requires s in w.sessions
  {
    Finish(w.(history := w.history[token := s], sessions := w.sessions[s := w.sessions[s].(current := next)],
              issued := w.issued[next := s], rotations := w.rotations + [Rotation(token, s, next)]), t, Issued(next))
  }

  function Condemn(w: World, t: nat, s: nat): World
    requires s in w.sessions && t in w.txs
  {
    Finish(w.(sessions := w.sessions[s := w.sessions[s].(revoked := true)]), t,
           if w.txs[t].call.Refresh? then Reused else Done)
  }

  function SignIn(w: World, t: nat, user: nat, device: nat, token: nat, s: nat, expires: int): World
    requires user in w.users
  {
    if !w.users[user] then Finish(w, t, Refused)
    else if device in w.devices && (w.devices[device].user != user || w.devices[device].revoked)
    then Finish(w, t, Refused)
    else
      var devices := if device in w.devices then w.devices else w.devices[device := Device(user, false)];
      Finish(w.(devices := devices, sessions := w.sessions[s := Session(device, token, false, expires)],
                issued := w.issued[token := s]), t, Issued(token))
  }

  /** Every session the revocation has locked becomes invalid. */
  function SessionsAfter(w: World, t: nat): map<nat, Session>
    requires t in w.txs
  {
    map s | s in w.sessions :: if s in w.txs[t].sessions then w.sessions[s].(revoked := true) else w.sessions[s]
  }

  function RevokeAll(w: World, t: nat, device: nat): World
    requires device in w.devices && t in w.txs
  {
    Finish(w.(devices := w.devices[device := w.devices[device].(revoked := true)],
              sessions := SessionsAfter(w, t)), t, Done)
  }

  function CommitStep(w: World, t: nat, token: nat, session: nat, expires: int): World
  {
    if t !in w.txs || token in w.issued then w else
    var tx := w.txs[t];
    match tx.stage
    case Matched(s, active) =>
      if active && tx.call.Refresh? && s in w.sessions then Rotate(w, t, tx.call.token, s, token) else w
    case Condemned(s) => if s in w.sessions then Condemn(w, t, s) else w
    case Admitted =>
      if tx.call.Login? && tx.call.user in w.users && session !in w.sessions
      then SignIn(w, t, tx.call.user, tx.call.device, token, session, expires) else w
    case LockSessions(todo) =>
      if todo == {} && tx.call.Revoke? && tx.call.device in w.devices then RevokeAll(w, t, tx.call.device) else w
    case _ => w
  }

  function Next(w: World, event: Event): World
  {
    match event
    case Begin(t, call) =>
      if t in w.calls then w else
      Goto(w.(calls := w.calls[t := call]), t,
           Tx(call, if call.Refresh? || call.Logout? then SeekCurrent else LockUser, {}, {}))
    case Advance(t, now) => AdvanceStep(w, t, now)
    case Commit(t, token, session, expires) => CommitStep(w, t, token, session, expires)
    case Abort(t) => if t in w.txs then Finish(w, t, Refused) else w
  }

  function Run(w: World, events: seq<Event>): World
  {
    if events == [] then w else Next(Run(w, events[..|events| - 1]), events[|events| - 1])
  }

  // ---- invariants of the tables ----

  /** The tokens of a session are those of its history and its current one; none is shared. */
  ghost predicate TokensOk(sessions: map<nat, Session>, history: map<nat, nat>, issued: map<nat, nat>)
  {
    && (forall s :: s in sessions ==> sessions[s].current in issued && issued[sessions[s].current] == s)
    && (forall s :: s in sessions ==> sessions[s].current !in history)
    && (forall k :: k in history ==> k in issued && issued[k] == history[k])
    && (forall k :: k in issued ==> issued[k] in sessions && (k in history || sessions[issued[k]].current == k))
  }

  ghost predicate RotatedOnce(rotations: seq<Rotation>, token: nat)
  {
    exists i :: 0 <= i < |rotations| && rotations[i].token == token
  }

  /** A token is in the history exactly when it was rotated, and it was rotated once. */
  ghost predicate RotationsOk(rotations: seq<Rotation>, history: map<nat, nat>)
  {
    && (forall i :: 0 <= i < |rotations| ==>
        rotations[i].token in history && history[rotations[i].token] == rotations[i].session)
    && (forall i, j :: 0 <= i < j < |rotations| ==> rotations[i].token != rotations[j].token)
    && (forall k :: k in history ==> RotatedOnce(rotations, k))
  }

  ghost predicate DevicesOk(sessions: map<nat, Session>, devices: map<nat, Device>)
  {
    && (forall s :: s in sessions ==> sessions[s].device in devices)
    && (forall s :: s in sessions && devices[sessions[s].device].revoked ==> sessions[s].revoked)
  }

  ghost predicate CallsOk(txs: map<nat, Tx>, calls: map<nat, Call>, outcomes: map<nat, Outcome>)
  {
    && (forall t :: t in txs ==> t in calls && calls[t] == txs[t].call)
    && (forall t :: t in outcomes ==> t in calls)
  }

  ghost predicate FamilyRevoked(call: Call, history: map<nat, nat>, sessions: map<nat, Session>)
  {
    call.Refresh? && call.token in history && history[call.token] in sessions && sessions[history[call.token]].revoked
  }

  /** A completed presentation of a consumed token has revoked its family. */
  ghost predicate ReuseOk(calls: map<nat, Call>, outcomes: map<nat, Outcome>, history: map<nat, nat>,
                          sessions: map<nat, Session>)
  {
    forall t :: t in outcomes && outcomes[t].Reused? ==> t in calls && FamilyRevoked(calls[t], history, sessions)
  }

  // ---- invariants of the transactions ----

  ghost predicate TxOk(w: World, tx: Tx)
  {
    match tx.stage
    case LockConsumed(s) =>
      tx.call.Refresh? || tx.call.Logout? ==> tx.call.token in w.history && w.history[tx.call.token] == s
    case Matched(s, active) =>
      && s in tx.sessions && s in w.sessions && tx.call.Refresh? && w.sessions[s].current == tx.call.token
      && (active ==> !w.sessions[s].revoked)
    case Condemned(s) =>
      && s in tx.sessions && s in w.sessions && (tx.call.Refresh? || tx.call.Logout?)
      && ((tx.call.token in w.history && w.history[tx.call.token] == s)
          || (tx.call.Logout? && w.sessions[s].current == tx.call.token))
    case LockUser => tx.call.Login? || tx.call.Revoke?
    case Admitted => (tx.call.Login? || tx.call.Revoke?) && tx.call.user in w.users && tx.call.user in tx.users
    case LockSessions(todo) =>
      && tx.call.Revoke? && tx.call.user in tx.users && tx.call.device in w.devices
      && w.devices[tx.call.device].user == tx.call.user && !w.devices[tx.call.device].revoked
      && Unrevoked(w.sessions, tx.call.device) <= todo + tx.sessions
    case _ => true
  }

  ghost predicate Exclusive(txs: map<nat, Tx>)
  {
    forall t, o :: t in txs && o in txs && t != o ==> txs[t].sessions !! txs[o].sessions && txs[t].users !! txs[o].users
  }

  ghost predicate TxsOk(w: World)
  {
    forall t :: t in w.txs ==> TxOk(w, w.txs[t])
  }

  ghost predicate Inv(w: World)
  {
    && TokensOk(w.sessions, w.history, w.issued) && RotationsOk(w.rotations, w.history)
    && DevicesOk(w.sessions, w.devices)
    && CallsOk(w.txs, w.calls, w.outcomes) && ReuseOk(w.calls, w.outcomes, w.history, w.sessions)
    && Exclusive(w.txs) && TxsOk(w)
  }

  // ---- what is held still by locks ----

  /** Another transaction's step leaves everything alone that transaction `tx` relies on: locked
      sessions do not change, histories and devices grow, and a locked user's devices stay. */
  ghost predicate Respects(w: World, after: World, tx: Tx)
  {
    && after.users == w.users
    && (forall s :: s in w.sessions ==> s in after.sessions)
    && (forall s :: s in tx.sessions && s in w.sessions ==> after.sessions[s] == w.sessions[s])
    && (forall k :: k in w.history ==> k in after.history && after.history[k] == w.history[k])
    && (forall d :: d in w.devices ==> d in after.devices && after.devices[d].user == w.devices[d].user)
    && (forall d :: d in w.devices && w.devices[d].user in tx.users ==> after.devices[d] == w.devices[d])
    && (forall d :: d in w.devices && w.devices[d].user in tx.users ==>
         Unrevoked(after.sessions, d) <= Unrevoked(w.sessions, d))
  }

  lemma TxStays(w: World, after: World, tx: Tx)
    requires TxOk(w, tx) && Respects(w, after, tx)
    ensures TxOk(after, tx)
  {
    hide Unrevoked;
  }

  lemma RespectsSelf(w: World, after: World, tx: Tx)
    requires after == w.(txs := after.txs, calls := after.calls, outcomes := after.outcomes)
    ensures Respects(w, after, tx)
  {
  }

  // ---- steps that change no table ----

  /** A transaction moves on or ends; nothing else changes. */
  lemma MoveKeeps(w: World, t: nat, tx: Tx)
    requires Inv(w) && t in w.txs && tx.call == w.txs[t].call && TxOk(w, tx)
    requires forall s :: s in tx.sessions ==> s in w.txs[t].sessions || SessionFree(w, t, s)
    requires forall u :: u in tx.users ==> u in w.txs[t].users || UserFree(w, t, u)
    ensures Inv(Goto(w, t, tx))
  {
    hide TokensOk, RotationsOk, DevicesOk, ReuseOk, TxOk;
    OthersStay(w, Goto(w, t, tx));
    RespectsSelf(w, Goto(w, t, tx), tx);
    TxStays(w, Goto(w, t, tx), tx);
  }

  /** Transactions that are still open after a step that changes no table. */
  lemma OthersStay(w: World, after: World)
    requires TxsOk(w) && after == w.(txs := after.txs, calls := after.calls, outcomes := after.outcomes)
    ensures forall o :: o in w.txs && o in after.txs && after.txs[o] == w.txs[o] ==> TxOk(after, after.txs[o])
  {
    hide TxOk;
    forall o | o in w.txs && o in after.txs && after.txs[o] == w.txs[o] ensures TxOk(after, after.txs[o]) {
      RespectsSelf(w, after, w.txs[o]);
      TxStays(w, after, w.txs[o]);
    }
  }

  lemma EndKeeps(w: World, t: nat, outcome: Outcome)
    requires Inv(w) && t in w.txs && !outcome.Reused?
    ensures Inv(Finish(w, t, outcome))
  {
    hide TokensOk, RotationsOk, DevicesOk, TxOk, FamilyRevoked;
    OthersStay(w, Finish(w, t, outcome));
  }

  lemma BeginKeeps(w: World, t: nat, call: Call)
    requires Inv(w)
    ensures Inv(Next(w, Begin(t, call)))
  {
    hide TokensOk, RotationsOk, DevicesOk, ReuseOk, Exclusive, TxOk, FamilyRevoked;
    if t !in w.calls {
      var tx := Tx(call, if call.Refresh? || call.Logout? then SeekCurrent else LockUser, {}, {});
      var after := Goto(w.(calls := w.calls[t := call]), t, tx);
      BegunCalls(w, t, call);
      BegunExclusive(w.txs, t, tx);
      OthersStay(w, after);
      BegunOk(after, tx);
    }
  }

  lemma BegunCalls(w: World, t: nat, call: Call)
    requires ReuseOk(w.calls, w.outcomes, w.history, w.sessions) && t !in w.calls
    requires forall o :: o in w.outcomes ==> o in w.calls
    ensures ReuseOk(w.calls[t := call], w.outcomes, w.history, w.sessions)
  {
    hide FamilyRevoked;
  }

  lemma BegunExclusive(txs: map<nat, Tx>, t: nat, tx: Tx)
    requires Exclusive(txs) && t !in txs && tx.sessions == {} && tx.users == {}
    ensures Exclusive(txs[t := tx])
  {
  }

  lemma BegunOk(w: World, tx: Tx)
    requires tx.stage.SeekCurrent? || (tx.stage.LockUser? && (tx.call.Login? || tx.call.Revoke?))
    ensures TxOk(w, tx)
  {
  }

  lemma LockedMatch(w: World, t: nat, s: nat, now: int)
    requires Inv(w) && t in w.txs && SessionFree(w, t, s) && (w.txs[t].call.Refresh? || w.txs[t].call.Logout?)
    requires s in w.sessions && w.sessions[s].current == w.txs[t].call.token
    ensures var locked := w.txs[t].(sessions := w.txs[t].sessions + {s});
      var stage := if w.txs[t].call.Refresh? then Matched(s, IsActive(w, s, now)) else Condemned(s);
      Inv(Goto(w, t, locked.(stage := stage)))
  {
    hide Inv;
    var locked := w.txs[t].(sessions := w.txs[t].sessions + {s});
    MoveKeeps(w, t, locked.(stage := if w.txs[t].call.Refresh? then Matched(s, IsActive(w, s, now)) else Condemned(s)));
  }

  lemma TokenStepKeeps(w: World, t: nat, token: nat, now: int)
    requires Inv(w) && t in w.txs && (w.txs[t].call == Refresh(token) || w.txs[t].call == Logout(token))
    ensures Inv(TokenStep(w, t, token, now))
  {
    var tx := w.txs[t];
    assert TxOk(w, tx);
    assert TokensOk(w.sessions, w.history, w.issued);
    hide Inv, IsActive, SessionFree, WithCurrent;
    match tx.stage
    case SeekCurrent =>
      var found := WithCurrent(w.sessions, token);
      MoveKeeps(w, t, tx.(stage := if found == {} then SeekConsumed else LockCurrent(Least(found))));
    case LockCurrent(s) =>
      if SessionFree(w, t, s) {
        if s in w.sessions && w.sessions[s].current == token {
          LockedMatch(w, t, s, now);
        } else {
          MoveKeeps(w, t, tx.(sessions := tx.sessions + {s}, stage := SeekConsumed));
        }
      }
    case SeekConsumed =>
      if token in w.history { MoveKeeps(w, t, tx.(stage := LockConsumed(w.history[token]))); }
      else { EndKeeps(w, t, if tx.call.Refresh? then Refused else Done); }
    case LockConsumed(s) =>
      if SessionFree(w, t, s) {
        assert s in w.sessions;
        MoveKeeps(w, t, tx.(sessions := tx.sessions + {s}, stage := Condemned(s)));
      }
    case Matched(_, active) => if !active { EndKeeps(w, t, Refused); }
    case _ =>
  }

  lemma AccountStepKeeps(w: World, t: nat, user: nat)
    requires Inv(w) && t in w.txs && (w.txs[t].call.Login? || w.txs[t].call.Revoke?) && w.txs[t].call.user == user
    ensures Inv(AccountStep(w, t, user))
  {
    var tx := w.txs[t];
    assert TxOk(w, tx);
    hide Inv, SessionFree, UserFree, Unrevoked;
    match tx.stage
    case LockUser =>
      if UserFree(w, t, user) {
        if user !in w.users {
          EndKeeps(w, t, Refused);
        } else {
          MoveKeeps(w, t, tx.(users := {user}, stage := Admitted));
        }
      }
    case Admitted =>
      if tx.call.Revoke? {
        if tx.call.device !in w.devices || w.devices[tx.call.device].user != user { EndKeeps(w, t, Refused); }
        else if w.devices[tx.call.device].revoked { EndKeeps(w, t, Done); }
        else { MoveKeeps(w, t, tx.(stage := LockSessions(Unrevoked(w.sessions, tx.call.device)))); }
      }
    case LockSessions(todo) =>
      if todo != {} && SessionFree(w, t, Least(todo)) {
        MoveKeeps(w, t, tx.(sessions := tx.sessions + {Least(todo)}, stage := LockSessions(todo - {Least(todo)})));
      }
    case _ =>
  }

  // ---- commits ----

  /** A commit keeps the open transactions in order if it respects each of them. */
  lemma CommitKeepsTxs(w: World, t: nat, after: World)
    requires Inv(w) && t in w.txs && after.txs == w.txs - {t} && after.calls == w.calls
    requires after.outcomes.Keys == w.outcomes.Keys + {t}
    requires forall o :: o in after.txs ==> Respects(w, after, w.txs[o])
    ensures Exclusive(after.txs) && TxsOk(after) && CallsOk(after.txs, after.calls, after.outcomes)
  {
    hide TxOk, Respects, TokensOk, RotationsOk, DevicesOk, ReuseOk;
    forall o | o in after.txs ensures TxOk(after, after.txs[o]) { TxStays(w, after, w.txs[o]); }
  }

  /** Changing one session that `t` has locked respects everyone else, if it is not un-revoked. */
  lemma OwnSessionRespected(w: World, t: nat, s: nat, changed: Session, after: World)
    requires Exclusive(w.txs) && t in w.txs && s in w.txs[t].sessions && s in w.sessions
    requires after.sessions == w.sessions[s := changed] && after.users == w.users && after.devices == w.devices
    requires changed.device == w.sessions[s].device && (w.sessions[s].revoked ==> changed.revoked)
    requires forall k :: k in w.history ==> k in after.history && after.history[k] == w.history[k]
    ensures forall o :: o in w.txs && o != t ==> Respects(w, after, w.txs[o])
  {
  }

  lemma TxFacts(w: World, t: nat)
    requires Inv(w) && t in w.txs
    ensures TxOk(w, w.txs[t]) && Exclusive(w.txs) && t in w.calls && w.calls[t] == w.txs[t].call
    ensures TokensOk(w.sessions, w.history, w.issued) && RotationsOk(w.rotations, w.history)
    ensures DevicesOk(w.sessions, w.devices)
    ensures ReuseOk(w.calls, w.outcomes, w.history, w.sessions)
  {
    hide TokensOk, RotationsOk, DevicesOk, ReuseOk, TxOk, Exclusive;
  }

  lemma RotatedTokens(sessions: map<nat, Session>, history: map<nat, nat>, issued: map<nat, nat>, s: nat, next: nat)
    requires TokensOk(sessions, history, issued) && s in sessions && next !in issued
    ensures TokensOk(sessions[s := sessions[s].(current := next)], history[sessions[s].current := s], issued[next := s])
  {
  }

  lemma RotatedLog(rotations: seq<Rotation>, history: map<nat, nat>, r: Rotation)
    requires RotationsOk(rotations, history) && r.token !in history
    ensures RotationsOk(rotations + [r], history[r.token := r.session])
  {
    var after := rotations + [r];
    forall k | k in history[r.token := r.session] ensures RotatedOnce(after, k) {
      if k == r.token {
        assert after[|rotations|].token == k;
      } else {
        var i :| 0 <= i < |rotations| && rotations[i].token == k;
        assert after[i].token == k;
      }
    }
  }

  /** Families stay revoked as long as sessions only lose validity and the history grows. */
  lemma ReuseStays(calls: map<nat, Call>, outcomes: map<nat, Outcome>, history: map<nat, nat>,
                   sessions: map<nat, Session>,
                   t: nat, outcome: Outcome, history': map<nat, nat>, sessions': map<nat, Session>)
    requires ReuseOk(calls, outcomes, history, sessions) && t in calls
    requires outcome.Reused? ==> FamilyRevoked(calls[t], history', sessions')
    requires forall s :: s in sessions ==> s in sessions' && (sessions[s].revoked ==> sessions'[s].revoked)
    requires forall k :: k in history ==> k in history' && history'[k] == history[k]
    ensures ReuseOk(calls, outcomes[t := outcome], history', sessions')
  {
    forall o | o in outcomes && outcomes[o].Reused? && o != t ensures FamilyRevoked(calls[o], history', sessions') {
      assert FamilyRevoked(calls[o], history, sessions);
    }
    hide FamilyRevoked;
  }

  lemma MatchedFacts(w: World, t: nat)
    requires Inv(w) && t in w.txs && w.txs[t].stage.Matched? && w.txs[t].stage.active
    ensures var tx := w.txs[t];
      var s := tx.stage.session;
      && tx.call.Refresh? && s in tx.sessions && s in w.sessions && w.sessions[s].current == tx.call.token
      && tx.call.token !in w.history
      && !w.sessions[s].revoked && w.sessions[s].device in w.devices && !w.devices[w.sessions[s].device].revoked
  {
    TxFacts(w, t);
    hide Inv;
  }

  lemma RotateOk(w: World, t: nat, s: nat, next: nat)
    requires Inv(w) && t in w.txs && w.txs[t].stage == Matched(s, true) && next !in w.issued
    requires s in w.sessions && w.txs[t].call.Refresh?
    ensures var token := w.txs[t].call.token;
      TablesOk(w.sessions[s := w.sessions[s].(current := next)], w.history[token := s], w.issued[next := s],
               w.rotations + [Rotation(token, s, next)], w.devices, w.calls, w.outcomes[t := Issued(next)])
  {
    MatchedFacts(w, t);
    TxFacts(w, t);
    hide Inv, TxOk, TokensOk, RotationsOk, ReuseOk, FamilyRevoked, Exclusive, DevicesOk;
    var token := w.txs[t].call.token;
    var sessions := w.sessions[s := w.sessions[s].(current := next)];
    RotatedTokens(w.sessions, w.history, w.issued, s, next);
    RotatedLog(w.rotations, w.history, Rotation(token, s, next));
    DevicesStay(w.sessions, sessions, w.devices);
    ReuseStays(w.calls, w.outcomes, w.history, w.sessions, t, Issued(next), w.history[token := s], sessions);
  }

  lemma DevicesStay(sessions: map<nat, Session>, after: map<nat, Session>, devices: map<nat, Device>)
    requires DevicesOk(sessions, devices) && after.Keys == sessions.Keys
    requires forall s :: s in sessions ==>
      after[s].device == sessions[s].device && (sessions[s].revoked ==> after[s].revoked)
    ensures DevicesOk(after, devices)
  {
  }

  /** A rotation, field by field. */
  lemma RotateFields(w: World, t: nat, token: nat, s: nat, next: nat)
    requires s in w.sessions
    ensures var after := Rotate(w, t, token, s, next);
      && after.users == w.users && after.devices == w.devices && after.calls == w.calls && after.txs == w.txs - {t}
      && after.sessions == w.sessions[s := w.sessions[s].(current := next)] && after.history == w.history[token := s]
      && after.issued == w.issued[next := s] && after.rotations == w.rotations + [Rotation(token, s, next)]
      && after.outcomes == w.outcomes[t := Issued(next)]
  {
  }

  lemma RotateKeeps(w: World, t: nat, next: nat)
    requires Inv(w) && t in w.txs && w.txs[t].stage.Matched? && w.txs[t].stage.active && next !in w.issued
    ensures w.txs[t].stage.session in w.sessions && w.txs[t].call.Refresh?
    ensures Inv(Rotate(w, t, w.txs[t].call.token, w.txs[t].stage.session, next))
  {
    MatchedFacts(w, t);
    TxFacts(w, t);
    var s := w.txs[t].stage.session;
    hide Inv, TxOk, TokensOk, RotationsOk, ReuseOk, DevicesOk, Exclusive, TablesOk, Respects, Rotate, Finish;
    var after := Rotate(w, t, w.txs[t].call.token, s, next);
    RotateFields(w, t, w.txs[t].call.token, s, next);
    RotateOk(w, t, s, next);
    OwnSessionRespected(w, t, s, after.sessions[s], after);
    CommitKeeps(w, t, after);
  }

  ghost predicate TablesOk(sessions: map<nat, Session>, history: map<nat, nat>, issued: map<nat, nat>,
                           rotations: seq<Rotation>,
                           devices: map<nat, Device>, calls: map<nat, Call>, outcomes: map<nat, Outcome>)
  {
    && TokensOk(sessions, history, issued) && RotationsOk(rotations, history) && DevicesOk(sessions, devices)
    && ReuseOk(calls, outcomes, history, sessions)
  }

  /** What a commit has to show: the tables are in order and every open transaction is respected. */
  lemma CommitKeeps(w: World, t: nat, after: World)
    requires Inv(w) && t in w.txs && after.txs == w.txs - {t} && after.calls == w.calls
    requires after.outcomes.Keys == w.outcomes.Keys + {t}
    requires TablesOk(after.sessions, after.history, after.issued, after.rotations, after.devices, after.calls,
                      after.outcomes)
    requires forall o :: o in w.txs && o != t ==> Respects(w, after, w.txs[o])
    ensures Inv(after)
  {
    hide Inv, TokensOk, RotationsOk, DevicesOk, ReuseOk, Respects;
    CommitKeepsTxs(w, t, after);
    InvOf(after);
  }

  lemma InvOf(w: World)
    requires TokensOk(w.sessions, w.history, w.issued) && RotationsOk(w.rotations, w.history)
    requires DevicesOk(w.sessions, w.devices)
    requires CallsOk(w.txs, w.calls, w.outcomes) && ReuseOk(w.calls, w.outcomes, w.history, w.sessions)
    requires Exclusive(w.txs) && TxsOk(w)
    ensures Inv(w)
  {
  }

  lemma RevokedTokens(sessions: map<nat, Session>, after: map<nat, Session>, history: map<nat, nat>,
                      issued: map<nat, nat>)
    requires TokensOk(sessions, history, issued) && after.Keys == sessions.Keys
    requires forall s :: s in sessions ==> after[s].current == sessions[s].current
    ensures TokensOk(after, history, issued)
  {
  }

  lemma CondemnedFacts(w: World, t: nat)
    requires Inv(w) && t in w.txs && w.txs[t].stage.Condemned?
    ensures var tx := w.txs[t];
      var s := tx.stage.session;
      && s in w.sessions && s in tx.sessions
      && (tx.call.Refresh? ==> tx.call.token in w.history && w.history[tx.call.token] == s)
  {
    TxFacts(w, t);
    hide Inv;
  }

  lemma CondemnOk(w: World, t: nat, s: nat)
    requires Inv(w) && t in w.txs && w.txs[t].stage == Condemned(s) && s in w.sessions
    ensures TablesOk(w.sessions[s := w.sessions[s].(revoked := true)], w.history, w.issued, w.rotations, w.devices,
                     w.calls,
                     w.outcomes[t := if w.txs[t].call.Refresh? then Reused else Done])
  {
    CondemnedFacts(w, t);
    TxFacts(w, t);
    hide Inv, TxOk, TokensOk, RotationsOk, ReuseOk, Exclusive, DevicesOk;
    var sessions := w.sessions[s := w.sessions[s].(revoked := true)];
    RevokedTokens(w.sessions, sessions, w.history, w.issued);
    DevicesStay(w.sessions, sessions, w.devices);
    ReuseStays(w.calls, w.outcomes, w.history, w.sessions, t, if w.txs[t].call.Refresh? then Reused else Done,
               w.history, sessions);
  }

  lemma CondemnFields(w: World, t: nat, s: nat)
    requires s in w.sessions && t in w.txs
    ensures var after := Condemn(w, t, s);
      && after.users == w.users && after.devices == w.devices && after.calls == w.calls && after.txs == w.txs - {t}
      && after.sessions == w.sessions[s := w.sessions[s].(revoked := true)] && after.history == w.history
      && after.issued == w.issued && after.rotations == w.rotations
      && after.outcomes == w.outcomes[t := if w.txs[t].call.Refresh? then Reused else Done]
  {
  }

  lemma CondemnKeeps(w: World, t: nat)
    requires Inv(w) && t in w.txs && w.txs[t].stage.Condemned?
    ensures w.txs[t].stage.session in w.sessions && Inv(Condemn(w, t, w.txs[t].stage.session))
  {
    CondemnedFacts(w, t);
    TxFacts(w, t);
    hide Inv, TxOk, TokensOk, RotationsOk, ReuseOk, DevicesOk, Exclusive, TablesOk, Respects, Condemn, Finish;
    var s := w.txs[t].stage.session;
    var after := Condemn(w, t, s);
    CondemnFields(w, t, s);
    CondemnOk(w, t, s);
    OwnSessionRespected(w, t, s, after.sessions[s], after);
    CommitKeeps(w, t, after);
  }

  lemma SignedInTokens(sessions: map<nat, Session>, history: map<nat, nat>, issued: map<nat, nat>, s: nat,
                       begun: Session)
    requires TokensOk(sessions, history, issued) && s !in sessions && begun.current !in issued
    ensures TokensOk(sessions[s := begun], history, issued[begun.current := s])
  {
  }

  /** Login is let through: the account is active and the device is new, or its own and not revoked. */
  predicate LetIn(w: World, user: nat, device: nat)
  {
    && user in w.users && w.users[user]
    && (device in w.devices ==> w.devices[device].user == user && !w.devices[device].revoked)
  }

  function DevicesAfter(w: World, user: nat, device: nat): map<nat, Device>
  {
    if device in w.devices then w.devices else w.devices[device := Device(user, false)]
  }

  lemma SignInOk(w: World, t: nat, token: nat, s: nat, expires: int)
    requires Inv(w) && t in w.txs && w.txs[t].call.Login? && token !in w.issued && s !in w.sessions
    requires LetIn(w, w.txs[t].call.user, w.txs[t].call.device)
    ensures var user, device := w.txs[t].call.user, w.txs[t].call.device;
      TablesOk(w.sessions[s := Session(device, token, false, expires)], w.history, w.issued[token := s], w.rotations,
               DevicesAfter(w, user, device), w.calls, w.outcomes[t := Issued(token)])
  {
    TxFacts(w, t);
    hide Inv, TxOk, TokensOk, RotationsOk, ReuseOk, FamilyRevoked, Exclusive;
    var user, device := w.txs[t].call.user, w.txs[t].call.device;
    var sessions := w.sessions[s := Session(device, token, false, expires)];
    SignedInTokens(w.sessions, w.history, w.issued, s, Session(device, token, false, expires));
    assert DevicesOk(sessions, DevicesAfter(w, user, device));
    hide DevicesOk, DevicesAfter;
    ReuseStays(w.calls, w.outcomes, w.history, w.sessions, t, Issued(token), w.history, sessions);
  }

  /** A login that is let through, field by field. */
  lemma SignInFields(w: World, t: nat, user: nat, device: nat, token: nat, s: nat, expires: int)
    requires LetIn(w, user, device)
    ensures var after := SignIn(w, t, user, device, token, s, expires);
      && after.users == w.users && after.devices == DevicesAfter(w, user, device)
      && after.sessions == w.sessions[s := Session(device, token, false, expires)] && after.history == w.history
      && after.txs == w.txs - {t} && after.issued == w.issued[token := s] && after.rotations == w.rotations
      && after.calls == w.calls && after.outcomes == w.outcomes[t := Issued(token)]
  {
  }

  lemma RefusedSignIn(w: World, t: nat, user: nat, device: nat, token: nat, s: nat, expires: int)
    requires user in w.users && !LetIn(w, user, device)
    ensures SignIn(w, t, user, device, token, s, expires) == Finish(w, t, Refused)
  {
  }

  lemma AdmittedFacts(w: World, t: nat)
    requires Inv(w) && t in w.txs && w.txs[t].stage.Admitted? && w.txs[t].call.Login?
    ensures w.txs[t].call.user in w.users && w.txs[t].call.user in w.txs[t].users
  {
    TxFacts(w, t);
    hide Inv;
  }

  lemma SignInKeeps(w: World, t: nat, token: nat, s: nat, expires: int)
    requires Inv(w) && t in w.txs && w.txs[t].stage.Admitted? && w.txs[t].call.Login? && token !in w.issued
    requires s !in w.sessions
    ensures w.txs[t].call.user in w.users
    ensures Inv(SignIn(w, t, w.txs[t].call.user, w.txs[t].call.device, token, s, expires))
  {
    AdmittedFacts(w, t);
    TxFacts(w, t);
    hide Inv, TxOk, TokensOk, RotationsOk, ReuseOk, DevicesOk, Exclusive, TablesOk, Respects, SignIn, Finish, LetIn,
         DevicesAfter;
    var user, device := w.txs[t].call.user, w.txs[t].call.device;
    var after := SignIn(w, t, user, device, token, s, expires);
    if LetIn(w, user, device) {
      SignInOk(w, t, token, s, expires);
      SignInFields(w, t, user, device, token, s, expires);
      SignInRespects(w, t, after, s);
      CommitKeeps(w, t, after);
    } else {
      RefusedSignIn(w, t, user, device, token, s, expires);
      EndKeeps(w, t, Refused);
    }
  }

  lemma SignInRespects(w: World, t: nat, after: World, s: nat)
    requires Exclusive(w.txs) && t in w.txs && s !in w.sessions && w.txs[t].call.Login?
    requires w.txs[t].call.user in w.txs[t].users && after.users == w.users && after.history == w.history
    requires s in after.sessions && after.sessions == w.sessions[s := after.sessions[s]]
    requires after.sessions[s].device == w.txs[t].call.device
    requires var device, user := w.txs[t].call.device, w.txs[t].call.user;
      LetIn(w, user, device) && after.devices == DevicesAfter(w, user, device)
    ensures forall o :: o in w.txs && o != t ==> Respects(w, after, w.txs[o])
  {
  }

  lemma RevokeFacts(w: World, t: nat)
    requires Inv(w) && t in w.txs && w.txs[t].stage == LockSessions({}) && w.txs[t].call.Revoke?
    ensures var tx := w.txs[t];
      && tx.call.user in tx.users && tx.call.device in w.devices && w.devices[tx.call.device].user == tx.call.user
      && Unrevoked(w.sessions, tx.call.device) <= tx.sessions
  {
    TxFacts(w, t);
    hide Inv, Unrevoked;
  }

  lemma RevokeOk(w: World, t: nat, device: nat)
    requires Inv(w) && t in w.txs && w.txs[t].stage == LockSessions({}) && w.txs[t].call.Revoke?
    requires device == w.txs[t].call.device && device in w.devices
    ensures TablesOk(SessionsAfter(w, t), w.history, w.issued, w.rotations,
                     w.devices[device := w.devices[device].(revoked := true)], w.calls, w.outcomes[t := Done])
  {
    RevokeFacts(w, t);
    TxFacts(w, t);
    hide Inv, TxOk, TokensOk, RotationsOk, ReuseOk, FamilyRevoked, DevicesOk, Unrevoked, Exclusive;
    RevokedTokens(w.sessions, SessionsAfter(w, t), w.history, w.issued);
    RevokedAll(w, w.txs[t], SessionsAfter(w, t));
    ReuseStays(w.calls, w.outcomes, w.history, w.sessions, t, Done, w.history, SessionsAfter(w, t));
  }

  lemma RevokeKeeps(w: World, t: nat)
    requires Inv(w) && t in w.txs && w.txs[t].stage == LockSessions({}) && w.txs[t].call.Revoke?
    ensures w.txs[t].call.device in w.devices && Inv(RevokeAll(w, t, w.txs[t].call.device))
  {
    RevokeFacts(w, t);
    TxFacts(w, t);
    hide Inv, TxOk, TokensOk, RotationsOk, ReuseOk, DevicesOk, Exclusive, TablesOk, Respects, Unrevoked;
    var after := RevokeAll(w, t, w.txs[t].call.device);
    RevokeOk(w, t, w.txs[t].call.device);
    forall o | o in w.txs && o != t ensures Respects(w, after, w.txs[o]) { RevokeRespects(w, t, after, o); }
    CommitKeeps(w, t, after);
  }

  lemma RevokedAll(w: World, tx: Tx, after: map<nat, Session>)
    requires DevicesOk(w.sessions, w.devices) && tx.call.Revoke? && tx.call.device in w.devices
    requires Unrevoked(w.sessions, tx.call.device) <= tx.sessions
    requires after == map s | s in w.sessions ::
      if s in tx.sessions then w.sessions[s].(revoked := true) else w.sessions[s]
    ensures DevicesOk(after, w.devices[tx.call.device := w.devices[tx.call.device].(revoked := true)])
  {
    forall s | s in after && s !in tx.sessions ensures w.sessions[s].device == tx.call.device ==> after[s].revoked {
      assert s !in Unrevoked(w.sessions, tx.call.device);
    }
  }

  lemma RevokeRespects(w: World, t: nat, after: World, o: nat)
    requires Exclusive(w.txs) && t in w.txs && o in w.txs && o != t && w.txs[t].call.Revoke?
    requires w.txs[t].call.user in w.txs[t].users
    requires w.txs[t].call.device in w.devices && w.devices[w.txs[t].call.device].user == w.txs[t].call.user
    requires after.users == w.users && after.history == w.history
    requires after.devices == w.devices[w.txs[t].call.device := w.devices[w.txs[t].call.device].(revoked := true)]
    requires after.sessions == SessionsAfter(w, t)
    ensures Respects(w, after, w.txs[o])
  {
  }

  lemma NextKeeps(w: World, event: Event)
    requires Inv(w)
    ensures Inv(Next(w, event))
  {
    hide Inv, TokenStep, AccountStep, Rotate, Condemn, SignIn, RevokeAll;
    match event
    case Begin(t, call) => BeginKeeps(w, t, call);
    case Advance(t, now) =>
      if t in w.txs {
        if w.txs[t].call.Refresh? || w.txs[t].call.Logout? { TokenStepKeeps(w, t, w.txs[t].call.token, now); }
        else { AccountStepKeeps(w, t, w.txs[t].call.user); }
      }
    case Commit(t, token, session, expires) =>
      if t in w.txs && token !in w.issued {
        var stage := w.txs[t].stage;
        if stage.Matched? && stage.active { RotateKeeps(w, t, token); }
        if stage.Condemned? { CondemnKeeps(w, t); }
        if stage.Admitted? && w.txs[t].call.Login? && session !in w.sessions {
          SignInKeeps(w, t, token, session, expires);
        }
        if stage == LockSessions({}) && w.txs[t].call.Revoke? { RevokeKeeps(w, t); }
      }
    case Abort(t) => if t in w.txs { EndKeeps(w, t, Refused); }
  }

  // ---- whole runs ----

  /** No session has been opened yet. */
  ghost predicate Start(w: World)
  {
    && w.sessions == map[] && w.history == map[] && w.txs == map[] && w.issued == map[] && w.rotations == []
    && w.calls == map[] && w.outcomes == map[]
  }

  ghost predicate Reachable(w: World)
  {
    exists w0, events :: Start(w0) && w == Run(w0, events)
  }

  lemma {:induction false} RunKeeps(w: World, events: seq<Event>)
    requires Inv(w)
    ensures Inv(Run(w, events))
  {
    hide Inv, Next;
    if events != [] {
      RunKeeps(w, events[..|events| - 1]);
      NextKeeps(Run(w, events[..|events| - 1]), events[|events| - 1]);
    }
  }

  lemma ReachableInv(w: World)
    requires Reachable(w)
    ensures Inv(w)
  {
    var w0, events :| Start(w0) && w == Run(w0, events);
    assert Inv(w0);
    RunKeeps(w0, events);
  }

  /** What one step may do to sessions: revocations last, consumed tokens stay consumed, and a
      new rotation belongs to a session that is neither revoked nor of a revoked device. */
  ghost predicate Moves(w: World, after: World)
  {
    && (forall s :: s in w.sessions ==> s in after.sessions && (w.sessions[s].revoked ==> after.sessions[s].revoked))
    && (forall k :: k in w.history ==> k in after.history && after.history[k] == w.history[k])
    && w.rotations <= after.rotations
    && (forall i :: |w.rotations| <= i < |after.rotations| ==> RotatedLive(w, after.rotations[i]))
  }

  ghost predicate RotatedLive(w: World, r: Rotation)
  {
    && r.token !in w.history && r.session in w.sessions && !w.sessions[r.session].revoked
    && w.sessions[r.session].device in w.devices && !w.devices[w.sessions[r.session].device].revoked
  }

  lemma NextMoves(w: World, event: Event)
    requires Inv(w)
    ensures Moves(w, Next(w, event))
  {
    hide Inv, TokenStep, AccountStep, Rotate, Condemn, SignIn, RevokeAll, Moves;
    StillMoves(w, w);
    match event
    case Begin(t, call) => StillMoves(w, Next(w, event));
    case Advance(t, now) =>
      if t in w.txs {
        if w.txs[t].call.Refresh? || w.txs[t].call.Logout? { TokenStepMoves(w, t, w.txs[t].call.token, now); }
        else { AccountStepMoves(w, t, w.txs[t].call.user); }
      }
    case Commit(t, token, session, expires) =>
      if t in w.txs && token !in w.issued {
        var stage := w.txs[t].stage;
        if stage.Matched? && stage.active { RotateMoves(w, t, token); }
        if stage.Condemned? && stage.session in w.sessions { RevokingMoves(w, Condemn(w, t, stage.session), t); }
        if stage.Admitted? && w.txs[t].call.Login? && w.txs[t].call.user in w.users && session !in w.sessions {
          SignInMoves(w, t, w.txs[t].call.user, w.txs[t].call.device, token, session, expires);
        }
        if stage == LockSessions({}) && w.txs[t].call.Revoke? && w.txs[t].call.device in w.devices {
          RevokingMoves(w, RevokeAll(w, t, w.txs[t].call.device), t);
        }
      }
    case Abort(t) => if t in w.txs { StillMoves(w, Finish(w, t, Refused)); }
  }

  predicate SameTables(w: World, after: World)
  {
    && after.users == w.users && after.devices == w.devices && after.sessions == w.sessions
    && after.history == w.history
    && after.issued == w.issued && after.rotations == w.rotations
  }

  lemma StillMoves(w: World, after: World)
    requires SameTables(w, after)
    ensures Moves(w, after)
  {
  }

  lemma TokenStepMoves(w: World, t: nat, token: nat, now: int)
    requires t in w.txs
    ensures Moves(w, TokenStep(w, t, token, now))
  {
    hide Moves, Goto, Finish, SameTables;
    forall tx ensures SameTables(w, Goto(w, t, tx)) { GotoTables(w, t, tx); }
    forall outcome ensures SameTables(w, Finish(w, t, outcome)) { FinishTables(w, t, outcome); }
    StillTables(w);
    hide IsActive, SessionFree, WithCurrent;
    StillMoves(w, TokenStep(w, t, token, now));
  }

  lemma StillTables(w: World)
    ensures SameTables(w, w)
  {
  }

  lemma GotoTables(w: World, t: nat, tx: Tx)
    ensures SameTables(w, Goto(w, t, tx))
  {
  }

  lemma FinishTables(w: World, t: nat, outcome: Outcome)
    ensures SameTables(w, Finish(w, t, outcome))
  {
  }

  lemma AccountStepMoves(w: World, t: nat, user: nat)
    requires t in w.txs
    ensures Moves(w, AccountStep(w, t, user))
  {
    hide Moves, Goto, Finish, SameTables;
    forall tx ensures SameTables(w, Goto(w, t, tx)) { GotoTables(w, t, tx); }
    forall outcome ensures SameTables(w, Finish(w, t, outcome)) { FinishTables(w, t, outcome); }
    StillTables(w);
    hide SessionFree, UserFree, Unrevoked;
    StillMoves(w, AccountStep(w, t, user));
  }

  lemma RevokingMoves(w: World, after: World, t: nat)
    requires t in w.txs
    requires (w.txs[t].stage.Condemned? && w.txs[t].stage.session in w.sessions
              && after == Condemn(w, t, w.txs[t].stage.session))
          || (w.txs[t].call.Revoke? && w.txs[t].call.device in w.devices
              && after == RevokeAll(w, t, w.txs[t].call.device))
    ensures Moves(w, after)
  {
  }

  lemma SignInMoves(w: World, t: nat, user: nat, device: nat, token: nat, s: nat, expires: int)
    requires user in w.users && s !in w.sessions
    ensures Moves(w, SignIn(w, t, user, device, token, s, expires))
  {
  }

  lemma RotateMoves(w: World, t: nat, next: nat)
    requires Inv(w) && t in w.txs && w.txs[t].stage.Matched? && w.txs[t].stage.active && next !in w.issued
    ensures w.txs[t].stage.session in w.sessions && w.txs[t].call.Refresh?
    ensures Moves(w, Rotate(w, t, w.txs[t].call.token, w.txs[t].stage.session, next))
  {
    MatchedFacts(w, t);
    hide Inv;
  }

  /** In every reachable state: each token was rotated at most once, and a session's issued
      tokens are exactly those of its history and its current one. */
  lemma FamiliesAreExact(w: World, s: nat, token: nat)
    requires Reachable(w) && s in w.sessions
    ensures (token in w.issued && w.issued[token] == s) <==>
      (token in w.history && w.history[token] == s) || w.sessions[s].current == token
    ensures forall i, j :: 0 <= i < j < |w.rotations| ==> w.rotations[i].token != w.rotations[j].token
    ensures token in w.history <==> RotatedOnce(w.rotations, token)
    ensures !(token in w.history && w.sessions[s].current == token)
  {
    hide CallsOk, ReuseOk, TxsOk, Exclusive, DevicesOk;
    ReachableInv(w);
  }

  /** A refresh with a consumed token never rotates anything, and once its call completes as a
      reuse its whole family is revoked. */
  lemma ReuseRevokesFamily(w: World, t: nat)
    requires Reachable(w) && t in w.outcomes && w.outcomes[t].Reused?
    ensures t in w.calls && w.calls[t].Refresh? && w.calls[t].token in w.history
    ensures var s := w.history[w.calls[t].token]; s in w.sessions && w.sessions[s].revoked
  {
    hide TokensOk, RotationsOk, DevicesOk, TxsOk, Exclusive;
    ReachableInv(w);
  }

  /** Only that family: the commit of a reuse changes one session, and in it only its revocation. */
  lemma ReuseTouchesOneFamily(w: World, t: nat, token: nat, session: nat, expires: int, s: nat)
    requires Inv(w) && t in w.txs && w.txs[t].stage.Condemned? && w.txs[t].call.Refresh? && s in w.sessions
    ensures var after := Next(w, Commit(t, token, session, expires));
      && s in after.sessions && after.history == w.history && after.devices == w.devices
      && (after.sessions[s] == w.sessions[s] ||
           (w.txs[t].call.token in w.history && s == w.history[w.txs[t].call.token]
            && after.sessions[s] == w.sessions[s].(revoked := true)))
  {
    TxFacts(w, t);
    hide Inv, TokensOk, RotationsOk, DevicesOk, ReuseOk, Exclusive;
  }

  /** From any moment on: a consumed token is never rotated again, and in a revoked family, or a
      family of a revoked device, no refresh succeeds any more. */
  lemma {:induction false} DeadFamiliesStayDead(w: World, events: seq<Event>)
    requires Inv(w)
    ensures var after := Run(w, events);
      && Inv(after) && w.rotations <= after.rotations
      && (forall s :: s in w.sessions ==> s in after.sessions && (w.sessions[s].revoked ==> after.sessions[s].revoked))
      && (forall k :: k in w.history ==> k in after.history && after.history[k] == w.history[k])
      && forall i :: |w.rotations| <= i < |after.rotations| ==>
           after.rotations[i].token !in w.history
             && (after.rotations[i].session in w.sessions ==> !w.sessions[after.rotations[i].session].revoked)
  {
    hide Inv, Next;
    if events != [] {
      var before := events[..|events| - 1];
      DeadFamiliesStayDead(w, before);
      NextKeeps(Run(w, before), events[|events| - 1]);
      NextMoves(Run(w, before), events[|events| - 1]);
    }
  }

  /** A revoked device has no unrevoked session. */
  lemma RevokedDevicesHaveNoSession(w: World, s: nat)
    requires Reachable(w) && s in w.sessions
    ensures w.sessions[s].device in w.devices && (w.devices[w.sessions[s].device].revoked ==> w.sessions[s].revoked)
  {
    hide TokensOk, RotationsOk, CallsOk, ReuseOk, TxsOk, Exclusive;
    ReachableInv(w);
  }

  // ---- every presentation that has to end a family does ----

  /** The call is open and presents the token: a consumed one to be refreshed, or any to log out with. */
  ghost predicate Presents(w: World, t: nat, token: nat)
  {
    && t in w.txs && token in w.issued
    && (w.txs[t].call == Refresh(token) || w.txs[t].call == Logout(token))
    && (w.txs[t].call.Refresh? || w.txs[t].stage.SeekConsumed? ==> token in w.history)
    && (w.txs[t].stage.LockCurrent? ==> w.issued[token] == w.txs[t].stage.session)
  }

  /** The call has ended and its token's family is revoked: a refresh as a reuse, a logout as done. */
  ghost predicate FamilyEnded(w: World, t: nat, token: nat)
  {
    && t !in w.txs && t in w.calls && t in w.outcomes && token in w.issued && w.issued[token] in w.sessions
    && w.outcomes[t] == (if w.calls[t].Refresh? then Reused else Done)
    && w.sessions[w.issued[token]].revoked
  }

  /** The call was rolled back. */
  ghost predicate RolledBack(w: World, t: nat)
  {
    t !in w.txs && t in w.calls && t in w.outcomes && w.outcomes[t] == Refused
  }

  lemma OwnAdvance(w: World, t: nat, token: nat, now: int)
    requires Inv(w) && Presents(w, t, token)
    ensures Presents(TokenStep(w, t, token, now), t, token)
  {
    TxFacts(w, t);
    hide Inv, RotationsOk, DevicesOk, ReuseOk, Exclusive, IsActive, SessionFree;
    assert token in w.history || w.issued[token] in WithCurrent(w.sessions, token);
  }

  lemma OwnCommit(w: World, t: nat, token: nat, next: nat, session: nat, expires: int)
    requires Inv(w) && Presents(w, t, token)
    ensures var after := CommitStep(w, t, next, session, expires);
      Presents(after, t, token) || FamilyEnded(after, t, token)
  {
    TxFacts(w, t);
    hide Inv, RotationsOk, DevicesOk, ReuseOk, Exclusive, SignIn, RevokeAll, Rotate;
  }

  /** What others leave of a call. */
  ghost predicate CallStays(w: World, after: World, t: nat)
  {
    && (t in w.txs <==> t in after.txs) && (t in w.txs ==> after.txs[t] == w.txs[t])
    && (t in w.calls ==> t in after.calls && after.calls[t] == w.calls[t])
    && (t in w.outcomes ==> t in after.outcomes && after.outcomes[t] == w.outcomes[t])
    && (forall k :: k in w.issued ==> k in after.issued && after.issued[k] == w.issued[k])
  }

  lemma OtherTokenStep(w: World, o: nat, token: nat, now: int, t: nat)
    requires o != t && o in w.txs
    ensures CallStays(w, TokenStep(w, o, token, now), t)
  {
    hide CallStays, Goto, Finish, IsActive, SessionFree, WithCurrent;
    forall tx ensures CallStays(w, Goto(w, o, tx), t) { GotoStays(w, o, tx, t); }
    forall outcome ensures CallStays(w, Finish(w, o, outcome), t) { FinishStays(w, o, outcome, t); }
    CallStaysItself(w, t);
  }

  lemma OtherAccountStep(w: World, o: nat, user: nat, t: nat)
    requires o != t && o in w.txs
    ensures CallStays(w, AccountStep(w, o, user), t)
  {
    hide CallStays, Goto, Finish, SessionFree, UserFree, Unrevoked;
    forall tx ensures CallStays(w, Goto(w, o, tx), t) { GotoStays(w, o, tx, t); }
    forall outcome ensures CallStays(w, Finish(w, o, outcome), t) { FinishStays(w, o, outcome, t); }
    CallStaysItself(w, t);
  }

  lemma OtherAdvance(w: World, o: nat, now: int, t: nat)
    requires o != t
    ensures CallStays(w, AdvanceStep(w, o, now), t)
  {
    hide CallStays, TokenStep, AccountStep;
    CallStaysItself(w, t);
    if o in w.txs {
      match w.txs[o].call
      case Refresh(token) => OtherTokenStep(w, o, token, now, t);
      case Logout(token) => OtherTokenStep(w, o, token, now, t);
      case Login(user, _) => OtherAccountStep(w, o, user, t);
      case Revoke(user, _) => OtherAccountStep(w, o, user, t);
    }
  }

  lemma CallStaysItself(w: World, t: nat)
    ensures CallStays(w, w, t)
  {
  }

  lemma GotoStays(w: World, o: nat, tx: Tx, t: nat)
    requires o != t
    ensures CallStays(w, Goto(w, o, tx), t)
  {
  }

  lemma FinishStays(w: World, o: nat, outcome: Outcome, t: nat)
    requires o != t
    ensures CallStays(w, Finish(w, o, outcome), t)
  {
  }

  lemma RotateStays(w: World, o: nat, token: nat, s: nat, next: nat, t: nat)
    requires o != t && s in w.sessions && next !in w.issued
    ensures CallStays(w, Rotate(w, o, token, s, next), t)
  {
    RotateFields(w, o, token, s, next);
    hide Rotate;
  }

  lemma CondemnStays(w: World, o: nat, s: nat, t: nat)
    requires o != t && s in w.sessions && o in w.txs
    ensures CallStays(w, Condemn(w, o, s), t)
  {
    CondemnFields(w, o, s);
    hide Condemn;
  }

  lemma SignInStays(w: World, o: nat, user: nat, device: nat, token: nat, s: nat, expires: int, t: nat)
    requires o != t && user in w.users && token !in w.issued
    ensures CallStays(w, SignIn(w, o, user, device, token, s, expires), t)
  {
    if LetIn(w, user, device) {
      SignInFields(w, o, user, device, token, s, expires);
      hide SignIn, LetIn, DevicesAfter;
    } else {
      RefusedSignIn(w, o, user, device, token, s, expires);
      FinishStays(w, o, Refused, t);
    }
  }

  lemma RevokeStays(w: World, o: nat, device: nat, t: nat)
    requires o != t && device in w.devices && o in w.txs
    ensures CallStays(w, RevokeAll(w, o, device), t)
  {
    hide SessionsAfter;
  }

  lemma OtherCommit(w: World, o: nat, token: nat, session: nat, expires: int, t: nat)
    requires o != t
    ensures CallStays(w, CommitStep(w, o, token, session, expires), t)
  {
    hide CallStays, Rotate, Condemn, SignIn, RevokeAll;
    CallStaysItself(w, t);
    if o in w.txs && token !in w.issued {
      var tx := w.txs[o];
      match tx.stage
      case Matched(s, _) =>
        if tx.call.Refresh? && s in w.sessions { RotateStays(w, o, tx.call.token, s, token, t); }
      case Condemned(s) => if s in w.sessions { CondemnStays(w, o, s, t); }
      case Admitted =>
        if tx.call.Login? && tx.call.user in w.users {
          SignInStays(w, o, tx.call.user, tx.call.device, token, session, expires, t);
        }
      case LockSessions(_) =>
        if tx.call.Revoke? && tx.call.device in w.devices { RevokeStays(w, o, tx.call.device, t); }
      case _ =>
    }
  }

  /** Events of other calls, and late events of a call that has ended, leave it as it is. */
  lemma OtherEvents(w: World, event: Event, t: nat)
    requires t in w.calls && (event.t != t || t !in w.txs)
    ensures CallStays(w, Next(w, event), t)
  {
    hide AdvanceStep, CommitStep;
    if event.t == t {
      NothingOpen(w, event);
    } else {
      match event
      case Begin(_, _) =>
      case Advance(o, now) => OtherAdvance(w, o, now, t);
      case Commit(o, token, session, expires) => OtherCommit(w, o, token, session, expires, t);
      case Abort(_) =>
    }
  }

  lemma NothingOpen(w: World, event: Event)
    requires event.t in w.calls && event.t !in w.txs
    ensures Next(w, event) == w
  {
  }

  ghost predicate Settling(w: World, t: nat, token: nat)
  {
    Presents(w, t, token) || FamilyEnded(w, t, token) || RolledBack(w, t)
  }

  /** What others do to a call that is settling. */
  lemma SettlingStays(w: World, after: World, t: nat, token: nat)
    requires Settling(w, t, token) && t in w.calls && CallStays(w, after, t) && Moves(w, after)
    ensures Settling(after, t, token) && t in after.calls && (RolledBack(after, t) ==> RolledBack(w, t))
  {
  }

  lemma SettlingStep(w: World, event: Event, t: nat, token: nat)
    requires Inv(w) && Settling(w, t, token) && t in w.calls
    ensures Settling(Next(w, event), t, token) && t in Next(w, event).calls
    ensures event != Abort(t) && RolledBack(Next(w, event), t) ==> RolledBack(w, t)
  {
    if event.t != t || t !in w.txs {
      hide Inv, Next, Settling, RolledBack, Moves, CallStays;
      NextMoves(w, event);
      OtherEvents(w, event, t);
      SettlingStays(w, Next(w, event), t, token);
    } else {
      OwnStep(w, event, t, token);
    }
  }

  lemma OwnStep(w: World, event: Event, t: nat, token: nat)
    requires Inv(w) && Settling(w, t, token) && t in w.calls && t in w.txs && event.t == t
    ensures Settling(Next(w, event), t, token) && t in Next(w, event).calls
    ensures event != Abort(t) ==> !RolledBack(Next(w, event), t)
  {
    hide Inv, TokenStep, AccountStep, CommitStep;
    match event
    case Begin(_, _) =>
    case Advance(_, now) =>
      OwnAdvance(w, t, token, now);
      NextKeeps(w, event);
      OpenCall(Next(w, event), t, token);
    case Commit(_, next, session, expires) =>
      OwnCommit(w, t, token, next, session, expires);
      NextKeeps(w, event);
      if t in Next(w, event).txs { OpenCall(Next(w, event), t, token); }
    case Abort(_) =>
  }

  /** From the moment a call presents a consumed token to be refreshed, or any issued token to log out
      with, and whatever others do: it is open, or rolled back by an abort, or it has ended its family. */
  lemma {:induction false} PresentingEndsFamily(w: World, events: seq<Event>, t: nat, token: nat)
    requires Inv(w) && Presents(w, t, token)
    ensures var after := Run(w, events);
      && Inv(after) && t in after.calls && Settling(after, t, token)
      && (Abort(t) !in events ==> !RolledBack(after, t))
  {
    hide Inv, Next, Presents, FamilyEnded, RolledBack;
    if events == [] {
      OpenCall(w, t, token);
    } else {
      var n := |events| - 1;
      assert events == events[..n] + [events[n]];
      PresentingEndsFamily(w, events[..n], t, token);
      SettlingStep(Run(w, events[..n]), events[n], t, token);
      NextKeeps(Run(w, events[..n]), events[n]);
    }
  }

  lemma OpenCall(w: World, t: nat, token: nat)
    requires Inv(w) && Presents(w, t, token)
    ensures t in w.calls && !RolledBack(w, t)
  {
    TxFacts(w, t);
    hide Inv;
  }

  lemma BegunPresents(w: World, t: nat, call: Call, token: nat)
    requires Inv(w) && t !in w.calls && token in w.issued
    requires (call == Refresh(token) && token in w.history) || call == Logout(token)
    ensures Presents(Next(w, Begin(t, call)), t, token)
  {
  }

  /** In every run: a refresh begun with a token already consumed, or a logout with any token issued,
      whoever races with it, is still open, was aborted, or has ended with the family revoked. */
  lemma PresentedTokensEndTheirFamily(w: World, t: nat, call: Call, token: nat, events: seq<Event>)
    requires Reachable(w) && t !in w.calls && token in w.issued
    requires (call == Refresh(token) && token in w.history) || call == Logout(token)
    ensures var after := Run(Next(w, Begin(t, call)), events);
      || t in after.txs
      || FamilyEnded(after, t, token)
      || (Abort(t) in events && RolledBack(after, t))
  {
    hide Inv, Next, Presents, FamilyEnded, RolledBack, Reachable;
    ReachableInv(w);
    NextKeeps(w, Begin(t, call));
    BegunPresents(w, t, call, token);
    PresentingEndsFamily(Next(w, Begin(t, call)), events, t, token);
    PresentsIsOpen(Run(Next(w, Begin(t, call)), events), t, token);
  }

  lemma PresentsIsOpen(w: World, t: nat, token: nat)
    ensures Presents(w, t, token) ==> t in w.txs
  {
  }
}
