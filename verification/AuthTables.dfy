/** The account service on its tables, one whole transaction at a time: what a refresh, logout,
    login or revocation does when it runs to its end, with the row locks it takes held by it alone. */
module AuthTables {
  import opened Common
  import opened RefreshTokens

  class AuthService {
    const users: map<nat, bool>
    var devices: map<nat, Device>
    var sessions: map<nat, Session>
    var history: map<nat, nat>
    ghost var issued: map<nat, nat>

    ghost predicate Valid()
      reads this
    {
      TokensOk(sessions, history, issued) && DevicesOk(sessions, devices)
    }

    constructor (users: map<nat, bool>)
      ensures Valid() && this.users == users && sessions == map[] && history == map[] && issued == map[]
      ensures devices == map[]
    {
      this.users := users;
      devices, sessions, history, issued := map[], map[], map[], map[];
    }

    /** The account is active, the device and the session are not revoked, and the session has not expired. */
    predicate Active(s: nat, now: int)
      reads this
    {
      && s in sessions && !sessions[s].revoked && sessions[s].expires > now
      && sessions[s].device in devices && !devices[sessions[s].device].revoked
      && devices[sessions[s].device].user in users && users[devices[sessions[s].device].user]
    }

    /** A current token is replaced by `next`; a consumed one revokes its family; any other is refused. */
    method Refresh(token: nat, next: nat, now: int) returns (r: Outcome)
      requires Valid() && next !in issued
      modifies this`sessions, this`history, this`issued
      ensures Valid()
      ensures token !in old(issued) ==> r == Refused && sessions == old(sessions) && history == old(history)
      ensures token in old(history) ==>
        && r == Reused && history == old(history) && old(history)[token] in old(sessions)
        && sessions == old(sessions)[old(history)[token] := old(sessions)[old(history)[token]].(revoked := true)]
      ensures forall s :: s in old(sessions) && old(sessions)[s].current == token && old(Active(s, now)) ==>
        && r == Issued(next) && sessions == old(sessions)[s := old(sessions)[s].(current := next)]
        && history == old(history)[token := s] && issued == old(issued)[next := s]
      ensures forall s :: s in old(sessions) && old(sessions)[s].current == token && !old(Active(s, now)) ==>
        r == Refused && sessions == old(sessions) && history == old(history)
    {
      var found := WithCurrent(sessions, token);
      if found == {} {
        NotCurrent(sessions, history, issued, token);
        if token !in history { return Refused; }
        r := Reused;
        RevokeSession(history[token]);
        return;
      }
      var s := Least(found);
      OnlyCurrent(sessions, history, issued, s);
      if !Active(s, now) { return Refused; }
      RotatedTokens(sessions, history, issued, s, next);
      DevicesStay(sessions, sessions[s := sessions[s].(current := next)], devices);
      hide TokensOk, DevicesOk;
      history := history[token := s];
      sessions := sessions[s := sessions[s].(current := next)];
      issued := issued[next := s];
      return Issued(next);
    }

    method RevokeSession(s: nat)
      requires Valid() && s in sessions
      modifies this`sessions
      ensures Valid() && sessions == old(sessions)[s := old(sessions)[s].(revoked := true)]
    {
      hide TokensOk, DevicesOk;
      var after := sessions[s := sessions[s].(revoked := true)];
      RevokedTokens(sessions, after, history, issued);
      DevicesStay(sessions, after, devices);
      sessions := after;
    }

    /** Any token of a family, current or consumed, ends it; any other ends nothing. */
    method Logout(token: nat)
      requires Valid()
      modifies this`sessions
      ensures Valid()
      ensures token !in issued ==> sessions == old(sessions)
      ensures token in issued ==>
        issued[token] in old(sessions)
          && sessions == old(sessions)[issued[token] := old(sessions)[issued[token]].(revoked := true)]
    {
      var found := WithCurrent(sessions, token);
      if found != {} {
        OnlyCurrent(sessions, history, issued, Least(found));
        RevokeSession(Least(found));
      } else {
        NotCurrent(sessions, history, issued, token);
        if token in history { RevokeSession(history[token]); }
      }
    }

    /** A new session for an active account, on a new device or one of its own that is not revoked. */
    method Login(user: nat, device: nat, s: nat, token: nat, expires: int) returns (r: Outcome)
      requires Valid() && s !in sessions && token !in issued
      modifies this`devices, this`sessions, this`issued
      ensures Valid()
      ensures var allowed := user in users && users[user]
                && (device in old(devices) ==> old(devices)[device].user == user && !old(devices)[device].revoked);
        if allowed then
          && r == Issued(token) && sessions == old(sessions)[s := Session(device, token, false, expires)]
          && issued == old(issued)[token := s]
          && devices == (if device in old(devices) then old(devices) else old(devices)[device := Device(user, false)])
        else r == Refused && sessions == old(sessions) && devices == old(devices) && issued == old(issued)
    {
      if user !in users || !users[user] { return Refused; }
      if device in devices && (devices[device].user != user || devices[device].revoked) { return Refused; }
      SignedInTokens(sessions, history, issued, s, Session(device, token, false, expires));
      hide TokensOk;
      if device !in devices { devices := devices[device := Device(user, false)]; }
      sessions := sessions[s := Session(device, token, false, expires)];
      issued := issued[token := s];
      return Issued(token);
    }

    /** The sessions after the update that ends every one on a device. */
    method EndSessions(device: nat) returns (after: map<nat, Session>)
      ensures after.Keys == sessions.Keys
      ensures forall s :: s in sessions ==>
        after[s] == if sessions[s].device == device then sessions[s].(revoked := true) else sessions[s]
    {
      after := sessions;
      var left := sessions.Keys;
      while left != {}
        invariant left <= sessions.Keys == after.Keys
        invariant forall s :: s in sessions ==>
          after[s] == if s !in left && sessions[s].device == device then sessions[s].(revoked := true) else sessions[s]
        decreases |left|
      {
        var s :| s in left;
        if after[s].device == device { after := after[s := after[s].(revoked := true)]; }
        left := left - {s};
      }
    }

    /** An own device is revoked together with every session on it; sessions of other devices stay. */
    method RevokeDevice(user: nat, device: nat) returns (r: Outcome)
      requires Valid()
      modifies this`devices, this`sessions
      ensures Valid()
      ensures r.Refused? <==> !(device in old(devices) && old(devices)[device].user == user)
      ensures r.Refused? ==> devices == old(devices) && sessions == old(sessions)
      ensures !r.Refused? ==>
        && r == Done && devices == old(devices)[device := Device(user, true)]
        && sessions.Keys == old(sessions).Keys
        && forall s :: s in sessions ==>
             sessions[s] == if sessions[s].device == device then old(sessions)[s].(revoked := true)
               else old(sessions)[s]
    {
      if device !in devices || devices[device].user != user { return Refused; }
      if devices[device].revoked { return Done; }
      var after := EndSessions(device);
      RevokedTokens(sessions, after, history, issued);
      hide TokensOk;
      sessions := after;
      devices := devices[device := devices[device].(revoked := true)];
      return Done;
    }
  }

  /** A token that no session has as its current one is consumed or was never issued. */
  lemma NotCurrent(sessions: map<nat, Session>, history: map<nat, nat>, issued: map<nat, nat>, token: nat)
    requires TokensOk(sessions, history, issued) && WithCurrent(sessions, token) == {}
    ensures forall s :: s in sessions ==> sessions[s].current != token
    ensures token in history <==> token in issued
    ensures token in history ==> history[token] in sessions && issued[token] == history[token]
  {
    forall s | s in sessions ensures sessions[s].current != token {
      assert s !in WithCurrent(sessions, token);
    }
  }

  /** A current token belongs to one session and is in no history. */
  lemma OnlyCurrent(sessions: map<nat, Session>, history: map<nat, nat>, issued: map<nat, nat>, s: nat)
    requires TokensOk(sessions, history, issued) && s in sessions
    ensures sessions[s].current !in history && sessions[s].current in issued && issued[sessions[s].current] == s
    ensures forall o :: o in sessions && sessions[o].current == sessions[s].current ==> o == s
  {
  }
}
